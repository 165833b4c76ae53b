/** Concrete runs: a connection comes up, and the two ways in which the cid index loses an
    active connection. */
module ProtocolWitness {
  import opened Options
  import opened ReasonCodes
  import opened ConnectionMachine
  import opened AttemptInvariant
  import opened AttemptSteps
  import opened Handler
  import opened Protocol
  import opened ProtocolRelease

  lemma ReachStep(s: System, a: Action)
    requires Reachable(s)
    ensures Reachable(Step(s, a))
  {
    var run :| Exec(Boot(), run) == s;
    assert (run + [a])[..|run|] == run;
    assert Exec(Boot(), run + [a]) == Step(s, a);
  }

  lemma RunNext(s: System, i: nat)
    requires Reachable(s) && i < |s.pool| && HasNext(s.pool[i])
    ensures Reachable(Apply(s, i, DispatchNext(s.pool[i])))
  {
    ReachStep(s, Dispatch(i));
  }

  lemma {:induction false} NobodyIdle(s: System, i: nat)
    requires i <= |s.pool| && forall j | 0 <= j < |s.pool| :: !s.pool[j].phase.Inactive?
    ensures FirstIdle(s, i) == |s.pool|
    decreases |s.pool| - i
  {
    if i < |s.pool| {
      NobodyIdle(s, i + 1);
    }
  }

  /** A machine on its first attempt, waiting for the modem's first answer. */
  function FirstAttempt(h: ApnId): Machine {
    NEW_MACHINE.(phase := Activating, connectId := 1, apnId := h, immediate := [], grants := 1,
                 connectChecks := multiset{1}, accepted := [Attempt(h, 1)])
  }

  function Requested(s: System, h: ApnId): System
    requires h in s.holders
  {
    s.(holders := s.holders[h := Holder(true, Connecting, Some(|s.pool|))],
       pool := s.pool + [Grant(NEW_MACHINE, h)])
  }

  lemma Request(s: System, h: ApnId)
    requires Reachable(s) && h in s.holders && s.holders[h].state.Idle? && s.holders[h].machine.None?
    requires h != DEFAULT_ID && forall i | 0 <= i < |s.pool| :: !s.pool[i].phase.Inactive?
    ensures Reachable(Requested(s, h))
  {
    var on := NetworkRequested(s, h, true);
    ActionRuns(s, RequestNetwork(h, true));
    ReachStep(s, RequestNetwork(h, true));
    var a := Establish(h, ADMITTED, true, NoBearer, true);
    ActionRuns(on, a);
    ReachStep(on, a);
    RequestGranted(s, h);
  }

  lemma RequestGranted(s: System, h: ApnId)
    requires h in s.holders && s.holders[h].state.Idle? && s.holders[h].machine.None?
    requires h != DEFAULT_ID && forall i | 0 <= i < |s.pool| :: !s.pool[i].phase.Inactive?
    ensures MsgEstablish(NetworkRequested(s, h, true), h, ADMITTED, true, NoBearer, true) == Requested(s, h)
  {
    var on := NetworkRequested(s, h, true);
    var r := on.(requests := on.requests - multiset{h});
    assert r.requests == s.requests;
    AttemptHandsOut(r, h);
    var c := Cleared(r, h);
    assert c.holders == r.holders;
    NobodyIdle(c, 0);
    assert Allocate(c, h).holders == Requested(s, h).holders;
  }

  lemma FirstTwo(h: ApnId)
    ensures var g := Grant(NEW_MACHINE, h);
            && HasNext(g)
            && DispatchNext(g) == Stay(g.(phase := Inactive, connectId := 1, immediate := []))
            && HasNext(DispatchNext(g).m)
            && DispatchNext(DispatchNext(g).m) == Stay(FirstAttempt(h))
  {
    var g := Grant(NEW_MACHINE, h);
    assert g.ordinary == [Connect(h, 1)] && g.immediate == [Init];
    assert g.immediate[1..] == [] && g.ordinary[1..] == [];
    var p := Popped(g);
    assert EnterInactive(p).m.immediate == [];
    assert DispatchNext(g).m == g.(phase := Inactive, connectId := 1, immediate := []);
  }

  /** A further machine is started and brought to the point where it awaits the modem. */
  lemma BringUp(s: System, h: ApnId) returns (s': System)
    requires Reachable(s) && h in s.holders && s.holders[h].state.Idle? && s.holders[h].machine.None?
    requires h != DEFAULT_ID && forall i | 0 <= i < |s.pool| :: !s.pool[i].phase.Inactive?
    ensures Reachable(s')
    ensures s' == s.(holders := s.holders[h := Holder(true, Connecting, Some(|s.pool|))],
                     pool := s.pool + [FirstAttempt(h)])
  {
    var n := |s.pool|;
    var r := Requested(s, h);
    Request(s, h);
    FirstTwo(h);
    var g := Grant(NEW_MACHINE, h);
    RunNext(r, n);
    var t := Apply(r, n, DispatchNext(g));
    assert t == r.(pool := s.pool + [DispatchNext(g).m]);
    RunNext(t, n);
    s' := Apply(t, n, DispatchNext(t.pool[n]));
    assert s' == r.(pool := s.pool + [FirstAttempt(h)]);
  }

  /** The modem's answer to a first attempt is delivered. */
  lemma Deliver(s: System, i: nat, h: ApnId, call: CallInfo)
    requires Reachable(s) && i < |s.pool| && s.pool[i] == FirstAttempt(h)
    ensures Reachable(Apply(s, i, Process(FirstAttempt(h), SetupDone(1, call))))
  {
    var e := SetupDone(1, call);
    ReachStep(s, ModemAnswer(i, e));
    var t := Apply(s, i, Stay(Post(FirstAttempt(h), e)));
    RunNext(t, i);
    assert Popped(t.pool[i]) == FirstAttempt(h);
    var r := Process(FirstAttempt(h), e);
    assert Apply(t, i, r) == Apply(s, i, r);
  }

  const UP := CallInfo(5, true, NoError, 0, SetupData)
  const DOWN := CallInfo(5, false, NoError, 0, SetupData)

  lemma Roles()
    ensures MMS_ID in Boot().holders && XCAP_ID in Boot().holders
    ensures Boot().holders[MMS_ID] == Holder(false, Idle, None) == Boot().holders[XCAP_ID]
  {
    assert HOLDER_ORDER[1] == MMS_ID && HOLDER_ORDER[3] == XCAP_ID;
  }

  function UpMachine(h: ApnId): Machine {
    FirstAttempt(h).(phase := Active, cid := 5, connectChecks := multiset{}, answered := 1)
  }

  lemma Accepted(h: ApnId)
    ensures var r := Process(FirstAttempt(h), SetupDone(1, UP));
            && r == Outcome(UpMachine(h).(connectChecks := multiset{1}, immediate := [SetupDone(1, UP)]), [], true)
            && HasNext(r.m) && DispatchNext(r.m) == Outcome(UpMachine(h), [Established(h)], false)
  {
    var r := Process(FirstAttempt(h), SetupDone(1, UP));
    assert r.m.immediate == [SetupDone(1, UP)];
    assert Popped(r.m).immediate == [];
  }

  /** The handler learns that the connection is up. */
  lemma Learn(s: System, i: nat, h: ApnId)
    requires Reachable(s) && s.inbox == [Established(h)] && h in s.holders
    requires 0 <= h <= MAX_ROLE_ID && h != DEFAULT_ID && s.holders[h].machine.Some?
    ensures Reachable(s.(holders := s.holders[h := s.holders[h].(state := Connected)], inbox := []))
  {
    ActionRuns(s, NextReport(map[]));
    ReachStep(s, NextReport(map[]));
    assert s.inbox[1..] == [];
  }

  function Up(s: System, i: nat, h: ApnId): System
    requires i < |s.pool| && h in s.holders
  {
    s.(holders := s.holders[h := s.holders[h].(state := Connected)],
       pool := s.pool[i := UpMachine(h)], cidIndex := s.cidIndex[5 := i])
  }

  lemma Answer(s: System, i: nat, h: ApnId)
    requires Reachable(s) && i < |s.pool| && s.pool[i] == FirstAttempt(h) && s.inbox == []
    requires h in s.holders && 0 <= h <= MAX_ROLE_ID && h != DEFAULT_ID && s.holders[h].machine.Some?
    ensures Reachable(Up(s, i, h))
  {
    Deliver(s, i, h, UP);
    Accepted(h);
    var r := Process(FirstAttempt(h), SetupDone(1, UP));
    var u := Apply(s, i, r);
    RunNext(u, i);
    var v := Apply(u, i, DispatchNext(r.m));
    assert v == s.(pool := s.pool[i := UpMachine(h)], cidIndex := s.cidIndex[5 := i], inbox := [Established(h)]);
    Learn(v, i, h);
    assert Up(s, i, h) == v.(holders := s.holders[h := s.holders[h].(state := Connected)], inbox := []);
  }

  /** A connection can come up: some run makes a holder connected over an indexed machine. */
  lemma ConnectionComesUp() returns (s: System)
    ensures Reachable(s) && s == World(Holder(true, Connected, Some(0)), UpMachine(MMS_ID), [], multiset{}, multiset{}, map[5 := 0])
  {
    Roles();
    assert Exec(Boot(), []) == Boot();
    var t := BringUp(Boot(), MMS_ID);
    Answer(t, 0, MMS_ID);
    s := Up(t, 0, MMS_ID);
    assert s.holders == Boot().holders[MMS_ID := Holder(true, Connected, Some(0))];
    assert s.pool == [UpMachine(MMS_ID)];
  }

  /** Only the MMS holder and one machine have been used. */
  function World(x: Holder, m: Machine, inbox: seq<Report>, retries: multiset<ApnId>, requests: multiset<ApnId>,
                 index: map<int, nat>): System
  {
    System(Boot().holders[MMS_ID := x], [m], inbox, retries, requests, index)
  }

  lemma Refused(h: ApnId)
    requires h != ERROR_APN_ID
    ensures var r := Process(FirstAttempt(h), SetupDone(1, DOWN));
            r.m.phase.Inactive? && r.m.cid == 5 && r.out == [Disconnected(h, DOWN, 1)] && !r.register
  {
  }

  /** A refused attempt that named cid 5 is given back, and the entry for 5 goes with it. */
  lemma Refuse(s: System, i: nat, h: ApnId) returns (s': System)
    requires Reachable(s) && i < |s.pool| && s.pool[i] == FirstAttempt(h) && s.inbox == []
    requires h in s.holders && s.holders[h].machine == Some(i) && s.holders[h].enabled && h != ERROR_APN_ID
    ensures Reachable(s') && s'.cidIndex == s.cidIndex - {5} && |s'.pool| == |s.pool|
    ensures forall j | 0 <= j < |s.pool| && j != i :: s'.pool[j] == s.pool[j]
    ensures forall g | g in s.holders && g != h :: g in s'.holders && s'.holders[g] == s.holders[g]
  {
    Deliver(s, i, h, DOWN);
    Refused(h);
    var u := Apply(s, i, Process(FirstAttempt(h), SetupDone(1, DOWN)));
    s' := RefusalReported(u, h, DOWN);
  }

  /** A completion to be retried is taken from the inbox. */
  lemma RefusalReported(s: System, h: ApnId, info: CallInfo) returns (s': System)
    requires Reachable(s) && s.inbox == [Disconnected(h, info, 1)] && HasMachine(s, h) && s.holders[h].enabled
    requires ToDisconnectReason(info.reason) == ReasonRetry
    ensures Reachable(s') && s'.cidIndex == s.cidIndex - {s.pool[s.holders[h].machine.value].cid} && s'.pool == s.pool
    ensures forall g | g in s.holders && g != h :: g in s'.holders && s'.holders[g] == s.holders[g]
  {
    ActionRuns(s, NextReport(map[]));
    ReachStep(s, NextReport(map[]));
    s' := HandleReport(s, map[]);
    var t := TakeBack(s);
    assert s' == RetryOrClear(t, h, ReasonRetry, map[]);
  }

  /** An active connection can drop out of the index: another machine's refused attempt
      reported the same cid. */
  lemma ActiveConnectionUnindexed() returns (s: System)
    ensures Reachable(s) && MMS_ID in s.holders
    ensures s.holders[MMS_ID] == Holder(true, Connected, Some(0))
    ensures |s.pool| > 0 && s.pool[0].phase.Active? && s.pool[0].cid !in s.cidIndex
  {
    Roles();
    var up := ConnectionComesUp();
    var t := BringUp(up, XCAP_ID);
    s := Refuse(t, 1, XCAP_ID);
  }

  /** Or its entry is overwritten: another machine's set-up answer named the same cid. Nothing
      was ever given back. */
  lemma ActiveConnectionOverwritten() returns (s: System)
    ensures Reachable(s) && MMS_ID in s.holders && s.holders[MMS_ID] == Holder(true, Connected, Some(0))
    ensures |s.pool| == 2 && s.pool[0].phase.Active? && s.pool[0].cid == 5 && s.cidIndex == map[5 := 1]
    ensures s.pool[0].completed == [] && s.pool[1].completed == []
  {
    Roles();
    var up := ConnectionComesUp();
    var t := BringUp(up, XCAP_ID);
    Answer(t, 1, XCAP_ID);
    s := Up(t, 1, XCAP_ID);
  }

  /** An attempt can be stranded: its connect time-out fires while the clock says that it is
      too early, and nothing else is pending. */
  lemma AttemptStranded() returns (s: System)
    ensures Reachable(s) && StrandedHolder(s, MMS_ID)
    ensures !exists t :: Reaches(s, t, true) && GivenBack(t, MMS_ID)
  {
    Roles();
    assert Exec(Boot(), []) == Boot();
    var t := BringUp(Boot(), MMS_ID);
    s := FireTooEarly(t, 0, MMS_ID);
    SilentReleaseExact(s, MMS_ID);
  }

  lemma FireTooEarly(t: System, i: nat, h: ApnId) returns (s: System)
    requires Reachable(t) && i < |t.pool| && t.pool[i] == FirstAttempt(h)
    requires h in t.holders && t.holders[h].machine == Some(i)
    ensures Reachable(s) && StrandedHolder(s, h) && h in s.holders
  {
    ReachStep(t, ConnectTimer(i, 1, false));
    var m := FirstAttempt(h).(connectChecks := multiset{});
    assert multiset{1} - multiset{1} == multiset{};
    assert FireConnectCheck(t.pool[i], 1, false) == Stay(m);
    s := Apply(t, i, Stay(m));
  }
}
