/** What can still be done from every reachable state: each holder that has a machine can
    give it back, with a silent modem exactly if its attempt is not stranded, and
    each idle holder can be brought to the point where its machine awaits the modem. */
module ProtocolRelease {
  import opened Options
  import opened ReasonCodes
  import opened ConnectionMachine
  import opened AttemptInvariant
  import opened AttemptSteps
  import opened Handler
  import opened ProtocolInvariant
  import opened Protocol
  import opened ProtocolFrames
  import opened ProtocolTimers

  predicate GivenBack(s: System, h: ApnId) {
    h in s.holders && s.holders[h].machine.None?
  }

  /** Nothing arrives from the modem or its host. */
  predicate Silent(a: Action) {
    !a.ModemAnswer? && !a.HostDeath? && !a.CallListChanged?
  }

  ghost predicate Allowed(run: seq<Action>, silent: bool) {
    silent ==> forall k | 0 <= k < |run| :: Silent(run[k])
  }

  /** Some run leads from s to t, without the modem if it is silent. */
  ghost predicate Reaches(s: System, t: System, silent: bool) {
    exists run :: Allowed(run, silent) && Exec(s, run) == t
  }

  lemma {:induction false} ExecConcat(s: System, p: seq<Action>, q: seq<Action>)
    ensures Exec(s, p + q) == Exec(Exec(s, p), q)
    decreases |q|
  {
    if q == [] {
      assert p + q == p;
    } else {
      var front := q[..|q| - 1];
      assert (p + q)[..|p + q| - 1] == p + front;
      ExecConcat(s, p, front);
    }
  }

  lemma ReachesTrans(s: System, t: System, u: System, silent: bool)
    requires Reaches(s, t, silent) && Reaches(t, u, silent)
    ensures Reaches(s, u, silent)
  {
    var p :| Allowed(p, silent) && Exec(s, p) == t;
    var q :| Allowed(q, silent) && Exec(t, q) == u;
    ExecConcat(s, p, q);
    assert Allowed(p + q, silent);
  }

  lemma ReachesStep(s: System, a: Action, silent: bool)
    requires silent ==> Silent(a)
    ensures Reaches(s, Step(s, a), silent)
  {
    assert [a][..0] == [];
    assert Exec(s, [a]) == Step(Exec(s, []), a);
    assert Allowed([a], silent);
  }

  lemma ReachesSelf(s: System, silent: bool)
    ensures Reaches(s, s, silent)
  {
    assert Exec(s, []) == s && Allowed([], silent);
  }

  // ---- Reports are worked off ----

  ghost predicate AdmitsNothing(envs: map<ApnId, Admission>) {
    forall h | h in envs :: !envs[h].admitted
  }

  /** When nothing is admitted, trying to connect everybody hands out nothing. */
  lemma {:induction false} RefusedSameHands(s: System, hs: seq<ApnId>, envs: map<ApnId, Admission>)
    requires AdmitsNothing(envs)
    ensures SameHands(s, EstablishEach(s, hs, envs))
    decreases |hs|
  {
    if hs != [] {
      var h := hs[0];
      ClearClears(s, h, ReasonClear);
      var t := if h in s.holders && s.holders[h].enabled && (s.holders[h].state.Failed? || s.holders[h].state.Retrying?)
               then ReleaseDataConnection(s, h) else s;
      assert AttemptEstablish(t, h, EnvOf(envs, h)) == t;
      RefusedSameHands(t, hs[1..], envs);
    }
  }

  lemma RetrySameHands(s: System, h: ApnId, reason: DisconnectReason, envs: map<ApnId, Admission>)
    requires h in s.holders && AdmitsNothing(envs)
    ensures SameHands(s, RetryOrClear(s, h, reason, envs))
  {
    ClearClears(s, h, reason);
    ClearClears(s, h, ReasonClear);
    RefusedSameHands(ClearConnection(s, h, reason), SORTED_ORDER, envs);
  }

  lemma CompletionHands(s: System, envs: map<ApnId, Admission>)
    requires AdmitsNothing(envs) && s.inbox != [] && s.inbox[0].Disconnected? && HasMachine(s, s.inbox[0].flag)
    ensures SameHands(TakeBack(s), DisconnectComplete(s, envs))
    ensures DisconnectComplete(s, envs).inbox == s.inbox[1..]
  {
    RetrySameHands(TakeBack(s), s.inbox[0].flag, ToDisconnectReason(s.inbox[0].info.reason), envs);
    CompletionGentle(s, envs);
  }

  /** One report, whatever is admitted meanwhile: the inbox shrinks by one, nobody but the
      holder of a completion loses a machine, and that one loses the machine it had. */
  lemma OneReport(s: System, g: ApnId, envs: map<ApnId, Admission>)
    requires Inv(s) && s.inbox != [] && g in s.holders && s.holders[g].machine.Some?
    ensures var s' := HandleReport(s, envs);
            && s'.inbox == s.inbox[1..] && g in s'.holders
            && (!(s.inbox[0].Disconnected? && s.inbox[0].flag == g) ==> s'.holders[g].machine == s.holders[g].machine)
            && (s.inbox[0].Disconnected? && s.inbox[0].flag == g ==>
                  && Free(s.pool[s.holders[g].machine.value])
                  && TakeBack(s).holders[g].machine.None? && Gentle(TakeBack(s), s'))
  {
    ReporterIsHeld(s);
    if s.inbox[0].Disconnected? {
      TakeBackFacts(s);
      AllBare(s, g);
      CompletionGentle(s, envs);
    }
  }

  lemma RefusedReport(s: System, g: ApnId, envs: map<ApnId, Admission>)
    requires AdmitsNothing(envs) && Inv(s) && s.inbox != [] && g in s.holders
    ensures var s' := HandleReport(s, envs);
            && s'.inbox == s.inbox[1..] && g in s'.holders
            && s'.holders[g].machine ==
               if s.inbox[0].Disconnected? && s.inbox[0].flag == g then None else s.holders[g].machine
  {
    ReporterIsHeld(s);
    if s.inbox[0].Disconnected? {
      TakeBackFacts(s);
      CompletionHands(s, envs);
    }
  }

  ghost predicate Awaits(s: System, h: ApnId, k: nat) {
    k < |s.inbox| && s.inbox[k].Disconnected? && s.inbox[k].flag == h
  }

  lemma ReportStep(s: System, h: ApnId, k: nat, envs: map<ApnId, Admission>) returns (t: System)
    requires AdmitsNothing(envs) && Inv(s) && h in s.holders && Awaits(s, h, k)
    ensures Inv(t) && Reaches(s, t, true) && h in t.holders
    ensures GivenBack(t, h) || (k > 0 && Awaits(t, h, k - 1))
  {
    var a := NextReport(envs);
    ActionRuns(s, a);
    t := HandleReport(s, envs);
    RefusedReport(s, h, envs);
    ReportKeeps(s, envs);
    ReachesStep(s, a, true);
  }

  /** A completion that is in the inbox is reached. */
  lemma {:induction false} WorkOff(s: System, h: ApnId, k: nat, envs: map<ApnId, Admission>) returns (t: System)
    requires AdmitsNothing(envs) && Inv(s) && h in s.holders && Awaits(s, h, k)
    ensures Reaches(s, t, true) && GivenBack(t, h)
    decreases k
  {
    t := ReportStep(s, h, k, envs);
    if !GivenBack(t, h) {
      var u := WorkOff(t, h, k - 1, envs);
      ReachesTrans(s, t, u, true);
      t := u;
    }
  }

  lemma {:induction false} FromFor(q: seq<Report>, h: ApnId, j: nat) returns (k: nat)
    requires j < |For(q, h)|
    ensures k < |q| && q[k] == For(q, h)[j] && q[k].flag == h
  {
    if q[0].flag == h {
      if j == 0 {
        k := 0;
      } else {
        k := FromFor(q[1..], h, j - 1);
        k := k + 1;
      }
    } else {
      k := FromFor(q[1..], h, j);
      k := k + 1;
    }
  }

  lemma SettledReleases(s: System, h: ApnId) returns (t: System)
    requires Inv(s) && h in s.holders && For(s.inbox, h) != [] && For(s.inbox, h)[|For(s.inbox, h)| - 1].Disconnected?
    ensures Reaches(s, t, true) && GivenBack(t, h)
  {
    var k := FromFor(s.inbox, h, |For(s.inbox, h)| - 1);
    t := WorkOff(s, h, k, map[]);
  }

  // ---- Attempts come to an end ----

  /** How far a granted attempt still has to go. */
  function Rank(m: Machine): nat {
    match m.phase
    case Unstarted => 5
    case Inactive => if m.grants == |m.accepted| then 0 else 4
    case Activating => 3
    case Active => 2
    case Disconnecting => 1
  }

  function Waits(m: Machine): nat {
    |m.immediate| + |m.ordinary|
  }

  ghost predicate Nearer(m: Machine, m': Machine) {
    Rank(m') < Rank(m) || (Rank(m') == Rank(m) && Waits(m') < Waits(m))
  }

  lemma PopShortens(m: Machine)
    requires HasNext(m)
    ensures Waits(Popped(m)) == Waits(m) - 1 && Rank(Popped(m)) == Rank(m)
  {
  }

  lemma EventBringsNearer(m: Machine, e: Event)
    requires m.phase.Unstarted? || m.phase.Inactive? || m.grants == |m.accepted|
    requires m.phase.Unstarted? ==> e.Init?
    requires m.phase.Inactive? ==> m.grants == |m.accepted| + 1
    ensures var m' := Process(m, e).m;
            Rank(m') < Rank(m) || (m'.phase == m.phase && Rank(m') == Rank(m) && Waits(m') == Waits(m))
  {
  }

  /** Every dispatch of a held machine's next event brings its attempt nearer to the end. */
  lemma DispatchBringsNearer(m: Machine, h: ApnId, st: ApnState, box: seq<Report>)
    requires Held(m, h, st, box) && HasNext(m) && !Settled(m)
    ensures Nearer(m, DispatchNext(m).m)
  {
    PopShortens(m);
    EventBringsNearer(Popped(m), NextEvent(m));
  }

  // ---- Stranded attempts ----

  /** An event that makes an activating machine leave that state. */
  predicate Decides(m: Machine, e: Event) {
    || ((e.SetupDone? || e.SetupError?) && e.flag == m.connectId)
    || (e.ConnectCheck? && e.id == m.connectId && e.clockElapsed)
  }

  ghost predicate Decided(m: Machine, q: seq<Event>) {
    exists k :: 0 <= k < |q| && Decides(m, q[k])
  }

  /** Waiting for the modem with no time-out pending and no answer queued. */
  ghost predicate Stranded(m: Machine) {
    && m.phase.Activating? && m.connectId !in m.connectChecks
    && !Decided(m, m.immediate) && !Decided(m, m.ordinary)
  }

  lemma DecidedTail(m: Machine, q: seq<Event>)
    requires Decided(m, q) && !Decides(m, q[0])
    ensures Decided(m, q[1..])
  {
    var k :| 0 <= k < |q| && Decides(m, q[k]);
    assert q[1..][k - 1] == q[k];
  }

  lemma TailDecided(m: Machine, q: seq<Event>)
    requires q != [] && Decided(m, q[1..])
    ensures Decided(m, q)
  {
    var k :| 0 <= k < |q[1..]| && Decides(m, q[1..][k]);
    assert q[k + 1] == q[1..][k];
  }

  /** An undecided event leaves an activating machine as it is, but for a deferral. */
  lemma UndecidedStays(m: Machine, e: Event)
    requires m.phase.Activating? && !Decides(m, e)
    ensures var n := Process(m, e).m;
            && n.phase.Activating? && n.connectId == m.connectId && n.connectChecks == m.connectChecks
            && n.immediate == m.immediate && n.ordinary == m.ordinary
  {
  }

  lemma DecidedLeaves(m: Machine, e: Event)
    requires m.phase.Activating? ==> Decides(m, e)
    ensures Process(m, e).m.phase.Activating? ==> Process(m, e).m.connectId in Process(m, e).m.connectChecks
  {
  }

  lemma SameQueuesSame(m: Machine, n: Machine)
    requires n.connectId == m.connectId
    ensures Decided(n, m.immediate) <==> Decided(m, m.immediate)
    ensures Decided(n, m.ordinary) <==> Decided(m, m.ordinary)
  {
    assert forall e :: Decides(n, e) <==> Decides(m, e);
  }

  /** Dispatching neither strands a machine nor frees a stranded one. */
  lemma DispatchStrands(m: Machine)
    requires HasNext(m)
    ensures Stranded(DispatchNext(m).m) <==> Stranded(m)
  {
    var e, p := NextEvent(m), Popped(m);
    var n := DispatchNext(m).m;
    if m.phase.Activating? && !Decides(m, e) {
      UndecidedStays(p, e);
      SameQueuesSame(p, n);
      PoppedDecided(m);
    } else {
      DecidedLeaves(p, e);
    }
  }

  lemma PoppedDecided(m: Machine)
    requires HasNext(m) && !Decides(m, NextEvent(m))
    ensures var p := Popped(m);
            (Decided(p, p.immediate) || Decided(p, p.ordinary)) <==> (Decided(m, m.immediate) || Decided(m, m.ordinary))
  {
    var p := Popped(m);
    assert forall e :: Decides(p, e) <==> Decides(m, e);
    if m.immediate != [] {
      if Decided(m, m.immediate) {
        DecidedTail(m, m.immediate);
      }
      if Decided(m, m.immediate[1..]) {
        TailDecided(m, m.immediate);
      }
    } else {
      if Decided(m, m.ordinary) {
        DecidedTail(m, m.ordinary);
      }
      if Decided(m, m.ordinary[1..]) {
        TailDecided(m, m.ordinary);
      }
    }
  }

  /** Holder h holds machine i, whose disconnect timer is in order and which, if the modem is
      silent, is not stranded. */
  ghost predicate Holds(s: System, h: ApnId, i: nat, silent: bool) {
    && Inv(s) && h in s.holders && s.holders[h].machine == Some(i) && i < |s.pool|
    && TimersOk(false, s.pool[i]) && (silent ==> !Stranded(s.pool[i]))
  }

  lemma DispatchStep(s: System, h: ApnId, i: nat, silent: bool) returns (t: System)
    requires Holds(s, h, i, silent) && HasNext(s.pool[i]) && !Settled(s.pool[i])
    ensures Reaches(s, t, silent) && Holds(t, h, i, silent) && Nearer(s.pool[i], t.pool[i])
    ensures t.pool[i] == DispatchNext(s.pool[i]).m
  {
    assert HolderOk(s, h);
    var r := DispatchNext(s.pool[i]);
    t := Apply(s, i, r);
    DispatchKeeps(s, i);
    ReachesStep(s, Dispatch(i), silent);
    DispatchBringsNearer(s.pool[i], h, s.holders[h].state, For(s.inbox, h));
    ProcessTimers(false, Popped(s.pool[i]), NextEvent(s.pool[i]));
    DispatchStrands(s.pool[i]);
    ApplyHolds(s, h, i, r, silent);
  }

  // ---- Nothing is queued ----

  lemma BusyIdle(s: System, h: ApnId, i: nat, silent: bool)
    requires Holds(s, h, i, silent) && !HasNext(s.pool[i]) && !Settled(s.pool[i])
    ensures Busy(s.pool[i], h)
    ensures s.pool[i].phase.Active? ==> s.holders[h].state.Connecting? || s.holders[h].state.Connected?
  {
    assert HolderOk(s, h);
  }

  lemma ApplyHolds(s: System, h: ApnId, i: nat, r: Outcome, silent: bool)
    requires Holds(s, h, i, silent) && Inv(Apply(s, i, r)) && TimersOk(false, r.m) && (silent ==> !Stranded(r.m))
    ensures Holds(Apply(s, i, r), h, i, silent) && Apply(s, i, r).pool[i] == r.m
  {
  }

  lemma TimeOutEnds(m: Machine)
    requires !HasNext(m) && m.grants == |m.accepted|
    ensures m.phase.Activating? && m.connectId in m.connectChecks ==>
              var n := FireConnectCheck(m, m.connectId, true).m; Nearer(m, n) && n.phase.Inactive?
    ensures m.phase.Disconnecting? && m.connectId in m.disconnectChecks ==>
              var n := FireDisconnectCheck(m, m.connectId).m; Nearer(m, n) && n.phase.Inactive?
  {
  }

  /** The connect timer ends an activating attempt. */
  lemma ConnectTimerStep(s: System, h: ApnId, i: nat, silent: bool) returns (t: System)
    requires Holds(s, h, i, silent) && !HasNext(s.pool[i]) && Busy(s.pool[i], h)
    requires s.pool[i].phase.Activating? && s.pool[i].connectId in s.pool[i].connectChecks
    ensures Reaches(s, t, silent) && Holds(t, h, i, silent) && Nearer(s.pool[i], t.pool[i])
  {
    var m := s.pool[i];
    var r := FireConnectCheck(m, m.connectId, true);
    ConnectTimerKeeps(s, i, m.connectId, true);
    FireConnectTimers(false, m, m.connectId, true);
    TimeOutEnds(m);
    t := Apply(s, i, r);
    ApplyHolds(s, h, i, r, silent);
    ReachesStep(s, ConnectTimer(i, m.connectId, true), silent);
  }

  /** The disconnect timer ends a disconnecting one. */
  lemma DisconnectTimerStep(s: System, h: ApnId, i: nat, silent: bool) returns (t: System)
    requires Holds(s, h, i, silent) && !HasNext(s.pool[i]) && Busy(s.pool[i], h) && s.pool[i].phase.Disconnecting?
    ensures Reaches(s, t, silent) && Holds(t, h, i, silent) && Nearer(s.pool[i], t.pool[i])
  {
    var m := s.pool[i];
    var r := FireDisconnectCheck(m, m.connectId);
    DisconnectTimerKeeps(s, i, m.connectId);
    FireDisconnectTimers(false, m, m.connectId);
    TimeOutEnds(m);
    t := Apply(s, i, r);
    ApplyHolds(s, h, i, r, silent);
    ReachesStep(s, DisconnectTimer(i, m.connectId), silent);
  }

  /** An event that a running machine with empty queues is sent next. */
  lemma NextIs(m: Machine, e: Event)
    requires Running(m) && !HasNext(m) && m.grants == |m.accepted|
    ensures var p := Post(m, e);
            && HasNext(p) && NextEvent(p) == e && Popped(p) == m && !Settled(p)
            && (m.phase.Activating? && e == SetupError(m.connectId) ==> Nearer(m, DispatchNext(p).m))
            && (m.phase.Active? && e.Disconnect? ==> Nearer(m, DispatchNext(p).m))
  {
    var p := Post(m, e);
    assert p.ordinary == [e] && p.ordinary[1..] == [];
  }

  lemma ErrorArrives(s: System, h: ApnId, i: nat) returns (t: System)
    requires Holds(s, h, i, false)
    ensures Reaches(s, t, false) && Holds(t, h, i, false)
    ensures t.pool[i] == Post(s.pool[i], SetupError(s.pool[i].connectId))
  {
    var m := s.pool[i];
    var e := SetupError(m.connectId);
    AnswerKeeps(s, i, e);
    t := Apply(s, i, Stay(Post(m, e)));
    ApplyHolds(s, h, i, Stay(Post(m, e)), false);
    ReachesStep(s, ModemAnswer(i, e), false);
  }

  /** An activating attempt whose timer is gone is ended by the modem. */
  lemma AnswerStep(s: System, h: ApnId, i: nat) returns (t: System)
    requires Holds(s, h, i, false) && !HasNext(s.pool[i]) && Busy(s.pool[i], h) && s.pool[i].phase.Activating?
    ensures Reaches(s, t, false) && Holds(t, h, i, false) && Nearer(s.pool[i], t.pool[i])
  {
    var u := ErrorArrives(s, h, i);
    NextIs(s.pool[i], SetupError(s.pool[i].connectId));
    t := DispatchStep(u, h, i, false);
    ReachesTrans(s, u, t, false);
  }

  lemma ClearSends(s: System, h: ApnId, i: nat, reason: DisconnectReason)
    requires h in s.holders && s.holders[h].machine == Some(i) && i < |s.pool|
    requires s.holders[h].state.Connecting? || s.holders[h].state.Connected?
    ensures var t := ClearConnection(s, h, reason);
            && t.pool == s.pool[i := Post(s.pool[i], Disconnect(h, reason, s.pool[i].grants))]
            && t.holders == s.holders[h := s.holders[h].(state := Releasing)]
  {
  }

  /** A release request that is not admitted again clears the holder. */
  lemma ClearStep(s: System, h: ApnId, i: nat, silent: bool) returns (t: System)
    requires Holds(s, h, i, silent) && !HasNext(s.pool[i]) && Busy(s.pool[i], h) && s.pool[i].phase.Active?
    requires s.holders[h].state.Connecting? || s.holders[h].state.Connected?
    ensures Reaches(s, t, silent) && Holds(t, h, i, silent)
    ensures t.pool[i] == Post(s.pool[i], Disconnect(h, ReasonClear, s.pool[i].grants))
  {
    var a := Establish(h, REFUSED, false, NoBearer, true);
    ActionRuns(s, a);
    var r := s.(requests := s.requests - multiset{h});
    t := ClearConnection(r, h, ReasonClear);
    assert ReleaseReason(h, false, NoBearer, true) == ReasonClear;
    assert MsgEstablish(s, h, REFUSED, false, NoBearer, true) == t;
    RequestsKeep(s, r.requests);
    ClearKeeps(r, h, ReasonClear);
    ClearSends(r, h, i, ReasonClear);
    ReachesStep(s, a, silent);
  }

  lemma ReleaseStep(s: System, h: ApnId, i: nat, silent: bool) returns (t: System)
    requires Holds(s, h, i, silent) && !HasNext(s.pool[i]) && Busy(s.pool[i], h) && s.pool[i].phase.Active?
    requires s.holders[h].state.Connecting? || s.holders[h].state.Connected?
    ensures Reaches(s, t, silent) && Holds(t, h, i, silent) && Nearer(s.pool[i], t.pool[i])
  {
    var u := ClearStep(s, h, i, silent);
    NextIs(s.pool[i], Disconnect(h, ReasonClear, s.pool[i].grants));
    t := DispatchStep(u, h, i, silent);
    ReachesTrans(s, u, t, silent);
  }

  lemma IdleStep(s: System, h: ApnId, i: nat, silent: bool) returns (t: System)
    requires Holds(s, h, i, silent) && !HasNext(s.pool[i]) && !Settled(s.pool[i])
    ensures Reaches(s, t, silent) && Holds(t, h, i, silent) && Nearer(s.pool[i], t.pool[i])
  {
    BusyIdle(s, h, i, silent);
    var m := s.pool[i];
    if m.phase.Disconnecting? {
      t := DisconnectTimerStep(s, h, i, silent);
    } else if m.phase.Active? {
      t := ReleaseStep(s, h, i, silent);
    } else if m.connectId in m.connectChecks {
      t := ConnectTimerStep(s, h, i, silent);
    } else {
      t := AnswerStep(s, h, i);
    }
  }

  lemma SettledHasCompletion(s: System, h: ApnId, i: nat, silent: bool)
    requires Holds(s, h, i, silent) && Settled(s.pool[i])
    ensures For(s.inbox, h) != [] && For(s.inbox, h)[|For(s.inbox, h)| - 1].Disconnected?
  {
    assert HolderOk(s, h);
  }

  lemma {:induction false} Wind(s: System, h: ApnId, i: nat, silent: bool) returns (t: System)
    requires Holds(s, h, i, silent)
    ensures Reaches(s, t, silent) && GivenBack(t, h)
    decreases Rank(s.pool[i]), Waits(s.pool[i])
  {
    if Settled(s.pool[i]) {
      SettledHasCompletion(s, h, i, silent);
      t := SettledReleases(s, h);
      SilentIsReachable(s, t, silent);
    } else {
      var u;
      if HasNext(s.pool[i]) {
        u := DispatchStep(s, h, i, silent);
      } else {
        u := IdleStep(s, h, i, silent);
      }
      t := Wind(u, h, i, silent);
      ReachesTrans(s, u, t, silent);
    }
  }

  lemma SilentIsReachable(s: System, t: System, silent: bool)
    requires Reaches(s, t, true)
    ensures Reaches(s, t, silent)
  {
    var run :| Allowed(run, true) && Exec(s, run) == t;
    assert Allowed(run, silent);
  }

  /** The machine of h waits for a modem that will not answer. */
  ghost predicate StrandedHolder(s: System, h: ApnId) {
    HasMachine(s, h) && Stranded(s.pool[s.holders[h].machine.value])
  }

  lemma Release(s: System, h: ApnId, silent: bool)
    requires Inv(s) && h in s.holders && AllTimersOk(false, s) && (silent ==> !StrandedHolder(s, h))
    ensures exists t :: Reaches(s, t, silent) && GivenBack(t, h)
  {
    assert HolderOk(s, h);
    if s.holders[h].machine.None? {
      ReachesSelf(s, silent);
    } else {
      var i := s.holders[h].machine.value;
      assert TimersOk(false, s.pool[i]);
      var t := Wind(s, h, i, silent);
    }
  }

  /** From every reachable state every holder can be brought to a state without a machine. */
  lemma NobodyIsStuck(s: System, h: ApnId)
    requires Reachable(s) && h in s.holders
    ensures exists t :: Reaches(s, t, false) && GivenBack(t, h)
  {
    ReachableInv(s);
    ReachableTimers(s);
    Release(s, h, false);
  }

  // ---- A stranded attempt stays stranded until the modem speaks ----

  lemma AppendedUndecided(m: Machine, m': Machine)
    requires Stranded(m) && Touched(m, m', false)
    ensures Stranded(m')
  {
    assert forall e :: Decides(m', e) <==> Decides(m, e);
    forall k | 0 <= k < |m'.ordinary|
      ensures !Decides(m', m'.ordinary[k])
    {
      if k < |m.ordinary| {
        assert m.ordinary[k] == m'.ordinary[k] && !Decides(m, m.ordinary[k]);
      } else {
        assert FromHandler(m'.ordinary[k], false);
      }
    }
  }

  lemma FireStrands(m: Machine, id: nat, elapsed: bool)
    requires Stranded(m)
    ensures Stranded(FireConnectCheck(m, id, elapsed).m) && Stranded(FireDisconnectCheck(m, id).m)
    ensures Stranded(InterfaceDown(m))
  {
    var c := m.(connectChecks := m.connectChecks - multiset{id});
    if id in m.connectChecks {
      UndecidedStays(c, ConnectCheck(id, elapsed));
      SameQueuesSame(c, Process(c, ConnectCheck(id, elapsed)).m);
      SameQueuesSame(m, c);
    }
    var d := m.(disconnectChecks := m.disconnectChecks - multiset{id});
    UndecidedStays(d, DisconnectCheck(id));
    SameQueuesSame(d, Process(d, DisconnectCheck(id)).m);
    SameQueuesSame(m, d);
    SameQueuesSame(m, InterfaceDown(m));
  }

  lemma MachineActionStrands(s: System, a: Action, i: nat)
    requires OfMachine(a) && Silent(a) && i < |s.pool| && Stranded(s.pool[i])
    ensures var t := MachineAction(s, a); t.holders == s.holders && i < |t.pool| && Stranded(t.pool[i])
  {
    if a.i == i {
      var m := s.pool[i];
      match a
      case Dispatch(_) => if HasNext(m) { DispatchStrands(m); }
      case ConnectTimer(_, id, elapsed) => FireStrands(m, id, elapsed);
      case DisconnectTimer(_, id) => FireStrands(m, id, true);
      case InterfaceGone(_) => FireStrands(m, 0, true);
    }
  }

  /** A report does not take the machine of an activating attempt. */
  lemma ReportLeavesMachine(s: System, envs: map<ApnId, Admission>, h: ApnId)
    requires Inv(s) && HasMachine(s, h) && s.pool[s.holders[h].machine.value].phase.Activating?
    ensures var t := HandleReport(s, envs); h in t.holders && t.holders[h].machine == s.holders[h].machine
  {
    if s.inbox != [] {
      ReporterIsHeld(s);
      if s.inbox[0].Disconnected? {
        TakeBackFacts(s);
        AllBare(s, h);
        CompletionGentle(s, envs);
      }
    }
  }

  lemma HandlerActionStrands(s: System, a: Action, h: ApnId)
    requires Inv(s) && !OfMachine(a) && Silent(a) && StrandedHolder(s, h)
    ensures StrandedHolder(HandlerAction(s, a), h)
  {
    var i := s.holders[h].machine.value;
    var t := HandlerAction(s, a);
    HandlerTouches(s, a);
    assert Touched(Before(s, i), t.pool[i], false);
    AppendedUndecided(s.pool[i], t.pool[i]);
    if a.NextReport? {
      ActionRuns(s, a);
      ReportLeavesMachine(s, a.envs, h);
    } else {
      HandlerCalm(s, a);
      AllBare(s, h);
    }
  }

  lemma {:induction false} SilenceStrands(s: System, run: seq<Action>, h: ApnId)
    requires Inv(s) && StrandedHolder(s, h) && Allowed(run, true)
    ensures Inv(Exec(s, run)) && StrandedHolder(Exec(s, run), h)
    decreases |run|
  {
    if run != [] {
      var front, a := run[..|run| - 1], run[|run| - 1];
      SilenceStrands(s, front, h);
      var t := Exec(s, front);
      StepKeeps(t, a);
      if OfMachine(a) {
        MachineActionStrands(t, a, t.holders[h].machine.value);
      } else {
        HandlerActionStrands(t, a, h);
      }
    }
  }

  /** With a silent modem a holder can be brought to a state without a machine if and only if
      its machine is not activating with its time-out gone and no answer queued. */
  lemma SilentReleaseExact(s: System, h: ApnId)
    requires Reachable(s) && h in s.holders
    ensures (exists t :: Reaches(s, t, true) && GivenBack(t, h)) <==> !StrandedHolder(s, h)
  {
    ReachableInv(s);
    ReachableTimers(s);
    if StrandedHolder(s, h) {
      forall t | Reaches(s, t, true)
        ensures !GivenBack(t, h)
      {
        var run :| Allowed(run, true) && Exec(s, run) == t;
        SilenceStrands(s, run, h);
      }
    } else {
      Release(s, h, true);
    }
  }

  /** If the clock never stepped back so far, nobody is stranded: the time-outs of the machine
      and a release request are enough. */
  lemma SilentModemStrandsNobody(run: seq<Action>, h: ApnId)
    requires h in Exec(Boot(), run).holders && forall k | 0 <= k < |run| :: !ClockStepsBack(run[k])
    ensures exists t :: Reaches(Exec(Boot(), run), t, true) && GivenBack(t, h)
  {
    var s := Exec(Boot(), run);
    RunTimers(true, run);
    if HasMachine(s, h) {
      assert TimersOk(true, s.pool[s.holders[h].machine.value]);
    }
    assert Reachable(s);
    SilentReleaseExact(s, h);
  }

  // ---- An idle holder can be connected ----

  const ADMITTED := Admission(true, true, true, false, false, {})

  lemma {:induction false} NothingFits(pool: seq<Machine>, i: nat)
    requires i <= |pool|
    ensures FindCompatible(pool, {}, i, None) == None
    decreases |pool| - i
  {
    if i < |pool| {
      NothingFits(pool, i + 1);
    }
  }

  lemma AdmittedIsHandedOut(s: System, h: ApnId)
    requires h in s.holders
    ensures EstablishDataConnection(s, h, ADMITTED) == Allocate(s, h)
  {
    NothingFits(s.pool, 0);
  }

  /** The state in which the machine is handed out: room is made for the default role. */
  function Cleared(s: System, h: ApnId): System
    requires h in s.holders
  {
    var t := SetState(s, h, Idle);
    if h == DEFAULT_ID then ReleaseShared(t, HOLDER_ORDER) else t
  }

  lemma AttemptHandsOut(s: System, h: ApnId)
    requires h in s.holders && s.holders[h].state.Idle?
    ensures h in Cleared(s, h).holders && Cleared(s, h).holders[h] == s.holders[h]
    ensures AttemptEstablish(s, h, ADMITTED) == Allocate(Cleared(s, h), h)
  {
    ReleaseSharedSpares(SetState(s, h, Idle), HOLDER_ORDER, DEFAULT_ID);
    AdmittedIsHandedOut(Cleared(s, h), h);
  }

  lemma ClearedKeeps(s: System, h: ApnId)
    requires Inv(s) && h in s.holders && s.holders[h].state.Idle?
    ensures Inv(Cleared(s, h))
  {
    var t := SetState(s, h, Idle);
    assert t == s by { assert t.holders == s.holders; }
    if h == DEFAULT_ID {
      ReleaseSharedKeeps(s, HOLDER_ORDER, h);
    }
  }

  lemma AllocateWaits(s: System, h: ApnId)
    requires Inv(s) && h in s.holders && s.holders[h].state.Idle?
    ensures var t := Allocate(s, h);
            Inv(t) && HasMachine(t, h) && Waiting(t.pool[t.holders[h].machine.value], h)
  {
    AllocateKeeps(s, h);
    var t := Allocate(s, h);
    var i := FirstIdle(s, 0);
    assert HolderOk(t, h);
    if i < |s.pool| {
      assert Free(s.pool[i]);
    }
    assert t.pool[i] == Grant(Before(s, i), h);
  }

  lemma TurnOn(s: System, h: ApnId) returns (t: System)
    requires Inv(s) && h in s.holders && s.holders[h].state.Idle?
    ensures Reaches(s, t, true) && Inv(t) && h in t.holders && t.holders[h].state.Idle? && t.holders[h].enabled
  {
    t := NetworkRequested(s, h, true);
    ActionRuns(s, RequestNetwork(h, true));
    ReachesStep(s, RequestNetwork(h, true), true);
    NetworkKeeps(s, h, true);
  }

  lemma EnabledIsHandedOut(s: System, h: ApnId) returns (t: System)
    requires Inv(s) && h in s.holders && s.holders[h].state.Idle? && s.holders[h].enabled
    ensures Inv(t) && HasMachine(t, h) && Waiting(t.pool[t.holders[h].machine.value], h)
    ensures t == MsgEstablish(s, h, ADMITTED, true, NoBearer, true)
  {
    var r := s.(requests := s.requests - multiset{h});
    RequestsKeep(s, r.requests);
    AttemptHandsOut(r, h);
    ClearedKeeps(r, h);
    AllocateWaits(Cleared(r, h), h);
    t := Allocate(Cleared(r, h), h);
  }

  lemma AskForMachine(s: System, h: ApnId) returns (t: System)
    requires Inv(s) && h in s.holders && s.holders[h].state.Idle?
    ensures Reaches(s, t, true) && Inv(t) && HasMachine(t, h) && Waiting(t.pool[t.holders[h].machine.value], h)
  {
    var on := TurnOn(s, h);
    var a := Establish(h, ADMITTED, true, NoBearer, true);
    t := EnabledIsHandedOut(on, h);
    ActionRuns(on, a);
    ReachesStep(on, a, true);
    ReachesTrans(s, on, t, true);
  }

  /** The machine of h has sent its activation request. */
  predicate AwaitsModem(s: System, h: ApnId) {
    HasMachine(s, h) && var m := s.pool[s.holders[h].machine.value]; m.phase.Activating? && m.apnId == h
  }

  lemma WaitingDispatch(m: Machine, h: ApnId, st: ApnState)
    requires Held(m, h, st, []) && Waiting(m, h) && HasNext(m)
    ensures var m' := DispatchNext(m).m; Waiting(m', h) || (m'.phase.Activating? && m'.apnId == h)
  {
    DispatchHeld(m, h, st, []);
    var m' := DispatchNext(m).m;
    assert m'.phase.Activating? || m'.grants == |m'.accepted| + 1;
  }

  lemma {:induction false} DispatchToModem(s: System, h: ApnId, i: nat) returns (t: System)
    requires Inv(s) && h in s.holders && s.holders[h].machine == Some(i) && i < |s.pool| && Waiting(s.pool[i], h)
    ensures Reaches(s, t, true) && AwaitsModem(t, h)
    decreases Rank(s.pool[i]), Waits(s.pool[i])
  {
    var m := s.pool[i];
    assert HolderOk(s, h);
    t := Apply(s, i, DispatchNext(m));
    DispatchKeeps(s, i);
    ReachesStep(s, Dispatch(i), true);
    DispatchBringsNearer(m, h, s.holders[h].state, For(s.inbox, h));
    WaitingDispatch(m, h, s.holders[h].state);
    if !t.pool[i].phase.Activating? {
      var u := DispatchToModem(t, h, i);
      ReachesTrans(s, t, u, true);
      t := u;
    }
  }

  /** From every reachable state every idle holder can be given a machine that sends its
      activation request. */
  lemma IdleHolderCanConnect(s: System, h: ApnId)
    requires Reachable(s) && h in s.holders && s.holders[h].state.Idle?
    ensures exists t :: Reaches(s, t, true) && AwaitsModem(t, h)
  {
    ReachableInv(s);
    var t := AskForMachine(s, h);
    var u := DispatchToModem(t, h, t.holders[h].machine.value);
    ReachesTrans(s, t, u, true);
  }
}
