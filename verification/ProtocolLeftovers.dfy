/** What is left of a first attempt can end the second one: runs in which an answer without
    its flag and a retagged timer do so. */
module ProtocolLeftovers {
  import opened Options
  import opened ReasonCodes
  import opened ConnectionMachine
  import opened AttemptInvariant
  import opened AttemptSteps
  import opened Handler
  import opened Protocol
  import opened ProtocolTheorems
  import opened ProtocolRelease
  import opened ProtocolWitness

  const HELD := Holder(true, Connected, Some(0))
  const LEAVING := Holder(true, Releasing, Some(0))

  predicate Calm(m: Machine) {
    m.immediate == [] && m.ordinary == [] && m.deferred == []
  }

  // ---- Steps of a world with one machine ----

  lemma Next(x: Holder, m: Machine, box: seq<Report>, r: multiset<ApnId>, q: multiset<ApnId>, c: map<int, nat>)
    requires Reachable(World(x, m, box, r, q, c)) && HasNext(m)
    ensures var o := DispatchNext(m);
            Reachable(World(x, o.m, box + o.out, r, q, if o.register then c[o.m.cid := 0] else c))
  {
    var s := World(x, m, box, r, q, c);
    RunNext(s, 0);
    var o := DispatchNext(m);
    assert Apply(s, 0, o) == World(x, o.m, box + o.out, r, q, if o.register then c[o.m.cid := 0] else c);
  }

  /** One event that arrives at a machine with nothing queued. */
  lemma Arrived(x: Holder, m: Machine, e: Event, box: seq<Report>, r: multiset<ApnId>, q: multiset<ApnId>, c: map<int, nat>)
    requires Calm(m) && Reachable(World(x, Post(m, e), box, r, q, c))
    ensures var o := Process(m, e);
            Reachable(World(x, o.m, box + o.out, r, q, if o.register then c[o.m.cid := 0] else c))
  {
    var p := Post(m, e);
    assert p.ordinary == [e] && Popped(p) == m;
    Next(x, p, box, r, q, c);
  }

  lemma Answers(x: Holder, m: Machine, e: Event, r: multiset<ApnId>, q: multiset<ApnId>, c: map<int, nat>)
    requires Calm(m) && IsAnswer(e) && Reachable(World(x, m, [], r, q, c))
    ensures var o := Process(m, e);
            Reachable(World(x, o.m, o.out, r, q, if o.register then c[o.m.cid := 0] else c))
  {
    var s := World(x, m, [], r, q, c);
    ReachStep(s, ModemAnswer(0, e));
    assert Apply(s, 0, Stay(Post(m, e))) == World(x, Post(m, e), [], r, q, c);
    Arrived(x, m, e, [], r, q, c);
    assert [] + Process(m, e).out == Process(m, e).out;
  }

  lemma HostDies(x: Holder, m: Machine, r: multiset<ApnId>, q: multiset<ApnId>, c: map<int, nat>)
    requires Calm(m) && Reachable(World(x, m, [], r, q, c)) && !Process(m, HostDied).register
    ensures Reachable(World(x, Process(m, HostDied).m, Process(m, HostDied).out, r, q, c))
  {
    var s := World(x, m, [], r, q, c);
    ActionRuns(s, HostDeath);
    ReachStep(s, HostDeath);
    assert NotifyHostDied(s).pool == [Post(m, HostDied)];
    assert NotifyHostDied(s) == World(x, Post(m, HostDied), [], r, q, c);
    Arrived(x, m, HostDied, [], r, q, c);
    assert [] + Process(m, HostDied).out == Process(m, HostDied).out;
  }

  function Leaving(m: Machine): Machine {
    Process(m, Disconnect(MMS_ID, ReasonClear, m.grants)).m
  }

  lemma LeaveSends(m: Machine, c: map<int, nat>)
    ensures MsgEstablish(World(HELD, m, [], multiset{}, multiset{}, c), MMS_ID, REFUSED, false, NoBearer, true) ==
            World(LEAVING, Post(m, Disconnect(MMS_ID, ReasonClear, m.grants)), [], multiset{}, multiset{}, c)
  {
    var s := World(HELD, m, [], multiset{}, multiset{}, c);
    ClearSends(s, MMS_ID, 0, ReasonClear);
    assert ReleaseReason(MMS_ID, false, NoBearer, true) == ReasonClear;
  }

  lemma Leave(m: Machine, c: map<int, nat>)
    requires Calm(m) && m.phase.Active? && Reachable(World(HELD, m, [], multiset{}, multiset{}, c))
    ensures Reachable(World(LEAVING, Leaving(m), [], multiset{}, multiset{}, c))
  {
    var s := World(HELD, m, [], multiset{}, multiset{}, c);
    var a := Establish(MMS_ID, REFUSED, false, NoBearer, true);
    ActionRuns(s, a);
    ReachStep(s, a);
    LeaveSends(m, c);
    Arrived(LEAVING, m, Disconnect(MMS_ID, ReasonClear, m.grants), [], multiset{}, multiset{}, c);
  }

  const RESTING := Holder(true, Idle, None)
  const RETRYING := Holder(true, Retrying, None)

  lemma CompletionTaken(m: Machine, info: CallInfo, origin: nat, c: map<int, nat>)
    requires ToDisconnectReason(info.reason) == ReasonRetry
    ensures HandleReport(World(LEAVING, m, [Disconnected(MMS_ID, info, origin)], multiset{}, multiset{}, c), map[]) ==
            World(RETRYING, m, [], multiset{MMS_ID}, multiset{}, c - {m.cid})
  {
    var s := World(LEAVING, m, [Disconnected(MMS_ID, info, origin)], multiset{}, multiset{}, c);
    assert TakeBack(s) == World(RESTING, m, [], multiset{}, multiset{}, c - {m.cid});
  }

  lemma RetryFires(m: Machine, c: map<int, nat>)
    ensures RetryToSetup(World(RETRYING, m, [], multiset{MMS_ID}, multiset{}, c), MMS_ID) ==
            World(RESTING, m, [], multiset{}, multiset{MMS_ID}, c)
  {
    assert multiset{MMS_ID} - multiset{MMS_ID} == multiset{};
  }

  /** The completion is taken, and the retry leads back to an idle holder that is asked for. */
  lemma BackToIdle(m: Machine, info: CallInfo, origin: nat, c: map<int, nat>)
    requires Reachable(World(LEAVING, m, [Disconnected(MMS_ID, info, origin)], multiset{}, multiset{}, c))
    requires ToDisconnectReason(info.reason) == ReasonRetry
    ensures Reachable(World(RESTING, m, [], multiset{}, multiset{MMS_ID}, c - {m.cid}))
  {
    var s := World(LEAVING, m, [Disconnected(MMS_ID, info, origin)], multiset{}, multiset{}, c);
    ActionRuns(s, NextReport(map[]));
    ReachStep(s, NextReport(map[]));
    CompletionTaken(m, info, origin, c);
    var t := World(RETRYING, m, [], multiset{MMS_ID}, multiset{}, c - {m.cid});
    ActionRuns(t, RetryTimer(MMS_ID));
    ReachStep(t, RetryTimer(MMS_ID));
    RetryFires(m, c - {m.cid});
  }

  lemma FirstIsIdle(s: System)
    requires |s.pool| > 0 && s.pool[0].phase.Inactive? && !InUse(s, 0)
    ensures FirstIdle(s, 0) == 0
  {
  }

  lemma NobodyHolds(m: Machine, q: multiset<ApnId>, c: map<int, nat>)
    ensures !InUse(World(RESTING, m, [], multiset{}, q, c), 0)
  {
  }

  lemma GrantedAgain(m: Machine, c: map<int, nat>)
    requires m.phase.Inactive?
    ensures MsgEstablish(World(RESTING, m, [], multiset{}, multiset{MMS_ID}, c), MMS_ID, ADMITTED, true, NoBearer, true) ==
            World(Holder(true, Connecting, Some(0)), Grant(m, MMS_ID), [], multiset{}, multiset{}, c)
  {
    var r := World(RESTING, m, [], multiset{}, multiset{}, c);
    assert multiset{MMS_ID} - multiset{MMS_ID} == multiset{};
    AttemptHandsOut(r, MMS_ID);
    assert Cleared(r, MMS_ID) == r;
    NobodyHolds(m, multiset{}, c);
    FirstIsIdle(r);
  }

  /** The same machine is handed out again. */
  lemma HandOutAgain(m: Machine, c: map<int, nat>)
    requires m.phase.Inactive? && Reachable(World(RESTING, m, [], multiset{}, multiset{MMS_ID}, c))
    ensures Reachable(World(Holder(true, Connecting, Some(0)), Grant(m, MMS_ID), [], multiset{}, multiset{}, c))
  {
    var s := World(RESTING, m, [], multiset{}, multiset{MMS_ID}, c);
    var a := Establish(MMS_ID, ADMITTED, true, NoBearer, true);
    ActionRuns(s, a);
    ReachStep(s, a);
    GrantedAgain(m, c);
  }

  // ---- The second attempt ----

  /** After the first attempt was cut short by the death of the host, its timer still runs. */
  function Between(): Machine {
    NEW_MACHINE.(phase := Inactive, connectId := 2, apnId := MMS_ID, cid := 5, immediate := [], grants := 1,
                 disconnectChecks := multiset{1}, accepted := [Attempt(MMS_ID, 1)], completed := [Attempt(MMS_ID, 1)],
                 answered := 1)
  }

  /** The same machine, active again. */
  function Second(checks: multiset<nat>): Machine {
    Between().(phase := Active, grants := 2, disconnectChecks := checks, answered := 2,
               accepted := [Attempt(MMS_ID, 1), Attempt(MMS_ID, 2)])
  }

  lemma FirstAttemptCutShort()
    ensures var d := Leaving(UpMachine(MMS_ID));
            && Calm(d) && d.phase.Disconnecting?
            && Process(d, HostDied) ==
               Outcome(Between(), [Disconnected(MMS_ID, ReasonOnly(Retry).(cid := 5), 1)], false)
  {
    var d := Leaving(UpMachine(MMS_ID));
    assert d.immediate == [] && d.deferred == [];
    var o := Process(d, HostDied);
    assert o.m.immediate == [];
    assert o.m.completed == [Attempt(MMS_ID, 1)];
    assert o.m.disconnectChecks == multiset{1};
  }

  lemma ReachBetween()
    ensures Reachable(World(RESTING, Between(), [], multiset{}, multiset{MMS_ID}, map[]))
  {
    var s := ConnectionComesUp();
    Leave(UpMachine(MMS_ID), map[5 := 0]);
    FirstAttemptCutShort();
    HostDies(LEAVING, Leaving(UpMachine(MMS_ID)), multiset{}, multiset{}, map[5 := 0]);
    BackToIdle(Between(), ReasonOnly(Retry).(cid := 5), 1, map[5 := 0]);
    assert map[5 := 0] - {5} == map[];
  }

  const UP_AGAIN := SetupDone(2, UP)

  function Starting(): Machine {
    Second(multiset{1}).(phase := Activating, connectChecks := multiset{2}, answered := 1)
  }

  lemma SecondStarts()
    ensures var g := Grant(Between(), MMS_ID);
            HasNext(g) && DispatchNext(g) == Stay(Starting())
  {
    var g := Grant(Between(), MMS_ID);
    assert g.ordinary == [Connect(MMS_ID, 2)] && Popped(g).ordinary == [];
    var o := DispatchNext(g);
    assert o.m.accepted == [Attempt(MMS_ID, 1), Attempt(MMS_ID, 2)];
    assert o.m.immediate == [] && o.m.connectChecks == multiset{2};
  }

  lemma SecondAnswered()
    ensures var u := Starting().(phase := Active, immediate := [UP_AGAIN], answered := 2);
            && Process(Starting(), UP_AGAIN) == Outcome(u, [], true)
            && HasNext(u) && DispatchNext(u) == Outcome(Second(multiset{1}), [Established(MMS_ID)], false)
  {
    var o := Process(Starting(), UP_AGAIN);
    assert o.m.immediate == [UP_AGAIN];
    var u := o.m;
    assert Popped(u).immediate == [];
  }

  const JOINING := Holder(true, Connecting, Some(0))

  lemma ReachStarting()
    ensures Reachable(World(JOINING, Starting(), [], multiset{}, multiset{}, map[]))
  {
    ReachBetween();
    HandOutAgain(Between(), map[]);
    SecondStarts();
    Next(JOINING, Grant(Between(), MMS_ID), [], multiset{}, multiset{}, map[]);
  }

  lemma ReachAnswered()
    ensures Reachable(World(JOINING, Second(multiset{1}), [Established(MMS_ID)], multiset{}, multiset{}, map[5 := 0]))
  {
    ReachStarting();
    SecondAnswered();
    Answers(JOINING, Starting(), UP_AGAIN, multiset{}, multiset{}, map[]);
    var u := Starting().(phase := Active, immediate := [UP_AGAIN], answered := 2);
    Next(JOINING, u, [], multiset{}, multiset{}, map[5 := 0]);
    assert [] + [Established(MMS_ID)] == [Established(MMS_ID)];
  }

  /** A reused machine is active in its second attempt, with the disconnect timer of the
      first one still pending. */
  lemma SecondAttemptComesUp()
    ensures Reachable(World(HELD, Second(multiset{1}), [], multiset{}, multiset{}, map[5 := 0]))
  {
    ReachAnswered();
    var s := World(JOINING, Second(multiset{1}), [Established(MMS_ID)], multiset{}, multiset{}, map[5 := 0]);
    Learn(s, 0, MMS_ID);
    assert s.(holders := s.holders[MMS_ID := s.holders[MMS_ID].(state := Connected)], inbox := []) ==
           World(HELD, Second(multiset{1}), [], multiset{}, multiset{}, map[5 := 0]);
  }

  /** The second attempt of a machine that nothing is queued for is disconnecting. */
  ghost predicate SecondDisconnecting(d: Machine, checks: multiset<nat>) {
    && Calm(d) && d.phase.Disconnecting? && d.connectId == 2 && d.apnId == MMS_ID && d.disconnectChecks == checks
    && d.accepted == [Attempt(MMS_ID, 1), Attempt(MMS_ID, 2)] && |d.completed| == 1
  }

  lemma SecondLeaves(checks: multiset<nat>) returns (s: System)
    requires Reachable(World(HELD, Second(checks), [], multiset{}, multiset{}, map[5 := 0]))
    ensures Reachable(s) && |s.pool| == 1 && SecondDisconnecting(s.pool[0], checks + multiset{2})
  {
    Leave(Second(checks), map[5 := 0]);
    s := World(LEAVING, Leaving(Second(checks)), [], multiset{}, multiset{}, map[5 := 0]);
    assert Leaving(Second(checks)).immediate == [];
  }

  /** While the second attempt disconnects, an answer to the release of the first one leaves
      it alone if it carries its flag, and ends it if it comes without. */
  lemma LateEmptyAnswerEndsSecondAttempt() returns (s: System, t: System)
    ensures Reachable(s) && |s.pool| == 1 && s.pool[0].phase.Disconnecting? && |s.pool[0].accepted| == 2
    ensures SameAttempt(s.pool[0], Process(s.pool[0], DeactivateDone(s.pool[0].accepted[0].id)).m)
    ensures t == Step(Step(s, ModemAnswer(0, DeactivateEmpty)), Dispatch(0))
    ensures |t.pool| == 1 && t.pool[0].phase.Inactive? && |t.pool[0].completed| == 2
  {
    SecondAttemptComesUp();
    s := SecondLeaves(multiset{1});
    StaleAnswer(s.pool[0], DeactivateDone(1), 1);
    t := EmptyAnswerEnds(s);
  }

  lemma EmptyAnswerEnds(s: System) returns (t: System)
    requires |s.pool| == 1 && SecondDisconnecting(s.pool[0], multiset{1, 2})
    ensures t == Step(Step(s, ModemAnswer(0, DeactivateEmpty)), Dispatch(0))
    ensures |t.pool| == 1 && t.pool[0].phase.Inactive? && |t.pool[0].completed| == 2
  {
    var d := s.pool[0];
    var p := Post(d, DeactivateEmpty);
    assert p.ordinary == [DeactivateEmpty] && Popped(p) == d;
    var u := Apply(s, 0, Stay(p));
    t := Apply(u, 0, DispatchNext(p));
  }

  /** The timer that the first attempt left behind is given the second one's generation by
      the interface callback while nobody has asked to disconnect. After the disconnect it
      fires first and ends the attempt, whose own timer is still pending. */
  lemma LeftoverTimerEndsSecondAttempt() returns (s: System, t: System, u: System)
    ensures Reachable(s) && |s.pool| == 1 && s.pool[0].phase.Active?
    ensures s.pool[0].accepted == [Attempt(MMS_ID, 1), Attempt(MMS_ID, 2)] && s.pool[0].disconnectChecks == multiset{1}
    ensures Reachable(t) && |t.pool| == 1 && SecondDisconnecting(t.pool[0], multiset{2, 2})
    ensures u == Step(t, DisconnectTimer(0, 2))
    ensures |u.pool| == 1 && u.pool[0].phase.Inactive? && u.pool[0].disconnectChecks == multiset{2}
  {
    SecondAttemptComesUp();
    s := World(HELD, Second(multiset{1}), [], multiset{}, multiset{}, map[5 := 0]);
    Retagged();
    t := SecondLeaves(multiset{2});
    u := TimerEnds(t);
  }

  lemma Retagged()
    requires Reachable(World(HELD, Second(multiset{1}), [], multiset{}, multiset{}, map[5 := 0]))
    ensures Reachable(World(HELD, Second(multiset{2}), [], multiset{}, multiset{}, map[5 := 0]))
  {
    var s := World(HELD, Second(multiset{1}), [], multiset{}, multiset{}, map[5 := 0]);
    ReachStep(s, InterfaceGone(0));
    var m := Second(multiset{2});
    assert InterfaceDown(Second(multiset{1})) == m;
    assert Apply(s, 0, Stay(m)) == World(HELD, m, [], multiset{}, multiset{}, map[5 := 0]);
  }

  lemma TimerEnds(t: System) returns (u: System)
    requires |t.pool| == 1 && SecondDisconnecting(t.pool[0], multiset{2, 2})
    ensures u == Step(t, DisconnectTimer(0, 2))
    ensures |u.pool| == 1 && u.pool[0].phase.Inactive? && u.pool[0].disconnectChecks == multiset{2}
  {
    var d := t.pool[0];
    u := Apply(t, 0, FireDisconnectCheck(d, 2));
    assert d.disconnectChecks - multiset{2} == multiset{2};
  }
}
