/** Timers over runs: which time-outs are pending for the attempt in progress, and whose
    they are. */
module ProtocolTimers {
  import opened ConnectionMachine
  import opened Handler
  import opened Protocol
  import opened ProtocolFrames

  ghost predicate ConnectTimerRuns(m: Machine) {
    m.phase.Activating? ==> m.connectId in m.connectChecks
  }

  ghost predicate DisconnectTimerRuns(m: Machine) {
    m.phase.Disconnecting? ==> m.connectId in m.disconnectChecks
  }

  /** With a steady clock the connect timer is pending as well. */
  ghost predicate TimersOk(steady: bool, m: Machine) {
    && DisconnectTimerRuns(m)
    && (m.phase.Active? ==> m.deferred == [])
    && (steady ==> ConnectTimerRuns(m))
  }

  ghost predicate AllTimersOk(steady: bool, s: System) {
    forall i | 0 <= i < |s.pool| :: TimersOk(steady, s.pool[i])
  }

  /** A connect time-out fires, but the clock says that it is too early. */
  predicate ClockStepsBack(a: Action) {
    a.ConnectTimer? && !a.clockElapsed
  }

  lemma ProcessTimers(steady: bool, m: Machine, e: Event)
    requires TimersOk(steady, m)
    ensures TimersOk(steady, Process(m, e).m)
  {
  }

  lemma FireConnectTimers(steady: bool, m: Machine, id: nat, elapsed: bool)
    requires TimersOk(steady, m) && (steady ==> elapsed)
    ensures TimersOk(steady, FireConnectCheck(m, id, elapsed).m)
  {
    if m.immediate == [] && id in m.connectChecks {
      var taken := m.(connectChecks := m.connectChecks - multiset{id});
      if id != m.connectId || !m.phase.Activating? || !elapsed {
        ProcessTimers(steady, taken, ConnectCheck(id, elapsed));
      } else {
        ProcessTimers(false, taken, ConnectCheck(id, elapsed));
      }
    }
  }

  lemma FireDisconnectTimers(steady: bool, m: Machine, id: nat)
    requires TimersOk(steady, m)
    ensures TimersOk(steady, FireDisconnectCheck(m, id).m)
  {
    if m.immediate == [] && id in m.disconnectChecks {
      var taken := m.(disconnectChecks := m.disconnectChecks - multiset{id});
      if m.phase.Disconnecting? && id == m.connectId {
        assert Process(taken, DisconnectCheck(id)).m.phase.Inactive?;
      } else {
        ProcessTimers(steady, taken, DisconnectCheck(id));
      }
    }
  }

  lemma MachineTimers(steady: bool, s: System, a: Action)
    requires AllTimersOk(steady, s) && OfMachine(a) && (steady ==> !ClockStepsBack(a))
    ensures AllTimersOk(steady, MachineAction(s, a))
  {
    if a.i < |s.pool| {
      var m := s.pool[a.i];
      assert TimersOk(steady, m);
      match a
      case Dispatch(i) => if HasNext(m) { ProcessTimers(steady, Popped(m), NextEvent(m)); }
      case ConnectTimer(i, id, elapsed) => FireConnectTimers(steady, m, id, elapsed);
      case DisconnectTimer(i, id) => FireDisconnectTimers(steady, m, id);
      case InterfaceGone(i) => assert TimersOk(steady, InterfaceDown(m));
      case ModemAnswer(i, e) => assert TimersOk(steady, Post(m, e));
    }
  }

  lemma StepTimers(steady: bool, s: System, a: Action)
    requires AllTimersOk(steady, s) && (steady ==> !ClockStepsBack(a))
    ensures AllTimersOk(steady, Step(s, a))
  {
    if OfMachine(a) {
      MachineTimers(steady, s, a);
    } else {
      HandlerTouches(s, a);
      var s' := HandlerAction(s, a);
      forall i | 0 <= i < |s'.pool|
        ensures TimersOk(steady, s'.pool[i])
      {
        assert Touched(Before(s, i), s'.pool[i], a.HostDeath?);
      }
    }
  }

  lemma {:induction false} RunTimers(steady: bool, run: seq<Action>)
    requires steady ==> forall k | 0 <= k < |run| :: !ClockStepsBack(run[k])
    ensures AllTimersOk(steady, Exec(Boot(), run))
    decreases |run|
  {
    if run != [] {
      RunTimers(steady, run[..|run| - 1]);
      StepTimers(steady, Exec(Boot(), run[..|run| - 1]), run[|run| - 1]);
    }
  }

  lemma ReachableTimers(s: System)
    requires Reachable(s)
    ensures AllTimersOk(false, s)
  {
    var run :| Exec(Boot(), run) == s;
    RunTimers(false, run);
  }

  /** A disconnecting machine always has a disconnect timer of its own generation pending. */
  lemma DisconnectTimerPending(s: System, i: nat)
    requires Reachable(s) && i < |s.pool| && s.pool[i].phase.Disconnecting?
    ensures s.pool[i].connectId in s.pool[i].disconnectChecks
  {
    ReachableTimers(s);
    assert TimersOk(false, s.pool[i]);
  }

  /** Unless the clock stepped back, an activating machine has its connect timer pending. */
  lemma ConnectTimerPending(run: seq<Action>, i: nat)
    requires forall k | 0 <= k < |run| :: !ClockStepsBack(run[k])
    ensures var s := Exec(Boot(), run);
            i < |s.pool| && s.pool[i].phase.Activating? ==> s.pool[i].connectId in s.pool[i].connectChecks
  {
    RunTimers(true, run);
    var s := Exec(Boot(), run);
    assert i < |s.pool| ==> TimersOk(true, s.pool[i]);
  }

  // ---- Whose timer it is ----

  /** The disconnect timers of the current generation: one while disconnecting, else none. */
  ghost predicate OwnTimers(m: Machine) {
    && (forall id | id in m.disconnectChecks :: id <= m.connectId)
    && m.disconnectChecks[m.connectId] == if m.phase.Disconnecting? then 1 else 0
  }

  ghost predicate AllOwnTimers(s: System) {
    forall i | 0 <= i < |s.pool| :: OwnTimers(s.pool[i])
  }

  /** The interface-down notice reaches a machine that is not disconnecting while a timer of
      an earlier disconnect is pending. */
  predicate Retags(s: System, a: Action) {
    && a.InterfaceGone? && a.i < |s.pool|
    && !s.pool[a.i].phase.Disconnecting? && s.pool[a.i].disconnectChecks != multiset{}
  }

  lemma ProcessOwns(m: Machine, e: Event)
    requires OwnTimers(m)
    ensures OwnTimers(Process(m, e).m)
  {
  }

  lemma FireConnectOwns(m: Machine, id: nat, elapsed: bool)
    requires OwnTimers(m)
    ensures OwnTimers(FireConnectCheck(m, id, elapsed).m)
  {
    ProcessOwns(m.(connectChecks := m.connectChecks - multiset{id}), ConnectCheck(id, elapsed));
  }

  lemma FireDisconnectOwns(m: Machine, id: nat)
    requires OwnTimers(m)
    ensures OwnTimers(FireDisconnectCheck(m, id).m)
  {
    if m.immediate == [] && id in m.disconnectChecks {
      var taken := m.(disconnectChecks := m.disconnectChecks - multiset{id});
      if m.phase.Disconnecting? && id == m.connectId {
        assert Process(taken, DisconnectCheck(id)).m.connectId == m.connectId + 1;
      } else {
        ProcessOwns(taken, DisconnectCheck(id));
      }
    }
  }

  lemma InterfaceOwns(m: Machine)
    requires OwnTimers(m)
    ensures OwnTimers(InterfaceDown(m)) <==> m.phase.Disconnecting? || m.disconnectChecks == multiset{}
  {
    if m.disconnectChecks != multiset{} {
      assert InterfaceDown(m).disconnectChecks[m.connectId] == 1;
    }
  }

  lemma MachineOwns(s: System, a: Action)
    requires AllOwnTimers(s) && OfMachine(a)
    ensures AllOwnTimers(MachineAction(s, a)) <==> !Retags(s, a)
  {
    if a.i < |s.pool| {
      var m := s.pool[a.i];
      var s' := MachineAction(s, a);
      assert OwnTimers(m);
      match a
      case Dispatch(i) => if HasNext(m) { ProcessOwns(Popped(m), NextEvent(m)); }
      case ConnectTimer(i, id, elapsed) => FireConnectOwns(m, id, elapsed);
      case DisconnectTimer(i, id) => FireDisconnectOwns(m, id);
      case InterfaceGone(i) =>
        InterfaceOwns(m);
        assert s'.pool[i] == InterfaceDown(m);
      case ModemAnswer(i, e) => assert OwnTimers(Post(m, e));
    }
  }

  /** From any state in which timers are their attempts' own, a step keeps them so if and only
      if it is not such a notice. */
  lemma StepOwns(s: System, a: Action)
    requires AllOwnTimers(s)
    ensures AllOwnTimers(Step(s, a)) <==> !Retags(s, a)
  {
    if OfMachine(a) {
      MachineOwns(s, a);
    } else {
      HandlerTouches(s, a);
      var s' := HandlerAction(s, a);
      forall i | 0 <= i < |s'.pool|
        ensures OwnTimers(s'.pool[i])
      {
        assert Touched(Before(s, i), s'.pool[i], a.HostDeath?);
      }
    }
  }

  /** After the run and after every prefix of it. */
  ghost predicate OwnThroughout(run: seq<Action>)
    decreases |run|
  {
    AllOwnTimers(Exec(Boot(), run)) && (run != [] ==> OwnThroughout(run[..|run| - 1]))
  }

  ghost predicate NeverRetags(run: seq<Action>)
    decreases |run|
  {
    run != [] ==>
      var front := run[..|run| - 1];
      NeverRetags(front) && !Retags(Exec(Boot(), front), run[|run| - 1])
  }

  /** Over a run every disconnect timer of a current generation is the attempt's own, one while
      it disconnects and none before, if and only if no interface-down notice ever reaches a
      machine that is not disconnecting while a timer is pending. */
  lemma {:induction false} OnlyOwnTimerCounts(run: seq<Action>)
    ensures OwnThroughout(run) <==> NeverRetags(run)
    decreases |run|
  {
    if run != [] {
      var front := run[..|run| - 1];
      OnlyOwnTimerCounts(front);
      if OwnThroughout(front) {
        StepOwns(Exec(Boot(), front), run[|run| - 1]);
      }
    }
  }
}
