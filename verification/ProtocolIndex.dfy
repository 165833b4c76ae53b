/** The cid index over runs: the two steps that drop an active connection from it, and the
    condition under which it never misses one. */
module ProtocolIndex {
  import opened Options
  import opened ReasonCodes
  import opened ConnectionMachine
  import opened Handler
  import opened ProtocolInvariant
  import opened Protocol
  import opened ProtocolFrames

  /** Machine i is found under its own cid. */
  predicate Indexed(s: System, i: nat)
    requires i < |s.pool|
  {
    s.pool[i].cid in s.cidIndex && s.cidIndex[s.pool[i].cid] == i
  }

  /** The action takes a completion from the inbox. */
  predicate GivesBack(s: System, a: Action) {
    a.NextReport? && s.inbox != [] && s.inbox[0].Disconnected? && HasMachine(s, s.inbox[0].flag)
  }

  function Returned(s: System, a: Action): (j: nat)
    requires GivesBack(s, a)
    ensures j < |s.pool|
  {
    s.holders[s.inbox[0].flag].machine.value
  }

  /** The next event is a set-up answer that the machine accepts, with this cid. */
  predicate Accepts(m: Machine, cid: int) {
    && HasNext(m) && m.phase.Activating?
    && var e := NextEvent(m);
       e.SetupDone? && e.flag == m.connectId && e.call.reason.NoError? && e.call.active && e.call.cid == cid
  }

  predicate ReturnsTwin(s: System, a: Action, i: nat)
    requires i < |s.pool|
  {
    GivesBack(s, a) && Returned(s, a) != i && s.pool[Returned(s, a)].cid == s.pool[i].cid
  }

  predicate Overwrites(s: System, a: Action, i: nat)
    requires i < |s.pool|
  {
    a.Dispatch? && a.i != i && a.i < |s.pool| && Accepts(s.pool[a.i], s.pool[i].cid)
  }

  // ---- What each action does to the index ----

  lemma ReportIndex(s: System, a: Action)
    requires Inv(s) && a.NextReport?
    ensures HandleReport(s, a.envs).cidIndex ==
            if GivesBack(s, a) then s.cidIndex - {s.pool[Returned(s, a)].cid} else s.cidIndex
  {
    if s.inbox != [] && s.inbox[0].Disconnected? {
      ReporterIsHeld(s);
      CompletionGentle(s, a.envs);
    }
  }

  lemma HandlerIndex(s: System, a: Action)
    requires Inv(s) && !OfMachine(a)
    ensures HandlerAction(s, a).cidIndex ==
            if GivesBack(s, a) then s.cidIndex - {s.pool[Returned(s, a)].cid} else s.cidIndex
  {
    if ForAllHolders(a) {
      MassActionTouches(s, a);
    } else {
      ActionRuns(s, a);
      if a.NextReport? {
        ReportIndex(s, a);
      } else if a.Establish? {
        MsgEstablishGentle(s, a.h, a.env, a.cardAllowed, a.bearer, a.primarySlot);
      }
    }
  }

  lemma ProcessRegisters(m: Machine, e: Event)
    ensures Process(m, e).register <==>
              m.phase.Activating? && e.SetupDone? && e.flag == m.connectId && e.call.reason.NoError? && e.call.active
    ensures Process(m, e).register ==> Process(m, e).m.phase.Active? && Process(m, e).m.cid == e.call.cid
    ensures !m.phase.Active? && Process(m, e).m.phase.Active? ==> Process(m, e).register
    ensures m.phase.Active? ==> Process(m, e).m.cid == m.cid
  {
  }

  lemma RegistersWhenAccepted(m: Machine)
    requires HasNext(m)
    ensures DispatchNext(m).register <==> Accepts(m, DispatchNext(m).m.cid)
    ensures DispatchNext(m).register ==> DispatchNext(m).m.phase.Active? && m.phase.Activating?
    ensures forall c :: Accepts(m, c) ==> DispatchNext(m).register && DispatchNext(m).m.cid == c
    ensures !m.phase.Active? && DispatchNext(m).m.phase.Active? ==> DispatchNext(m).register
    ensures m.phase.Active? && DispatchNext(m).m.phase.Active? ==> DispatchNext(m).m.cid == m.cid
  {
    ProcessRegisters(Popped(m), NextEvent(m));
  }

  lemma TimersRegisterNothing(m: Machine, id: nat, elapsed: bool)
    ensures var c := FireConnectCheck(m, id, elapsed); !c.register && (c.m.phase.Active? <==> m.phase.Active?) && c.m.cid == m.cid
    ensures var d := FireDisconnectCheck(m, id); !d.register && (d.m.phase.Active? <==> m.phase.Active?) && d.m.cid == m.cid
  {
  }

  /** What a machine action does to the index, to the machine's phase and to its cid. */
  lemma MachineIndex(s: System, a: Action)
    requires OfMachine(a)
    ensures var s' := MachineAction(s, a);
            && |s'.pool| == |s.pool| && s'.holders == s.holders
            && (forall j | 0 <= j < |s.pool| && j != a.i :: s'.pool[j] == s.pool[j])
            && (if a.Dispatch? && a.i < |s.pool| && HasNext(s.pool[a.i]) && DispatchNext(s.pool[a.i]).register
                then s'.cidIndex == s.cidIndex[s'.pool[a.i].cid := a.i] && s'.pool[a.i] == DispatchNext(s.pool[a.i]).m
                else s'.cidIndex == s.cidIndex)
            && (a.i < |s.pool| ==>
                  && (s.pool[a.i].phase.Active? && s'.pool[a.i].phase.Active? ==> s'.pool[a.i].cid == s.pool[a.i].cid)
                  && (!s.pool[a.i].phase.Active? && s'.pool[a.i].phase.Active? ==>
                        a.Dispatch? && HasNext(s.pool[a.i]) && DispatchNext(s.pool[a.i]).register))
  {
    if a.i < |s.pool| {
      var m := s.pool[a.i];
      match a
      case Dispatch(i) => if HasNext(m) { RegistersWhenAccepted(m); }
      case ConnectTimer(i, id, elapsed) => TimersRegisterNothing(m, id, elapsed);
      case DisconnectTimer(i, id) => TimersRegisterNothing(m, id, true);
      case _ =>
    }
  }

  // ---- One step ----

  lemma HandlerSteps(s: System, a: Action, i: nat)
    requires Inv(s) && !OfMachine(a) && i < |s.pool| && s.pool[i].phase.Active? && Indexed(s, i)
    ensures var s' := HandlerAction(s, a);
            && i < |s'.pool| && s'.pool[i].phase.Active? && s'.pool[i].cid == s.pool[i].cid
            && (Indexed(s', i) <==> !ReturnsTwin(s, a, i))
  {
    HandlerTouches(s, a);
    HandlerIndex(s, a);
    assert Touched(Before(s, i), HandlerAction(s, a).pool[i], a.HostDeath?);
    if GivesBack(s, a) {
      TakeBackFacts(s);
    }
  }

  lemma MachineSteps(s: System, a: Action, i: nat)
    requires Inv(s) && OfMachine(a) && i < |s.pool| && s.pool[i].phase.Active? && Indexed(s, i)
    ensures var s' := MachineAction(s, a);
            && i < |s'.pool|
            && (s'.pool[i].phase.Active? ==>
                  s'.pool[i].cid == s.pool[i].cid && (Indexed(s', i) <==> !Overwrites(s, a, i)))
  {
    MachineIndex(s, a);
    if a.i < |s.pool| && HasNext(s.pool[a.i]) {
      RegistersWhenAccepted(s.pool[a.i]);
    }
  }

  /** An active indexed machine that stays active stays indexed if and only if the step
      neither gives back another machine with the same cid nor lets another machine accept
      a set-up answer with it. */
  lemma StaysIndexed(s: System, a: Action, i: nat)
    requires Reachable(s) && i < |s.pool| && s.pool[i].phase.Active? && Indexed(s, i)
    ensures var s' := Step(s, a);
            && i < |s'.pool|
            && (s'.pool[i].phase.Active? ==>
                  && s'.pool[i].cid == s.pool[i].cid
                  && (Indexed(s', i) <==> !ReturnsTwin(s, a, i) && !Overwrites(s, a, i)))
  {
    ReachableInv(s);
    if OfMachine(a) {
      MachineSteps(s, a, i);
    } else {
      HandlerSteps(s, a, i);
    }
  }

  // ---- Whole runs ----

  ghost predicate AllActiveIndexed(s: System) {
    forall i | 0 <= i < |s.pool| && s.pool[i].phase.Active? :: Indexed(s, i)
  }

  /** No other held machine carries the cid of an active one. */
  ghost predicate CidsApart(s: System) {
    forall i, j | 0 <= i < |s.pool| && 0 <= j < |s.pool| && i != j && s.pool[i].phase.Active? && InUse(s, j) ::
      s.pool[i].cid != s.pool[j].cid
  }

  lemma ActivatingInUse(s: System, j: nat)
    requires Inv(s) && j < |s.pool| && s.pool[j].phase.Activating?
    ensures InUse(s, j)
  {
  }

  lemma ReturnedInUse(s: System, a: Action)
    requires GivesBack(s, a)
    ensures InUse(s, Returned(s, a))
  {
    var h := s.inbox[0].flag;
    assert h in s.holders && s.holders[h].machine == Some(Returned(s, a));
  }

  lemma NoTwin(s: System, a: Action, i: nat)
    requires CidsApart(s) && i < |s.pool| && s.pool[i].phase.Active?
    ensures !ReturnsTwin(s, a, i)
  {
    if GivesBack(s, a) {
      ReturnedInUse(s, a);
    }
  }

  lemma NoOverwrite(s: System, a: Action, i: nat)
    requires Inv(s) && OfMachine(a) && CidsApart(MachineAction(s, a)) && i < |s.pool|
    requires MachineAction(s, a).pool[i].phase.Active? && MachineAction(s, a).pool[i].cid == s.pool[i].cid
    ensures !Overwrites(s, a, i)
  {
    MachineIndex(s, a);
    if Overwrites(s, a, i) {
      RegistersWhenAccepted(s.pool[a.i]);
      ActivatingInUse(s, a.i);
      assert InUse(MachineAction(s, a), a.i);
    }
  }

  lemma HandlerActivatesNothing(s: System, a: Action, i: nat)
    requires !OfMachine(a) && i < |HandlerAction(s, a).pool|
    ensures HandlerAction(s, a).pool[i].phase == Before(s, i).phase
  {
    HandlerTouches(s, a);
    assert Touched(Before(s, i), HandlerAction(s, a).pool[i], a.HostDeath?);
  }

  lemma BecameActive(s: System, a: Action, i: nat)
    requires Inv(s) && i < |Step(s, a).pool| && Step(s, a).pool[i].phase.Active?
    requires i < |s.pool| ==> !s.pool[i].phase.Active?
    ensures Indexed(Step(s, a), i)
  {
    if OfMachine(a) {
      MachineIndex(s, a);
    } else {
      HandlerActivatesNothing(s, a, i);
    }
  }

  lemma StepIndexes(s: System, a: Action)
    requires Reachable(s) && AllActiveIndexed(s) && CidsApart(s) && CidsApart(Step(s, a))
    ensures AllActiveIndexed(Step(s, a))
  {
    ReachableInv(s);
    var s' := Step(s, a);
    forall i | 0 <= i < |s'.pool| && s'.pool[i].phase.Active?
      ensures Indexed(s', i)
    {
      if i < |s.pool| && s.pool[i].phase.Active? {
        StaysIndexed(s, a, i);
        NoTwin(s, a, i);
        if OfMachine(a) {
          NoOverwrite(s, a, i);
        }
      } else {
        BecameActive(s, a, i);
      }
    }
  }

  /** In a run in which no other held machine ever carries the cid of an active one, every
      active machine is indexed. */
  lemma {:induction false} ActiveAreIndexed(run: seq<Action>)
    requires forall k | 0 <= k <= |run| :: CidsApart(Exec(Boot(), run[..k]))
    ensures AllActiveIndexed(Exec(Boot(), run))
    decreases |run|
  {
    if run != [] {
      var front := run[..|run| - 1];
      forall k | 0 <= k <= |front|
        ensures CidsApart(Exec(Boot(), front[..k]))
      {
        assert front[..k] == run[..k];
      }
      ActiveAreIndexed(front);
      assert run[..|front|] == front && run[..|run|] == run;
      assert CidsApart(Exec(Boot(), run[..|front|])) && CidsApart(Exec(Boot(), run[..|run|]));
      StepIndexes(Exec(Boot(), front), run[|run| - 1]);
    }
  }
}
