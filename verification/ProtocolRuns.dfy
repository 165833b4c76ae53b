/** Properties of whole runs: histories only grow, and a run in single-connection mode
    never has two connections. */
module ProtocolRuns {
  import opened Options
  import opened ReasonCodes
  import opened ConnectionMachine
  import opened AttemptInvariant
  import opened Handler
  import opened ProtocolInvariant
  import opened Protocol
  import opened ProtocolFrames

  // ---- Histories grow ----

  ghost predicate Later(m: Machine, m': Machine) {
    m.accepted <= m'.accepted && m.completed <= m'.completed && m.connectId <= m'.connectId && m.grants <= m'.grants
  }

  ghost predicate Extends(s: System, s': System) {
    |s.pool| <= |s'.pool| && forall i | 0 <= i < |s.pool| :: Later(s.pool[i], s'.pool[i])
  }

  lemma ExtendsTrans(s: System, t: System, u: System)
    requires Extends(s, t) && Extends(t, u)
    ensures Extends(s, u)
  {
    forall i | 0 <= i < |s.pool|
      ensures Later(s.pool[i], u.pool[i])
    {
      assert Later(s.pool[i], t.pool[i]) && Later(t.pool[i], u.pool[i]);
    }
  }

  lemma ProcessLater(m: Machine, e: Event)
    ensures Later(m, Process(m, e).m)
  {
  }

  lemma ApplyExtends(s: System, i: nat, r: Outcome)
    requires i < |s.pool| && Later(s.pool[i], r.m)
    ensures Extends(s, Apply(s, i, r))
  {
  }

  lemma MachineActionExtends(s: System, a: Action)
    requires OfMachine(a)
    ensures Extends(s, MachineAction(s, a))
  {
    if a.i < |s.pool| {
      var m := s.pool[a.i];
      match a
      case Dispatch(i) =>
        if HasNext(m) {
          ProcessLater(Popped(m), NextEvent(m));
          ApplyExtends(s, i, DispatchNext(m));
        }
      case ConnectTimer(i, id, elapsed) =>
        ProcessLater(m.(connectChecks := m.connectChecks - multiset{id}), ConnectCheck(id, elapsed));
        ApplyExtends(s, i, FireConnectCheck(m, id, elapsed));
      case DisconnectTimer(i, id) =>
        ProcessLater(m.(disconnectChecks := m.disconnectChecks - multiset{id}), DisconnectCheck(id));
        ApplyExtends(s, i, FireDisconnectCheck(m, id));
      case InterfaceGone(i) => ApplyExtends(s, i, Stay(InterfaceDown(m)));
      case ModemAnswer(i, e) => if IsAnswer(e) { ApplyExtends(s, i, Stay(Post(m, e))); }
    }
  }

  lemma TouchedExtends(s: System, s': System, host: bool)
    requires PoolTouched(s, s', host)
    ensures Extends(s, s')
  {
    forall i | 0 <= i < |s.pool|
      ensures Later(s.pool[i], s'.pool[i])
    {
      assert Touched(Before(s, i), s'.pool[i], host);
    }
  }

  lemma StepExtends(s: System, a: Action)
    ensures Extends(s, Step(s, a))
  {
    if OfMachine(a) {
      MachineActionExtends(s, a);
    } else {
      HandlerTouches(s, a);
      TouchedExtends(s, HandlerAction(s, a), a.HostDeath?);
    }
  }

  /** Along any continuation of a run no machine forgets, alters or reorders an accepted
      attempt or a completion, and generations never go back. */
  lemma {:induction false} HistoryOnlyGrows(s: System, run: seq<Action>)
    ensures Extends(s, Exec(s, run))
    decreases |run|
  {
    if run != [] {
      var t := Exec(s, run[..|run| - 1]);
      HistoryOnlyGrows(s, run[..|run| - 1]);
      StepExtends(t, run[|run| - 1]);
      ExtendsTrans(s, t, Exec(s, run));
    }
  }

  // ---- Retries are followed up ----

  /** Still waiting to retry, or asked for again. */
  predicate FollowedUp(s: System, h: ApnId) {
    h in s.holders && (WaitsToRetry(s.holders[h]) || h in s.requests)
  }

  lemma ReportFollowsUp(s: System, envs: map<ApnId, Admission>, h: ApnId)
    requires Inv(s) && h in s.holders && WaitsToRetry(s.holders[h])
    ensures FollowedUp(HandleReport(s, envs), h)
  {
    if s.inbox != [] {
      ReporterIsHeld(s);
      if s.inbox[0].Disconnected? {
        TakeBackFacts(s);
        CompletionGentle(s, envs);
      }
    }
  }

  lemma ApnChangeFollowsUp(s: System, clear: bool, stuck: bool, h: ApnId)
    requires h in s.holders && WaitsToRetry(s.holders[h]) && h in HOLDER_ORDER
    ensures FollowedUp(ApnChanged(s, clear, stuck), h)
  {
    ClearEachClears(s, HOLDER_ORDER, ReasonClear);
    ResetShape(if clear then ClearAllConnections(s, ReasonClear, stuck) else s, HOLDER_ORDER);
  }

  lemma MassActionFollowsUp(s: System, a: Action, h: ApnId)
    requires Inv(s) && ForAllHolders(a) && h in s.holders && WaitsToRetry(s.holders[h])
    ensures FollowedUp(HandlerAction(s, a), h)
  {
    MassActionRuns(s, a);
    match a
    case EstablishAll(envs) => EstablishEachGentle(s, SORTED_ORDER, envs);
    case ClearAll(reason, stuck) => ClearEachClears(s, HOLDER_ORDER, reason);
    case RatChanged(changed) => ClearChangedClears(s, HOLDER_ORDER, changed);
    case ApnsChanged(clear, stuck) =>
      assert h in ROLES;
      ApnChangeFollowsUp(s, clear, stuck, h);
  }

  lemma HandlerFollowsUp(s: System, a: Action, h: ApnId)
    requires Inv(s) && !OfMachine(a) && h in s.holders && WaitsToRetry(s.holders[h])
    ensures FollowedUp(HandlerAction(s, a), h)
  {
    if ForAllHolders(a) {
      MassActionFollowsUp(s, a, h);
    } else {
      ActionRuns(s, a);
      if a.NextReport? {
        ReportFollowsUp(s, a.envs, h);
      } else if a.Establish? {
        MsgEstablishGentle(s, a.h, a.env, a.cardAllowed, a.bearer, a.primarySlot);
      }
    }
  }

  /** Whatever happens, a holder that stops waiting for its retry has an establish event
      pending in the same moment, even when all retry events are dropped at once. */
  lemma RetryIsFollowedUp(s: System, a: Action, h: ApnId)
    requires Reachable(s) && h in s.holders && s.holders[h].state.Retrying?
    ensures h in Step(s, a).holders && (Step(s, a).holders[h].state.Retrying? || h in Step(s, a).requests)
  {
    ReachableInv(s);
    assert HolderOk(s, h);
    if !OfMachine(a) {
      HandlerFollowsUp(s, a, h);
    }
  }

  // ---- Single connection ----

  ghost predicate AtMostOne(s: System) {
    forall g, h | g in s.holders && h in s.holders && s.holders[g].machine.Some? && s.holders[h].machine.Some? :: g == h
  }

  /** No holder gained a machine. */
  ghost predicate NoGain(s: System, s': System) {
    && s'.holders.Keys == s.holders.Keys
    && forall h | h in s.holders && s.holders[h].machine.None? :: s'.holders[h].machine.None?
  }

  lemma NoGainKeepsOne(s: System, s': System)
    requires AtMostOne(s) && NoGain(s, s')
    ensures AtMostOne(s')
  {
  }

  /** When the overall state is neither connecting nor connected, nobody holds a machine. */
  lemma QuietMeansNoMachine(s: System)
    requires Inv(s) && Quiet(s)
    ensures forall h | h in s.holders :: s.holders[h].machine.None?
  {
    forall h | h in s.holders
      ensures s.holders[h].machine.None?
    {
      assert HolderOk(s, h);
      assert !AnyIn(s, Connected, Releasing) && !AnyIn(s, Connecting, Retrying);
    }
  }

  lemma AllocateOne(s: System, h: ApnId)
    requires h in s.holders && forall g | g in s.holders :: s.holders[g].machine.None?
    ensures AtMostOne(Allocate(s, h))
  {
  }

  predicate Quiet(s: System) {
    !OverallState(s).Connecting? && !OverallState(s).Connected?
  }

  /** In single-connection mode a machine is handed out only when everything is down. */
  lemma HandedOutWhenQuiet(s: System, h: ApnId, env: Admission)
    requires h in s.holders && env.single
    ensures var s' := EstablishDataConnection(s, h, env);
            NoGain(s, s') || (Quiet(s) && s' == Allocate(s, h))
  {
    ClearEachClears(s, HOLDER_ORDER, ReasonChange);
  }

  lemma EstablishOne(s: System, h: ApnId, env: Admission)
    requires Inv(s) && AtMostOne(s) && h in s.holders && env.single
    ensures AtMostOne(EstablishDataConnection(s, h, env))
  {
    HandedOutWhenQuiet(s, h, env);
    var s' := EstablishDataConnection(s, h, env);
    if NoGain(s, s') {
      NoGainKeepsOne(s, s');
    } else {
      QuietMeansNoMachine(s);
      AllocateOne(s, h);
    }
  }

  lemma AttemptOne(s: System, h: ApnId, env: Admission)
    requires Inv(s) && AtMostOne(s) && (env.admitted ==> env.single)
    ensures AtMostOne(AttemptEstablish(s, h, env))
  {
    NoGainKeepsOne(s, Ask(s, h));
    if h in s.holders && env.admitted && (s.holders[h].state.Idle? || s.holders[h].state.Failed?) {
      assert HolderOk(s, h);
      var s1 := SetState(s, h, Idle);
      assert s1 == s by { assert s1.holders == s.holders; }
      if env.matched {
        if h == DEFAULT_ID {
          ReleaseSharedKeeps(s, HOLDER_ORDER, h);
          ReleaseSharedClears(s, HOLDER_ORDER);
          NoGainKeepsOne(s, ReleaseShared(s, HOLDER_ORDER));
          EstablishOne(ReleaseShared(s, HOLDER_ORDER), h, env);
        } else {
          EstablishOne(s, h, env);
        }
      }
    }
  }

  ghost predicate SingleEnvs(envs: map<ApnId, Admission>) {
    forall h | h in envs :: envs[h].single
  }

  lemma {:induction false} EstablishEachOne(s: System, hs: seq<ApnId>, envs: map<ApnId, Admission>)
    requires Inv(s) && AtMostOne(s) && SingleEnvs(envs)
    ensures AtMostOne(EstablishEach(s, hs, envs))
    decreases |hs|
  {
    if hs != [] {
      var h := hs[0];
      if h in s.holders && s.holders[h].enabled {
        ClearKeeps(s, h, ReasonClear);
        ClearClears(s, h, ReasonClear);
        NoGainKeepsOne(s, ReleaseDataConnection(s, h));
        var s1 := if s.holders[h].state.Failed? || s.holders[h].state.Retrying?
                  then ReleaseDataConnection(s, h) else s;
        AttemptOne(s1, h, EnvOf(envs, h));
        AttemptKeeps(s1, h, EnvOf(envs, h));
        EstablishEachOne(AttemptEstablish(s1, h, EnvOf(envs, h)), hs[1..], envs);
      } else {
        EstablishEachOne(s, hs[1..], envs);
      }
    }
  }

  lemma RetryOrClearOne(s: System, h: ApnId, reason: DisconnectReason, envs: map<ApnId, Admission>)
    requires Inv(s) && AtMostOne(s) && SingleEnvs(envs) && h in s.holders && s.holders[h].machine.None?
    ensures AtMostOne(RetryOrClear(s, h, reason, envs))
  {
    assert ClearConnection(s, h, reason) == s;
    if reason.ReasonClear? {
      EstablishEachOne(s, SORTED_ORDER, envs);
    } else {
      NoGainKeepsOne(s, RetryOrClear(s, h, reason, envs));
    }
  }

  lemma ReportOne(s: System, envs: map<ApnId, Admission>)
    requires Inv(s) && AtMostOne(s) && SingleEnvs(envs) && s.inbox != []
    ensures AtMostOne(HandleReport(s, envs))
  {
    ReporterIsHeld(s);
    if s.inbox[0].Established? {
      NoGainKeepsOne(s, EstablishComplete(s));
    } else {
      var h := s.inbox[0].flag;
      var t := TakeBack(s);
      TakeBackFacts(s);
      TakeBackKeeps(s);
      NoGainKeepsOne(s, t);
      var reason := ToDisconnectReason(s.inbox[0].info.reason);
      var u := if t.holders[h].enabled then RetryOrClear(t, h, reason, envs) else t;
      RetryOrClearOne(t, h, reason, envs);
      NoGainKeepsOne(u, SortConnection(u));
    }
  }

  lemma MachineActionNoGain(s: System, a: Action)
    requires OfMachine(a)
    ensures NoGain(s, MachineAction(s, a))
  {
  }

  /** Single-connection mode is in force whenever the action asks. */
  ghost predicate SingleAction(a: Action) {
    match a
    case Establish(_, env, _, _, _) => env.single
    case NextReport(envs) => SingleEnvs(envs)
    case EstablishAll(envs) => SingleEnvs(envs)
    case _ => true
  }

  /** Actions that never hand out a machine. */
  predicate Frugal(a: Action) {
    !a.NextReport? && !a.Establish? && !a.EstablishAll?
  }

  lemma ApnChangedNoGain(s: System, clear: bool, stuck: bool)
    ensures NoGain(s, ApnChanged(s, clear, stuck))
  {
    ClearEachClears(s, HOLDER_ORDER, ReasonClear);
    ResetShape(if clear then ClearAllConnections(s, ReasonClear, stuck) else s, HOLDER_ORDER);
  }

  lemma FrugalNoGain(s: System, a: Action)
    requires Frugal(a) && !OfMachine(a)
    ensures NoGain(s, HandlerAction(s, a))
  {
    if ForAllHolders(a) {
      FrugalMassNoGain(s, a);
    } else {
      ActionRuns(s, a);
    }
  }

  lemma FrugalMassNoGain(s: System, a: Action)
    requires Frugal(a) && ForAllHolders(a)
    ensures NoGain(s, HandlerAction(s, a))
  {
    MassActionRuns(s, a);
    match a
    case ClearAll(reason, stuck) => ClearEachClears(s, HOLDER_ORDER, reason);
    case RatChanged(changed) => ClearChangedClears(s, HOLDER_ORDER, changed);
    case ApnsChanged(clear, stuck) => ApnChangedNoGain(s, clear, stuck);
  }

  lemma EstablishMsgOne(s: System, h: ApnId, env: Admission, allowed: bool, bearer: Bearer, primary: bool)
    requires Inv(s) && AtMostOne(s) && env.single
    ensures AtMostOne(MsgEstablish(s, h, env, allowed, bearer, primary))
  {
    var t := s.(requests := s.requests - multiset{h});
    RequestsKeep(s, t.requests);
    NoGainKeepsOne(s, t);
    AttemptOne(t, h, env);
    var reason := ReleaseReason(h, env.single, bearer, primary);
    ClearClears(t, h, reason);
    NoGainKeepsOne(t, ClearConnection(t, h, reason));
  }

  lemma HandlerOne(s: System, a: Action)
    requires Inv(s) && AtMostOne(s) && SingleAction(a) && !OfMachine(a)
    ensures AtMostOne(HandlerAction(s, a))
  {
    if Frugal(a) {
      FrugalNoGain(s, a);
      NoGainKeepsOne(s, HandlerAction(s, a));
    } else {
      ActionRuns(s, a);
      MassActionRuns(s, a);
      match a
      case NextReport(envs) => if s.inbox != [] { ReportOne(s, envs); }
      case Establish(h, env, allowed, bearer, primary) => EstablishMsgOne(s, h, env, allowed, bearer, primary);
      case EstablishAll(envs) => EstablishEachOne(s, SORTED_ORDER, envs);
    }
  }

  lemma StepOne(s: System, a: Action)
    requires Inv(s) && AtMostOne(s) && SingleAction(a)
    ensures AtMostOne(Step(s, a))
  {
    if OfMachine(a) {
      MachineActionNoGain(s, a);
      NoGainKeepsOne(s, MachineAction(s, a));
    } else {
      HandlerOne(s, a);
    }
  }

  /** In a run that stays in single-connection mode at most one holder ever holds a machine. */
  lemma {:induction false} SinglePdpExclusion(run: seq<Action>)
    requires forall k | 0 <= k < |run| :: SingleAction(run[k])
    ensures AtMostOne(Exec(Boot(), run))
    decreases |run|
  {
    if run != [] {
      var front := run[..|run| - 1];
      SinglePdpExclusion(front);
      RunKeeps(front);
      StepOne(Exec(Boot(), front), run[|run| - 1]);
    }
  }
}
