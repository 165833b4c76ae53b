/** What the handler leaves alone: it only adds to the queues of machines, and only a
    completion touches the cid index. */
module ProtocolFrames {
  import opened Options
  import opened ReasonCodes
  import opened ConnectionMachine
  import opened AttemptInvariant
  import opened AttemptSteps
  import opened Handler
  import opened ProtocolInvariant
  import opened Protocol

  /** What the handler sends to machines; the last kind only when the host has died. */
  predicate FromHandler(e: Event, host: bool) {
    e.Connect? || e.Disconnect? || e.LostConnection? || (host && e.HostDied?)
  }

  ghost predicate Appended(p: seq<Event>, q: seq<Event>, host: bool) {
    p <= q && forall k | |p| <= k < |q| :: FromHandler(q[k], host)
  }

  /** Only the ordinary queue, by such events, and the number of grants grew. */
  ghost predicate Touched(m: Machine, m': Machine, host: bool) {
    && m' == m.(ordinary := m'.ordinary, grants := m'.grants)
    && m.grants <= m'.grants
    && Appended(m.ordinary, m'.ordinary, host)
  }

  lemma AppendedTrans(p: seq<Event>, q: seq<Event>, r: seq<Event>, host: bool)
    requires Appended(p, q, host) && Appended(q, r, host)
    ensures Appended(p, r, host)
  {
    forall k | |p| <= k < |r|
      ensures FromHandler(r[k], host)
    {
      if k < |q| {
        assert r[k] == q[k];
      }
    }
  }

  /** Machine j, or a new one if it does not exist yet. */
  function Before(s: System, j: nat): Machine {
    if j < |s.pool| then s.pool[j] else NEW_MACHINE
  }

  ghost predicate PoolTouched(s: System, s': System, host: bool) {
    |s.pool| <= |s'.pool| && forall j | 0 <= j < |s'.pool| :: Touched(Before(s, j), s'.pool[j], host)
  }

  ghost predicate SameHands(s: System, s': System) {
    s'.holders.Keys == s.holders.Keys && forall g | g in s.holders :: s'.holders[g].machine == s.holders[g].machine
  }

  predicate WaitsToRetry(x: Holder) {
    x.state.Retrying? && x.machine.None?
  }

  /** Nothing held while idle. */
  predicate Bare(x: Holder) {
    x.state.Idle? || x.state.Failed? ==> x.machine.None?
  }

  /** The holder does not become connected and does not lose a machine. */
  predicate Calmed(x: Holder, y: Holder) {
    && (y.state.Connected? ==> x.state.Connected? && y.machine == x.machine)
    && (Bare(x) ==> Bare(y))
    && (Bare(x) && x.machine.Some? ==> y.machine == x.machine)
  }

  ghost predicate HoldersCalm(s: System, s': System) {
    s'.holders.Keys == s.holders.Keys && forall g | g in s.holders :: Calmed(s.holders[g], s'.holders[g])
  }

  ghost predicate StillRetrying(s: System, s': System) {
    && s'.holders.Keys == s.holders.Keys
    && forall g | g in s.holders && WaitsToRetry(s.holders[g]) :: WaitsToRetry(s'.holders[g])
  }

  /** No machine is moved on or taken away, no report taken, no cid entry changed, no holder
      connected, no retry given up. */
  ghost predicate Gentle(s: System, s': System) {
    && PoolTouched(s, s', false) && s'.cidIndex == s.cidIndex && s'.inbox == s.inbox
    && HoldersCalm(s, s') && StillRetrying(s, s')
  }

  lemma PoolTrans(s: System, t: System, u: System, host: bool)
    requires PoolTouched(s, t, host) && PoolTouched(t, u, host)
    ensures PoolTouched(s, u, host)
  {
    forall j | 0 <= j < |u.pool|
      ensures Touched(Before(s, j), u.pool[j], host)
    {
      assert Touched(Before(t, j), u.pool[j], host);
      assert Touched(Before(s, j), Before(t, j), host);
      AppendedTrans(Before(s, j).ordinary, Before(t, j).ordinary, u.pool[j].ordinary, host);
    }
  }

  lemma GentleTrans(s: System, t: System, u: System)
    requires Gentle(s, t) && Gentle(t, u)
    ensures Gentle(s, u)
  {
    PoolTrans(s, t, u, false);
  }

  lemma SamePoolGentle(s: System, s': System)
    requires s'.pool == s.pool && s'.cidIndex == s.cidIndex && s'.inbox == s.inbox
    requires HoldersCalm(s, s') && StillRetrying(s, s')
    ensures Gentle(s, s')
  {
  }

  // ---- Releasing ----

  ghost predicate Clears(s: System, s': System) {
    Gentle(s, s') && SameHands(s, s')
  }

  lemma ClearsTrans(s: System, t: System, u: System)
    requires Clears(s, t) && Clears(t, u)
    ensures Clears(s, u)
  {
    GentleTrans(s, t, u);
  }

  lemma SendTouches(s: System, h: ApnId, i: nat, reason: DisconnectReason)
    requires h in s.holders && i < |s.pool|
    ensures PoolTouched(s, SendDisconnect(s, h, i, reason), false)
  {
    var s' := SendDisconnect(s, h, i, reason);
    forall j | 0 <= j < |s'.pool|
      ensures Touched(Before(s, j), s'.pool[j], false)
    {
      assert j != i ==> s'.pool[j] == s.pool[j];
    }
  }

  lemma SendClears(s: System, h: ApnId, i: nat, reason: DisconnectReason)
    requires h in s.holders && s.holders[h].machine.Some? && i < |s.pool|
    ensures Clears(s, SendDisconnect(s, h, i, reason))
  {
    SendTouches(s, h, i, reason);
  }

  lemma ClearClears(s: System, h: ApnId, reason: DisconnectReason)
    ensures Clears(s, ClearConnection(s, h, reason)) && Clears(s, ReleaseDataConnection(s, h))
  {
    if HasMachine(s, h) {
      SendClears(s, h, s.holders[h].machine.value, reason);
      SendClears(s, h, s.holders[h].machine.value, ReasonClear);
    }
  }

  lemma {:induction false} ClearEachClears(s: System, hs: seq<ApnId>, reason: DisconnectReason)
    ensures Clears(s, ClearEach(s, hs, reason))
    decreases |hs|
  {
    if hs != [] {
      var t := if hs[0] == MMS_ID then s else ClearConnection(s, hs[0], reason);
      ClearClears(s, hs[0], reason);
      ClearEachClears(t, hs[1..], reason);
      ClearsTrans(s, t, ClearEach(t, hs[1..], reason));
    }
  }

  lemma {:induction false} ClearChangedClears(s: System, hs: seq<ApnId>, changed: set<ApnId>)
    ensures Clears(s, ClearChanged(s, hs, changed))
    decreases |hs|
  {
    if hs != [] {
      var h := hs[0];
      var t := if h in changed && h in s.holders && !s.holders[h].state.Idle? && !s.holders[h].state.Failed?
               then ClearConnection(s, h, ReasonRetry) else s;
      ClearClears(s, h, ReasonRetry);
      ClearChangedClears(t, hs[1..], changed);
      ClearsTrans(s, t, ClearChanged(t, hs[1..], changed));
    }
  }

  lemma {:induction false} ReleaseSharedClears(s: System, hs: seq<ApnId>)
    ensures Clears(s, ReleaseShared(s, hs))
    decreases |hs|
  {
    if hs != [] {
      var h := hs[0];
      var t := if (h == BIP_ID || h == DUN_ID) && h in s.holders &&
                  (s.holders[h].state.Connected? || s.holders[h].state.Connecting?)
               then ReleaseDataConnection(s, h) else s;
      ClearClears(s, h, ReasonClear);
      ReleaseSharedClears(t, hs[1..]);
      ClearsTrans(s, t, ReleaseShared(t, hs[1..]));
    }
  }

  // ---- Connecting ----

  lemma AllocateTouches(s: System, h: ApnId)
    requires h in s.holders
    ensures PoolTouched(s, Allocate(s, h), false)
  {
    var s' := Allocate(s, h);
    var i := FirstIdle(s, 0);
    forall j | 0 <= j < |s'.pool|
      ensures Touched(Before(s, j), s'.pool[j], false)
    {
      if j != i {
        assert s'.pool[j] == s.pool[j];
      } else {
        assert s'.pool[j] == Grant(Before(s, j), h);
      }
    }
  }

  lemma EstablishGentle(s: System, h: ApnId, env: Admission)
    requires h in s.holders && s.holders[h].state.Idle?
    ensures Gentle(s, EstablishDataConnection(s, h, env))
  {
    ClearEachClears(s, HOLDER_ORDER, ReasonChange);
    AllocateGentle(s, h);
    SamePoolGentle(s, s);
    SamePoolGentle(s, Ask(s, h));
    SamePoolGentle(s, SetEnabled(s, h, false));
  }

  lemma AllocateGentle(s: System, h: ApnId)
    requires h in s.holders && s.holders[h].state.Idle?
    ensures Gentle(s, Allocate(s, h))
  {
    AllocateTouches(s, h);
  }

  lemma AttemptGentle(s: System, h: ApnId, env: Admission)
    ensures Gentle(s, AttemptEstablish(s, h, env))
  {
    SamePoolGentle(s, Ask(s, h));
    if h in s.holders && env.admitted && (s.holders[h].state.Idle? || s.holders[h].state.Failed?) {
      var s1 := SetState(s, h, Idle);
      SamePoolGentle(s, s1);
      if env.matched {
        ReleaseSharedClears(s1, HOLDER_ORDER);
        var s2 := if h == DEFAULT_ID then ReleaseShared(s1, HOLDER_ORDER) else s1;
        GentleTrans(s, s1, s2);
        ReleaseSharedSpares(s1, HOLDER_ORDER, DEFAULT_ID);
        EstablishGentle(s2, h, env);
        GentleTrans(s, s2, EstablishDataConnection(s2, h, env));
      }
    }
  }

  /** Making room leaves every role but BIP and DUN as it is. */
  lemma {:induction false} ReleaseSharedSpares(s: System, hs: seq<ApnId>, d: ApnId)
    requires d != BIP_ID && d != DUN_ID
    ensures ReleaseShared(s, hs).holders.Keys == s.holders.Keys
    ensures d in s.holders ==> ReleaseShared(s, hs).holders[d] == s.holders[d]
    decreases |hs|
  {
    if hs != [] {
      var h := hs[0];
      ReleaseSharedSpares(
        if (h == BIP_ID || h == DUN_ID) && h in s.holders &&
           (s.holders[h].state.Connected? || s.holders[h].state.Connecting?)
        then ReleaseDataConnection(s, h) else s, hs[1..], d);
    }
  }

  lemma {:induction false} EstablishEachGentle(s: System, hs: seq<ApnId>, envs: map<ApnId, Admission>)
    ensures Gentle(s, EstablishEach(s, hs, envs))
    decreases |hs|
  {
    if hs != [] {
      var h := hs[0];
      if h in s.holders && s.holders[h].enabled {
        var s1 := if s.holders[h].state.Failed? || s.holders[h].state.Retrying?
                  then ReleaseDataConnection(s, h) else s;
        var s2 := AttemptEstablish(s1, h, EnvOf(envs, h));
        ClearClears(s, h, ReasonClear);
        AttemptGentle(s1, h, EnvOf(envs, h));
        GentleTrans(s, s1, s2);
        EstablishEachGentle(s2, hs[1..], envs);
        GentleTrans(s, s2, EstablishEach(s2, hs[1..], envs));
      } else {
        EstablishEachGentle(s, hs[1..], envs);
      }
    }
  }

  // ---- Reports ----

  lemma RetryOrClearGentle(s: System, h: ApnId, reason: DisconnectReason, envs: map<ApnId, Admission>)
    requires h in s.holders && s.holders[h].machine.None?
    ensures Gentle(s, RetryOrClear(s, h, reason, envs))
  {
    match reason
    case ReasonClear =>
      var t := ClearConnection(s, h, reason);
      ClearClears(s, h, reason);
      EstablishEachGentle(t, SORTED_ORDER, envs);
      GentleTrans(s, t, EstablishEach(t, SORTED_ORDER, envs));
    case ReasonPermanentReject => ClearClears(s, h, ReasonClear);
    case _ => SamePoolGentle(s, RetryOrClear(s, h, reason, envs));
  }

  lemma SortGentle(s: System)
    ensures Gentle(s, SortConnection(s))
  {
    var next := FirstEnabled(s, SORTED_ORDER);
    SamePoolGentle(s, s);
    if next.Some? {
      SamePoolGentle(s, Ask(s, next.value));
    }
  }

  /** After the machine is given back the rest of a completion is gentle. */
  lemma CompletionGentle(s: System, envs: map<ApnId, Admission>)
    requires s.inbox != [] && s.inbox[0].Disconnected? && HasMachine(s, s.inbox[0].flag)
    ensures Gentle(TakeBack(s), DisconnectComplete(s, envs))
  {
    var h := s.inbox[0].flag;
    var reason := ToDisconnectReason(s.inbox[0].info.reason);
    var b := TakeBack(s);
    SamePoolGentle(b, b);
    RetryOrClearGentle(b, h, reason, envs);
    var t := if b.holders[h].enabled then RetryOrClear(b, h, reason, envs) else b;
    SortGentle(t);
    GentleTrans(b, t, SortConnection(t));
  }

  lemma ReportTouches(s: System, envs: map<ApnId, Admission>)
    ensures PoolTouched(s, HandleReport(s, envs), false)
  {
    SelfTouched(s, s);
    if s.inbox != [] {
      if s.inbox[0].Established? {
        SelfTouched(s, EstablishComplete(s));
      } else {
        SelfTouched(s, TakeBack(s));
        if HasMachine(s, s.inbox[0].flag) {
          CompletionGentle(s, envs);
          PoolTrans(s, TakeBack(s), DisconnectComplete(s, envs), false);
        }
      }
    }
  }

  lemma SelfTouched(s: System, s': System)
    requires s'.pool == s.pool
    ensures PoolTouched(s, s', false)
  {
  }

  lemma NoticesTouch(s: System, ended: map<int, CallInfo>)
    ensures PoolTouched(s, NotifyEnded(s, ended), false) && PoolTouched(s, NotifyHostDied(s), true)
  {
  }

  lemma MsgEstablishGentle(s: System, h: ApnId, env: Admission, allowed: bool, bearer: Bearer, primary: bool)
    ensures Gentle(s, MsgEstablish(s, h, env, allowed, bearer, primary))
  {
    var t := s.(requests := s.requests - multiset{h});
    SamePoolGentle(s, t);
    AttemptGentle(t, h, env);
    GentleTrans(s, t, AttemptEstablish(t, h, env));
    var reason := ReleaseReason(h, env.single, bearer, primary);
    ClearClears(t, h, reason);
    GentleTrans(s, t, ClearConnection(t, h, reason));
  }

  lemma ApnChangedTouches(s: System, clear: bool, stuck: bool)
    ensures PoolTouched(s, ApnChanged(s, clear, stuck), false) && ApnChanged(s, clear, stuck).cidIndex == s.cidIndex
  {
    ClearEachClears(s, HOLDER_ORDER, ReasonClear);
    SelfTouched(s, s);
    var t := if clear then ClearAllConnections(s, ReasonClear, stuck) else s;
    ResetShape(t, HOLDER_ORDER);
    SelfTouched(t, ApnChanged(s, clear, stuck));
    PoolTrans(s, t, ApnChanged(s, clear, stuck), false);
  }

  /** Whatever the handler does, it only adds to the queues of machines. */
  lemma HandlerTouches(s: System, a: Action)
    requires !OfMachine(a)
    ensures PoolTouched(s, HandlerAction(s, a), a.HostDeath?)
  {
    ActionRuns(s, a);
    match a
    case CallListChanged(ended) => NoticesTouch(s, ended);
    case HostDeath => NoticesTouch(s, map[]);
    case NextReport(envs) => ReportTouches(s, envs);
    case RequestNetwork(h, on) => SelfTouched(s, NetworkRequested(s, h, on));
    case Establish(h, env, allowed, bearer, primary) => MsgEstablishGentle(s, h, env, allowed, bearer, primary);
    case RetryTimer(h) => SelfTouched(s, RetryToSetup(s, h));
    case _ => MassActionTouches(s, a);
  }

  lemma MassActionTouches(s: System, a: Action)
    requires ForAllHolders(a)
    ensures PoolTouched(s, HandlerAction(s, a), false) && HandlerAction(s, a).cidIndex == s.cidIndex
  {
    MassActionRuns(s, a);
    SelfTouched(s, s);
    match a
    case EstablishAll(envs) => EstablishEachGentle(s, SORTED_ORDER, envs);
    case ClearAll(reason, stuck) => ClearEachClears(s, HOLDER_ORDER, reason);
    case RatChanged(changed) => ClearChangedClears(s, HOLDER_ORDER, changed);
    case ApnsChanged(clear, stuck) => ApnChangedTouches(s, clear, stuck);
  }

  lemma ApnChangedCalm(s: System, clear: bool, stuck: bool)
    requires Inv(s)
    ensures HoldersCalm(s, ApnChanged(s, clear, stuck)) && ApnChanged(s, clear, stuck).inbox == s.inbox
  {
    ClearEachClears(s, HOLDER_ORDER, ReasonClear);
    ClearEachKeeps(s, HOLDER_ORDER, ReasonClear);
    var t := if clear then ClearAllConnections(s, ReasonClear, stuck) else s;
    ResetShape(t, HOLDER_ORDER);
    ResetCalm(t);
  }

  lemma ResetCalm(t: System)
    requires Inv(t)
    ensures HoldersCalm(t, ResetRetrying(t, HOLDER_ORDER))
  {
    ResetShape(t, HOLDER_ORDER);
    forall g | g in t.holders
      ensures Calmed(t.holders[g], ResetRetrying(t, HOLDER_ORDER).holders[g])
    {
      assert HolderOk(t, g);
    }
  }

  lemma MassActionCalm(s: System, a: Action)
    requires Inv(s) && ForAllHolders(a)
    ensures HoldersCalm(s, HandlerAction(s, a)) && HandlerAction(s, a).inbox == s.inbox
  {
    MassActionRuns(s, a);
    match a
    case EstablishAll(envs) => EstablishEachGentle(s, SORTED_ORDER, envs);
    case ClearAll(reason, stuck) => ClearEachClears(s, HOLDER_ORDER, reason);
    case RatChanged(changed) => ClearChangedClears(s, HOLDER_ORDER, changed);
    case ApnsChanged(clear, stuck) => ApnChangedCalm(s, clear, stuck);
  }

  lemma RetryCalm(s: System, h: ApnId)
    requires Inv(s)
    ensures HoldersCalm(s, RetryToSetup(s, h))
  {
    if h in s.holders {
      assert HolderOk(s, h);
    }
  }

  /** Only a report makes a holder connected or takes its machine. */
  lemma HandlerCalm(s: System, a: Action)
    requires Inv(s) && !OfMachine(a) && !a.NextReport?
    ensures HoldersCalm(s, HandlerAction(s, a)) && HandlerAction(s, a).inbox == s.inbox
  {
    if ForAllHolders(a) {
      MassActionCalm(s, a);
    } else {
      ActionRuns(s, a);
      if a.RetryTimer? {
        RetryCalm(s, a.h);
      } else if a.Establish? {
        MsgEstablishGentle(s, a.h, a.env, a.cardAllowed, a.bearer, a.primarySlot);
      }
    }
  }

  /** Under the invariant nobody is idle with a machine. */
  lemma AllBare(s: System, g: ApnId)
    requires Inv(s) && g in s.holders
    ensures Bare(s.holders[g])
  {
    assert HolderOk(s, g);
  }
}
