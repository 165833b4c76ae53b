/** The whole protocol as a step system: machines dispatch events, the modem answers
    when it likes, and the handler reacts. Every action keeps the invariant, so it
    holds after every run. */
module Protocol {
  import opened Options
  import opened ReasonCodes
  import opened ConnectionMachine
  import opened AttemptInvariant
  import opened AttemptSteps
  import opened Handler
  import opened ProtocolInvariant

  datatype Action =
    | Dispatch(i: nat)
    | ConnectTimer(i: nat, id: nat, clockElapsed: bool)
    | DisconnectTimer(i: nat, id: nat)
    | InterfaceGone(i: nat)
    | ModemAnswer(i: nat, answer: Event)
    | CallListChanged(ended: map<int, CallInfo>)
    | HostDeath
    | NextReport(envs: map<ApnId, Admission>)
    | RequestNetwork(h: ApnId, on: bool)
    | Establish(h: ApnId, env: Admission, cardAllowed: bool, bearer: Bearer, primarySlot: bool)
    | EstablishAll(envs: map<ApnId, Admission>)
    | ClearAll(reason: DisconnectReason, handoverStuck: bool)
    | RatChanged(changed: set<ApnId>)
    | RetryTimer(h: ApnId)
    | ApnsChanged(clear: bool, handoverStuck: bool)

  predicate IsAnswer(e: Event) {
    e.SetupDone? || e.SetupError? || e.SetupEmpty? || e.DeactivateDone? || e.DeactivateEmpty?
  }

  function Apply(s: System, i: nat, r: Outcome): System
    requires i < |s.pool|
  {
    s.(pool := s.pool[i := r.m],
       inbox := s.inbox + r.out,
       cidIndex := if r.register then s.cidIndex[r.m.cid := i] else s.cidIndex)
  }

  /** Actions of one machine, its timers, its interface or the modem. */
  predicate OfMachine(a: Action) {
    a.Dispatch? || a.ConnectTimer? || a.DisconnectTimer? || a.InterfaceGone? || a.ModemAnswer?
  }

  function MachineAction(s: System, a: Action): System
    requires OfMachine(a)
  {
    if a.i >= |s.pool| then s
    else
      var m := s.pool[a.i];
      match a
      case Dispatch(i) => if HasNext(m) then Apply(s, i, DispatchNext(m)) else s
      case ConnectTimer(i, id, elapsed) => Apply(s, i, FireConnectCheck(m, id, elapsed))
      case DisconnectTimer(i, id) => Apply(s, i, FireDisconnectCheck(m, id))
      case InterfaceGone(i) => Apply(s, i, Stay(InterfaceDown(m)))
      case ModemAnswer(i, e) => if IsAnswer(e) then Apply(s, i, Stay(Post(m, e))) else s
  }

  function HandlerAction(s: System, a: Action): System
    requires !OfMachine(a)
  {
    match a
    case CallListChanged(ended) => NotifyEnded(s, ended)
    case HostDeath => NotifyHostDied(s)
    case NextReport(envs) => HandleReport(s, envs)
    case RequestNetwork(h, on) => NetworkRequested(s, h, on)
    case Establish(h, env, allowed, bearer, primary) => MsgEstablish(s, h, env, allowed, bearer, primary)
    case EstablishAll(envs) => EstablishEach(s, SORTED_ORDER, envs)
    case ClearAll(reason, stuck) => ClearAllConnections(s, reason, stuck)
    case RatChanged(changed) => ClearChanged(s, HOLDER_ORDER, changed)
    case RetryTimer(h) => RetryToSetup(s, h)
    case ApnsChanged(clear, stuck) => ApnChanged(s, clear, stuck)
  }

  /** One atomic step; an action that is not enabled leaves the state as it is. */
  function Step(s: System, a: Action): System {
    if OfMachine(a) then MachineAction(s, a) else HandlerAction(s, a)
  }

  function Exec(s: System, run: seq<Action>): System {
    if run == [] then s else Step(Exec(s, run[..|run| - 1]), run[|run| - 1])
  }

  /** Reached by some run from the boot state. */
  ghost predicate Reachable(s: System) {
    exists run :: Exec(Boot(), run) == s
  }

  // ---- Machine actions ----

  lemma RegistrationStays(m: Machine, e: Event)
    requires !e.Connect?
    requires m.phase.Activating? ==> m.grants == |m.accepted|
    ensures var r := Process(m, e);
            && (r.register ==> Registered(r.m) && !Registered(m))
            && (Registered(m) ==> Registered(r.m) && r.m.cid == m.cid)
  {
  }

  lemma ApplyKeeps(s: System, i: nat, h: ApnId, r: Outcome)
    requires Inv(s) && i < |s.pool| && h in s.holders && s.holders[h].machine == Some(i)
    requires Held(r.m, h, s.holders[h].state, For(s.inbox, h) + r.out)
    requires forall k | 0 <= k < |r.out| :: r.out[k].flag == h
    requires r.register ==> Registered(r.m)
    requires Registered(s.pool[i]) ==> Registered(r.m) && r.m.cid == s.pool[i].cid
    ensures Inv(Apply(s, i, r))
  {
    var s' := Apply(s, i, r);
    forall g | g in s.holders
      ensures For(s'.inbox, g) == For(s.inbox, g) + (if g == h then r.out else [])
    {
      ForConcat(s.inbox, r.out, g);
      if g == h {
        ForOwn(r.out, g);
      } else {
        ForOther(r.out, g);
      }
    }
    assert s'.holders == s.holders[h := s.holders[h]];
    assert PairStep(s, s', h, i);
    PairKeeps(s, s', h, i);
  }

  lemma NextIsNoConnect(m: Machine, h: ApnId, st: ApnState, box: seq<Report>)
    requires Held(m, h, st, box) && HasNext(m) && Registered(m)
    ensures !NextEvent(m).Connect?
  {
    assert !Waiting(m, h);
    if Busy(m, h) {
      assert Within(NextEvent(m), m.grants, m.grants);
    } else {
      assert Within(NextEvent(m), 0, m.grants);
    }
  }

  lemma ConnectRegistersNothing(m: Machine, e: Event)
    requires e.Connect?
    ensures !Process(m, e).register
  {
  }

  lemma DispatchKeeps(s: System, i: nat)
    requires Inv(s) && i < |s.pool| && HasNext(s.pool[i])
    ensures Inv(Apply(s, i, DispatchNext(s.pool[i])))
  {
    var m := s.pool[i];
    var r := DispatchNext(m);
    if InUse(s, i) {
      var h :| h in s.holders && s.holders[h].machine == Some(i);
      assert HolderOk(s, h);
      DispatchHeld(m, h, s.holders[h].state, For(s.inbox, h));
      var e := NextEvent(m);
      if Registered(m) {
        NextIsNoConnect(m, h, s.holders[h].state, For(s.inbox, h));
      }
      if e.Connect? {
        ConnectRegistersNothing(Popped(m), e);
      } else {
        RegistrationStays(Popped(m), e);
      }
      ApplyKeeps(s, i, h, r);
    } else {
      DispatchFree(m);
      FreeStepKeeps(s, i, r.m);
      assert Apply(s, i, r) == s.(pool := s.pool[i := r.m]);
    }
  }

  lemma ConnectTimerKeeps(s: System, i: nat, id: nat, elapsed: bool)
    requires Inv(s) && i < |s.pool|
    ensures Inv(Apply(s, i, FireConnectCheck(s.pool[i], id, elapsed)))
  {
    var m := s.pool[i];
    var r := FireConnectCheck(m, id, elapsed);
    if InUse(s, i) {
      var h :| h in s.holders && s.holders[h].machine == Some(i);
      assert HolderOk(s, h);
      ConnectCheckHeld(m, h, s.holders[h].state, For(s.inbox, h), id, elapsed);
      RegistrationStays(m.(connectChecks := m.connectChecks - multiset{id}), ConnectCheck(id, elapsed));
      ApplyKeeps(s, i, h, r);
    } else {
      FreeStepKeeps(s, i, r.m);
      assert Apply(s, i, r) == s.(pool := s.pool[i := r.m]);
    }
  }

  lemma DisconnectTimerKeeps(s: System, i: nat, id: nat)
    requires Inv(s) && i < |s.pool|
    ensures Inv(Apply(s, i, FireDisconnectCheck(s.pool[i], id)))
  {
    var m := s.pool[i];
    var r := FireDisconnectCheck(m, id);
    if InUse(s, i) {
      var h :| h in s.holders && s.holders[h].machine == Some(i);
      assert HolderOk(s, h);
      DisconnectCheckHeld(m, h, s.holders[h].state, For(s.inbox, h), id);
      RegistrationStays(m.(disconnectChecks := m.disconnectChecks - multiset{id}), DisconnectCheck(id));
      ApplyKeeps(s, i, h, r);
    } else {
      FreeStepKeeps(s, i, r.m);
      assert Apply(s, i, r) == s.(pool := s.pool[i := r.m]);
    }
  }

  lemma InterfaceGoneKeeps(s: System, i: nat)
    requires Inv(s) && i < |s.pool|
    ensures Inv(Apply(s, i, Stay(InterfaceDown(s.pool[i]))))
  {
    var m := s.pool[i];
    var r := Stay(InterfaceDown(m));
    if InUse(s, i) {
      var h :| h in s.holders && s.holders[h].machine == Some(i);
      assert HolderOk(s, h);
      var box := For(s.inbox, h);
      assert box + [] == box;
      InterfaceDownHeld(m, h, s.holders[h].state, box);
      ApplyKeeps(s, i, h, r);
    } else {
      FreeStepKeeps(s, i, r.m);
      assert Apply(s, i, r) == s.(pool := s.pool[i := r.m]);
    }
  }

  lemma AnswerKeeps(s: System, i: nat, e: Event)
    requires Inv(s) && i < |s.pool| && IsAnswer(e)
    ensures Inv(Apply(s, i, Stay(Post(s.pool[i], e))))
  {
    var m := s.pool[i];
    var r := Stay(Post(m, e));
    if InUse(s, i) {
      var h :| h in s.holders && s.holders[h].machine == Some(i);
      assert HolderOk(s, h);
      var box := For(s.inbox, h);
      assert box + [] == box;
      PostHeld(m, h, s.holders[h].state, box, e);
      ApplyKeeps(s, i, h, r);
    } else {
      PostFree(m, e);
      FreeStepKeeps(s, i, r.m);
      assert Apply(s, i, r) == s.(pool := s.pool[i := r.m]);
    }
  }

  lemma MachineActionKeeps(s: System, a: Action)
    requires Inv(s) && OfMachine(a)
    ensures Inv(MachineAction(s, a))
  {
    if a.i < |s.pool| {
      var m := s.pool[a.i];
      match a
      case Dispatch(i) => if HasNext(m) { DispatchKeeps(s, i); }
      case ConnectTimer(i, id, elapsed) => ConnectTimerKeeps(s, i, id, elapsed);
      case DisconnectTimer(i, id) => DisconnectTimerKeeps(s, i, id);
      case InterfaceGone(i) => InterfaceGoneKeeps(s, i);
      case ModemAnswer(i, e) => if IsAnswer(e) { AnswerKeeps(s, i, e); }
    }
  }

  // ---- Handler actions ----

  lemma SendDisconnectKeeps(s: System, h: ApnId, reason: DisconnectReason)
    requires Inv(s) && HasMachine(s, h)
    ensures Inv(SendDisconnect(s, h, s.holders[h].machine.value, reason))
  {
    var i := s.holders[h].machine.value;
    var s' := SendDisconnect(s, h, i, reason);
    assert HolderOk(s, h);
    ReleaseHeld(s.pool[i], h, s.holders[h].state, For(s.inbox, h), reason);
    assert PairStep(s, s', h, i);
    PairKeeps(s, s', h, i);
  }

  lemma ClearKeeps(s: System, h: ApnId, reason: DisconnectReason)
    requires Inv(s)
    ensures Inv(ClearConnection(s, h, reason)) && Inv(ReleaseDataConnection(s, h))
    ensures ClearConnection(s, h, reason).holders.Keys == s.holders.Keys
    ensures ReleaseDataConnection(s, h).holders.Keys == s.holders.Keys
  {
    if HasMachine(s, h) {
      SendDisconnectKeeps(s, h, reason);
      SendDisconnectKeeps(s, h, ReasonClear);
    }
  }

  lemma {:induction false} ClearEachKeeps(s: System, hs: seq<ApnId>, reason: DisconnectReason)
    requires Inv(s)
    ensures Inv(ClearEach(s, hs, reason))
    decreases |hs|
  {
    if hs != [] {
      ClearKeeps(s, hs[0], reason);
      ClearEachKeeps(if hs[0] == MMS_ID then s else ClearConnection(s, hs[0], reason), hs[1..], reason);
    }
  }

  lemma {:induction false} ClearChangedKeeps(s: System, hs: seq<ApnId>, changed: set<ApnId>)
    requires Inv(s)
    ensures Inv(ClearChanged(s, hs, changed))
    decreases |hs|
  {
    if hs != [] {
      ClearKeeps(s, hs[0], ReasonRetry);
      var h := hs[0];
      ClearChangedKeeps(
        if h in changed && h in s.holders && !s.holders[h].state.Idle? && !s.holders[h].state.Failed?
        then ClearConnection(s, h, ReasonRetry) else s, hs[1..], changed);
    }
  }

  lemma {:induction false} ReleaseSharedKeeps(s: System, hs: seq<ApnId>, d: ApnId)
    requires Inv(s) && d in s.holders && d != BIP_ID && d != DUN_ID
    ensures Inv(ReleaseShared(s, hs))
    ensures d in ReleaseShared(s, hs).holders && ReleaseShared(s, hs).holders[d] == s.holders[d]
    decreases |hs|
  {
    if hs != [] {
      var h := hs[0];
      ClearKeeps(s, h, ReasonRetry);
      ReleaseSharedKeeps(
        if (h == BIP_ID || h == DUN_ID) && h in s.holders &&
           (s.holders[h].state.Connected? || s.holders[h].state.Connecting?)
        then ReleaseDataConnection(s, h) else s, hs[1..], d);
    }
  }

  lemma NextSlotUnused(s: System)
    requires Inv(s)
    ensures !InUse(s, |s.pool|)
  {
    forall h | h in s.holders
      ensures s.holders[h].machine != Some(|s.pool|)
    {
      assert HolderOk(s, h);
    }
  }

  lemma AllocateKeeps(s: System, h: ApnId)
    requires Inv(s) && h in s.holders && s.holders[h].state.Idle?
    ensures Inv(Allocate(s, h))
  {
    var i := FirstIdle(s, 0);
    var s' := Allocate(s, h);
    assert HolderOk(s, h);
    if i < |s.pool| {
      GrantHolds(s.pool[i], h);
    } else {
      GrantHolds(NEW_MACHINE, h);
      NextSlotUnused(s);
    }
    assert PairStep(s, s', h, i);
    PairKeeps(s, s', h, i);
  }

  /** Posting or taking establish events changes nothing else. */
  lemma RequestsKeep(s: System, requests: multiset<ApnId>)
    requires Inv(s)
    ensures Inv(s.(requests := requests))
  {
    var s' := s.(requests := requests);
    forall g | g in s'.holders
      ensures HolderOk(s', g)
    {
      assert HolderOk(s, g);
    }
    SameUse(s, s');
    forall c | c in s'.cidIndex
      ensures EntryOk(s', c)
    {
      assert EntryOk(s, c);
    }
  }

  lemma AskKeeps(s: System, h: ApnId)
    requires Inv(s)
    ensures Inv(Ask(s, h))
  {
    RequestsKeep(s, s.requests + multiset{h});
  }

  lemma EstablishDataKeeps(s: System, h: ApnId, env: Admission)
    requires Inv(s) && h in s.holders && s.holders[h].state.Idle?
    ensures Inv(EstablishDataConnection(s, h, env))
  {
    AskKeeps(s, h);
    EnableKeeps(s, h, false);
    ClearEachKeeps(s, HOLDER_ORDER, ReasonChange);
    AllocateKeeps(s, h);
  }

  lemma AttemptKeeps(s: System, h: ApnId, env: Admission)
    requires Inv(s)
    ensures Inv(AttemptEstablish(s, h, env))
  {
    AskKeeps(s, h);
    if h in s.holders && env.admitted && (s.holders[h].state.Idle? || s.holders[h].state.Failed?) {
      assert HolderOk(s, h);
      var s1 := SetState(s, h, Idle);
      assert s1 == s by { assert s1.holders == s.holders; }
      if env.matched {
        if h == DEFAULT_ID {
          ReleaseSharedKeeps(s1, HOLDER_ORDER, h);
          EstablishDataKeeps(ReleaseShared(s1, HOLDER_ORDER), h, env);
        } else {
          EstablishDataKeeps(s1, h, env);
        }
      }
    }
  }

  lemma {:induction false} EstablishEachKeeps(s: System, hs: seq<ApnId>, envs: map<ApnId, Admission>)
    requires Inv(s)
    ensures Inv(EstablishEach(s, hs, envs))
    decreases |hs|
  {
    if hs != [] {
      var h := hs[0];
      if h in s.holders && s.holders[h].enabled {
        ClearKeeps(s, h, ReasonRetry);
        var s1 := if s.holders[h].state.Failed? || s.holders[h].state.Retrying?
                  then ReleaseDataConnection(s, h) else s;
        AttemptKeeps(s1, h, EnvOf(envs, h));
        EstablishEachKeeps(AttemptEstablish(s1, h, EnvOf(envs, h)), hs[1..], envs);
      } else {
        EstablishEachKeeps(s, hs[1..], envs);
      }
    }
  }

  // ---- Reports ----

  lemma PopReports(s: System, h: ApnId)
    requires s.inbox != [] && s.inbox[0].flag == h
    ensures For(s.inbox, h) == [s.inbox[0]] + For(s.inbox[1..], h)
    ensures For(s.inbox, h) != [] && For(s.inbox, h)[0] == s.inbox[0] && For(s.inbox, h)[1..] == For(s.inbox[1..], h)
    ensures forall g | g != h :: For(s.inbox[1..], g) == For(s.inbox, g)
  {
    forall g | g != h
      ensures For(s.inbox[1..], g) == For(s.inbox, g)
    {
      assert For(s.inbox, g) == [] + For(s.inbox[1..], g);
    }
  }

  /** A report always finds its holder with a machine. */
  lemma ReporterIsHeld(s: System)
    requires Inv(s) && s.inbox != []
    ensures var h := s.inbox[0].flag; HasMachine(s, h) && ReportedHolder(h) == h
  {
    var h := s.inbox[0].flag;
    PopReports(s, h);
    assert HolderOk(s, h);
    RoleRange(h);
  }

  lemma EstablishCompleteKeeps(s: System)
    requires Inv(s) && s.inbox != [] && s.inbox[0].Established?
    ensures Inv(EstablishComplete(s))
  {
    var h := s.inbox[0].flag;
    ReporterIsHeld(s);
    PopReports(s, h);
    assert HolderOk(s, h);
    var i := s.holders[h].machine.value;
    EstablishedTaken(s.pool[i], h, s.holders[h].state, For(s.inbox, h));
    var s' := EstablishComplete(s);
    assert PairStep(s, s', h, i);
    forall k | 0 <= k < |s'.inbox|
      ensures s'.inbox[k].flag in s'.holders
    {
      assert s'.inbox[k] == s.inbox[k + 1];
    }
    PairKeeps(s, s', h, i);
  }

  lemma TakeBackFacts(s: System)
    requires Inv(s) && s.inbox != [] && s.inbox[0].Disconnected?
    ensures var h := s.inbox[0].flag;
            && HasMachine(s, h)
            && Free(s.pool[s.holders[h].machine.value])
            && For(s.inbox, h) == [s.inbox[0]]
            && s.inbox[0].origin == s.pool[s.holders[h].machine.value].grants
            && TakeBack(s).holders == s.holders[h := s.holders[h].(state := Idle, machine := None)]
  {
    var h := s.inbox[0].flag;
    ReporterIsHeld(s);
    PopReports(s, h);
    assert HolderOk(s, h);
    CompletionTaken(s.pool[s.holders[h].machine.value], h, s.holders[h].state, For(s.inbox, h));
  }

  lemma TakeBackUse(s: System, j: nat)
    requires Inv(s) && s.inbox != [] && s.inbox[0].Disconnected?
    ensures var i := s.holders[s.inbox[0].flag].machine.value;
            InUse(TakeBack(s), j) <==> InUse(s, j) && j != i
  {
    TakeBackFacts(s);
    var h := s.inbox[0].flag;
    var s' := TakeBack(s);
    if InUse(s, j) {
      var g :| g in s.holders && s.holders[g].machine == Some(j);
      if g != h {
        assert g in s'.holders && s'.holders[g].machine == Some(j);
      }
    }
    if InUse(s', j) {
      var g :| g in s'.holders && s'.holders[g].machine == Some(j);
      assert g != h && g in s.holders;
    }
  }

  lemma TakeBackKeeps(s: System)
    requires Inv(s) && s.inbox != [] && s.inbox[0].Disconnected?
    ensures Inv(TakeBack(s))
  {
    var h := s.inbox[0].flag;
    var s' := TakeBack(s);
    TakeBackFacts(s);
    PopReports(s, h);
    var i := s.holders[h].machine.value;
    forall g | g in s'.holders
      ensures HolderOk(s', g)
    {
      assert HolderOk(s, g);
    }
    forall j | 0 <= j < |s'.pool| && !InUse(s', j)
      ensures Free(s'.pool[j])
    {
      TakeBackUse(s, j);
    }
    forall c | c in s'.cidIndex
      ensures EntryOk(s', c)
    {
      assert EntryOk(s, c);
      TakeBackUse(s, s.cidIndex[c]);
    }
    forall k | 0 <= k < |s'.inbox|
      ensures s'.inbox[k].flag in s'.holders
    {
      assert s'.inbox[k] == s.inbox[k + 1];
    }
  }

  lemma RetryOrClearKeeps(s: System, h: ApnId, reason: DisconnectReason, envs: map<ApnId, Admission>)
    requires Inv(s) && h in s.holders && s.holders[h].machine.None?
    ensures Inv(RetryOrClear(s, h, reason, envs))
  {
    if reason.ReasonClear? {
      assert ClearConnection(s, h, reason) == s;
      EstablishEachKeeps(s, SORTED_ORDER, envs);
    } else if reason.ReasonRetry? {
      BareStepKeeps(s, SetState(s, h, Retrying).(retries := s.retries + multiset{h}), h);
    }
  }

  lemma SortKeeps(s: System)
    requires Inv(s)
    ensures Inv(SortConnection(s))
  {
    var next := FirstEnabled(s, SORTED_ORDER);
    if next.Some? {
      AskKeeps(s, next.value);
    }
  }

  lemma DisconnectCompleteKeeps(s: System, envs: map<ApnId, Admission>)
    requires Inv(s) && s.inbox != [] && s.inbox[0].Disconnected?
    ensures Inv(DisconnectComplete(s, envs))
  {
    TakeBackKeeps(s);
    TakeBackFacts(s);
    var h := s.inbox[0].flag;
    var reason := ToDisconnectReason(s.inbox[0].info.reason);
    var t := TakeBack(s);
    if t.holders[h].enabled {
      RetryOrClearKeeps(t, h, reason, envs);
      SortKeeps(RetryOrClear(t, h, reason, envs));
    } else {
      SortKeeps(t);
    }
  }

  lemma ReportKeeps(s: System, envs: map<ApnId, Admission>)
    requires Inv(s)
    ensures Inv(HandleReport(s, envs))
  {
    if s.inbox != [] {
      if s.inbox[0].Established? {
        EstablishCompleteKeeps(s);
      } else {
        DisconnectCompleteKeeps(s, envs);
      }
    }
  }

  lemma NetworkKeeps(s: System, h: ApnId, on: bool)
    requires Inv(s)
    ensures Inv(NetworkRequested(s, h, on))
  {
    EnableKeeps(s, h, on);
    AskKeeps(SetEnabled(s, h, on), h);
  }

  lemma MsgEstablishKeeps(s: System, h: ApnId, env: Admission, allowed: bool, bearer: Bearer, primary: bool)
    requires Inv(s)
    ensures Inv(MsgEstablish(s, h, env, allowed, bearer, primary))
  {
    var t := s.(requests := s.requests - multiset{h});
    RequestsKeep(s, t.requests);
    AttemptKeeps(t, h, env);
    ClearKeeps(t, h, ReleaseReason(h, env.single, bearer, primary));
  }

  // ---- Retries ----

  lemma RetryKeeps(s: System, h: ApnId)
    requires Inv(s)
    ensures Inv(RetryToSetup(s, h))
  {
    if h in s.retries {
      var s' := RetryToSetup(s, h);
      if h in s.holders && s.holders[h].state.Retrying? {
        assert HolderOk(s, h);
        BareStepKeeps(s, s'.(requests := s.requests), h);
        RequestsKeep(s'.(requests := s.requests), s'.requests);
      } else {
        forall g | g in s'.holders
          ensures HolderOk(s', g)
        {
          assert HolderOk(s, g);
        }
        SameUse(s, s');
        forall c | c in s'.cidIndex
          ensures EntryOk(s', c)
        {
          assert EntryOk(s, c);
        }
      }
    }
  }

  /** A pass of the reset loop touches only holders that were retrying, and leaves none
      of the ones it visits retrying. */
  lemma {:induction false} ResetShape(s: System, hs: seq<ApnId>)
    ensures var s' := ResetRetrying(s, hs);
            && s'.holders.Keys == s.holders.Keys
            && s'.pool == s.pool && s'.inbox == s.inbox && s'.cidIndex == s.cidIndex
            && (forall g | g in hs :: g in s'.requests)
            && s.requests <= s'.requests
            && forall g | g in s.holders ::
                 s'.holders[g] == if g in hs && s.holders[g].state.Retrying? then s.holders[g].(state := Idle) else s.holders[g]
    decreases |hs|
  {
    if hs != [] {
      var h := hs[0];
      var s1 := if h in s.holders && s.holders[h].state.Retrying?
                then SetState(s, h, Idle).(retries := multiset{}) else s;
      ResetShape(Ask(s1, h), hs[1..]);
      assert hs == [h] + hs[1..];
    }
  }

  /** Dropping every retry timer at once strands nobody: each holder that waited for one is idle again. */
  lemma ResetKeeps(s: System)
    requires Inv(s)
    ensures Inv(ResetRetrying(s, HOLDER_ORDER))
  {
    var s' := ResetRetrying(s, HOLDER_ORDER);
    ResetShape(s, HOLDER_ORDER);
    forall g | g in s'.holders
      ensures HolderOk(s', g)
    {
      assert HolderOk(s, g);
      assert g in HOLDER_ORDER;
    }
    SameUse(s, s');
    forall c | c in s'.cidIndex
      ensures EntryOk(s', c)
    {
      assert EntryOk(s, c);
    }
  }

  lemma NoticeActionsKeep(s: System, ended: map<int, CallInfo>)
    requires Inv(s)
    ensures Inv(NotifyHostDied(s)) && Inv(NotifyEnded(s, ended))
  {
    var d := NotifyHostDied(s);
    forall i | 0 <= i < |s.pool|
      ensures Notified(s.pool[i], d.pool[i])
    {
      assert d.pool[i] == Post(s.pool[i], HostDied) && Within(HostDied, s.pool[i].grants, s.pool[i].grants);
    }
    NoticesKeep(s, d);
    var n := NotifyEnded(s, ended);
    forall i | 0 <= i < |s.pool|
      ensures Notified(s.pool[i], n.pool[i])
    {
      var m := s.pool[i];
      if Ended(s, i, ended) {
        var e := LostConnection(ended[m.cid].(scene := ModemDeactivate), m.grants);
        assert n.pool[i] == Post(m, e) && Within(e, m.grants, m.grants);
      }
    }
    NoticesKeep(s, n);
  }

  // ---- Every step, every run ----

  /** Which handler function an action runs; the proofs below look up one line each. */
  lemma ActionRuns(s: System, a: Action)
    ensures a.CallListChanged? ==> HandlerAction(s, a) == NotifyEnded(s, a.ended)
    ensures a.HostDeath? ==> HandlerAction(s, a) == NotifyHostDied(s)
    ensures a.NextReport? ==> HandlerAction(s, a) == HandleReport(s, a.envs)
    ensures a.RequestNetwork? ==> HandlerAction(s, a) == NetworkRequested(s, a.h, a.on)
    ensures a.Establish? ==>
              HandlerAction(s, a) == MsgEstablish(s, a.h, a.env, a.cardAllowed, a.bearer, a.primarySlot)
    ensures a.RetryTimer? ==> HandlerAction(s, a) == RetryToSetup(s, a.h)
  {
  }

  lemma MassActionRuns(s: System, a: Action)
    ensures a.EstablishAll? ==> HandlerAction(s, a) == EstablishEach(s, SORTED_ORDER, a.envs)
    ensures a.ClearAll? ==> HandlerAction(s, a) == ClearAllConnections(s, a.reason, a.handoverStuck)
    ensures a.RatChanged? ==> HandlerAction(s, a) == ClearChanged(s, HOLDER_ORDER, a.changed)
    ensures a.ApnsChanged? ==> HandlerAction(s, a) == ApnChanged(s, a.clear, a.handoverStuck)
  {
  }

  /** Actions that visit all holders. */
  predicate ForAllHolders(a: Action) {
    a.EstablishAll? || a.ClearAll? || a.RatChanged? || a.ApnsChanged?
  }

  lemma MassActionKeeps(s: System, a: Action)
    requires Inv(s) && ForAllHolders(a)
    ensures Inv(HandlerAction(s, a))
  {
    MassActionRuns(s, a);
    match a
    case EstablishAll(envs) => EstablishEachKeeps(s, SORTED_ORDER, envs);
    case ClearAll(reason, stuck) => ClearEachKeeps(s, HOLDER_ORDER, reason);
    case RatChanged(changed) => ClearChangedKeeps(s, HOLDER_ORDER, changed);
    case ApnsChanged(clear, stuck) => ApnsChangedKeeps(s, clear, stuck);
  }

  lemma HandlerActionKeeps(s: System, a: Action)
    requires Inv(s) && !OfMachine(a)
    ensures Inv(HandlerAction(s, a))
  {
    ActionRuns(s, a);
    match a
    case CallListChanged(ended) => NoticeActionsKeep(s, ended);
    case HostDeath => NoticeActionsKeep(s, map[]);
    case NextReport(envs) => ReportKeeps(s, envs);
    case RequestNetwork(h, on) => NetworkKeeps(s, h, on);
    case Establish(h, env, allowed, bearer, primary) => MsgEstablishKeeps(s, h, env, allowed, bearer, primary);
    case RetryTimer(h) => RetryKeeps(s, h);
    case _ => MassActionKeeps(s, a);
  }

  lemma StepKeeps(s: System, a: Action)
    requires Inv(s)
    ensures Inv(Step(s, a))
  {
    if OfMachine(a) {
      MachineActionKeeps(s, a);
    } else {
      HandlerActionKeeps(s, a);
    }
  }

  lemma ApnsChangedKeeps(s: System, clear: bool, stuck: bool)
    requires Inv(s)
    ensures Inv(ApnChanged(s, clear, stuck))
  {
    ClearEachKeeps(s, HOLDER_ORDER, ReasonClear);
    var s' := if clear then ClearAllConnections(s, ReasonClear, stuck) else s;
    ResetKeeps(s');
  }

  lemma BootKeeps()
    ensures Inv(Boot())
  {
    var s := Boot();
    forall h | h in s.holders
      ensures HolderOk(s, h)
    {
      RoleRange(h);
    }
  }

  lemma {:induction false} RunKeeps(run: seq<Action>)
    ensures Inv(Exec(Boot(), run))
    decreases |run|
  {
    if run == [] {
      BootKeeps();
    } else {
      RunKeeps(run[..|run| - 1]);
      StepKeeps(Exec(Boot(), run[..|run| - 1]), run[|run| - 1]);
    }
  }

  lemma ReachableInv(s: System)
    requires Reachable(s)
    ensures Inv(s)
  {
    var run :| Exec(Boot(), run) == s;
    RunKeeps(run);
  }
}
