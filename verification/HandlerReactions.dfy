/** How the handler reacts: to a completion by its cause, to a set-up, to a request for a
    holder that is to be released, and to a list of ended calls. */
module HandlerReactions {
  import opened Options
  import opened ReasonCodes
  import opened ConnectionMachine
  import opened AttemptInvariant
  import opened Handler
  import opened ProtocolInvariant
  import opened Protocol
  import opened HandlerClearing
  import opened HandlerPriority

  // ---- Completions ----

  /** Causes after which the APN is not tried again. */
  predicate Permanent(c: PdpError) {
    || c == ToPermanentReject
    || c == OperatorDeterminedBarring
    || c == MissingOrUnknownApn
    || c == UnknownPdpAddrOrType
    || c == UserVerification
    || c == ActivationRejectedGgsn
    || c == ServiceOptionNotSupported
    || c == RequestedServiceOptionNotSubscribed
    || c == NsapiAlreadyUsed
    || c == Ipv4OnlyAllowed
    || c == Ipv6OnlyAllowed
    || c == ProtocolErrors
  }

  /** The sixteen causes that no retry follows. */
  predicate NoRetry(c: PdpError) {
    Permanent(c) || c == ToNormal || c == ToGsmAndCallingOnly || c == ToClearConnection || c == ToChangeConnection
  }

  /** The report is taken, the holder of it is without a machine in the given state, the cid
      is dropped, and nothing else changes. */
  function GivenBackAs(s: System, st: ApnState): System
    requires s.inbox != [] && HasMachine(s, s.inbox[0].flag)
  {
    var h := s.inbox[0].flag;
    s.(inbox := s.inbox[1..],
       holders := s.holders[h := Holder(s.holders[h].enabled, st, None)],
       cidIndex := s.cidIndex - {s.pool[s.holders[h].machine.value].cid})
  }

  ghost predicate CompletionNext(s: System) {
    s.inbox != [] && s.inbox[0].Disconnected?
  }

  lemma CompletionIsHeld(s: System)
    requires Inv(s) && CompletionNext(s)
    ensures HasMachine(s, s.inbox[0].flag) && TakeBack(s) == GivenBackAs(s, Idle) && Inv(TakeBack(s))
  {
    ReporterIsHeld(s);
    TakeBackKeeps(s);
  }

  /** The reaction by cause, once the machine is given back. */
  lemma Reads(s: System, envs: map<ApnId, Admission>)
    requires CompletionNext(s) && HasMachine(s, s.inbox[0].flag)
    ensures var h := s.inbox[0].flag;
            var c := s.inbox[0].info.reason;
            var t := GivenBackAs(s, Idle);
            var s' := HandleReport(s, envs);
            if Enabled(s, h) then
              && (!NoRetry(c) ==> s' == GivenBackAs(s, Retrying).(retries := s.retries + multiset{h}))
              && (Permanent(c) || c == ToNormal || c == ToGsmAndCallingOnly ==> s' == t)
              && (c == ToChangeConnection ==> s' == SortConnection(t))
              && (c == ToClearConnection ==> s' == EstablishEach(t, SORTED_ORDER, envs))
            else s' == if c == ToChangeConnection then SortConnection(t) else t
  {
    CauseDecoded(s.inbox[0].info.reason);
    ReportRuns(s, envs);
    ReactionRuns(s, ToDisconnectReason(s.inbox[0].info.reason), envs);
  }

  lemma CauseDecoded(c: PdpError)
    ensures ToDisconnectReason(c).ReasonRetry? <==> !NoRetry(c)
    ensures ToDisconnectReason(c).ReasonPermanentReject? <==> Permanent(c)
    ensures ToDisconnectReason(c).ReasonClear? <==> c == ToClearConnection
    ensures ToDisconnectReason(c).ReasonChange? <==> c == ToChangeConnection
  {
  }

  lemma ReportRuns(s: System, envs: map<ApnId, Admission>)
    requires CompletionNext(s) && HasMachine(s, s.inbox[0].flag)
    ensures var h := s.inbox[0].flag;
            var reason := ToDisconnectReason(s.inbox[0].info.reason);
            var t := GivenBackAs(s, Idle);
            var u := if Enabled(s, h) then RetryOrClear(t, h, reason, envs) else t;
            HandleReport(s, envs) == if reason.ReasonChange? then SortConnection(u) else u
  {
    assert TakeBack(s) == GivenBackAs(s, Idle);
  }

  lemma ReactionRuns(s: System, reason: DisconnectReason, envs: map<ApnId, Admission>)
    requires CompletionNext(s) && HasMachine(s, s.inbox[0].flag)
    ensures var h := s.inbox[0].flag;
            var t := GivenBackAs(s, Idle);
            RetryOrClear(t, h, reason, envs) ==
            if reason.ReasonRetry? then GivenBackAs(s, Retrying).(retries := s.retries + multiset{h})
            else if reason.ReasonClear? then EstablishEach(t, SORTED_ORDER, envs)
            else t
  {
    var h := s.inbox[0].flag;
    var t := GivenBackAs(s, Idle);
    assert ClearConnection(t, h, ReasonClear) == t;
    assert SetState(t, h, Retrying).holders == GivenBackAs(s, Retrying).holders;
  }

  /** Trying everybody never makes a holder wait for a retry. */
  lemma TryingRetriesNothing(s: System, envs: map<ApnId, Admission>, h: ApnId)
    requires Inv(s) && h in s.holders && !s.holders[h].state.Retrying?
    ensures var s' := EstablishEach(s, SORTED_ORDER, envs);
            h in s'.holders && !s'.holders[h].state.Retrying? && s'.retries == s.retries
  {
    EachRetriesNothing(s, SORTED_ORDER, envs);
  }

  ghost predicate NoNewRetry(s: System, s': System) {
    && s'.retries == s.retries && s'.holders.Keys == s.holders.Keys
    && forall g | g in s.holders && s'.holders[g].state.Retrying? :: s.holders[g].state.Retrying?
  }

  lemma ClearedRetriesNothing(s: System, s': System, who: set<ApnId>, reason: DisconnectReason)
    requires Cleared(s, s', who, reason)
    ensures NoNewRetry(s, s')
  {
    forall g | g in s.holders && s'.holders[g].state.Retrying?
      ensures s.holders[g].state.Retrying?
    {
      assert !(g in who && Up(s, g)) || ReleasedWith(s, s', g, reason);
    }
  }

  lemma EstablishRetriesNothing(s: System, h: ApnId, env: Admission)
    requires h in s.holders && NoNewRetry(s, ClearAllConnections(s, ReasonChange, env.handoverStuck))
    ensures NoNewRetry(s, EstablishDataConnection(s, h, env))
  {
    if env.apnFound {
      if CanShare(s, h, env) {
        SharingExactly(s, h, env);
      } else {
        NothingShared(s, h, env);
      }
    }
  }

  lemma ClearAllRetriesNothing(s: System, stuck: bool)
    requires Inv(s)
    ensures NoNewRetry(s, ClearAllConnections(s, ReasonChange, stuck))
  {
    AllButMms(s, ReasonChange);
    ClearedRetriesNothing(s, ClearAllConnections(s, ReasonChange, false), s.holders.Keys - {MMS_ID}, ReasonChange);
  }

  lemma AttemptRetriesNothing(s: System, h: ApnId, env: Admission)
    requires Inv(s)
    ensures NoNewRetry(s, AttemptEstablish(s, h, env))
  {
    if h in s.holders && env.admitted && (s.holders[h].state.Idle? || s.holders[h].state.Failed?) && env.matched {
      SetIdle(s, h);
      if h == DEFAULT_ID {
        MakeRoomEffect(s);
        var t := ReleaseShared(s, HOLDER_ORDER);
        ClearedRetriesNothing(s, t, {BIP_ID, DUN_ID}, ReasonClear);
        ClearAllRetriesNothing(t, env.handoverStuck);
        EstablishRetriesNothing(t, h, env);
      } else {
        ClearAllRetriesNothing(s, env.handoverStuck);
        EstablishRetriesNothing(s, h, env);
      }
    }
  }

  lemma {:induction false} EachRetriesNothing(s: System, hs: seq<ApnId>, envs: map<ApnId, Admission>)
    requires Inv(s)
    ensures NoNewRetry(s, EstablishEach(s, hs, envs))
    decreases |hs|
  {
    if hs != [] {
      var t := TriedOne(s, hs, envs);
      AttemptRetriesNothing(s, hs[0], EnvOf(envs, hs[0]));
      EachRetriesNothing(t, hs[1..], envs);
    }
  }

  /** What an enabled holder's completion leads to. It waits for a retry, with the event
      posted, exactly if the cause is none of the sixteen. After a permanent reject it is idle
      and the retries are as they were. */
  lemma CompletionEffect(s: System, envs: map<ApnId, Admission>)
    requires Reachable(s) && CompletionNext(s) && Enabled(s, s.inbox[0].flag)
    ensures HasMachine(s, s.inbox[0].flag)
    ensures var h := s.inbox[0].flag;
            var c := s.inbox[0].info.reason;
            var s' := HandleReport(s, envs);
            && h in s'.holders
            && (s'.holders[h].state.Retrying? && h in s'.retries <==> !NoRetry(c))
            && (!NoRetry(c) ==> s' == GivenBackAs(s, Retrying).(retries := s.retries + multiset{h}))
            && (Permanent(c) || c == ToNormal || c == ToGsmAndCallingOnly ==> s' == GivenBackAs(s, Idle))
  {
    ReachableInv(s);
    CompletionIsHeld(s);
    Reads(s, envs);
    var h := s.inbox[0].flag;
    var t := GivenBackAs(s, Idle);
    TryingRetriesNothing(t, envs, h);
  }

  /** After a completion for a change the next holder by rank is asked for once everybody is
      quiet, whether the holder of the report is enabled or not. */
  lemma ChangeEffect(s: System, envs: map<ApnId, Admission>)
    requires Reachable(s) && CompletionNext(s) && s.inbox[0].info.reason == ToChangeConnection
    ensures HasMachine(s, s.inbox[0].flag)
    ensures var t := GivenBackAs(s, Idle);
            var s' := HandleReport(s, envs);
            if Quiet(t) && exists h :: Enabled(t, h)
            then exists h :: Enabled(t, h) && (forall g | Enabled(t, g) :: !Outranks(g, h)) && s' == Ask(t, h)
            else s' == t
  {
    ReachableInv(s);
    CompletionIsHeld(s);
    NextByRank(GivenBackAs(s, Idle));
    Reads(s, envs);
  }

  /** After a completion for a clear everybody is tried: an idle holder that nothing hinders
      ends with a machine exactly if it is enabled, admitted and has an APN. */
  lemma ClearReconnects(s: System, envs: map<ApnId, Admission>, g: ApnId)
    requires Reachable(s) && CompletionNext(s) && Enabled(s, s.inbox[0].flag)
    requires s.inbox[0].info.reason == ToClearConnection
    requires g in s.holders && (s.holders[g].state.Idle? || g == s.inbox[0].flag) && Unhindered(EnvOf(envs, g))
    ensures var env := EnvOf(envs, g);
            var x := HandleReport(s, envs).holders;
            g in x && (x[g].machine.Some? <==> s.holders[g].enabled && env.admitted && env.matched && env.apnFound)
  {
    ReachableInv(s);
    CompletionIsHeld(s);
    Reads(s, envs);
    TriedExactly(GivenBackAs(s, Idle), envs, g);
  }

  /** A disabled holder's completion leaves it idle without a retry. */
  lemma DisabledEffect(s: System, envs: map<ApnId, Admission>)
    requires Reachable(s) && CompletionNext(s) && !Enabled(s, s.inbox[0].flag)
    requires s.inbox[0].info.reason != ToChangeConnection
    ensures HasMachine(s, s.inbox[0].flag) && HandleReport(s, envs) == GivenBackAs(s, Idle)
  {
    ReachableInv(s);
    CompletionIsHeld(s);
    Reads(s, envs);
  }

  // ---- Set-ups ----

  /** A set-up connects its holder; the default role's also posts a retry for the internal
      default role; nothing else changes. */
  lemma EstablishedEffect(s: System, envs: map<ApnId, Admission>)
    requires Reachable(s) && s.inbox != [] && s.inbox[0].Established?
    ensures var h := s.inbox[0].flag;
            var s' := HandleReport(s, envs);
            && h in s.holders
            && s' == s.(inbox := s.inbox[1..], holders := s.holders[h := s.holders[h].(state := Connected)],
                        retries := s'.retries)
            && (h == DEFAULT_ID ==> s'.retries == s.retries + multiset{INTERNAL_DEFAULT_ID})
            && (h != DEFAULT_ID ==> s'.retries == s.retries)
  {
    ReachableInv(s);
    ReporterIsHeld(s);
  }

  // ---- Release by request ----

  /** Why a holder is released: for a hand-over exactly if another bearer took over, wifi or
      for the internal default role, unless it is the default role away from the primary
      slot; for a change exactly if no bearer did and only one connection is allowed. */
  ghost predicate ReasonFits(r: DisconnectReason, h: ApnId, single: bool, bearer: Bearer, primarySlot: bool) {
    && (r.ReasonHandover? <==>
          || (h == INTERNAL_DEFAULT_ID && bearer != NoBearer)
          || (bearer == Wifi && (h != DEFAULT_ID || primarySlot)))
    && (r.ReasonChange? <==> bearer == NoBearer && single)
    && (r.ReasonHandover? || r.ReasonChange? || r.ReasonClear?)
  }

  /** An establish event for a holder that is disabled, or whose card is not allowed, is taken
      and releases that holder alone, with that reason. */
  lemma RequestReleases(s: System, h: ApnId, env: Admission, allowed: bool, bearer: Bearer, primary: bool)
    returns (r: DisconnectReason)
    requires Reachable(s) && h in s.holders && !(allowed && s.holders[h].enabled)
    ensures ReasonFits(r, h, env.single, bearer, primary)
    ensures var t := s.(requests := s.requests - multiset{h});
            Cleared(t, MsgEstablish(s, h, env, allowed, bearer, primary), {h}, r)
  {
    ReachableInv(s);
    var t := s.(requests := s.requests - multiset{h});
    RequestsKeep(s, t.requests);
    r := ReleaseReason(h, env.single, bearer, primary);
    OneCleared(t, h, r);
  }

  /** An establish event for an idle, enabled holder of an allowed card ends with a machine
      exactly if nothing hinders it. */
  lemma RequestConnects(s: System, h: ApnId, env: Admission, bearer: Bearer, primary: bool)
    requires Reachable(s) && h in s.holders && s.holders[h].state.Idle? && s.holders[h].enabled
    ensures var x := MsgEstablish(s, h, env, true, bearer, primary).holders;
            && h in x
            && (x[h].machine.Some? <==>
                  env.admitted && env.matched && env.apnFound && !CanShare(s, h, env) && (env.single ==> Quiet(s)))
            && (x[h].machine.Some? ==> x[h].state.Connecting?)
  {
    ReachableInv(s);
    var t := s.(requests := s.requests - multiset{h});
    RequestsKeep(s, t.requests);
    OnlyRequestsDiffer(s, t, h, env);
    ConnectsExactly(t, h, env);
    MsgConnects(s, h, env, bearer, primary);
  }

  lemma MsgConnects(s: System, h: ApnId, env: Admission, bearer: Bearer, primary: bool)
    requires h in s.holders && s.holders[h].enabled
    ensures MsgEstablish(s, h, env, true, bearer, primary) ==
            AttemptEstablish(s.(requests := s.requests - multiset{h}), h, env)
  {
  }

  lemma OnlyRequestsDiffer(s: System, t: System, h: ApnId, env: Admission)
    requires t == s.(requests := t.requests)
    ensures CanShare(t, h, env) <==> CanShare(s, h, env)
    ensures Quiet(t) <==> Quiet(s)
  {
    forall i: nat
      ensures Shareable(t, env, i) <==> Shareable(s, env, i)
    {
    }
  }

  /** While the holder is busy the event is taken and nothing happens, except that one for a
      disconnecting holder is posted again if it was the last. */
  lemma RequestWaits(s: System, h: ApnId, env: Admission, bearer: Bearer, primary: bool)
    requires Reachable(s) && h in s.holders && !s.holders[h].state.Idle? && s.holders[h].enabled
    ensures var t := s.(requests := s.requests - multiset{h});
            MsgEstablish(s, h, env, true, bearer, primary) ==
            if s.holders[h].state.Releasing? && env.admitted && t.requests == multiset{} then t.(requests := multiset{h}) else t
  {
    ReachableInv(s);
    assert HolderOk(s, h);
  }

  /** A network request and the event it posts: an idle holder ends with a machine exactly if
      it was switched on and nothing hinders it; one that is up stays up exactly if it was
      switched on, else it is released. */
  lemma NetworkRequestEffect(s: System, h: ApnId, on: bool, env: Admission, bearer: Bearer, primary: bool)
    requires Reachable(s) && h in s.holders
    ensures var t := NetworkRequested(s, h, on);
            var x := MsgEstablish(t, h, env, true, bearer, primary).holders;
            && t.requests[h] == s.requests[h] + 1
            && h in x
            && (s.holders[h].state.Idle? ==>
                  (x[h].machine.Some? <==>
                     on && env.admitted && env.matched && env.apnFound && !CanShare(s, h, env) && (env.single ==> Quiet(s))))
            && (Up(s, h) ==> x[h].state == if on then s.holders[h].state else Releasing)
  {
    ReachableInv(s);
    assert HolderOk(s, h);
    var t := NetworkRequested(s, h, on);
    NetworkKeeps(s, h, on);
    OnlySwitched(s, h, on, env);
    var u := t.(requests := t.requests - multiset{h});
    RequestsKeep(t, u.requests);
    OnlyRequestsDiffer(t, u, h, env);
    if on {
      MsgConnects(t, h, env, bearer, primary);
      SwitchedOn(u, h, env);
    } else {
      MsgReleases(t, h, env, bearer, primary);
    }
  }

  lemma SwitchedOn(s: System, h: ApnId, env: Admission)
    requires Inv(s) && h in s.holders
    ensures var x := AttemptEstablish(s, h, env).holders;
            && h in x
            && (s.holders[h].state.Idle? ==>
                  (x[h].machine.Some? <==>
                     env.admitted && env.matched && env.apnFound && !CanShare(s, h, env) && (env.single ==> Quiet(s))))
            && (Up(s, h) ==> x[h] == s.holders[h])
  {
    assert HolderOk(s, h);
    if s.holders[h].state.Idle? {
      ConnectsExactly(s, h, env);
    } else {
      UpIsLeft(s, h, env);
    }
  }

  lemma UpIsLeft(s: System, h: ApnId, env: Admission)
    requires h in s.holders && !s.holders[h].state.Idle? && !s.holders[h].state.Failed?
    ensures h in AttemptEstablish(s, h, env).holders && AttemptEstablish(s, h, env).holders[h] == s.holders[h]
  {
  }

  lemma OnlySwitched(s: System, h: ApnId, on: bool, env: Admission)
    requires h in s.holders
    ensures var t := NetworkRequested(s, h, on);
            && t.requests[h] == s.requests[h] + 1 && h in t.holders
            && t.holders[h] == s.holders[h].(enabled := on)
            && (CanShare(t, h, env) <==> CanShare(s, h, env)) && (Quiet(t) <==> Quiet(s))
  {
    var t := NetworkRequested(s, h, on);
    forall i: nat
      ensures Shareable(t, env, i) <==> Shareable(s, env, i)
    {
    }
    forall g | g in s.holders
      ensures t.holders[g].state == s.holders[g].state
    {
    }
  }

  lemma MsgReleases(s: System, h: ApnId, env: Admission, bearer: Bearer, primary: bool)
    requires Inv(s) && h in s.holders && !s.holders[h].enabled
    ensures var x := MsgEstablish(s, h, env, true, bearer, primary).holders;
            h in x && (if Up(s, h) then x[h].state.Releasing? && x[h].machine == s.holders[h].machine else x[h] == s.holders[h])
  {
    var t := s.(requests := s.requests - multiset{h});
    RequestsKeep(s, t.requests);
    var r := ReleaseReason(h, env.single, bearer, primary);
    OneCleared(t, h, r);
    assert Up(t, h) ==> ReleasedWith(t, ClearConnection(t, h, r), h, r);
  }

  /** A retry event and the establish event it posts: a retrying, enabled holder ends with a
      machine exactly if nothing hinders it, and one retry event is used up. */
  lemma RetryReconnects(s: System, h: ApnId, env: Admission, bearer: Bearer, primary: bool)
    requires Reachable(s) && h in s.holders && s.holders[h].state.Retrying? && s.holders[h].enabled
    ensures var t := RetryToSetup(s, h);
            var u := MsgEstablish(t, h, env, true, bearer, primary);
            && t.requests == s.requests + multiset{h}
            && u.retries == s.retries - multiset{h} && h in s.retries && h in u.holders
            && (u.holders[h].machine.Some? <==>
                  env.admitted && env.matched && env.apnFound && !CanShare(s, h, env) && (env.single ==> Quiet(t)))
  {
    ReachableInv(s);
    assert HolderOk(s, h);
    var t := RetryToSetup(s, h);
    RetryKeeps(s, h);
    RetriedIsIdle(s, h, env);
    var u := t.(requests := t.requests - multiset{h});
    RequestsKeep(t, u.requests);
    OnlyRequestsDiffer(t, u, h, env);
    MsgConnects(t, h, env, bearer, primary);
    ConnectsExactly(u, h, env);
    AttemptRetriesNothing(u, h, env);
  }

  lemma RetriedIsIdle(s: System, h: ApnId, env: Admission)
    requires h in s.holders && s.holders[h].state.Retrying? && h in s.retries
    ensures var t := RetryToSetup(s, h);
            && h in t.holders && t.holders[h] == s.holders[h].(state := Idle)
            && t.requests == s.requests + multiset{h} && t.retries == s.retries - multiset{h}
            && (CanShare(t, h, env) <==> CanShare(s, h, env))
  {
    var t := RetryToSetup(s, h);
    forall i: nat
      ensures Shareable(t, env, i) <==> Shareable(s, env, i)
    {
    }
  }

  // ---- Notices ----

  /** When the modem's host dies every machine gets the notice once, behind all it has queued,
      and nothing else changes. */
  lemma HostDeathEffect(s: System)
    ensures var s' := Step(s, HostDeath);
            && s' == s.(pool := s'.pool) && |s'.pool| == |s.pool|
            && forall i | 0 <= i < |s.pool| ::
                 s'.pool[i] == s.pool[i].(ordinary := s.pool[i].ordinary + [HostDied])
  {
    ActionRuns(s, HostDeath);
  }

  /** A machine is told that its call ended exactly if the index lists it under a cid that
      the modem reports as ended; it gets that call's result, marked as the modem's doing. */
  lemma LossGoesByIndex(s: System, ended: map<int, CallInfo>, i: nat)
    requires Reachable(s) && i < |s.pool|
    ensures var s' := NotifyEnded(s, ended);
            && s' == s.(pool := s'.pool) && |s'.pool| == |s.pool|
            && (s'.pool[i] != s.pool[i] <==> exists c :: c in ended && c in s.cidIndex && s.cidIndex[c] == i)
            && (forall c | c in ended && c in s.cidIndex && s.cidIndex[c] == i ::
                  var m := s.pool[i];
                  s'.pool[i] == m.(ordinary := m.ordinary + [LostConnection(ended[c].(scene := ModemDeactivate), m.grants)]))
  {
    ReachableInv(s);
    forall c | c in s.cidIndex
      ensures c == s.pool[s.cidIndex[c]].cid
    {
      assert EntryOk(s, c);
    }
    var m := s.pool[i];
    if Ended(s, i, ended) {
      var e := LostConnection(ended[m.cid].(scene := ModemDeactivate), m.grants);
      assert NotifyEnded(s, ended).pool[i] == Post(m, e);
      assert |Post(m, e).ordinary| != |m.ordinary|;
    }
  }
}
