/** What the mass clean-ups do to holders and queues: who is released, with which request,
    and that nothing else changes. */
module HandlerClearing {
  import opened Options
  import opened ReasonCodes
  import opened ConnectionMachine
  import opened AttemptInvariant
  import opened Handler
  import opened ProtocolInvariant
  import opened Protocol

  predicate Up(s: System, h: ApnId) {
    h in s.holders && (s.holders[h].state.Connecting? || s.holders[h].state.Connected?)
  }

  /** The holder is released: disconnecting, with a request of the current attempt last in
      its machine's queue. */
  ghost predicate ReleasedWith(s: System, s': System, h: ApnId, reason: DisconnectReason) {
    && HasMachine(s, h) && h in s'.holders && |s'.pool| == |s.pool|
    && s'.holders[h] == s.holders[h].(state := Releasing)
    && var i := s.holders[h].machine.value;
       var m := s.pool[i];
       s'.pool[i] == m.(ordinary := m.ordinary + [Disconnect(h, reason, m.grants)])
  }

  /** A machine of somebody in the set who is connecting or connected. */
  ghost predicate HeldUpBy(s: System, i: nat, who: set<ApnId>) {
    exists h :: h in who && Up(s, h) && s.holders[h].machine == Some(i)
  }

  /** Exactly those in the set who were connecting or connected are released; all other
      holders and machines, and everything else, are as before. */
  ghost predicate Cleared(s: System, s': System, who: set<ApnId>, reason: DisconnectReason) {
    && s'.holders.Keys == s.holders.Keys && |s'.pool| == |s.pool|
    && (forall h | h in who && Up(s, h) :: ReleasedWith(s, s', h, reason))
    && (forall h | h in s.holders && !(h in who && Up(s, h)) :: s'.holders[h] == s.holders[h])
    && (forall i: nat | i < |s.pool| && !HeldUpBy(s, i, who) :: s'.pool[i] == s.pool[i])
    && s'.inbox == s.inbox && s'.retries == s.retries && s'.requests == s.requests && s'.cidIndex == s.cidIndex
  }

  lemma NobodyCleared(s: System, reason: DisconnectReason)
    ensures Cleared(s, s, {}, reason)
  {
  }

  /** Under the invariant a holder is up exactly if a clear changes something. */
  lemma UpHasMachine(s: System, h: ApnId)
    requires Inv(s)
    ensures Up(s, h) <==>
              HasMachine(s, h) && !s.holders[h].state.Idle? && !s.holders[h].state.Releasing? && !s.holders[h].state.Retrying?
  {
    if h in s.holders {
      assert HolderOk(s, h);
    }
  }

  lemma SendCleared(s: System, h: ApnId, i: nat, reason: DisconnectReason)
    requires Up(s, h) && s.holders[h].machine == Some(i) && i < |s.pool|
    ensures Cleared(s, SendDisconnect(s, h, i, reason), {h}, reason)
  {
    var s' := SendDisconnect(s, h, i, reason);
    forall j: nat | j < |s.pool| && !HeldUpBy(s, j, {h})
      ensures s'.pool[j] == s.pool[j]
    {
      assert h in {h} && Up(s, h) && s.holders[h].machine == Some(i);
    }
  }

  lemma OneCleared(s: System, h: ApnId, reason: DisconnectReason)
    requires Inv(s)
    ensures Inv(ClearConnection(s, h, reason)) && Cleared(s, ClearConnection(s, h, reason), {h}, reason)
  {
    ClearKeeps(s, h, reason);
    UpHasMachine(s, h);
    if Up(s, h) {
      SendCleared(s, h, s.holders[h].machine.value, reason);
    } else {
      NobodyCleared(s, reason);
      SameWhoIsUp(s, s, {}, {h}, reason);
    }
  }

  /** Who was cleared first is not up any more. */
  lemma UpAfter(s: System, t: System, who: set<ApnId>, reason: DisconnectReason, h: ApnId)
    requires Cleared(s, t, who, reason)
    ensures Up(t, h) <==> Up(s, h) && h !in who
    ensures Up(t, h) ==> t.holders[h] == s.holders[h]
  {
    if h in who && Up(s, h) {
      assert ReleasedWith(s, t, h, reason);
    }
  }

  lemma SpareMachine(s: System, h: ApnId, who: set<ApnId>)
    requires Inv(s) && HasMachine(s, h) && h !in who
    ensures !HeldUpBy(s, s.holders[h].machine.value, who)
  {
  }

  /** Two clean-ups one after the other are one. */
  lemma ClearedHolder(s: System, t: System, u: System, a: set<ApnId>, b: set<ApnId>, reason: DisconnectReason, h: ApnId)
    requires Inv(s) && Cleared(s, t, a, reason) && Cleared(t, u, b, reason) && h in a + b && Up(s, h)
    ensures ReleasedWith(s, u, h, reason)
  {
    assert HolderOk(s, h);
    UpAfter(s, t, a, reason, h);
    var i := s.holders[h].machine.value;
    if h in a {
      assert ReleasedWith(s, t, h, reason);
      assert !HeldUpBy(t, i, b) by {
        if g :| g in b && Up(t, g) && t.holders[g].machine == Some(i) {
          UpAfter(s, t, a, reason, g);
        }
      }
    } else {
      assert ReleasedWith(t, u, h, reason);
      SpareMachine(s, h, a);
    }
  }

  lemma ClearedMachine(s: System, t: System, u: System, a: set<ApnId>, b: set<ApnId>, reason: DisconnectReason, i: nat)
    requires Cleared(s, t, a, reason) && Cleared(t, u, b, reason)
    requires i < |s.pool| && !HeldUpBy(s, i, a + b)
    ensures u.pool[i] == s.pool[i]
  {
    assert !HeldUpBy(s, i, a);
    assert !HeldUpBy(t, i, b) by {
      if g :| g in b && Up(t, g) && t.holders[g].machine == Some(i) {
        UpAfter(s, t, a, reason, g);
      }
    }
  }

  lemma ClearedTrans(s: System, t: System, u: System, a: set<ApnId>, b: set<ApnId>, reason: DisconnectReason)
    requires Inv(s) && Cleared(s, t, a, reason) && Cleared(t, u, b, reason)
    ensures Cleared(s, u, a + b, reason)
  {
    forall h | h in a + b && Up(s, h)
      ensures ReleasedWith(s, u, h, reason)
    {
      ClearedHolder(s, t, u, a, b, reason, h);
    }
    forall h | h in s.holders && !(h in a + b && Up(s, h))
      ensures u.holders[h] == s.holders[h]
    {
      UpAfter(s, t, a, reason, h);
    }
    forall i: nat | i < |s.pool| && !HeldUpBy(s, i, a + b)
      ensures u.pool[i] == s.pool[i]
    {
      ClearedMachine(s, t, u, a, b, reason, i);
    }
  }

  /** Only who is up matters. */
  lemma SameWhoIsUp(s: System, s': System, a: set<ApnId>, b: set<ApnId>, reason: DisconnectReason)
    requires Cleared(s, s', a, reason) && forall h | Up(s, h) :: h in a <==> h in b
    ensures Cleared(s, s', b, reason)
  {
    forall i: nat | i < |s.pool| && !HeldUpBy(s, i, b)
      ensures s'.pool[i] == s.pool[i]
    {
      assert !HeldUpBy(s, i, a);
    }
  }

  // ---- Clear-all ----

  ghost function In(hs: seq<ApnId>): set<ApnId> {
    set h | h in hs
  }

  lemma InSplit(hs: seq<ApnId>)
    requires hs != []
    ensures In(hs) == {hs[0]} + In(hs[1..])
  {
    assert hs == [hs[0]] + hs[1..];
  }

  lemma FirstCleared(s: System, hs: seq<ApnId>, reason: DisconnectReason) returns (t: System)
    requires Inv(s) && hs != []
    ensures Inv(t) && Cleared(s, t, {hs[0]} - {MMS_ID}, reason)
    ensures ClearEach(s, hs, reason) == ClearEach(t, hs[1..], reason)
  {
    if hs[0] == MMS_ID {
      t := s;
      NobodyCleared(s, reason);
      assert {hs[0]} - {MMS_ID} == {};
    } else {
      t := ClearConnection(s, hs[0], reason);
      OneCleared(s, hs[0], reason);
      assert {hs[0]} - {MMS_ID} == {hs[0]};
    }
  }

  lemma {:induction false} EachCleared(s: System, hs: seq<ApnId>, reason: DisconnectReason)
    requires Inv(s)
    ensures Cleared(s, ClearEach(s, hs, reason), In(hs) - {MMS_ID}, reason)
    decreases |hs|
  {
    if hs == [] {
      NobodyCleared(s, reason);
      assert In(hs) - {MMS_ID} == {};
    } else {
      InSplit(hs);
      var t := FirstCleared(s, hs, reason);
      EachCleared(t, hs[1..], reason);
      ClearedTrans(s, t, ClearEach(t, hs[1..], reason), {hs[0]} - {MMS_ID}, In(hs[1..]) - {MMS_ID}, reason);
      assert In(hs) - {MMS_ID} == ({hs[0]} - {MMS_ID}) + (In(hs[1..]) - {MMS_ID});
    }
  }

  /** Everybody except MMS who is connecting or connected is released with the given reason,
      and nothing else changes; a clean-up that the modem refuses after a hand-over changes
      nothing at all. */
  lemma ClearAllEffect(s: System, reason: DisconnectReason)
    requires Reachable(s)
    ensures Cleared(s, ClearAllConnections(s, reason, false), s.holders.Keys - {MMS_ID}, reason)
    ensures ClearAllConnections(s, reason, true) == s
  {
    ReachableInv(s);
    AllButMms(s, reason);
  }

  lemma AllButMms(s: System, reason: DisconnectReason)
    requires Inv(s)
    ensures Cleared(s, ClearAllConnections(s, reason, false), s.holders.Keys - {MMS_ID}, reason)
  {
    EachCleared(s, HOLDER_ORDER, reason);
    assert In(HOLDER_ORDER) == ROLES;
  }

  // ---- Changed APNs, and making room ----

  lemma FirstChanged(s: System, hs: seq<ApnId>, changed: set<ApnId>) returns (t: System)
    requires Inv(s) && hs != []
    ensures Inv(t) && Cleared(s, t, {hs[0]} * changed, ReasonRetry)
    ensures ClearChanged(s, hs, changed) == ClearChanged(t, hs[1..], changed)
  {
    var h := hs[0];
    NobodyCleared(s, ReasonRetry);
    OneCleared(s, h, ReasonRetry);
    UpHasMachine(s, h);
    if h in changed && Up(s, h) {
      t := ClearConnection(s, h, ReasonRetry);
      assert {h} * changed == {h};
    } else {
      t := s;
      SameWhoIsUp(s, s, {}, {h} * changed, ReasonRetry);
    }
  }

  lemma {:induction false} ChangedCleared(s: System, hs: seq<ApnId>, changed: set<ApnId>)
    requires Inv(s)
    ensures Cleared(s, ClearChanged(s, hs, changed), In(hs) * changed, ReasonRetry)
    decreases |hs|
  {
    if hs == [] {
      NobodyCleared(s, ReasonRetry);
      assert In(hs) * changed == {};
    } else {
      InSplit(hs);
      var t := FirstChanged(s, hs, changed);
      ChangedCleared(t, hs[1..], changed);
      ClearedTrans(s, t, ClearChanged(t, hs[1..], changed), {hs[0]} * changed, In(hs[1..]) * changed, ReasonRetry);
      assert In(hs) * changed == {hs[0]} * changed + In(hs[1..]) * changed;
    }
  }

  /** After a change of access technology exactly the connections whose APNs changed are
      released, to be retried. */
  lemma RatChangeEffect(s: System, changed: set<ApnId>)
    requires Reachable(s)
    ensures Cleared(s, ClearChanged(s, HOLDER_ORDER, changed), changed, ReasonRetry)
  {
    ReachableInv(s);
    ChangedCleared(s, HOLDER_ORDER, changed);
    forall h | Up(s, h)
      ensures h in In(HOLDER_ORDER)
    {
      assert h in ROLES;
    }
    SameWhoIsUp(s, ClearChanged(s, HOLDER_ORDER, changed), In(HOLDER_ORDER) * changed, changed, ReasonRetry);
  }

  lemma FirstShared(s: System, hs: seq<ApnId>) returns (t: System)
    requires Inv(s) && hs != []
    ensures Inv(t) && Cleared(s, t, {hs[0]} * {BIP_ID, DUN_ID}, ReasonClear)
    ensures ReleaseShared(s, hs) == ReleaseShared(t, hs[1..])
  {
    var h := hs[0];
    NobodyCleared(s, ReasonClear);
    OneCleared(s, h, ReasonClear);
    UpHasMachine(s, h);
    if h in {BIP_ID, DUN_ID} && Up(s, h) {
      t := ClearConnection(s, h, ReasonClear);
      assert {h} * {BIP_ID, DUN_ID} == {h};
    } else {
      t := s;
      SameWhoIsUp(s, s, {}, {h} * {BIP_ID, DUN_ID}, ReasonClear);
    }
  }

  lemma {:induction false} SharedCleared(s: System, hs: seq<ApnId>)
    requires Inv(s)
    ensures Inv(ReleaseShared(s, hs)) && Cleared(s, ReleaseShared(s, hs), In(hs) * {BIP_ID, DUN_ID}, ReasonClear)
    decreases |hs|
  {
    var two := {BIP_ID, DUN_ID};
    if hs == [] {
      NobodyCleared(s, ReasonClear);
      assert In(hs) * two == {};
    } else {
      InSplit(hs);
      var t := FirstShared(s, hs);
      SharedCleared(t, hs[1..]);
      ClearedTrans(s, t, ReleaseShared(t, hs[1..]), {hs[0]} * two, In(hs[1..]) * two, ReasonClear);
      assert In(hs) * two == {hs[0]} * two + In(hs[1..]) * two;
    }
  }

  /** The default role's request releases exactly the BIP and DUN connections. */
  lemma MakeRoomEffect(s: System)
    requires Inv(s)
    ensures Inv(ReleaseShared(s, HOLDER_ORDER))
    ensures Cleared(s, ReleaseShared(s, HOLDER_ORDER), {BIP_ID, DUN_ID}, ReasonClear)
  {
    SharedCleared(s, HOLDER_ORDER);
    assert In(HOLDER_ORDER) * {BIP_ID, DUN_ID} == {BIP_ID, DUN_ID};
  }

  // ---- New APN settings ----

  ghost predicate AnyRetrying(s: System, hs: seq<ApnId>) {
    exists h :: h in hs && h in s.holders && s.holders[h].state.Retrying?
  }

  lemma {:induction false} ResetEvents(s: System, hs: seq<ApnId>)
    ensures ResetRetrying(s, hs).retries == if AnyRetrying(s, hs) then multiset{} else s.retries
    decreases |hs|
  {
    if hs != [] {
      var h := hs[0];
      var s1 := if h in s.holders && s.holders[h].state.Retrying?
                then SetState(s, h, Idle).(retries := multiset{}) else s;
      ResetEvents(Ask(s1, h), hs[1..]);
      assert hs == [h] + hs[1..];
      assert AnyRetrying(s, hs) <==>
             (h in s.holders && s.holders[h].state.Retrying?) || AnyRetrying(Ask(s1, h), hs[1..]);
    }
  }

  /** Waiting for a retry. */
  predicate WaitsForRetry(s: System, h: ApnId) {
    h in s.holders && s.holders[h].state.Retrying?
  }

  lemma RetryingIsListed(s: System)
    requires s.holders.Keys == ROLES
    ensures AnyRetrying(s, HOLDER_ORDER) <==> exists h :: WaitsForRetry(s, h)
  {
    if h :| WaitsForRetry(s, h) {
      assert h in ROLES && h in HOLDER_ORDER;
    }
    if h :| h in HOLDER_ORDER && h in s.holders && s.holders[h].state.Retrying? {
      assert WaitsForRetry(s, h);
    }
  }

  lemma AskedOnce(s: System, h: ApnId)
    requires s.holders.Keys == ROLES && h in s.holders
    ensures ResetRetrying(s, HOLDER_ORDER).requests[h] == s.requests[h] + 1
  {
    assert h in ROLES && h in HOLDER_ORDER;
    ListedOnce();
    ResetAsks(s, HOLDER_ORDER, h);
  }

  lemma ListedOnce()
    ensures NoRepeat(HOLDER_ORDER)
  {
  }

  /** New APN settings without a clean-up: every retrying holder is idle again, all retry
      events are gone if there was one, each role is asked for once, and nothing else changes. */
  lemma ApnResetEffect(s: System, stuck: bool)
    requires Reachable(s)
    ensures var s' := ApnChanged(s, false, stuck);
            && s'.holders.Keys == s.holders.Keys
            && s'.pool == s.pool && s'.inbox == s.inbox && s'.cidIndex == s.cidIndex
            && (forall h | h in s.holders ::
                  s'.holders[h] == if WaitsForRetry(s, h) then s.holders[h].(state := Idle) else s.holders[h])
            && s'.retries == (if exists h :: WaitsForRetry(s, h) then multiset{} else s.retries)
            && (forall h | h in s.holders :: s'.requests[h] == s.requests[h] + 1)
  {
    ReachableInv(s);
    ResetShape(s, HOLDER_ORDER);
    ResetEvents(s, HOLDER_ORDER);
    RetryingIsListed(s);
    forall h | h in s.holders
      ensures ApnChanged(s, false, stuck).requests[h] == s.requests[h] + 1
    {
      AskedOnce(s, h);
    }
  }

  ghost predicate NoRepeat(hs: seq<ApnId>) {
    forall i, j | 0 <= i < j < |hs| :: hs[i] != hs[j]
  }

  lemma {:induction false} ResetAsks(s: System, hs: seq<ApnId>, g: ApnId)
    requires NoRepeat(hs)
    ensures ResetRetrying(s, hs).requests[g] == s.requests[g] + if g in hs then 1 else 0
    decreases |hs|
  {
    if hs != [] {
      var h := hs[0];
      var s1 := if h in s.holders && s.holders[h].state.Retrying?
                then SetState(s, h, Idle).(retries := multiset{}) else s;
      ResetAsks(Ask(s1, h), hs[1..], g);
      assert hs == [h] + hs[1..];
      assert h !in hs[1..];
    }
  }

  /** With a clean-up the connections are cleared first, all but MMS. */
  lemma ApnChangeEffect(s: System)
    requires Reachable(s)
    ensures exists t :: Cleared(s, t, s.holders.Keys - {MMS_ID}, ReasonClear) &&
                        ApnChanged(s, true, false) == ApnChanged(t, false, false)
    ensures ApnChanged(s, true, true) == ApnChanged(s, false, false)
  {
    ClearAllEffect(s, ReasonClear);
    var t := ClearAllConnections(s, ReasonClear, false);
    assert ApnChanged(s, true, false) == ApnChanged(t, false, false);
  }
}
