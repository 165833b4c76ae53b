/** The handler as the object it is: loops over the holder table and the machine pool that
    update holders, queues and the cid index in place. Each method takes the object where
    the handler function of the same event says. */
module HandlerObject {
  import opened Options
  import opened ReasonCodes
  import opened ConnectionMachine
  import opened AttemptInvariant
  import opened AttemptSteps
  import opened Handler
  import opened Sharing

  predicate IsRole(h: ApnId) {
    1 <= h <= 4 || h == 6 || 8 <= h <= 16
  }

  lemma HolderOrderRoles(h: ApnId)
    ensures h in HOLDER_ORDER <==> IsRole(h)
  {
  }

  lemma SortedOrderRoles(h: ApnId)
    ensures h in SORTED_ORDER <==> IsRole(h)
  {
  }

  /** Both orders list exactly the roles. */
  lemma OrdersAgree(h: ApnId)
    ensures h in ROLES <==> h in HOLDER_ORDER
    ensures h in ROLES <==> h in SORTED_ORDER
  {
    HolderOrderRoles(h);
    SortedOrderRoles(h);
  }

  /** The list names exactly the holders in the table. */
  ghost predicate Covers(hs: seq<ApnId>, holders: map<ApnId, Holder>) {
    && (forall i | 0 <= i < |hs| :: hs[i] in holders)
    && (forall h | h in holders :: exists i :: 0 <= i < |hs| && hs[i] == h)
  }

  lemma BootCovered()
    ensures Boot().holders != map[]
    ensures Covers(HOLDER_ORDER, Boot().holders) && Covers(SORTED_ORDER, Boot().holders)
  {
    assert HOLDER_ORDER[0] in Boot().holders;
    forall i | 0 <= i < |SORTED_ORDER|
      ensures SORTED_ORDER[i] in Boot().holders
    {
      OrdersAgree(SORTED_ORDER[i]);
    }
    forall h | h in Boot().holders
      ensures exists i :: 0 <= i < |SORTED_ORDER| && SORTED_ORDER[i] == h
    {
      OrdersAgree(h);
    }
  }

  class CellularDataHandler {
    const apnHolders: seq<ApnId>
    const sortedApnHolders: seq<ApnId>
    var holders: map<ApnId, Holder>
    var pool: seq<Machine>
    var inbox: seq<Report>
    var retries: multiset<ApnId>
    var requests: multiset<ApnId>
    var cidIndex: map<int, nat>

    ghost function View(): System
      reads this
    {
      System(holders, pool, inbox, retries, requests, cidIndex)
    }

    ghost predicate Valid()
      reads this
    {
      holders != map[] && Covers(apnHolders, holders) && Covers(sortedApnHolders, holders)
    }

    /** The tables list the roles in the order in which they were added and sorted. */
    ghost predicate Listed() {
      apnHolders == HOLDER_ORDER && sortedApnHolders == SORTED_ORDER
    }

    constructor ()
      ensures Valid() && Listed() && View() == Boot()
    {
      apnHolders, sortedApnHolders := HOLDER_ORDER, SORTED_ORDER;
      holders := map h | h in HOLDER_ORDER :: Holder(false, Idle, None);
      pool, inbox, retries, requests, cidIndex := [], [], multiset{}, multiset{}, map[];
      new;
      BootCovered();
    }

    // ---- Read-only scans ----

    method IsDataConnectionNotUsed(i: nat) returns (free: bool)
      requires Valid()
      ensures free == !InUse(View(), i)
    {
      for k := 0 to |apnHolders|
        invariant forall j | 0 <= j < k :: holders[apnHolders[j]].machine != Some(i)
      {
        var h := apnHolders[k];
        if holders[h].machine == Some(i) {
          assert h in View().holders && View().holders[h].machine == Some(i);
          return false;
        }
      }
      return true;
    }

    method HasAnyConnectedState() returns (any: bool)
      requires Valid()
      ensures any == AnyIn(View(), Connected, Releasing)
    {
      for k := 0 to |apnHolders|
        invariant forall j | 0 <= j < k ::
                    !holders[apnHolders[j]].state.Connected? && !holders[apnHolders[j]].state.Releasing?
      {
        var h := apnHolders[k];
        var st := holders[h].state;
        if st.Connected? || st.Releasing? {
          assert h in View().holders && View().holders[h].state == st;
          return true;
        }
      }
      return false;
    }

    method GetOverallApnState() returns (st: ApnState)
      requires Valid()
      ensures st == OverallState(View())
    {
      var connected := HasAnyConnectedState();
      if connected {
        return Connected;
      }
      var idle := false;
      for k := 0 to |apnHolders|
        invariant forall j | 0 <= j < k ::
                    !holders[apnHolders[j]].state.Connecting? && !holders[apnHolders[j]].state.Retrying?
        invariant idle ==> AnyIn(View(), Idle, Idle)
        invariant !idle ==> forall j | 0 <= j < k :: !holders[apnHolders[j]].state.Idle?
      {
        var h := apnHolders[k];
        var x := holders[h].state;
        assert h in View().holders && View().holders[h].state == x;
        if x.Connecting? || x.Retrying? {
          return Connecting;
        } else if x.Idle? {
          assert AnyIn(View(), Idle, Idle);
          idle := true;
        }
      }
      assert !AnyIn(View(), Connecting, Retrying);
      return if idle then Idle else Failed;
    }

    method HasAnyHigherPriorityConnection(h: ApnId) returns (any: bool)
      requires Valid()
      ensures any == HasHigherPriority(View(), h)
    {
      for k := 0 to |sortedApnHolders|
        invariant forall j | 0 <= j < k ::
                    var g := sortedApnHolders[j];
                    !(Priority(g) > Priority(h) && holders[g].enabled &&
                      (holders[g].state.Connected? || holders[g].state.Connecting? || holders[g].state.Releasing?))
      {
        var g := sortedApnHolders[k];
        if Priority(g) > Priority(h) {
          var x := holders[g];
          if x.enabled && (x.state.Connected? || x.state.Connecting? || x.state.Releasing?) {
            return true;
          }
        }
      }
      return false;
    }

    method FindIdleCellularDataConnection() returns (i: nat)
      requires Valid()
      ensures i == FirstIdle(View(), 0)
    {
      i := 0;
      while i < |pool|
        invariant i <= |pool|
        invariant FirstIdle(View(), 0) == FirstIdle(View(), i)
      {
        if pool[i].phase.Inactive? {
          var free := IsDataConnectionNotUsed(i);
          if free {
            return;
          }
        }
        i := i + 1;
      }
    }

    method CheckForCompatibleDataConnection(fits: set<nat>) returns (found: Option<nat>)
      ensures found == FindCompatible(pool, fits, 0, None) && Chosen(pool, fits, 0, None, found)
    {
      ScanChooses(pool, fits, 0, None);
      found := None;
      var i := 0;
      while i < |pool|
        invariant i <= |pool|
        invariant FindCompatible(pool, fits, 0, None) == FindCompatible(pool, fits, i, found)
      {
        if i in fits {
          if pool[i].phase.Active? {
            return Some(i);
          } else if pool[i].phase.Activating? {
            found := Some(i);
          } else if pool[i].phase.Disconnecting? && found.None? {
            found := Some(i);
          }
        }
        i := i + 1;
      }
    }

    /** MSG_ESTABLISH_DATA_CONNECTION is posted for the holder. */
    method SendEstablish(h: ApnId)
      modifies `requests
      ensures requests == old(requests) + multiset{h}
    {
      requests := requests + multiset{h};
    }

    method MsgRequestNetwork(h: ApnId, on: bool)
      requires Valid()
      modifies `holders, `requests
      ensures Valid() && View() == NetworkRequested(old(View()), h, on)
    {
      if h !in holders {
        return;
      }
      holders := holders[h := holders[h].(enabled := on)];
      SendEstablish(h);
    }

    // ---- Releasing ----

    method SetApnState(h: ApnId, st: ApnState)
      requires Valid() && h in holders
      modifies `holders
      ensures Valid() && holders == old(holders)[h := old(holders)[h].(state := st)]
    {
      holders := holders[h := holders[h].(state := st)];
    }

    /** MSG_SM_DISCONNECT goes into the queue of the machine. */
    method SendDisconnect(h: ApnId, i: nat, reason: DisconnectReason)
      requires Valid() && h in holders && i < |pool|
      modifies `holders, `pool
      ensures Valid() && View() == Handler.SendDisconnect(old(View()), h, i, reason)
    {
      SetApnState(h, Releasing);
      pool := pool[i := Post(pool[i], Disconnect(h, reason, pool[i].grants))];
    }

    method ClearConnection(h: ApnId, reason: DisconnectReason)
      requires Valid()
      modifies `holders, `pool
      ensures Valid() && View() == Handler.ClearConnection(old(View()), h, reason)
    {
      if h !in holders || holders[h].machine.None? || holders[h].machine.value >= |pool| {
        return;
      }
      var st := holders[h].state;
      if st.Idle? || st.Releasing? || st.Retrying? {
        return;
      }
      SendDisconnect(h, holders[h].machine.value, reason);
    }

    method ReleaseDataConnection(h: ApnId)
      requires Valid()
      modifies `holders, `pool
      ensures Valid() && View() == Handler.ReleaseDataConnection(old(View()), h)
    {
      if h in holders && holders[h].machine.Some? && holders[h].machine.value < |pool| {
        SendDisconnect(h, holders[h].machine.value, ReasonClear);
      }
    }

    method ClearAllConnections(reason: DisconnectReason, handoverStuck: bool)
      requires Valid()
      modifies `holders, `pool
      ensures Valid() && View() == if handoverStuck then old(View()) else ClearEach(old(View()), apnHolders, reason)
    {
      if handoverStuck {
        return;
      }
      var k := 0;
      while k < |apnHolders|
        invariant k <= |apnHolders| && Valid()
        invariant ClearEach(View(), apnHolders[k..], reason) == ClearEach(old(View()), apnHolders, reason)
      {
        var h := apnHolders[k];
        assert apnHolders[k..][0] == h && apnHolders[k..][1..] == apnHolders[k + 1..];
        if h != MMS_ID {
          ClearConnection(h, reason);
        }
        k := k + 1;
      }
    }

    /** BIP and DUN make room for the default connection. */
    method CheckMultiApnState(h: ApnId)
      requires Valid() && Listed()
      modifies `holders, `pool
      ensures Valid()
      ensures View() == if h == DEFAULT_ID then ReleaseShared(old(View()), HOLDER_ORDER) else old(View())
    {
      if h == DEFAULT_ID {
        ReleaseSharedApns();
      }
    }

    method ReleaseSharedApns()
      requires Valid()
      modifies `holders, `pool
      ensures Valid() && View() == ReleaseShared(old(View()), apnHolders)
    {
      var k := 0;
      while k < |apnHolders|
        invariant k <= |apnHolders| && Valid()
        invariant ReleaseShared(View(), apnHolders[k..]) == ReleaseShared(old(View()), apnHolders)
      {
        var g := apnHolders[k];
        assert apnHolders[k..][0] == g && apnHolders[k..][1..] == apnHolders[k + 1..];
        if (g == BIP_ID || g == DUN_ID) && g in holders &&
           (holders[g].state.Connected? || holders[g].state.Connecting?) {
          ReleaseDataConnection(g);
        }
        k := k + 1;
      }
    }

    // ---- Connecting ----

    /** A free machine is taken, or a new one is started, and the connect is queued to it. */
    method HandOut(h: ApnId)
      requires Valid() && h in holders
      modifies `holders, `pool
      ensures Valid() && View() == Allocate(old(View()), h)
    {
      var i := FindIdleCellularDataConnection();
      if i == |pool| {
        pool := pool + [NEW_MACHINE];
      }
      holders := holders[h := holders[h].(state := Connecting, machine := Some(i))];
      pool := pool[i := Grant(pool[i], h)];
    }

    method EstablishDataConnection(h: ApnId, env: Admission)
      requires Valid() && Listed() && h in holders
      modifies `holders, `pool, `requests
      ensures Valid() && View() == Handler.EstablishDataConnection(old(View()), h, env)
    {
      if !env.apnFound {
        return;
      }
      var compatible := None;
      if SharesConnections(h) {
        compatible := CheckForCompatibleDataConnection(env.fits);
      }
      if compatible.Some? {
        if compatible.value < |pool| && pool[compatible.value].phase.Active? {
          holders := holders[h := holders[h].(enabled := false)];
        } else {
          SendEstablish(h);
        }
        return;
      }
      if env.single {
        var higher := HasAnyHigherPriorityConnection(h);
        if higher {
          return;
        }
        var st := GetOverallApnState();
        if st.Connecting? || st.Connected? {
          ClearAllConnections(ReasonChange, env.handoverStuck);
          return;
        }
      }
      HandOut(h);
    }

    method AttemptEstablishDataConnection(h: ApnId, env: Admission)
      requires Valid() && Listed()
      modifies `holders, `pool, `requests
      ensures Valid() && View() == AttemptEstablish(old(View()), h, env)
    {
      if h !in holders || !env.admitted {
        return;
      }
      var st := holders[h].state;
      if st.Releasing? && requests == multiset{} {
        SendEstablish(h);
        return;
      }
      if !st.Idle? && !st.Failed? {
        return;
      }
      SetApnState(h, Idle);
      if !env.matched {
        return;
      }
      CheckMultiApnState(h);
      EstablishDataConnection(h, env);
    }

    method EstablishAllApnsIfConnectable(envs: map<ApnId, Admission>)
      requires Valid() && Listed()
      modifies `holders, `pool, `requests
      ensures Valid() && View() == EstablishEach(old(View()), SORTED_ORDER, envs)
    {
      EstablishInOrder(sortedApnHolders, envs);
    }

    method EstablishInOrder(hs: seq<ApnId>, envs: map<ApnId, Admission>)
      requires Valid() && Listed()
      modifies `holders, `pool, `requests
      ensures Valid() && View() == EstablishEach(old(View()), hs, envs)
    {
      var k := 0;
      while k < |hs|
        invariant k <= |hs| && Valid()
        invariant EstablishEach(View(), hs[k..], envs) == EstablishEach(old(View()), hs, envs)
      {
        assert hs[k..] == [hs[k]] + hs[k + 1..];
        EstablishOneApn(hs[k], hs[k + 1..], envs);
        k := k + 1;
      }
    }

    method EstablishOneApn(h: ApnId, ghost rest: seq<ApnId>, envs: map<ApnId, Admission>)
      requires Valid() && Listed()
      modifies `holders, `pool, `requests
      ensures Valid()
      ensures EstablishEach(View(), rest, envs) == EstablishEach(old(View()), [h] + rest, envs)
    {
      assert ([h] + rest)[1..] == rest;
      if h in holders && holders[h].enabled {
        var st := holders[h].state;
        if st.Failed? || st.Retrying? {
          ReleaseDataConnection(h);
        }
        AttemptEstablishDataConnection(h, EnvOf(envs, h));
      }
    }

    method MsgEstablishDataConnection(h: ApnId, env: Admission, cardAllowed: bool, bearer: Bearer, primarySlot: bool)
      requires Valid() && Listed()
      modifies `holders, `pool, `requests
      ensures Valid() && View() == MsgEstablish(old(View()), h, env, cardAllowed, bearer, primarySlot)
    {
      requests := requests - multiset{h};
      if h !in holders {
        return;
      }
      if cardAllowed && holders[h].enabled {
        AttemptEstablishDataConnection(h, env);
        return;
      }
      var reason := FindDisConnectionReason(h, env.single, bearer, primarySlot);
      ClearConnection(h, reason);
    }

    method FindDisConnectionReason(h: ApnId, single: bool, bearer: Bearer, primarySlot: bool)
      returns (reason: DisconnectReason)
      ensures reason == ReleaseReason(h, single, bearer, primarySlot)
    {
      reason := ReasonChange;
      if !single {
        reason := ReasonClear;
      }
      if !bearer.NoBearer? {
        reason := if h == INTERNAL_DEFAULT_ID || bearer.Wifi? then ReasonHandover else ReasonClear;
      }
      if reason.ReasonHandover? && h == DEFAULT_ID && !primarySlot {
        reason := ReasonClear;
      }
    }

    // ---- Reports ----

    method EstablishDataConnectionComplete()
      requires Valid() && inbox != [] && inbox[0].Established?
      modifies this
      ensures Valid() && View() == EstablishComplete(old(View()))
    {
      var h := ReportedHolder(inbox[0].flag);
      inbox := inbox[1..];
      if h !in holders {
        return;
      }
      SetApnState(h, Connected);
      if h == DEFAULT_ID {
        retries := retries + multiset{INTERNAL_DEFAULT_ID};
      }
      if holders[h].machine.None? {
        SetApnState(h, Idle);
      }
      assert holders == old(holders)[h := old(holders)[h].(state := if old(holders)[h].machine.Some? then Connected else Idle)];
    }

    method RetryOrClearConnection(h: ApnId, reason: DisconnectReason, envs: map<ApnId, Admission>)
      requires Valid() && Listed() && h in holders
      modifies this
      ensures Valid() && View() == RetryOrClear(old(View()), h, reason, envs)
    {
      if reason.ReasonClear? {
        ClearConnection(h, reason);
        EstablishAllApnsIfConnectable(envs);
      } else if reason.ReasonPermanentReject? {
        ClearConnection(h, ReasonClear);
      } else if reason.ReasonRetry? {
        SetApnState(h, Retrying);
        retries := retries + multiset{h};
      }
    }

    method DisconnectDataComplete(envs: map<ApnId, Admission>)
      requires Valid() && Listed() && inbox != [] && inbox[0].Disconnected?
      modifies this
      ensures Valid() && View() == DisconnectComplete(old(View()), envs)
    {
      var report := inbox[0];
      var h := report.flag;
      inbox := inbox[1..];
      if h !in holders {
        return;
      }
      if holders[h].machine.None? || holders[h].machine.value >= |pool| {
        SetApnState(h, Idle);
        return;
      }
      cidIndex := cidIndex - {pool[holders[h].machine.value].cid};
      holders := holders[h := holders[h].(state := Idle, machine := None)];
      assert View() == TakeBack(old(View()));
      var reason := ToDisconnectReason(report.info.reason);
      if holders[h].enabled {
        RetryOrClearConnection(h, reason, envs);
      }
      if reason.ReasonChange? {
        HandleSortConnection();
      }
    }

    /** Once everything is down, ask for the enabled holder of highest priority. */
    method HandleSortConnection()
      requires Valid() && Listed()
      modifies `requests
      ensures Valid() && View() == SortConnection(old(View()))
    {
      var st := GetOverallApnState();
      if st.Idle? || st.Failed? {
        var next := FindEnabled();
        if next.Some? {
          SendEstablish(next.value);
        }
      }
    }

    method FindEnabled() returns (next: Option<ApnId>)
      requires Valid()
      ensures next == FirstEnabled(View(), sortedApnHolders)
    {
      var k := 0;
      while k < |sortedApnHolders|
        invariant k <= |sortedApnHolders|
        invariant FirstEnabled(View(), sortedApnHolders) == FirstEnabled(View(), sortedApnHolders[k..])
      {
        var h := sortedApnHolders[k];
        assert sortedApnHolders[k..][0] == h && sortedApnHolders[k..][1..] == sortedApnHolders[k + 1..];
        if holders[h].enabled {
          return Some(h);
        }
        k := k + 1;
      }
      return None;
    }

    // ---- Retries ----

    method RetryToSetupDatacall(h: ApnId)
      requires Valid()
      modifies `holders, `retries, `requests
      ensures Valid() && View() == RetryToSetup(old(View()), h)
    {
      if h !in retries {
        return;
      }
      retries := retries - multiset{h};
      if h !in holders || !holders[h].state.Retrying? {
        return;
      }
      SetApnState(h, Idle);
      SendEstablish(h);
    }

    method HandleApnChanged(clear: bool, handoverStuck: bool)
      requires Valid() && Listed()
      modifies this
      ensures Valid() && View() == ApnChanged(old(View()), clear, handoverStuck)
    {
      if clear {
        ClearAllConnections(ReasonClear, handoverStuck);
      }
      ResetRetryingApns();
    }

    method ResetRetryingApns()
      requires Valid()
      modifies `holders, `retries, `requests
      ensures Valid() && View() == ResetRetrying(old(View()), apnHolders)
    {
      var k := 0;
      while k < |apnHolders|
        invariant k <= |apnHolders| && Valid()
        invariant ResetRetrying(View(), apnHolders[k..]) == ResetRetrying(old(View()), apnHolders)
      {
        var h := apnHolders[k];
        assert apnHolders[k..][0] == h && apnHolders[k..][1..] == apnHolders[k + 1..];
        if h in holders && holders[h].state.Retrying? {
          SetApnState(h, Idle);
          retries := multiset{};
        }
        SendEstablish(h);
        k := k + 1;
      }
    }

    method OnRilAdapterHostDied()
      modifies `pool
      ensures View() == NotifyHostDied(old(View()))
    {
      ghost var before := pool;
      var k := 0;
      while k < |pool|
        invariant k <= |pool| == |before|
        invariant forall j | 0 <= j < |pool| :: pool[j] == if j < k then Post(before[j], HostDied) else before[j]
      {
        pool := pool[k := Post(pool[k], HostDied)];
        k := k + 1;
      }
    }
  }
}
