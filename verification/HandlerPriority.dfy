/** Who outranks whom, what that means while only one connection is allowed, who is asked for
    next, and exactly when a request ends with a machine of its own. */
module HandlerPriority {
  import opened Options
  import opened ReasonCodes
  import opened ConnectionMachine
  import opened AttemptInvariant
  import opened Handler
  import opened ProtocolInvariant
  import opened Protocol
  import opened ProtocolFrames
  import opened ProtocolTheorems
  import opened HandlerClearing

  /** Initial attach outranks all, every role but the internal default one outranks the
      default role, and the default role outranks the internal one. */
  predicate Outranks(g: ApnId, h: ApnId) {
    || (g == IA_ID && h != IA_ID)
    || (h == DEFAULT_ID && g != DEFAULT_ID && g != INTERNAL_DEFAULT_ID)
    || (h == INTERNAL_DEFAULT_ID && g != INTERNAL_DEFAULT_ID)
  }

  /** Enabled and connecting, connected or disconnecting. */
  predicate Occupies(s: System, g: ApnId) {
    && g in s.holders && s.holders[g].enabled
    && (s.holders[g].state.Connecting? || s.holders[g].state.Connected? || s.holders[g].state.Releasing?)
  }

  ghost predicate Outranked(s: System, h: ApnId) {
    exists g :: Occupies(s, g) && Outranks(g, h)
  }

  lemma OutrankedExactly(s: System, h: ApnId)
    ensures HasHigherPriority(s, h) <==> Outranked(s, h)
  {
    forall g
      ensures Outranks(g, h) <==> Priority(g) > Priority(h)
    {
    }
    if g :| Occupies(s, g) && Outranks(g, h) {
      assert g in s.holders && Priority(g) > Priority(h);
    }
    if g :| g in s.holders && Priority(g) > Priority(h) && s.holders[g].enabled &&
            (s.holders[g].state.Connected? || s.holders[g].state.Connecting? || s.holders[g].state.Releasing?) {
      assert Occupies(s, g) && Outranks(g, h);
    }
  }

  // ---- Quiet ----

  /** Nobody is connecting, connected, disconnecting or waiting to retry. */
  ghost predicate Quiet(s: System) {
    forall h | h in s.holders :: s.holders[h].state.Idle? || s.holders[h].state.Failed?
  }

  lemma OverallExactly(s: System)
    requires Inv(s)
    ensures OverallState(s).Connecting? || OverallState(s).Connected? <==> !Quiet(s)
    ensures OverallState(s).Idle? || OverallState(s).Failed? <==> Quiet(s)
  {
    assert DEFAULT_ID in HOLDER_ORDER;
    assert DEFAULT_ID in s.holders;
    if !Quiet(s) {
      var h :| h in s.holders && !s.holders[h].state.Idle? && !s.holders[h].state.Failed?;
      assert AnyIn(s, Connected, Releasing) || AnyIn(s, Connecting, Retrying);
    }
  }

  // ---- A connection to share ----

  /** A machine whose APN serves the type and that is active, activating or disconnecting. */
  ghost predicate Shareable(s: System, env: Admission, i: nat) {
    i < |s.pool| && i in env.fits && Running(s.pool[i])
  }

  ghost predicate CanShare(s: System, h: ApnId, env: Admission) {
    h != DEFAULT_ID && h != INTERNAL_DEFAULT_ID && exists i: nat :: Shareable(s, env, i)
  }

  ghost predicate CanShareActive(s: System, env: Admission) {
    exists i: nat :: Shareable(s, env, i) && s.pool[i].phase.Active?
  }

  lemma {:induction false} ScanFinds(s: System, env: Admission, i: nat, potential: Option<nat>)
    requires i <= |s.pool|
    requires potential.Some? ==> potential.value < i && !s.pool[potential.value].phase.Active?
    ensures var c := FindCompatible(s.pool, env.fits, i, potential);
            && (c.Some? <==> potential.Some? || exists j: nat :: i <= j && Shareable(s, env, j))
            && (c.Some? ==> c.value < |s.pool|)
            && (c.Some? && s.pool[c.value].phase.Active? <==>
                  exists j: nat :: i <= j && Shareable(s, env, j) && s.pool[j].phase.Active?)
    decreases |s.pool| - i
  {
    if i < |s.pool| {
      if i !in env.fits {
        ScanFinds(s, env, i + 1, potential);
      } else if s.pool[i].phase.Active? {
        assert Shareable(s, env, i);
      } else if s.pool[i].phase.Activating? || (s.pool[i].phase.Disconnecting? && potential.None?) {
        assert Shareable(s, env, i);
        ScanFinds(s, env, i + 1, Some(i));
      } else {
        ScanFinds(s, env, i + 1, potential);
      }
    }
  }

  lemma SharingExactly(s: System, h: ApnId, env: Admission)
    requires h in s.holders && env.apnFound && CanShare(s, h, env)
    ensures EstablishDataConnection(s, h, env) ==
            if CanShareActive(s, env) then SetEnabled(s, h, false) else Ask(s, h)
  {
    ScanFinds(s, env, 0, None);
  }

  // ---- One connection at a time ----

  lemma NothingShared(s: System, h: ApnId, env: Admission)
    requires h in s.holders && env.apnFound && !CanShare(s, h, env)
    ensures EstablishDataConnection(s, h, env) ==
            if env.single && HasHigherPriority(s, h) then s
            else if env.single && (OverallState(s).Connecting? || OverallState(s).Connected?)
            then ClearAllConnections(s, ReasonChange, env.handoverStuck)
            else Allocate(s, h)
  {
    ScanFinds(s, env, 0, None);
  }

  /** A request while only one connection is allowed. It is refused if somebody who occupies
      the line outranks it. Otherwise, if anybody is not quiet, everybody but MMS is released
      for the change, unless the modem refuses. Otherwise it gets its machine. */
  lemma SingleModeTurn(s: System, h: ApnId, env: Admission)
    requires Reachable(s) && h in s.holders && s.holders[h].state.Idle?
    requires env.apnFound && env.single && !CanShare(s, h, env)
    ensures var s' := EstablishDataConnection(s, h, env);
            if Outranked(s, h) || (!Quiet(s) && env.handoverStuck) then s' == s
            else if !Quiet(s) then Cleared(s, s', s.holders.Keys - {MMS_ID}, ReasonChange)
            else HasMachine(s', h) && s'.holders[h].state.Connecting?
  {
    ReachableInv(s);
    NothingShared(s, h, env);
    OutrankedExactly(s, h);
    OverallExactly(s);
    AllButMms(s, ReasonChange);
    HandOutEffect(s, h);
  }

  /** The default connection makes way for a role that nobody outranks. */
  lemma DefaultMakesWay(s: System, h: ApnId, env: Admission)
    requires Reachable(s) && h in s.holders && s.holders[h].state.Idle? && Up(s, DEFAULT_ID)
    requires env.apnFound && env.single && !env.handoverStuck && !CanShare(s, h, env)
    ensures var s' := EstablishDataConnection(s, h, env);
            if Outranked(s, h) then s' == s else ReleasedWith(s, s', DEFAULT_ID, ReasonChange)
  {
    SingleModeTurn(s, h, env);
    assert !Quiet(s) by {
      assert DEFAULT_ID in s.holders && !s.holders[DEFAULT_ID].state.Idle?;
    }
  }

  // ---- Exactly when a request ends with a machine ----

  lemma QuietStays(s: System, t: System, who: set<ApnId>, reason: DisconnectReason)
    requires Cleared(s, t, who, reason)
    ensures Quiet(t) <==> Quiet(s)
  {
    forall h | h in s.holders
      ensures t.holders[h].state.Idle? || t.holders[h].state.Failed? <==>
              s.holders[h].state.Idle? || s.holders[h].state.Failed?
    {
      if h in who && Up(s, h) {
        assert ReleasedWith(s, t, h, reason);
      }
    }
  }

  lemma QuietIsNotOutranked(s: System, h: ApnId)
    requires Quiet(s)
    ensures !Outranked(s, h)
  {
  }

  lemma GetsMachine(s: System, h: ApnId, env: Admission)
    requires Inv(s) && h in s.holders && s.holders[h].state.Idle? && env.apnFound && !CanShare(s, h, env)
    ensures var x := EstablishDataConnection(s, h, env).holders;
            h in x && (x[h].machine.Some? <==> (env.single ==> Quiet(s))) && (x[h].machine.Some? ==> x[h].state.Connecting?)
  {
    NothingShared(s, h, env);
    OutrankedExactly(s, h);
    OverallExactly(s);
    ClearSpares(s, h, env.handoverStuck);
    assert HolderOk(s, h);
    if Quiet(s) {
      QuietIsNotOutranked(s, h);
    }
  }

  lemma SharesInstead(s: System, h: ApnId, env: Admission)
    requires Inv(s) && h in s.holders && s.holders[h].state.Idle?
    requires !env.apnFound || CanShare(s, h, env)
    ensures var x := EstablishDataConnection(s, h, env).holders; h in x && x[h].machine.None?
  {
    assert HolderOk(s, h);
    if env.apnFound {
      SharingExactly(s, h, env);
    }
  }

  /** An idle holder's request ends with a machine of its own exactly if it is admitted, has
      an APN, cannot share a running connection, and, while only one connection is allowed,
      everybody is quiet. */
  lemma ConnectsExactly(s: System, h: ApnId, env: Admission)
    requires Inv(s) && h in s.holders && s.holders[h].state.Idle?
    ensures var x := AttemptEstablish(s, h, env).holders;
            && h in x
            && (x[h].machine.Some? <==>
                  env.admitted && env.matched && env.apnFound && !CanShare(s, h, env) && (env.single ==> Quiet(s)))
            && (x[h].machine.Some? ==> x[h].state.Connecting?)
  {
    assert HolderOk(s, h);
    if env.admitted && env.matched {
      SetIdle(s, h);
      if h == DEFAULT_ID {
        MakeRoomEffect(s);
        var t := ReleaseShared(s, HOLDER_ORDER);
        QuietStays(s, t, {BIP_ID, DUN_ID}, ReasonClear);
        EndsWithMachine(t, h, env);
      } else {
        EndsWithMachine(s, h, env);
      }
    }
  }

  lemma EndsWithMachine(s: System, h: ApnId, env: Admission)
    requires Inv(s) && h in s.holders && s.holders[h].state.Idle?
    ensures var x := EstablishDataConnection(s, h, env).holders;
            && h in x
            && (x[h].machine.Some? <==> env.apnFound && !CanShare(s, h, env) && (env.single ==> Quiet(s)))
            && (x[h].machine.Some? ==> x[h].state.Connecting?)
  {
    if env.apnFound && !CanShare(s, h, env) {
      GetsMachine(s, h, env);
    } else {
      SharesInstead(s, h, env);
    }
  }

  ghost predicate Spares(s: System, t: System, g: ApnId) {
    g in s.holders && g in t.holders && t.holders[g] == s.holders[g]
  }

  lemma OthersSpared(s: System, h: ApnId, env: Admission, g: ApnId)
    requires h in s.holders && g in s.holders && g != h
    requires Spares(s, ClearAllConnections(s, ReasonChange, env.handoverStuck), g)
    ensures Spares(s, EstablishDataConnection(s, h, env), g)
  {
    if env.apnFound {
      if CanShare(s, h, env) {
        SharingExactly(s, h, env);
      } else {
        NothingShared(s, h, env);
      }
    }
  }

  lemma ClearSpares(s: System, g: ApnId, stuck: bool)
    requires Inv(s) && g in s.holders && !Up(s, g)
    ensures Spares(s, ClearAllConnections(s, ReasonChange, stuck), g)
  {
    AllButMms(s, ReasonChange);
  }

  lemma SetIdle(s: System, h: ApnId)
    requires Inv(s) && h in s.holders && (s.holders[h].state.Idle? || s.holders[h].state.Failed?)
    ensures SetState(s, h, Idle) == s
  {
    assert HolderOk(s, h);
    assert SetState(s, h, Idle).holders == s.holders;
  }

  /** Nobody else's request is answered meanwhile. */
  lemma OthersStayIdle(s: System, h: ApnId, env: Admission, g: ApnId)
    requires Inv(s) && g in s.holders && g != h && !Up(s, g)
    ensures g in AttemptEstablish(s, h, env).holders && AttemptEstablish(s, h, env).holders[g] == s.holders[g]
  {
    if h in s.holders && env.admitted && (s.holders[h].state.Idle? || s.holders[h].state.Failed?) && env.matched {
      SetIdle(s, h);
      if h == DEFAULT_ID {
        MakeRoomEffect(s);
        ClearSpares(ReleaseShared(s, HOLDER_ORDER), g, env.handoverStuck);
        OthersSpared(ReleaseShared(s, HOLDER_ORDER), h, env, g);
      } else {
        ClearSpares(s, g, env.handoverStuck);
        OthersSpared(s, h, env, g);
      }
    }
  }

  // ---- Everybody is tried ----

  /** Nothing but admission and an APN is needed. */
  predicate Unhindered(env: Admission) {
    !env.single && env.fits == {}
  }

  predicate LetThrough(s: System, h: ApnId, env: Admission) {
    h in s.holders && s.holders[h].enabled && env.admitted && env.matched && env.apnFound
  }

  predicate IdleIn(s: System, h: ApnId) {
    h in s.holders && s.holders[h].state.Idle?
  }

  lemma TriedOne(s: System, hs: seq<ApnId>, envs: map<ApnId, Admission>) returns (t: System)
    requires Inv(s) && hs != []
    ensures Inv(t) && EstablishEach(s, hs, envs) == EstablishEach(t, hs[1..], envs)
    ensures t == if hs[0] in s.holders && s.holders[hs[0]].enabled then AttemptEstablish(s, hs[0], EnvOf(envs, hs[0])) else s
  {
    var h := hs[0];
    t := s;
    if h in s.holders && s.holders[h].enabled {
      assert HolderOk(s, h);
      AttemptKeeps(s, h, EnvOf(envs, h));
      t := AttemptEstablish(s, h, EnvOf(envs, h));
    }
  }

  lemma TriedOther(s: System, hs: seq<ApnId>, envs: map<ApnId, Admission>, h: ApnId) returns (t: System)
    requires Inv(s) && IdleIn(s, h) && hs != [] && hs[0] != h
    ensures Inv(t) && EstablishEach(s, hs, envs) == EstablishEach(t, hs[1..], envs)
    ensures IdleIn(t, h) && t.holders[h] == s.holders[h]
  {
    t := TriedOne(s, hs, envs);
    OthersStayIdle(s, hs[0], EnvOf(envs, hs[0]), h);
  }

  lemma TriedSelf(s: System, hs: seq<ApnId>, envs: map<ApnId, Admission>, h: ApnId) returns (t: System)
    requires Inv(s) && IdleIn(s, h) && hs != [] && hs[0] == h && Unhindered(EnvOf(envs, h))
    ensures Inv(t) && EstablishEach(s, hs, envs) == EstablishEach(t, hs[1..], envs)
    ensures h in t.holders && (t.holders[h].machine.Some? <==> LetThrough(s, h, EnvOf(envs, h)))
    ensures t.holders[h].machine.None? ==> t.holders[h] == s.holders[h]
  {
    var env := EnvOf(envs, h);
    t := TriedOne(s, hs, envs);
    assert HolderOk(s, h);
    ConnectsExactly(s, h, env);
    if !LetThrough(s, h, env) && s.holders[h].enabled {
      NotConnected(s, h, env);
    }
  }

  lemma KeepsMachine(t: System, hs: seq<ApnId>, envs: map<ApnId, Admission>, h: ApnId)
    requires Inv(t) && h in t.holders && t.holders[h].machine.Some?
    ensures h in EstablishEach(t, hs, envs).holders && EstablishEach(t, hs, envs).holders[h].machine == t.holders[h].machine
  {
    EstablishEachGentle(t, hs, envs);
    AllBare(t, h);
    assert Calmed(t.holders[h], EstablishEach(t, hs, envs).holders[h]);
  }

  lemma {:induction false} EachTried(s: System, hs: seq<ApnId>, envs: map<ApnId, Admission>, h: ApnId)
    requires Inv(s) && IdleIn(s, h) && Unhindered(EnvOf(envs, h))
    ensures var x := EstablishEach(s, hs, envs).holders;
            h in x && (h in hs && LetThrough(s, h, EnvOf(envs, h)) <==> x[h].machine.Some?)
    decreases |hs|
  {
    if hs == [] {
      assert HolderOk(s, h);
    } else if hs[0] != h {
      var t := TriedOther(s, hs, envs, h);
      EachTried(t, hs[1..], envs, h);
    } else {
      var t := TriedSelf(s, hs, envs, h);
      if t.holders[h].machine.Some? {
        KeepsMachine(t, hs[1..], envs, h);
      } else {
        EachTried(t, hs[1..], envs, h);
      }
    }
  }

  /** When everybody is tried, an idle holder that nothing hinders ends with a machine exactly
      if it is enabled, admitted and has an APN, whatever the others ask for. */
  lemma TriedExactly(s: System, envs: map<ApnId, Admission>, h: ApnId)
    requires Inv(s) && IdleIn(s, h) && Unhindered(EnvOf(envs, h))
    ensures var env := EnvOf(envs, h);
            var x := EstablishEach(s, SORTED_ORDER, envs).holders;
            h in x && (x[h].machine.Some? <==> s.holders[h].enabled && env.admitted && env.matched && env.apnFound)
  {
    EachTried(s, SORTED_ORDER, envs, h);
    SameRoles(h);
    assert h in ROLES;
  }

  lemma NotConnected(s: System, h: ApnId, env: Admission)
    requires Inv(s) && IdleIn(s, h) && !(env.admitted && env.matched && env.apnFound)
    ensures h in AttemptEstablish(s, h, env).holders && AttemptEstablish(s, h, env).holders[h] == s.holders[h]
  {
    SetIdle(s, h);
    MakeRoomEffect(s);
  }

  // ---- Who is asked for next ----

  /** No role stands before one that outranks it. */
  lemma SortedByRank()
    ensures forall i, j | 0 <= i < j < |SORTED_ORDER| :: !Outranks(SORTED_ORDER[j], SORTED_ORDER[i])
  {
    assert SORTED_ORDER[0] == IA_ID && SORTED_ORDER[12] == DEFAULT_ID && SORTED_ORDER[13] == INTERNAL_DEFAULT_ID;
    assert forall j | 1 <= j < 14 :: SORTED_ORDER[j] != IA_ID;
    assert forall i | 0 <= i < 12 :: SORTED_ORDER[i] != DEFAULT_ID && SORTED_ORDER[i] != INTERNAL_DEFAULT_ID;
  }

  lemma SameRoles(h: ApnId)
    ensures h in SORTED_ORDER <==> h in HOLDER_ORDER
  {
  }

  predicate Enabled(s: System, h: ApnId) {
    h in s.holders && s.holders[h].enabled
  }

  lemma {:induction false} FirstEnabledAt(s: System, hs: seq<ApnId>) returns (k: nat)
    ensures k <= |hs| && (forall j | 0 <= j < k :: !Enabled(s, hs[j]))
    ensures if k < |hs| then Enabled(s, hs[k]) && FirstEnabled(s, hs) == Some(hs[k]) else FirstEnabled(s, hs).None?
    decreases |hs|
  {
    if hs == [] || Enabled(s, hs[0]) {
      k := 0;
    } else {
      var n := FirstEnabledAt(s, hs[1..]);
      k := n + 1;
      assert forall j | 1 <= j < k :: hs[j] == hs[1..][j - 1];
    }
  }

  lemma EnabledStandsBehind(s: System, g: ApnId, k: nat)
    requires Inv(s) && Enabled(s, g) && k <= |SORTED_ORDER| && forall j | 0 <= j < k :: !Enabled(s, SORTED_ORDER[j])
    ensures k < |SORTED_ORDER| && !Outranks(g, SORTED_ORDER[k])
  {
    SortedByRank();
    assert g in ROLES;
    SameRoles(g);
    var j :| 0 <= j < |SORTED_ORDER| && SORTED_ORDER[j] == g;
    assert k <= j;
  }

  /** Once everybody is quiet, an enabled holder that no enabled holder outranks is asked for;
      otherwise nothing happens. */
  lemma NextByRank(s: System)
    requires Inv(s)
    ensures if Quiet(s) && exists h :: Enabled(s, h)
            then exists h :: Enabled(s, h) && (forall g | Enabled(s, g) :: !Outranks(g, h)) && SortConnection(s) == Ask(s, h)
            else SortConnection(s) == s
  {
    OverallExactly(s);
    var k := FirstEnabledAt(s, SORTED_ORDER);
    forall g | Enabled(s, g)
      ensures k < |SORTED_ORDER| && !Outranks(g, SORTED_ORDER[k])
    {
      EnabledStandsBehind(s, g, k);
    }
  }

  // ---- Everybody is tried while only one connection is allowed ----

  /** One connection at a time, and nothing to share. */
  ghost predicate OneAtATime(envs: map<ApnId, Admission>) {
    forall h | h in ROLES :: EnvOf(envs, h).single && EnvOf(envs, h).fits == {}
  }

  ghost predicate RolesOnly(hs: seq<ApnId>) {
    forall i | 0 <= i < |hs| :: hs[i] in ROLES
  }

  /** Exactly this holder has a machine. */
  ghost predicate Sole(s: System, h: ApnId) {
    && HasMachine(s, h)
    && forall g | g in s.holders && g != h :: s.holders[g].machine.None?
  }

  ghost predicate NobodyHolds(s: System) {
    forall g | g in s.holders :: s.holders[g].machine.None?
  }

  lemma BareIsNotUp(s: System, g: ApnId)
    requires Inv(s) && g in s.holders && s.holders[g].machine.None?
    ensures !Up(s, g) && (s.holders[g].state.Idle? || s.holders[g].state.Retrying?)
  {
    assert HolderOk(s, g);
  }

  lemma HolderIsNotQuiet(s: System, h: ApnId)
    requires Inv(s) && HasMachine(s, h)
    ensures !Quiet(s)
  {
    assert HolderOk(s, h);
  }

  lemma QuietHoldsNothing(s: System)
    requires Inv(s) && Quiet(s)
    ensures NobodyHolds(s) && forall g | g in s.holders :: s.holders[g].state.Idle?
  {
    forall g | g in s.holders
      ensures s.holders[g].machine.None? && s.holders[g].state.Idle?
    {
      assert HolderOk(s, g);
    }
  }

  /** While one holder has a machine nobody else's turn gets one. */
  lemma TurnInVain(s: System, h: ApnId, g: ApnId, env: Admission)
    requires Inv(s) && Sole(s, h) && g in s.holders && env.single
    ensures var t := AttemptEstablish(s, g, env);
            Inv(t) && t.holders.Keys == s.holders.Keys && forall k | k in s.holders :: t.holders[k].machine == s.holders[k].machine
  {
    AttemptKeeps(s, g, env);
    AttemptGentle(s, g, env);
    HolderIsNotQuiet(s, h);
    var t := AttemptEstablish(s, g, env);
    forall k | k in s.holders
      ensures t.holders[k].machine == s.holders[k].machine
    {
      MachineAfterTurn(s, h, g, env, k);
    }
  }

  lemma MachineAfterTurn(s: System, h: ApnId, g: ApnId, env: Admission, k: ApnId)
    requires Inv(s) && Sole(s, h) && !Quiet(s) && g in s.holders && env.single && k in s.holders
    ensures var x := AttemptEstablish(s, g, env).holders; k in x && x[k].machine == s.holders[k].machine
  {
    if k == h {
      AttemptGentle(s, g, env);
      AllBare(s, h);
      assert Calmed(s.holders[h], AttemptEstablish(s, g, env).holders[h]);
    } else {
      BareIsNotUp(s, k);
      if k != g {
        OthersStayIdle(s, g, env, k);
      } else if s.holders[k].state.Idle? {
        ConnectsExactly(s, k, env);
      }
    }
  }

  lemma {:induction false} SoleStays(s: System, hs: seq<ApnId>, envs: map<ApnId, Admission>, h: ApnId)
    requires Inv(s) && Sole(s, h) && OneAtATime(envs) && RolesOnly(hs)
    ensures Sole(EstablishEach(s, hs, envs), h)
    decreases |hs|
  {
    if hs != [] {
      var t := TriedOne(s, hs, envs);
      if hs[0] in s.holders {
        TurnInVain(s, h, hs[0], EnvOf(envs, hs[0]));
        SoleAfter(s, t, h);
      }
      SoleStays(t, hs[1..], envs, h);
    }
  }

  lemma SoleAfter(s: System, t: System, h: ApnId)
    requires Inv(t) && Sole(s, h) && t.holders.Keys == s.holders.Keys
    requires forall k | k in s.holders :: t.holders[k].machine == s.holders[k].machine
    ensures Sole(t, h)
  {
    assert HolderOk(t, h);
  }

  /** Making room while everybody is quiet does nothing. */
  lemma NothingToClear(s: System, t: System, who: set<ApnId>, reason: DisconnectReason)
    requires Cleared(s, t, who, reason) && Quiet(s)
    ensures t == s
  {
    forall h | h in s.holders
      ensures t.holders[h] == s.holders[h]
    {
      assert !Up(s, h);
    }
    assert t.holders == s.holders;
    forall i: nat | i < |s.pool|
      ensures t.pool[i] == s.pool[i]
    {
      assert !HeldUpBy(s, i, who);
    }
    assert t.pool == s.pool;
  }

  /** The turn of a holder while everybody is quiet. */
  lemma QuietTurn(s: System, hs: seq<ApnId>, envs: map<ApnId, Admission>) returns (t: System)
    requires Inv(s) && Quiet(s) && hs != [] && hs[0] in ROLES && OneAtATime(envs)
    ensures Inv(t) && EstablishEach(s, hs, envs) == EstablishEach(t, hs[1..], envs)
    ensures if LetThrough(s, hs[0], EnvOf(envs, hs[0])) then Sole(t, hs[0]) else t == s
  {
    var h := hs[0];
    var env := EnvOf(envs, h);
    t := TriedOne(s, hs, envs);
    QuietHoldsNothing(s);
    if LetThrough(s, h, env) {
      WinsTurn(s, h, env);
    } else if s.holders[h].enabled {
      PassedOver(s, h, env);
    }
  }

  lemma WinsTurn(s: System, h: ApnId, env: Admission)
    requires Inv(s) && Quiet(s) && NobodyHolds(s) && h in s.holders && s.holders[h].state.Idle?
    requires env.admitted && env.matched && env.apnFound && env.fits == {}
    ensures Sole(AttemptEstablish(s, h, env), h)
  {
    var t := AttemptEstablish(s, h, env);
    ConnectsExactly(s, h, env);
    assert !CanShare(s, h, env);
    AttemptKeeps(s, h, env);
    AttemptGentle(s, h, env);
    forall g | g in t.holders && g != h
      ensures t.holders[g].machine.None?
    {
      BareIsNotUp(s, g);
      OthersStayIdle(s, h, env, g);
    }
    assert HolderOk(t, h);
  }

  lemma PassedOver(s: System, h: ApnId, env: Admission)
    requires Inv(s) && Quiet(s) && h in s.holders && s.holders[h].state.Idle?
    requires !(env.admitted && env.matched && env.apnFound)
    ensures AttemptEstablish(s, h, env) == s
  {
    SetIdle(s, h);
    MakeRoomEffect(s);
    NothingToClear(s, ReleaseShared(s, HOLDER_ORDER), {BIP_ID, DUN_ID}, ReasonClear);
  }

  /** The first in the order that is let through, or the length. */
  ghost function FirstLet(s: System, hs: seq<ApnId>, envs: map<ApnId, Admission>): (k: nat)
    ensures k <= |hs| && forall j | 0 <= j < k :: !LetThrough(s, hs[j], EnvOf(envs, hs[j]))
    ensures k < |hs| ==> LetThrough(s, hs[k], EnvOf(envs, hs[k]))
    decreases |hs|
  {
    if hs == [] || LetThrough(s, hs[0], EnvOf(envs, hs[0])) then 0
    else
      assert forall j | 1 <= j < |hs| :: hs[j] == hs[1..][j - 1];
      FirstLet(s, hs[1..], envs) + 1
  }

  /** That holder is the only one with a machine. */
  lemma {:induction false} FirstWins(s: System, hs: seq<ApnId>, envs: map<ApnId, Admission>)
    requires Inv(s) && Quiet(s) && OneAtATime(envs) && RolesOnly(hs)
    ensures var k := FirstLet(s, hs, envs);
            if k < |hs| then Sole(EstablishEach(s, hs, envs), hs[k]) else EstablishEach(s, hs, envs) == s
    decreases |hs|
  {
    if hs != [] {
      var t := QuietTurn(s, hs, envs);
      if LetThrough(s, hs[0], EnvOf(envs, hs[0])) {
        SoleStays(t, hs[1..], envs, hs[0]);
      } else {
        FirstWins(s, hs[1..], envs);
      }
    }
  }

  /** While only one connection is allowed and everybody is quiet, trying everybody ends with
      exactly one machine, held by an enabled, admitted holder with an APN that no other such
      holder outranks; without such a holder nothing happens. */
  lemma SingleModeWinner(s: System, envs: map<ApnId, Admission>)
    requires Reachable(s) && Quiet(s) && OneAtATime(envs)
    ensures if exists g :: LetThrough(s, g, EnvOf(envs, g))
            then exists h :: LetThrough(s, h, EnvOf(envs, h)) && Sole(EstablishEach(s, SORTED_ORDER, envs), h) &&
                   forall g | LetThrough(s, g, EnvOf(envs, g)) :: !Outranks(g, h)
            else EstablishEach(s, SORTED_ORDER, envs) == s
  {
    ReachableInv(s);
    forall i | 0 <= i < |SORTED_ORDER|
      ensures SORTED_ORDER[i] in ROLES
    {
      SameRoles(SORTED_ORDER[i]);
    }
    FirstWins(s, SORTED_ORDER, envs);
    var k := FirstLet(s, SORTED_ORDER, envs);
    forall g | LetThrough(s, g, EnvOf(envs, g))
      ensures k < |SORTED_ORDER| && !Outranks(g, SORTED_ORDER[k])
    {
      StandsBehind(s, g, k, envs);
    }
  }

  lemma StandsBehind(s: System, g: ApnId, k: nat, envs: map<ApnId, Admission>)
    requires Inv(s) && LetThrough(s, g, EnvOf(envs, g)) && k <= |SORTED_ORDER|
    requires forall j | 0 <= j < k :: !LetThrough(s, SORTED_ORDER[j], EnvOf(envs, SORTED_ORDER[j]))
    ensures k < |SORTED_ORDER| && !Outranks(g, SORTED_ORDER[k])
  {
    SortedByRank();
    assert g in ROLES;
    SameRoles(g);
    var j :| 0 <= j < |SORTED_ORDER| && SORTED_ORDER[j] == g;
    assert k <= j;
  }
}
