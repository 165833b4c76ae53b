/** The global invariant and the shapes of change that keep it. */
module ProtocolInvariant {
  import opened Options
  import opened ConnectionMachine
  import opened AttemptInvariant
  import opened AttemptSteps
  import opened Handler

  // ---- Reports addressed to one holder ----

  function For(q: seq<Report>, h: ApnId): seq<Report> {
    if q == [] then [] else (if q[0].flag == h then [q[0]] else []) + For(q[1..], h)
  }

  lemma {:induction false} ForConcat(p: seq<Report>, q: seq<Report>, h: ApnId)
    ensures For(p + q, h) == For(p, h) + For(q, h)
  {
    if p == [] {
      assert p + q == q;
    } else {
      assert (p + q)[1..] == p[1..] + q;
      ForConcat(p[1..], q, h);
    }
  }

  lemma {:induction false} ForOwn(q: seq<Report>, h: ApnId)
    requires forall i | 0 <= i < |q| :: q[i].flag == h
    ensures For(q, h) == q
  {
    if q != [] {
      ForOwn(q[1..], h);
    }
  }

  lemma {:induction false} ForOther(q: seq<Report>, h: ApnId)
    requires forall i | 0 <= i < |q| :: q[i].flag != h
    ensures For(q, h) == []
  {
    if q != [] {
      ForOther(q[1..], h);
    }
  }

  // ---- Invariant ----

  ghost predicate HolderOk(s: System, h: ApnId)
    requires h in s.holders
  {
    var x := s.holders[h];
    && h != ERROR_APN_ID
    && (x.state.Retrying? ==> h in s.retries)
    && if x.machine.None? then
         (x.state.Idle? || x.state.Retrying?) && For(s.inbox, h) == []
       else
         x.machine.value < |s.pool| && Held(s.pool[x.machine.value], h, x.state, For(s.inbox, h))
  }

  ghost predicate HoldersOk(s: System) {
    forall h | h in s.holders :: HolderOk(s, h)
  }

  ghost predicate Exclusive(s: System) {
    forall g, h | g in s.holders && h in s.holders && g != h && s.holders[g].machine.Some? ::
      s.holders[g].machine != s.holders[h].machine
  }

  ghost predicate PoolOk(s: System) {
    forall i | 0 <= i < |s.pool| && !InUse(s, i) :: Free(s.pool[i])
  }

  /** A machine whose attempt reached the active state and is not yet given back. */
  predicate Registered(m: Machine) {
    (m.phase.Active? || m.phase.Disconnecting? || m.phase.Inactive?) && m.grants == |m.accepted|
  }

  ghost predicate EntryOk(s: System, c: int)
    requires c in s.cidIndex
  {
    var i := s.cidIndex[c];
    i < |s.pool| && s.pool[i].cid == c && InUse(s, i) && Registered(s.pool[i])
  }

  ghost predicate IndexOk(s: System) {
    forall c | c in s.cidIndex :: EntryOk(s, c)
  }

  ghost predicate InboxOk(s: System) {
    forall k | 0 <= k < |s.inbox| :: s.inbox[k].flag in s.holders
  }

  ghost predicate RolesOk(s: System) {
    s.holders.Keys == ROLES
  }

  ghost predicate Inv(s: System) {
    HoldersOk(s) && Exclusive(s) && PoolOk(s) && IndexOk(s) && InboxOk(s) && RolesOk(s)
  }

  lemma RoleRange(h: ApnId)
    requires h in ROLES
    ensures 0 <= h <= MAX_ROLE_ID
  {
    assert h in HOLDER_ORDER;
  }

  // ---- One holder and the machine it holds change together ----

  ghost predicate SameReports(s: System, s': System, h: ApnId) {
    forall g | g in s.holders && g != h :: For(s'.inbox, g) == For(s.inbox, g)
  }

  ghost predicate SamePool(s: System, s': System, i: nat) {
    && |s.pool| <= |s'.pool|
    && i < |s'.pool|
    && (forall j | 0 <= j < |s'.pool| && j != i :: j < |s.pool| && s'.pool[j] == s.pool[j])
  }

  ghost predicate KeepsRetries(s: System, s': System) {
    forall g | g in s.retries :: g in s'.retries
  }

  ghost predicate PairStep(s: System, s': System, h: ApnId, i: nat) {
    && h in s.holders
    && h in s'.holders
    && s'.holders == s.holders[h := s'.holders[h]]
    && s'.holders[h].machine == Some(i)
    && (s.holders[h].machine == Some(i) || (s.holders[h].machine.None? && !InUse(s, i)))
    && SamePool(s, s', i)
    && SameReports(s, s', h)
    && KeepsRetries(s, s')
    && Held(s'.pool[i], h, s'.holders[h].state, For(s'.inbox, h))
  }

  lemma PairExclusive(s: System, s': System, h: ApnId, i: nat)
    requires Exclusive(s) && PairStep(s, s', h, i)
    ensures Exclusive(s')
  {
    forall g, k | g in s'.holders && k in s'.holders && g != k && s'.holders[g].machine.Some?
      ensures s'.holders[g].machine != s'.holders[k].machine
    {
      if g != h && k != h {
        assert s.holders[g].machine != s.holders[k].machine;
      }
    }
  }

  lemma PairHolders(s: System, s': System, h: ApnId, i: nat)
    requires HoldersOk(s) && Exclusive(s) && PairStep(s, s', h, i)
    ensures HoldersOk(s')
  {
    forall g | g in s'.holders
      ensures HolderOk(s', g)
    {
      assert HolderOk(s, g);
    }
  }

  lemma PairUse(s: System, s': System, h: ApnId, i: nat, j: nat)
    requires PairStep(s, s', h, i)
    ensures InUse(s', i)
    ensures InUse(s', j) <==> InUse(s, j) || j == i
  {
    assert s'.holders[h].machine == Some(i);
    if InUse(s, j) {
      var g :| g in s.holders && s.holders[g].machine == Some(j);
      if g != h {
        assert g in s'.holders && s'.holders[g].machine == Some(j);
      }
    }
    if InUse(s', j) && j != i {
      var g :| g in s'.holders && s'.holders[g].machine == Some(j);
      assert g in s.holders && s.holders[g].machine == Some(j);
    }
  }

  lemma PairPool(s: System, s': System, h: ApnId, i: nat)
    requires PoolOk(s) && PairStep(s, s', h, i)
    ensures PoolOk(s')
  {
    forall j | 0 <= j < |s'.pool| && !InUse(s', j)
      ensures Free(s'.pool[j])
    {
      PairUse(s, s', h, i, j);
      var m := s'.pool[j];
      assert j < |s.pool| && m == s.pool[j];
      assert Free(s.pool[j]);
    }
  }

  /** What the step may do to the index: keep it, or add the machine's own cid. */
  ghost predicate IndexStep(s: System, s': System, i: nat)
    requires i < |s'.pool|
  {
    && (s'.cidIndex == s.cidIndex || (s'.cidIndex == s.cidIndex[s'.pool[i].cid := i] && Registered(s'.pool[i])))
    && (i < |s.pool| && Registered(s.pool[i]) && InUse(s, i) ==> s'.pool[i].cid == s.pool[i].cid && Registered(s'.pool[i]))
  }

  lemma PairIndex(s: System, s': System, h: ApnId, i: nat)
    requires IndexOk(s) && PairStep(s, s', h, i) && IndexStep(s, s', i)
    ensures IndexOk(s')
  {
    forall c | c in s'.cidIndex
      ensures EntryOk(s', c)
    {
      PairUse(s, s', h, i, s'.cidIndex[c]);
      if c in s.cidIndex && s'.cidIndex[c] == s.cidIndex[c] {
        assert EntryOk(s, c);
      }
    }
  }

  lemma PairKeeps(s: System, s': System, h: ApnId, i: nat)
    requires Inv(s) && PairStep(s, s', h, i) && IndexStep(s, s', i) && InboxOk(s')
    ensures Inv(s')
  {
    PairExclusive(s, s', h, i);
    PairHolders(s, s', h, i);
    PairPool(s, s', h, i);
    PairIndex(s, s', h, i);
  }

  // ---- A free machine changes ----

  lemma FreeStepKeeps(s: System, i: nat, m: Machine)
    requires Inv(s) && i < |s.pool| && !InUse(s, i) && Free(m)
    ensures Inv(s.(pool := s.pool[i := m]))
  {
    var s' := s.(pool := s.pool[i := m]);
    forall h | h in s'.holders
      ensures HolderOk(s', h)
    {
      assert HolderOk(s, h);
    }
    assert forall j: nat :: InUse(s', j) == InUse(s, j);
    forall c | c in s'.cidIndex
      ensures EntryOk(s', c)
    {
      assert EntryOk(s, c);
    }
  }

  // ---- A holder without a machine changes ----

  lemma BareStepKeeps(s: System, s': System, h: ApnId)
    requires Inv(s)
    requires h in s.holders && h in s'.holders
    requires s'.holders == s.holders[h := s'.holders[h]]
    requires s.holders[h].machine.None? && s'.holders[h].machine.None?
    requires s'.pool == s.pool && s'.inbox == s.inbox && s'.cidIndex == s.cidIndex
    requires forall g | g in s.retries && g != h :: g in s'.retries
    requires s'.holders[h].state.Idle? || (s'.holders[h].state.Retrying? && h in s'.retries)
    ensures Inv(s')
  {
    forall g | g in s'.holders
      ensures HolderOk(s', g)
    {
      assert HolderOk(s, g);
    }
    SameUse(s, s');
    forall c | c in s'.cidIndex
      ensures EntryOk(s', c)
    {
      assert EntryOk(s, c);
    }
  }

  lemma SameUse(s: System, s': System)
    requires s'.holders.Keys == s.holders.Keys
    requires forall h | h in s.holders :: s'.holders[h].machine == s.holders[h].machine
    ensures forall j: nat :: InUse(s', j) == InUse(s, j)
  {
    forall j: nat
      ensures InUse(s', j) == InUse(s, j)
    {
      if InUse(s, j) {
        var g :| g in s.holders && s.holders[g].machine == Some(j);
        assert g in s'.holders && s'.holders[g].machine == Some(j);
      }
    }
  }

  lemma EnableKeeps(s: System, h: ApnId, on: bool)
    requires Inv(s)
    ensures Inv(SetEnabled(s, h, on))
  {
    if h in s.holders {
      var s' := SetEnabled(s, h, on);
      forall g | g in s'.holders
        ensures HolderOk(s', g)
      {
        assert HolderOk(s, g);
      }
      SameUse(s, s');
      forall c | c in s'.cidIndex
        ensures EntryOk(s', c)
      {
        assert EntryOk(s, c);
      }
    }
  }

  // ---- Every machine gets a notice ----

  ghost predicate Notified(m: Machine, m': Machine) {
    m' == m || exists e :: m' == Post(m, e) && Within(e, m.grants, m.grants)
  }

  lemma NoticeHeld(m: Machine, m': Machine, h: ApnId, st: ApnState, box: seq<Report>)
    requires Held(m, h, st, box) && Notified(m, m')
    ensures Held(m', h, st, box)
  {
    if m' != m {
      var e :| m' == Post(m, e) && Within(e, m.grants, m.grants);
      PostHeld(m, h, st, box, e);
    }
  }

  lemma NoticeFree(m: Machine, m': Machine)
    requires Free(m) && Notified(m, m')
    ensures Free(m')
  {
    if m' != m {
      var e :| m' == Post(m, e) && Within(e, m.grants, m.grants);
      PostFree(m, e);
    }
  }

  lemma NoticesKeep(s: System, s': System)
    requires Inv(s)
    requires s' == s.(pool := s'.pool) && |s'.pool| == |s.pool|
    requires forall i | 0 <= i < |s.pool| :: Notified(s.pool[i], s'.pool[i])
    ensures Inv(s')
  {
    forall h | h in s'.holders
      ensures HolderOk(s', h)
    {
      assert HolderOk(s, h);
      if s.holders[h].machine.Some? {
        var i := s.holders[h].machine.value;
        assert Notified(s.pool[i], s'.pool[i]);
        NoticeHeld(s.pool[i], s'.pool[i], h, s.holders[h].state, For(s.inbox, h));
      }
    }
    SameUse(s, s');
    forall i | 0 <= i < |s'.pool| && !InUse(s', i)
      ensures Free(s'.pool[i])
    {
      assert Notified(s.pool[i], s'.pool[i]);
      NoticeFree(s.pool[i], s'.pool[i]);
    }
    forall c | c in s'.cidIndex
      ensures EntryOk(s', c)
    {
      assert EntryOk(s, c);
      assert Notified(s.pool[s.cidIndex[c]], s'.pool[s.cidIndex[c]]);
    }
  }
}
