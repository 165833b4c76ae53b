/** Lists whose entries for one APN and MVNO are pairwise similar but for the word "default":
    then the input alone tells what the pass does, consumed entries met again included. */
module MergeGroups {
  import opened TypeList
  import opened ProfileMerge
  import opened MergeTheorems

  // ---- Groups ----

  /** What two profiles must share to be merged at all. */
  datatype Group = Group(apn: string, mvnoType: string, mvnoMatchData: string)

  function GroupOf(p: PdpProfile): Group {
    Group(p.apn, p.mvnoType, p.mvnoMatchData)
  }

  predicate SameGroup(a: PdpProfile, b: PdpProfile) {
    GroupOf(a) == GroupOf(b)
  }

  /** What else the comparison looks at, beside the word "default". */
  datatype Field = Pdp | Roam | Proxy | Home | Mms

  function Get(p: PdpProfile, f: Field): string {
    match f
    case Pdp => p.pdpProtocol
    case Roam => p.roamPdpProtocol
    case Proxy => p.proxyIpAddress
    case Home => p.homeUrl
    case Mms => p.mmsIpAddress
  }

  predicate FieldsAgree(f: Field, a: PdpProfile, b: PdpProfile) {
    if f.Pdp? || f.Roam? then SimilarProtocol(Get(a, f), Get(b, f)) else SimilarProperty(Get(a, f), Get(b, f))
  }

  /** Entries of one group are pairwise similar, but for the word "default". */
  ghost predicate Compatible(v: seq<PdpProfile>) {
    forall i, j, f | 0 <= i < |v| && 0 <= j < |v| && SameGroup(v[i], v[j]) :: FieldsAgree(f, v[i], v[j])
  }

  ghost predicate Occurs(v: seq<PdpProfile>, g: Group, f: Field, x: string) {
    exists q :: 0 <= q < |v| && GroupOf(v[q]) == g && Get(v[q], f) == x
  }

  /** Every field of the profile occurs in its group of the input. */
  ghost predicate Fits(v: seq<PdpProfile>, p: PdpProfile) {
    forall f :: Occurs(v, GroupOf(p), f, Get(p, f))
  }

  lemma SimilarByFields(a: PdpProfile, b: PdpProfile)
    ensures Similar(a, b) <==> SameGroup(a, b) && !(HasDefault(a) && HasDefault(b)) && forall f :: FieldsAgree(f, a, b)
  {
    assert (forall f :: FieldsAgree(f, a, b)) <==>
           FieldsAgree(Pdp, a, b) && FieldsAgree(Roam, a, b) && FieldsAgree(Proxy, a, b) &&
           FieldsAgree(Home, a, b) && FieldsAgree(Mms, a, b);
  }

  lemma SimilarInGroup(v: seq<PdpProfile>, a: PdpProfile, b: PdpProfile)
    requires Compatible(v) && Fits(v, a) && Fits(v, b)
    ensures Similar(a, b) <==> SameGroup(a, b) && !(HasDefault(a) && HasDefault(b))
  {
    SimilarByFields(a, b);
    if SameGroup(a, b) {
      forall f
        ensures FieldsAgree(f, a, b)
      {
        assert Occurs(v, GroupOf(a), f, Get(a, f)) && Occurs(v, GroupOf(b), f, Get(b, f));
        var p :| 0 <= p < |v| && GroupOf(v[p]) == GroupOf(a) && Get(v[p], f) == Get(a, f);
        var q :| 0 <= q < |v| && GroupOf(v[q]) == GroupOf(b) && Get(v[q], f) == Get(b, f);
        assert SameGroup(v[p], v[q]) && FieldsAgree(f, v[p], v[q]);
      }
    }
  }

  lemma CombineFits(v: seq<PdpProfile>, n: PdpProfile, o: PdpProfile)
    requires Fits(v, n) && Fits(v, o) && SameGroup(n, o)
    ensures Fits(v, Combine(n, o)) && SameGroup(Combine(n, o), n)
  {
    forall f
      ensures Occurs(v, GroupOf(n), f, Get(Combine(n, o), f))
    {
      assert Occurs(v, GroupOf(n), f, Get(n, f)) && Occurs(v, GroupOf(o), f, Get(o, f));
      assert Get(Combine(n, o), f) == Get(n, f) || Get(Combine(n, o), f) == Get(o, f);
    }
  }

  // ---- What the input says ----

  /** An entry of the group comes before i. */
  ghost predicate Seen(v: seq<PdpProfile>, i: nat, g: Group) {
    exists q :: 0 <= q < i && q < |v| && GroupOf(v[q]) == g
  }

  /** A default entry of the group comes before j. */
  ghost predicate DefaultBefore(v: seq<PdpProfile>, j: nat, g: Group) {
    exists q :: 0 <= q < j && q < |v| && GroupOf(v[q]) == g && HasDefault(v[q])
  }

  /** Entry p is consumed when row i begins: its group had a row, and it is not a default
      entry behind another one. */
  ghost predicate Gone(v: seq<PdpProfile>, i: nat, p: nat)
    requires p < |v|
  {
    Seen(v, i, GroupOf(v[p])) && !(HasDefault(v[p]) && DefaultBefore(v, p, GroupOf(v[p])))
  }

  lemma SeenNext(v: seq<PdpProfile>, i: nat, g: Group)
    requires i < |v|
    ensures Seen(v, i + 1, g) <==> Seen(v, i, g) || GroupOf(v[i]) == g
  {
    if Seen(v, i, g) {
      var q :| 0 <= q < i && q < |v| && GroupOf(v[q]) == g;
      assert 0 <= q < i + 1 && q < |v| && GroupOf(v[q]) == g;
    }
    if GroupOf(v[i]) == g {
      assert 0 <= i < i + 1 && i < |v| && GroupOf(v[i]) == g;
    }
  }

  lemma DefaultNext(v: seq<PdpProfile>, j: nat, g: Group)
    requires j < |v|
    ensures DefaultBefore(v, j + 1, g) <==> DefaultBefore(v, j, g) || (GroupOf(v[j]) == g && HasDefault(v[j]))
  {
    if DefaultBefore(v, j, g) {
      var q :| 0 <= q < j && q < |v| && GroupOf(v[q]) == g && HasDefault(v[q]);
      assert 0 <= q < j + 1 && q < |v| && GroupOf(v[q]) == g && HasDefault(v[q]);
    }
    if GroupOf(v[j]) == g && HasDefault(v[j]) {
      assert 0 <= j < j + 1 && j < |v| && GroupOf(v[j]) == g && HasDefault(v[j]);
    }
  }

  lemma DefaultIsSeen(v: seq<PdpProfile>, j: nat, g: Group)
    requires DefaultBefore(v, j, g)
    ensures Seen(v, j, g)
  {
    var q :| 0 <= q < j && q < |v| && GroupOf(v[q]) == g && HasDefault(v[q]);
    assert 0 <= q < j && q < |v| && GroupOf(v[q]) == g;
  }

  lemma DefaultLater(v: seq<PdpProfile>, i: nat, j: nat, g: Group)
    requires i <= j && DefaultBefore(v, i, g)
    ensures DefaultBefore(v, j, g)
  {
    var q :| 0 <= q < i && q < |v| && GroupOf(v[q]) == g && HasDefault(v[q]);
    assert 0 <= q < j && q < |v| && GroupOf(v[q]) == g && HasDefault(v[q]);
  }

  /** A row that is not the first of its group is default, behind another default entry. */
  lemma LaterRowIsDefault(v: seq<PdpProfile>, i: nat)
    requires i < |v| && !Gone(v, i, i) && Seen(v, i, GroupOf(v[i]))
    ensures HasDefault(v[i]) && DefaultBefore(v, i, GroupOf(v[i]))
  {
  }

  // ---- The pass follows it ----

  /** An entry still to be visited: consumed or as it came. */
  ghost predicate EntryIs(v: seq<PdpProfile>, o: PdpProfile, x: PdpProfile, gone: bool) {
    && Fits(v, x) && SameGroup(x, o)
    && (x.profileId == CONSUMED <==> gone)
    && (HasDefault(x) <==> !gone && HasDefault(o))
  }

  ghost predicate AtRow(v: seq<PdpProfile>, s: Pass, i: nat) {
    && |s.v| == |v| && Compatible(v)
    && forall p | i <= p < |v| :: EntryIs(v, v[p], s.v[p], Gone(v, i, p))
  }

  /** The row itself: live, in its group, default once its group has shown a default. */
  ghost predicate RowIs(v: seq<PdpProfile>, s: Pass, i: nat, j: nat)
    requires i < |v| == |s.v|
  {
    && Fits(v, s.v[i]) && SameGroup(s.v[i], v[i]) && s.v[i].profileId != CONSUMED
    && (HasDefault(s.v[i]) <==> DefaultBefore(v, j, GroupOf(v[i])))
  }

  /** Row i has reached j. */
  ghost predicate InRow(v: seq<PdpProfile>, s: Pass, i: nat, j: nat) {
    && i < j <= |v| == |s.v| && Compatible(v) && !Gone(v, i, i)
    && RowIs(v, s, i, j)
    && (forall p | i < p < j :: EntryIs(v, v[p], s.v[p], Gone(v, i + 1, p)))
    && (forall p | j <= p < |v| :: EntryIs(v, v[p], s.v[p], Gone(v, i, p)))
  }

  lemma BeginRow(v: seq<PdpProfile>, s: Pass, i: nat)
    requires AtRow(v, s, i) && i < |v| && !Gone(v, i, i)
    ensures InRow(v, s, i, i + 1)
  {
    var g := GroupOf(v[i]);
    assert EntryIs(v, v[i], s.v[i], Gone(v, i, i));
    DefaultNext(v, i, g);
    if DefaultBefore(v, i, g) {
      DefaultIsSeen(v, i, g);
      LaterRowIsDefault(v, i);
    }
  }

  lemma SkipRow(v: seq<PdpProfile>, s: Pass, i: nat)
    requires AtRow(v, s, i) && i < |v| && Gone(v, i, i)
    ensures AtRow(v, s, i + 1)
  {
    forall p | i + 1 <= p < |v|
      ensures Gone(v, i + 1, p) == Gone(v, i, p)
    {
      SeenNext(v, i, GroupOf(v[p]));
    }
  }

  lemma EndRow(v: seq<PdpProfile>, s: Pass, i: nat)
    requires InRow(v, s, i, |v|)
    ensures AtRow(v, Keep(s, i), i + 1)
  {
  }

  /** What row i makes of entry j, by the input alone. */
  lemma GoneInRow(v: seq<PdpProfile>, i: nat, j: nat)
    requires i < j < |v| && !Gone(v, i, i)
    ensures !SameGroup(v[i], v[j]) ==> (Gone(v, i + 1, j) <==> Gone(v, i, j))
    ensures SameGroup(v[i], v[j]) ==> (Gone(v, i + 1, j) <==> !(HasDefault(v[j]) && DefaultBefore(v, j, GroupOf(v[j]))))
    ensures SameGroup(v[i], v[j]) && Gone(v, i, j) ==> !HasDefault(v[j]) && Gone(v, i + 1, j)
  {
    var g := GroupOf(v[j]);
    SeenNext(v, i, g);
    if SameGroup(v[i], v[j]) && Gone(v, i, j) {
      LaterRowIsDefault(v, i);
      DefaultNext(v, i, g);
      DefaultLater(v, i + 1, j, g);
    }
  }

  /** The entries that a merge touches keep group and fields. */
  lemma MergeAtFits(v: seq<PdpProfile>, s: Pass, i: nat, j: nat)
    requires i < j < |s.v| && Fits(v, s.v[i]) && Fits(v, s.v[j]) && Similar(s.v[i], s.v[j])
    ensures var r := MergeAt(s, i, j);
            Fits(v, r.v[i]) && SameGroup(r.v[i], s.v[i]) && Fits(v, r.v[j]) && SameGroup(r.v[j], s.v[j])
  {
    var n, o := Keeper(s.v[i], s.v[j]), Absorbed(s.v[i], s.v[j]);
    CombineFits(v, n, o);
    forall f
      ensures Get(o.(profileId := CONSUMED), f) == Get(o, f)
    {
    }
  }

  ghost predicate Meets(v: seq<PdpProfile>, i: nat, j: nat)
    requires i < |v| && j < |v|
  {
    SameGroup(v[i], v[j]) && Gone(v, i, j)
  }

  lemma MeetsConsumed(v: seq<PdpProfile>, s: Pass, i: nat, j: nat)
    requires InRow(v, s, i, j) && j < |v|
    ensures s.v[j].profileId == CONSUMED && Similar(s.v[i], s.v[j]) <==> Meets(v, i, j)
    ensures Similar(s.v[i], s.v[j]) <==>
              SameGroup(v[i], v[j]) && (Gone(v, i, j) || !(DefaultBefore(v, j, GroupOf(v[i])) && HasDefault(v[j])))
  {
    assert EntryIs(v, v[j], s.v[j], Gone(v, i, j));
    SimilarInGroup(v, s.v[i], s.v[j]);
  }

  lemma RowAfter(v: seq<PdpProfile>, s: Pass, i: nat, j: nat)
    requires InRow(v, s, i, j) && j < |v|
    ensures RowIs(v, MergeAt(s, i, j), i, j + 1)
  {
    var g := GroupOf(v[i]);
    assert EntryIs(v, v[j], s.v[j], Gone(v, i, j));
    MeetsConsumed(v, s, i, j);
    DefaultNext(v, j, g);
    GoneInRow(v, i, j);
    if Similar(s.v[i], s.v[j]) {
      MergeAtFacts(s, i, j);
      MergeAtFits(v, s, i, j);
    }
  }

  lemma EntryAfter(v: seq<PdpProfile>, s: Pass, i: nat, j: nat)
    requires InRow(v, s, i, j) && j < |v|
    ensures EntryIs(v, v[j], MergeAt(s, i, j).v[j], Gone(v, i + 1, j))
  {
    assert EntryIs(v, v[j], s.v[j], Gone(v, i, j));
    MeetsConsumed(v, s, i, j);
    GoneInRow(v, i, j);
    if Similar(s.v[i], s.v[j]) {
      MergeAtFacts(s, i, j);
      MergeAtFits(v, s, i, j);
    }
  }

  lemma StepInRow(v: seq<PdpProfile>, s: Pass, i: nat, j: nat)
    requires InRow(v, s, i, j) && j < |v|
    ensures InRow(v, MergeAt(s, i, j), i, j + 1)
  {
    RowAfter(v, s, i, j);
    EntryAfter(v, s, i, j);
    var r := MergeAt(s, i, j);
    forall p | 0 <= p < |v| && p != i && p != j
      ensures r.v[p] == s.v[p]
    {
    }
  }

  /** Row i meets a consumed entry of its group at j or later. */
  ghost predicate MeetsFrom(v: seq<PdpProfile>, i: nat, j: nat)
    requires i < |v|
  {
    exists k :: j <= k < |v| && Meets(v, i, k)
  }

  lemma MeetsFromNext(v: seq<PdpProfile>, i: nat, j: nat)
    requires i < |v| && j < |v|
    ensures MeetsFrom(v, i, j) <==> Meets(v, i, j) || MeetsFrom(v, i, j + 1)
  {
    if k :| j <= k < |v| && Meets(v, i, k) {
      assert k == j || j + 1 <= k < |v|;
    }
  }

  lemma {:induction false} ThroughRow(v: seq<PdpProfile>, s: Pass, i: nat, j: nat)
    requires InRow(v, s, i, j)
    ensures InRow(v, MergeRow(s, i, j), i, |v|)
    ensures RowRemerges(s, i, j) <==> MeetsFrom(v, i, j)
    decreases |v| - j
  {
    if j < |v| {
      StepInRow(v, s, i, j);
      MeetsConsumed(v, s, i, j);
      MeetsFromNext(v, i, j);
      ThroughRow(v, MergeAt(s, i, j), i, j + 1);
    }
  }

  /** A whole row. */
  lemma RunRow(v: seq<PdpProfile>, s: Pass, i: nat)
    requires AtRow(v, s, i) && i < |v| && !Gone(v, i, i)
    ensures InRow(v, MergeRow(s, i, i + 1), i, |v|) && AtRow(v, Keep(MergeRow(s, i, i + 1), i), i + 1)
    ensures RowRemerges(s, i, i + 1) <==> RowMeets(v, i)
  {
    BeginRow(v, s, i);
    ThroughRow(v, s, i, i + 1);
    EndRow(v, MergeRow(s, i, i + 1), i);
  }

  lemma RowIsLive(v: seq<PdpProfile>, s: Pass, i: nat)
    requires AtRow(v, s, i) && i < |v|
    ensures s.v[i].profileId == CONSUMED <==> Gone(v, i, i)
  {
    assert EntryIs(v, v[i], s.v[i], Gone(v, i, i));
  }

  // ---- When a preference is invented ----

  /** Row r finds an entry of its group consumed behind it. */
  ghost predicate RowMeets(v: seq<PdpProfile>, r: nat)
    requires r < |v|
  {
    !Gone(v, r, r) && MeetsFrom(v, r, r + 1)
  }

  ghost predicate SomeRowMeets(v: seq<PdpProfile>, i: nat) {
    exists r :: i <= r < |v| && RowMeets(v, r)
  }

  lemma SomeRowNext(v: seq<PdpProfile>, i: nat)
    requires i < |v|
    ensures SomeRowMeets(v, i) <==> RowMeets(v, i) || SomeRowMeets(v, i + 1)
  {
    if r :| i <= r < |v| && RowMeets(v, r) {
      assert r == i || i + 1 <= r < |v|;
    }
  }

  lemma {:induction false} RemergesWhen(v: seq<PdpProfile>, s: Pass, i: nat)
    requires AtRow(v, s, i) && i <= |v|
    ensures Remerges(s, i) <==> SomeRowMeets(v, i)
    decreases |v| - i
  {
    if i < |v| {
      RowIsLive(v, s, i);
      SomeRowNext(v, i);
      if Gone(v, i, i) {
        SkipRow(v, s, i);
        RemergesWhen(v, s, i + 1);
      } else {
        RunRow(v, s, i);
        RemergesWhen(v, Keep(MergeRow(s, i, i + 1), i), i + 1);
      }
    }
  }

  /** Two default entries of one group and, behind them, one without. */
  ghost predicate DefaultDefaultOther(v: seq<PdpProfile>, i: nat, j: nat, k: nat) {
    && i < j < k < |v| && SameGroup(v[i], v[j]) && SameGroup(v[j], v[k])
    && HasDefault(v[i]) && HasDefault(v[j]) && !HasDefault(v[k])
  }

  lemma RowMeetsTriple(v: seq<PdpProfile>, r: nat) returns (i: nat, k: nat)
    requires r < |v| && RowMeets(v, r)
    ensures DefaultDefaultOther(v, i, r, k)
  {
    var n :| r + 1 <= n < |v| && Meets(v, r, n);
    k := n;
    LaterRowIsDefault(v, r);
    GoneInRow(v, r, k);
    var q :| 0 <= q < r && q < |v| && GroupOf(v[q]) == GroupOf(v[r]) && HasDefault(v[q]);
    i := q;
  }

  lemma TripleRowMeets(v: seq<PdpProfile>, i: nat, j: nat, k: nat)
    requires DefaultDefaultOther(v, i, j, k)
    ensures RowMeets(v, j)
  {
    var g := GroupOf(v[j]);
    assert 0 <= i < j && i < |v| && GroupOf(v[i]) == g && HasDefault(v[i]);
    assert DefaultBefore(v, j, g) && Seen(v, j, g);
    assert Meets(v, j, k);
  }

  lemma StartOfPass(v: seq<PdpProfile>, prefer: int)
    requires Compatible(v) && ValidIds(v)
    ensures AtRow(v, Pass(v, prefer, []), 0)
  {
  }

  /** In a compatible list a pass without a preference ends with one if and only if some group
      lists two default entries and, behind them, one without. */
  lemma PreferenceInventedByInput(v: seq<PdpProfile>)
    requires ValidIds(v) && Compatible(v)
    ensures MergeAll(v, CONSUMED).prefer != CONSUMED <==> exists i, j, k :: DefaultDefaultOther(v, i, j, k)
  {
    var s := Pass(v, CONSUMED, []);
    PreferenceInvented(v);
    StartOfPass(v, CONSUMED);
    RemergesWhen(v, s, 0);
    if r :| 0 <= r < |v| && RowMeets(v, r) {
      var i, k := RowMeetsTriple(v, r);
    }
    if i, j, k :| DefaultDefaultOther(v, i, j, k) {
      TripleRowMeets(v, i, j, k);
    }
  }

  // ---- An input ----

  /** An ordinary list: two default profiles and an MMS profile on one APN, all else equal.
      Without a preference the merge invents one. */
  lemma OrdinaryListInventsPreference()
    ensures var v := [Sample(1, "default", IPV4), Sample(2, "default", IPV4), Sample(3, "mms", IPV4)];
            Compatible(v) && ValidIds(v) && MergeAll(v, CONSUMED).prefer != CONSUMED
  {
    var v := [Sample(1, "default", IPV4), Sample(2, "default", IPV4), Sample(3, "mms", IPV4)];
    assert OccursAt("default", ROLE_DEFAULT, 0);
    assert HasDefault(v[0]) && HasDefault(v[1]);
    ShortHasNoDefault(v[2]);
    assert DefaultDefaultOther(v, 0, 1, 2);
    PreferenceInventedByInput(v);
  }
}
