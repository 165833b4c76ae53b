/** What the merging pass keeps: every profile stays served by a kept one, the number of
    default profiles, and the user's preference. */
module MergeTheorems {
  import opened TypeList
  import opened ProfileMerge

  // ---- One profile covers another ----

  predicate Wider(a: string, b: string) {
    a == b || a == IPV4V6
  }

  predicate Retains(a: string, b: string) {
    b == "" || a == b
  }

  ghost predicate AllTokens(a: string, b: string) {
    forall t | Token(b, t) :: Token(a, t)
  }

  ghost predicate Covers(p: PdpProfile, x: PdpProfile) {
    && p.apn == x.apn && p.mvnoType == x.mvnoType && p.mvnoMatchData == x.mvnoMatchData
    && AllTokens(p.apnTypes, x.apnTypes)
    && Wider(p.pdpProtocol, x.pdpProtocol) && Wider(p.roamPdpProtocol, x.roamPdpProtocol)
    && Retains(p.proxyIpAddress, x.proxyIpAddress) && Retains(p.homeUrl, x.homeUrl)
    && Retains(p.mmsIpAddress, x.mmsIpAddress)
  }

  lemma CoversTrans(p: PdpProfile, q: PdpProfile, x: PdpProfile)
    requires Covers(p, q) && Covers(q, x)
    ensures Covers(p, x)
  {
  }

  lemma CombineCovers(n: PdpProfile, o: PdpProfile)
    requires Similar(n, o)
    ensures Covers(Combine(n, o), n) && Covers(Combine(n, o), o)
  {
    forall t
      ensures Token(n.apnTypes + "," + o.apnTypes, t) <==> Token(n.apnTypes, t) || Token(o.apnTypes, t)
    {
      TokensOfConcat(n.apnTypes, o.apnTypes, t);
    }
  }

  /** A covering profile serves every type the covered one serves. */
  lemma CoverServes(p: PdpProfile, x: PdpProfile, t: string)
    requires Covers(p, x) && t != "" && CanDeal(x.apnTypes, t)
    ensures CanDeal(p.apnTypes, t)
  {
    MoreTokensServeMore(x.apnTypes, p.apnTypes, t);
  }

  lemma SimilarSwap(n: PdpProfile, o: PdpProfile)
    requires Similar(n, o)
    ensures Similar(o, n)
  {
  }

  /** What one merge does to the two entries it touches. */
  lemma MergeAtFacts(s: Pass, i: nat, j: nat)
    requires i < j < |s.v| && Similar(s.v[i], s.v[j])
    ensures var r := MergeAt(s, i, j);
            && Covers(r.v[i], s.v[i]) && Covers(r.v[i], s.v[j])
            && r.v[i].profileId == (if HasDefault(s.v[j]) then s.v[j].profileId else s.v[i].profileId)
            && r.v[j].profileId == CONSUMED && !HasDefault(r.v[j])
            && (HasDefault(r.v[i]) <==> HasDefault(s.v[i]) || HasDefault(s.v[j]))
            && (forall k | 0 <= k < |s.v| && k != i && k != j :: r.v[k] == s.v[k])
  {
    var n := Keeper(s.v[i], s.v[j]);
    var o := Absorbed(s.v[i], s.v[j]);
    SimilarSwap(s.v[i], s.v[j]);
    CombineCovers(n, o);
    CarriesConcat(n.apnTypes, o.apnTypes);
  }

  // ---- Every profile stays covered ----

  /** Some kept profile, or some entry still to be kept, covers x. In the middle of row i
      entry i is bound to be kept. */
  ghost predicate Live(s: Pass, i: nat, row: bool, p: nat) {
    i <= p < |s.v| && (s.v[p].profileId != CONSUMED || (row && p == i))
  }

  ghost predicate KeptCovers(s: Pass, x: PdpProfile) {
    exists q :: 0 <= q < |s.kept| && Covers(s.kept[q], x)
  }

  ghost predicate LiveCovers(s: Pass, i: nat, row: bool, x: PdpProfile) {
    exists p: nat :: Live(s, i, row, p) && Covers(s.v[p], x)
  }

  ghost predicate Covered(s: Pass, i: nat, row: bool, x: PdpProfile) {
    KeptCovers(s, x) || LiveCovers(s, i, row, x)
  }

  lemma MergeAtCovered(s: Pass, i: nat, j: nat, x: PdpProfile)
    requires i < j < |s.v| && Covered(s, i, true, x)
    ensures Covered(MergeAt(s, i, j), i, true, x)
  {
    if Similar(s.v[i], s.v[j]) && LiveCovers(s, i, true, x) {
      MergeAtFacts(s, i, j);
      var r := MergeAt(s, i, j);
      var p: nat :| Live(s, i, true, p) && Covers(s.v[p], x);
      if p == i || p == j {
        CoversTrans(r.v[i], s.v[p], x);
        assert Live(r, i, true, i);
      } else {
        assert Live(r, i, true, p);
      }
    }
  }

  lemma {:induction false} RowCovered(s: Pass, i: nat, j: nat, x: PdpProfile)
    requires i < j <= |s.v| && Covered(s, i, true, x)
    ensures Covered(MergeRow(s, i, j), i, true, x)
    decreases |s.v| - j
  {
    if j < |s.v| {
      MergeAtCovered(s, i, j, x);
      RowCovered(MergeAt(s, i, j), i, j + 1, x);
    }
  }

  lemma KeepCovered(s: Pass, i: nat, x: PdpProfile)
    requires i < |s.v| && Covered(s, i, true, x)
    ensures Covered(Keep(s, i), i + 1, false, x)
  {
    var r := Keep(s, i);
    if KeptCovers(s, x) {
      var q :| 0 <= q < |s.kept| && Covers(s.kept[q], x);
      assert r.kept[q] == s.kept[q];
    } else {
      var p: nat :| Live(s, i, true, p) && Covers(s.v[p], x);
      if p == i {
        assert r.kept[|s.kept|] == s.v[i];
      } else {
        assert Live(r, i + 1, false, p);
      }
    }
  }

  lemma EnterRow(s: Pass, i: nat, x: PdpProfile)
    requires i < |s.v| && Covered(s, i, false, x)
    ensures s.v[i].profileId == CONSUMED ==> Covered(s, i + 1, false, x)
    ensures Covered(s, i, true, x)
  {
    if !KeptCovers(s, x) {
      var p: nat :| Live(s, i, false, p) && Covers(s.v[p], x);
      assert Live(s, i, true, p);
      assert s.v[i].profileId == CONSUMED ==> Live(s, i + 1, false, p);
    }
  }

  lemma {:induction false} RowsCovered(s: Pass, i: nat, x: PdpProfile)
    requires i <= |s.v| && Covered(s, i, false, x)
    ensures KeptCovers(MergeRows(s, i), x)
    decreases |s.v| - i
  {
    if i < |s.v| {
      EnterRow(s, i, x);
      if s.v[i].profileId == CONSUMED {
        RowsCovered(s, i + 1, x);
      } else {
        RowCovered(s, i, i + 1, x);
        KeepCovered(MergeRow(s, i, i + 1), i, x);
        RowsCovered(Keep(MergeRow(s, i, i + 1), i), i + 1, x);
      }
    }
  }

  /** Every profile that comes in with a valid id is covered by one that comes out. */
  lemma MergeCoversEveryInput(v: seq<PdpProfile>, prefer: int, k: nat)
    requires k < |v| && v[k].profileId != CONSUMED
    ensures var kept := MergeAll(v, prefer).kept;
            exists q :: 0 <= q < |kept| && Covers(kept[q], v[k])
  {
    var s := Pass(v, prefer, []);
    assert Live(s, 0, false, k) && Covers(v[k], v[k]);
    RowsCovered(s, 0, v[k]);
  }

  // ---- Consumed entries carry no default; ids of kept profiles stay valid ----

  ghost predicate Clean(s: Pass, i: nat) {
    && (forall p | i <= p < |s.v| :: s.v[p].profileId == CONSUMED ==> !HasDefault(s.v[p]))
    && (forall q | 0 <= q < |s.kept| :: s.kept[q].profileId != CONSUMED)
  }

  function Defaults(v: seq<PdpProfile>): nat {
    if v == [] then 0 else (if HasDefault(v[0]) then 1 else 0) + Defaults(v[1..])
  }

  lemma {:induction false} DefaultsUpdate(v: seq<PdpProfile>, k: nat, x: PdpProfile)
    requires k < |v|
    ensures Defaults(v[k := x]) == Defaults(v) - (if HasDefault(v[k]) then 1 else 0) + (if HasDefault(x) then 1 else 0)
  {
    if k == 0 {
      assert v[0 := x][1..] == v[1..];
    } else {
      assert v[k := x][1..] == v[1..][k - 1 := x];
      DefaultsUpdate(v[1..], k - 1, x);
    }
  }

  lemma {:induction false} DefaultsAppend(v: seq<PdpProfile>, x: PdpProfile)
    ensures Defaults(v + [x]) == Defaults(v) + (if HasDefault(x) then 1 else 0)
  {
    if v == [] {
      assert [x][1..] == [] && [] + [x] == [x];
    } else {
      assert (v + [x])[1..] == v[1..] + [x];
      DefaultsAppend(v[1..], x);
    }
  }

  function Total(s: Pass, i: nat): nat
    requires i <= |s.v|
  {
    Defaults(s.kept) + Defaults(s.v[i..])
  }

  lemma MergeAtClean(s: Pass, i: nat, j: nat)
    requires i < j < |s.v| && Clean(s, i) && s.v[i].profileId != CONSUMED
    ensures var r := MergeAt(s, i, j);
            Clean(r, i) && r.v[i].profileId != CONSUMED
  {
    if Similar(s.v[i], s.v[j]) {
      MergeAtFacts(s, i, j);
      assert s.v[j].profileId == CONSUMED ==> !HasDefault(s.v[j]);
    }
  }

  lemma MergeAtTotal(s: Pass, i: nat, j: nat)
    requires i < j < |s.v|
    ensures Total(MergeAt(s, i, j), i) == Total(s, i)
  {
    if Similar(s.v[i], s.v[j]) {
      MergeAtFacts(s, i, j);
      var r := MergeAt(s, i, j);
      var t := s.v[i..];
      var mid := t[0 := r.v[i]];
      DefaultsUpdate(t, 0, r.v[i]);
      DefaultsUpdate(mid, j - i, r.v[j]);
      assert r.v[i..] == mid[j - i := r.v[j]];
    }
  }

  lemma {:induction false} RowClean(s: Pass, i: nat, j: nat)
    requires i < j <= |s.v| && Clean(s, i) && s.v[i].profileId != CONSUMED
    ensures var r := MergeRow(s, i, j);
            Clean(r, i) && r.v[i].profileId != CONSUMED && Total(r, i) == Total(s, i)
    decreases |s.v| - j
  {
    if j < |s.v| {
      MergeAtClean(s, i, j);
      MergeAtTotal(s, i, j);
      RowClean(MergeAt(s, i, j), i, j + 1);
    }
  }

  lemma KeepClean(s: Pass, i: nat)
    requires i < |s.v| && Clean(s, i) && s.v[i].profileId != CONSUMED
    ensures Clean(Keep(s, i), i + 1) && Total(Keep(s, i), i + 1) == Total(s, i)
  {
    DefaultsAppend(s.kept, s.v[i]);
    assert s.v[i..][1..] == s.v[i + 1..];
  }

  lemma {:induction false} RowsClean(s: Pass, i: nat)
    requires i <= |s.v| && Clean(s, i)
    ensures var r := MergeRows(s, i);
            && Defaults(r.kept) == Total(s, i)
            && forall q | 0 <= q < |r.kept| :: r.kept[q].profileId != CONSUMED
    decreases |s.v| - i
  {
    if i == |s.v| {
      assert s.v[i..] == [];
    } else if s.v[i].profileId == CONSUMED {
      assert s.v[i..][1..] == s.v[i + 1..];
      RowsClean(s, i + 1);
    } else {
      RowClean(s, i, i + 1);
      KeepClean(MergeRow(s, i, i + 1), i);
      RowsClean(Keep(MergeRow(s, i, i + 1), i), i + 1);
    }
  }

  ghost predicate ValidIds(v: seq<PdpProfile>) {
    forall k | 0 <= k < |v| :: v[k].profileId != CONSUMED
  }

  /** As many default profiles come out as went in, and every one out has a valid id. */
  lemma MergeKeepsDefaults(v: seq<PdpProfile>, prefer: int)
    requires ValidIds(v)
    ensures var kept := MergeAll(v, prefer).kept;
            Defaults(kept) == Defaults(v) && ValidIds(kept)
  {
    RowsClean(Pass(v, prefer, []), 0);
    assert v[0..] == v;
  }

  // ---- The preference follows its profile ----

  ghost predicate LiveIdsDistinct(s: Pass, i: nat) {
    forall p, q | i <= p < |s.v| && i <= q < |s.v| && p != q && s.v[p].profileId != CONSUMED ::
      s.v[p].profileId != s.v[q].profileId
  }

  ghost predicate KeptIdsDistinct(s: Pass) {
    forall p, q | 0 <= p < q < |s.kept| :: s.kept[p].profileId != s.kept[q].profileId
  }

  ghost predicate KeptIdsGone(s: Pass, i: nat) {
    forall p, q | 0 <= p < |s.kept| && i <= q < |s.v| :: s.kept[p].profileId != s.v[q].profileId
  }

  ghost predicate Distinct(s: Pass, i: nat) {
    Clean(s, i) && LiveIdsDistinct(s, i) && KeptIdsDistinct(s) && KeptIdsGone(s, i)
  }

  /** The preferred id names a kept or live profile that covers x. */
  ghost predicate Preferred(s: Pass, i: nat, x: PdpProfile) {
    && s.prefer != CONSUMED
    && (|| (exists q :: 0 <= q < |s.kept| && s.kept[q].profileId == s.prefer && Covers(s.kept[q], x))
        || (exists p :: i <= p < |s.v| && s.v[p].profileId == s.prefer && Covers(s.v[p], x)))
  }

  lemma MergeAtDistinct(s: Pass, i: nat, j: nat)
    requires i < j < |s.v| && Distinct(s, i) && s.v[i].profileId != CONSUMED
    ensures Distinct(MergeAt(s, i, j), i)
  {
    MergeAtClean(s, i, j);
    if Similar(s.v[i], s.v[j]) {
      MergeAtFacts(s, i, j);
    }
  }

  lemma MergeAtPrefer(s: Pass, i: nat, j: nat)
    requires i < j < |s.v| && Distinct(s, i) && s.v[i].profileId != CONSUMED
    requires Similar(s.v[i], s.v[j]) && s.prefer != CONSUMED
    ensures MergeAt(s, i, j).prefer ==
            if s.prefer == s.v[i].profileId || s.prefer == s.v[j].profileId
            then MergeAt(s, i, j).v[i].profileId else s.prefer
  {
    MergeAtFacts(s, i, j);
    assert s.v[j].profileId == CONSUMED ==> !HasDefault(s.v[j]);
  }

  lemma MergeAtPreferred(s: Pass, i: nat, j: nat, x: PdpProfile)
    requires i < j < |s.v| && Distinct(s, i) && s.v[i].profileId != CONSUMED && Preferred(s, i, x)
    ensures Preferred(MergeAt(s, i, j), i, x)
  {
    if Similar(s.v[i], s.v[j]) {
      MergeAtFacts(s, i, j);
      MergeAtPrefer(s, i, j);
      MergeAtClean(s, i, j);
      var r := MergeAt(s, i, j);
      if q :| 0 <= q < |s.kept| && s.kept[q].profileId == s.prefer && Covers(s.kept[q], x) {
        assert r.kept[q].profileId == r.prefer;
      } else {
        var p :| i <= p < |s.v| && s.v[p].profileId == s.prefer && Covers(s.v[p], x);
        if p == i || p == j {
          CoversTrans(r.v[i], s.v[p], x);
          assert r.v[i].profileId == r.prefer;
        } else {
          assert r.v[p].profileId == r.prefer;
        }
      }
    }
  }

  lemma {:induction false} RowPreferred(s: Pass, i: nat, j: nat, x: PdpProfile)
    requires i < j <= |s.v| && Distinct(s, i) && s.v[i].profileId != CONSUMED && Preferred(s, i, x)
    ensures var r := MergeRow(s, i, j);
            Distinct(r, i) && r.v[i].profileId != CONSUMED && Preferred(r, i, x)
    decreases |s.v| - j
  {
    if j < |s.v| {
      MergeAtClean(s, i, j);
      MergeAtDistinct(s, i, j);
      MergeAtPreferred(s, i, j, x);
      RowPreferred(MergeAt(s, i, j), i, j + 1, x);
    }
  }

  lemma KeepPreferred(s: Pass, i: nat, x: PdpProfile)
    requires i < |s.v| && Distinct(s, i) && s.v[i].profileId != CONSUMED && Preferred(s, i, x)
    ensures Distinct(Keep(s, i), i + 1) && Preferred(Keep(s, i), i + 1, x)
  {
    KeepClean(s, i);
    var r := Keep(s, i);
    if q :| 0 <= q < |s.kept| && s.kept[q].profileId == s.prefer && Covers(s.kept[q], x) {
      assert r.kept[q] == s.kept[q];
    } else {
      var p :| i <= p < |s.v| && s.v[p].profileId == s.prefer && Covers(s.v[p], x);
      if p == i {
        assert r.kept[|s.kept|] == s.v[i];
      }
    }
  }

  /** A whole row. */
  lemma RowStepPreferred(s: Pass, i: nat, x: PdpProfile)
    requires i < |s.v| && Distinct(s, i) && s.v[i].profileId != CONSUMED && Preferred(s, i, x)
    ensures var r := Keep(MergeRow(s, i, i + 1), i); Distinct(r, i + 1) && Preferred(r, i + 1, x)
  {
    RowPreferred(s, i, i + 1, x);
    KeepPreferred(MergeRow(s, i, i + 1), i, x);
  }

  lemma SkipPreferred(s: Pass, i: nat, x: PdpProfile)
    requires i < |s.v| && Distinct(s, i) && s.v[i].profileId == CONSUMED && Preferred(s, i, x)
    ensures Distinct(s, i + 1) && Preferred(s, i + 1, x)
  {
    if p :| i <= p < |s.v| && s.v[p].profileId == s.prefer && Covers(s.v[p], x) {
      assert i + 1 <= p;
    }
  }

  lemma {:induction false} RowsPreferred(s: Pass, i: nat, x: PdpProfile)
    requires i <= |s.v| && Distinct(s, i) && Preferred(s, i, x)
    ensures var r := MergeRows(s, i);
            Distinct(r, |s.v|) && Preferred(r, |s.v|, x)
    decreases |s.v| - i
  {
    if i < |s.v| {
      if s.v[i].profileId == CONSUMED {
        SkipPreferred(s, i, x);
        RowsPreferred(s, i + 1, x);
      } else {
        RowStepPreferred(s, i, x);
        RowsPreferred(Keep(MergeRow(s, i, i + 1), i), i + 1, x);
      }
    }
  }

  lemma {:induction false} RowsLength(s: Pass, i: nat)
    requires i <= |s.v|
    ensures |MergeRows(s, i).v| == |s.v|
    decreases |s.v| - i
  {
    if i < |s.v| {
      if s.v[i].profileId == CONSUMED {
        RowsLength(s, i + 1);
      } else {
        RowsLength(Keep(MergeRow(s, i, i + 1), i), i + 1);
      }
    }
  }

  ghost predicate DistinctIds(v: seq<PdpProfile>) {
    forall p, q | 0 <= p < q < |v| :: v[p].profileId != v[q].profileId
  }

  /** The preferred id names exactly one kept profile, and that one covers the preferred input. */
  lemma PreferenceSurvives(v: seq<PdpProfile>, k: nat)
    requires ValidIds(v) && DistinctIds(v) && k < |v|
    ensures var r := MergeAll(v, v[k].profileId);
            && DistinctIds(r.kept) && ValidIds(r.kept)
            && exists q :: 0 <= q < |r.kept| && r.kept[q].profileId == r.prefer && Covers(r.kept[q], v[k])
  {
    var s := Pass(v, v[k].profileId, []);
    assert Preferred(s, 0, v[k]) by {
      assert s.v[k].profileId == s.prefer && Covers(s.v[k], v[k]);
    }
    RowsPreferred(s, 0, v[k]);
    RowsLength(s, 0);
  }

  // ---- No preference: meeting a consumed entry again invents one ----

  /** Row i meets, at j or later, an entry that is similar and already consumed. */
  predicate RowRemerges(s: Pass, i: nat, j: nat)
    requires i < j <= |s.v|
    decreases |s.v| - j
  {
    j < |s.v| && ((s.v[j].profileId == CONSUMED && Similar(s.v[i], s.v[j])) || RowRemerges(MergeAt(s, i, j), i, j + 1))
  }

  predicate Remerges(s: Pass, i: nat)
    requires i <= |s.v|
    decreases |s.v| - i
  {
    i < |s.v| &&
    if s.v[i].profileId == CONSUMED then Remerges(s, i + 1)
    else RowRemerges(s, i, i + 1) || Remerges(Keep(MergeRow(s, i, i + 1), i), i + 1)
  }

  lemma {:induction false} RowKeepsPreference(s: Pass, i: nat, j: nat)
    requires i < j <= |s.v| && Clean(s, i) && s.v[i].profileId != CONSUMED && s.prefer != CONSUMED
    ensures MergeRow(s, i, j).prefer != CONSUMED
    decreases |s.v| - j
  {
    if j < |s.v| {
      MergeAtClean(s, i, j);
      var r := MergeAt(s, i, j);
      assert r.prefer == s.prefer || r.prefer == r.v[i].profileId;
      RowKeepsPreference(r, i, j + 1);
    }
  }

  lemma {:induction false} RowsKeepPreference(s: Pass, i: nat)
    requires i <= |s.v| && Clean(s, i) && s.prefer != CONSUMED
    ensures MergeRows(s, i).prefer != CONSUMED
    decreases |s.v| - i
  {
    if i < |s.v| {
      if s.v[i].profileId == CONSUMED {
        RowsKeepPreference(s, i + 1);
      } else {
        RowKeepsPreference(s, i, i + 1);
        RowClean(s, i, i + 1);
        KeepClean(MergeRow(s, i, i + 1), i);
        RowsKeepPreference(Keep(MergeRow(s, i, i + 1), i), i + 1);
      }
    }
  }

  lemma {:induction false} RowInvents(s: Pass, i: nat, j: nat)
    requires i < j <= |s.v| && Clean(s, i) && s.v[i].profileId != CONSUMED && s.prefer == CONSUMED
    ensures MergeRow(s, i, j).prefer != CONSUMED <==> RowRemerges(s, i, j)
    decreases |s.v| - j
  {
    if j < |s.v| {
      MergeAtClean(s, i, j);
      var r := MergeAt(s, i, j);
      if Similar(s.v[i], s.v[j]) && s.v[j].profileId == CONSUMED {
        assert r.prefer == s.v[i].profileId;
        RowKeepsPreference(r, i, j + 1);
      } else {
        RowInvents(r, i, j + 1);
      }
    }
  }

  lemma {:induction false} RowsInvent(s: Pass, i: nat)
    requires i <= |s.v| && Clean(s, i) && s.prefer == CONSUMED
    ensures MergeRows(s, i).prefer != CONSUMED <==> Remerges(s, i)
    decreases |s.v| - i
  {
    if i < |s.v| {
      if s.v[i].profileId == CONSUMED {
        RowsInvent(s, i + 1);
      } else {
        RowInvents(s, i, i + 1);
        RowClean(s, i, i + 1);
        var r := Keep(MergeRow(s, i, i + 1), i);
        KeepClean(MergeRow(s, i, i + 1), i);
        if r.prefer == CONSUMED {
          RowsInvent(r, i + 1);
        } else {
          RowsKeepPreference(r, i + 1);
        }
      }
    }
  }

  /** Without a preference the pass ends with one exactly when some row meets a consumed
      entry that is similar to it. */
  lemma PreferenceInvented(v: seq<PdpProfile>)
    requires ValidIds(v)
    ensures MergeAll(v, CONSUMED).prefer != CONSUMED <==> Remerges(Pass(v, CONSUMED, []), 0)
  {
    RowsInvent(Pass(v, CONSUMED, []), 0);
  }

  /** Where no entry is similar to a later one the pass changes nothing. */
  lemma NothingSimilarNothingChanged(v: seq<PdpProfile>, prefer: int)
    requires ValidIds(v) && forall i, j | 0 <= i < j < |v| :: !Similar(v[i], v[j])
    ensures MergeAll(v, prefer) == Pass(v, prefer, v)
  {
    RowsIdle(Pass(v, prefer, []), 0);
  }

  lemma {:induction false} RowIdle(s: Pass, i: nat, j: nat)
    requires i < j <= |s.v| && forall k | j <= k < |s.v| :: !Similar(s.v[i], s.v[k])
    ensures MergeRow(s, i, j) == s
    decreases |s.v| - j
  {
    if j < |s.v| {
      RowIdle(s, i, j + 1);
    }
  }

  lemma {:induction false} RowsIdle(s: Pass, i: nat)
    requires i <= |s.v| && ValidIds(s.v) && forall p, q | 0 <= p < q < |s.v| :: !Similar(s.v[p], s.v[q])
    requires s.kept == s.v[..i]
    ensures MergeRows(s, i) == s.(kept := s.v)
    decreases |s.v| - i
  {
    if i == |s.v| {
      assert s.v[..i] == s.v;
    } else {
      RowIdle(s, i, i + 1);
      assert s.v[..i + 1] == s.v[..i] + [s.v[i]];
      RowsIdle(Keep(s, i), i + 1);
    }
  }

  // ---- Two things the pass does not give, on one input ----

  function Sample(id: int, types: string, protocol: string): PdpProfile {
    PdpProfile(id, "", "", "", "net", 0, "", "", types, false, "", "", "", protocol, protocol, "", "", false)
  }

  lemma ShortHasNoDefault(p: PdpProfile)
    requires |p.apnTypes| < |ROLE_DEFAULT|
    ensures !HasDefault(p)
  {
  }

  lemma SampleRowZero(s: Pass)
    requires s == Pass([Sample(1, "ia", IPV4), Sample(2, "mms", IPV6), Sample(3, "ia", IPV4V6)], CONSUMED, [])
    ensures MergeRow(s, 0, 1) == s.(v := [Sample(1, "ia,ia", IPV4V6), s.v[1], Sample(CONSUMED, "ia", IPV4V6)])
  {
    ShortHasNoDefault(s.v[0]);
    ShortHasNoDefault(s.v[2]);
    assert !Similar(s.v[0], s.v[1]) && Similar(s.v[0], s.v[2]);
    assert MergeAt(s, 0, 1) == s;
    var r := MergeAt(s, 0, 2);
    assert "ia" + "," + "ia" == "ia,ia" && |IPV4| != |IPV4V6|;
    assert r.v[0] == Sample(1, "ia,ia", IPV4V6);
    assert r.v == [Sample(1, "ia,ia", IPV4V6), s.v[1], Sample(CONSUMED, "ia", IPV4V6)];
    assert MergeRow(r, 0, 3) == r;
    assert MergeRow(s, 0, 2) == r;
  }

  lemma SampleRowOne(s: Pass)
    requires |s.v| == 3 && s.v[1] == Sample(2, "mms", IPV6) && s.v[2] == Sample(CONSUMED, "ia", IPV4V6)
    requires s.prefer == CONSUMED
    ensures MergeRow(s, 1, 2) == s.(v := [s.v[0], Sample(2, "mms,ia", IPV4V6), s.v[2]], prefer := 2)
  {
    ShortHasNoDefault(s.v[1]);
    ShortHasNoDefault(s.v[2]);
    assert Similar(s.v[1], s.v[2]);
    var r := MergeAt(s, 1, 2);
    assert "mms" + "," + "ia" == "mms,ia" && |IPV6| != |IPV4V6|;
    assert r.v[1] == Sample(2, "mms,ia", IPV4V6);
    assert r.v == [s.v[0], Sample(2, "mms,ia", IPV4V6), s.v[2]];
    assert MergeRow(r, 1, 3) == r;
  }

  /** Three profiles with valid ids and no preference: two similar profiles come out, and
      the second of them has become the preferred one. */
  lemma SimilarSurvivorsAndInventedPreference()
    ensures var v := [Sample(1, "ia", IPV4), Sample(2, "mms", IPV6), Sample(3, "ia", IPV4V6)];
            var r := MergeAll(v, CONSUMED);
            && ValidIds(v)
            && r.kept == [Sample(1, "ia,ia", IPV4V6), Sample(2, "mms,ia", IPV4V6)]
            && Similar(r.kept[0], r.kept[1])
            && r.prefer == 2
  {
    var v := [Sample(1, "ia", IPV4), Sample(2, "mms", IPV6), Sample(3, "ia", IPV4V6)];
    var s := Pass(v, CONSUMED, []);
    SampleRowZero(s);
    var s1 := Keep(MergeRow(s, 0, 1), 0);
    SampleRowOne(s1);
    var s2 := Keep(MergeRow(s1, 1, 2), 1);
    assert MergeRows(s2, 2) == MergeRows(s2, 3) == s2;
    assert MergeRows(s1, 1) == s2;
    ShortHasNoDefault(s2.kept[0]);
    ShortHasNoDefault(s2.kept[1]);
  }
}
