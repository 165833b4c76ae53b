/** Lists in which the entries of an APN and MVNO differ in one protocol only: kept profiles
    are similar exactly if some group shows its first "IPV4V6" behind both an "IP" and an
    "IPV6". */
module MergeStraddle {
  import opened ProfileMerge
  import opened MergeTheorems
  import opened MergeGroups
  import opened MergeSurvivors

  // ---- Lists with one protocol ----

  /** In the group the roaming protocol is the home protocol. */
  ghost predicate RoamFollows(v: seq<PdpProfile>, g: Group) {
    forall q | 0 <= q < |v| && GroupOf(v[q]) == g :: v[q].roamPdpProtocol == v[q].pdpProtocol
  }

  ghost predicate RoamFixed(v: seq<PdpProfile>, g: Group) {
    forall p, q | 0 <= p < |v| && 0 <= q < |v| && GroupOf(v[p]) == g && GroupOf(v[q]) == g ::
      v[p].roamPdpProtocol == v[q].roamPdpProtocol
  }

  predicate SameValues(a: PdpProfile, b: PdpProfile) {
    a.proxyIpAddress == b.proxyIpAddress && a.homeUrl == b.homeUrl && a.mmsIpAddress == b.mmsIpAddress
  }

  /** Entries of one group agree on proxy, home and mms, and on roaming up to the home protocol. */
  ghost predicate OneProtocol(v: seq<PdpProfile>) {
    && (forall p, q | 0 <= p < |v| && 0 <= q < |v| && SameGroup(v[p], v[q]) :: SameValues(v[p], v[q]))
    && (forall q | 0 <= q < |v| :: RoamFollows(v, GroupOf(v[q])) || RoamFixed(v, GroupOf(v[q])))
  }

  /** No group has two default entries. */
  ghost predicate LoneDefault(v: seq<PdpProfile>) {
    forall p, q | 0 <= p < q < |v| && SameGroup(v[p], v[q]) :: !(HasDefault(v[p]) && HasDefault(v[q]))
  }

  /** A profile that differs from its group in the input in one protocol at most. */
  ghost predicate Alike(v: seq<PdpProfile>, x: PdpProfile) {
    && (exists q :: 0 <= q < |v| && GroupOf(v[q]) == GroupOf(x))
    && (forall q | 0 <= q < |v| && GroupOf(v[q]) == GroupOf(x) ::
          && SameValues(v[q], x)
          && if RoamFollows(v, GroupOf(x)) then x.roamPdpProtocol == x.pdpProtocol
             else x.roamPdpProtocol == v[q].roamPdpProtocol)
  }

  lemma InputAlike(v: seq<PdpProfile>, p: nat)
    requires OneProtocol(v) && p < |v|
    ensures Alike(v, v[p])
  {
    assert RoamFollows(v, GroupOf(v[p])) || RoamFixed(v, GroupOf(v[p]));
    forall q | 0 <= q < |v| && GroupOf(v[q]) == GroupOf(v[p])
      ensures SameValues(v[q], v[p])
    {
      assert SameGroup(v[q], v[p]);
    }
  }

  lemma AlikeAgree(v: seq<PdpProfile>, x: PdpProfile, y: PdpProfile)
    requires Alike(v, x) && Alike(v, y) && SameGroup(x, y)
    ensures SameValues(x, y)
    ensures x.roamPdpProtocol == y.roamPdpProtocol ||
            (x.roamPdpProtocol == x.pdpProtocol && y.roamPdpProtocol == y.pdpProtocol)
  {
    var q :| 0 <= q < |v| && GroupOf(v[q]) == GroupOf(x);
    assert SameValues(v[q], x) && SameValues(v[q], y);
  }

  /** Then only the home protocol decides, unless both are default. */
  lemma AlikeSimilar(v: seq<PdpProfile>, x: PdpProfile, y: PdpProfile)
    requires Alike(v, x) && Alike(v, y) && !(HasDefault(x) && HasDefault(y))
    ensures Similar(x, y) <==> SameGroup(x, y) && SimilarProtocol(x.pdpProtocol, y.pdpProtocol)
  {
    if SameGroup(x, y) {
      AlikeAgree(v, x, y);
    }
  }

  lemma JoinedAlike(v: seq<PdpProfile>, a: PdpProfile, b: PdpProfile)
    requires Alike(v, a) && Alike(v, b) && Similar(a, b)
    ensures Alike(v, Joined(a, b))
  {
    JoinedGroup(a, b);
    AlikeAgree(v, a, b);
    var j := Joined(a, b);
    forall q | 0 <= q < |v| && GroupOf(v[q]) == GroupOf(j)
      ensures SameValues(v[q], j)
      ensures if RoamFollows(v, GroupOf(j)) then j.roamPdpProtocol == j.pdpProtocol
              else j.roamPdpProtocol == v[q].roamPdpProtocol
    {
      assert SameValues(v[q], a) && SameValues(v[q], b);
    }
  }

  lemma SameFieldsAlike(v: seq<PdpProfile>, x: PdpProfile, id: int)
    requires Alike(v, x)
    ensures Alike(v, x.(profileId := id))
  {
  }

  /** Known protocols join within themselves. */
  lemma JoinedProtocol(a: PdpProfile, b: PdpProfile)
    requires Similar(a, b)
    ensures Known(a.pdpProtocol) == Known(b.pdpProtocol) == Known(Joined(a, b).pdpProtocol)
    ensures a.pdpProtocol == b.pdpProtocol ==> Joined(a, b).pdpProtocol == a.pdpProtocol
    ensures a.pdpProtocol == IPV4V6 || b.pdpProtocol == IPV4V6 ==> Joined(a, b).pdpProtocol == IPV4V6
  {
    SimilarParts(a, b);
  }

  // ---- What every pass over such a list keeps ----

  ghost predicate AllAlike(v: seq<PdpProfile>, s: Pass, i: nat) {
    && (forall p {:trigger Alike(v, s.v[p])} | i <= p < |s.v| :: Alike(v, s.v[p]))
    && (forall q | 0 <= q < |s.kept| :: Alike(v, s.kept[q]))
  }

  predicate TwoDefaults(a: PdpProfile, b: PdpProfile) {
    SameGroup(a, b) && HasDefault(a) && HasDefault(b)
  }

  ghost predicate AllLone(s: Pass, i: nat) {
    && (forall p, q {:trigger TwoDefaults(s.v[p], s.v[q])} | i <= p < q < |s.v| :: !TwoDefaults(s.v[p], s.v[q]))
    && (forall q, p {:trigger TwoDefaults(s.kept[q], s.v[p])} | 0 <= q < |s.kept| && i <= p < |s.v| :: !TwoDefaults(s.kept[q], s.v[p]))
    && (forall p, q | 0 <= p < q < |s.kept| :: !TwoDefaults(s.kept[p], s.kept[q]))
  }

  ghost predicate One(v: seq<PdpProfile>, s: Pass, i: nat) {
    Clean(s, i) && AllAlike(v, s, i) && AllLone(s, i)
  }

  lemma MergedAlike(v: seq<PdpProfile>, s: Pass, i: nat, j: nat)
    requires i < j < |s.v| && AllAlike(v, s, i)
    ensures AllAlike(v, MergeAt(s, i, j), i)
  {
    if Similar(s.v[i], s.v[j]) {
      MergedIs(s, i, j);
      var r := MergeAt(s, i, j);
      assert Alike(v, s.v[i]) && Alike(v, s.v[j]);
      JoinedAlike(v, s.v[i], s.v[j]);
      SameFieldsAlike(v, Absorbed(s.v[i], s.v[j]), CONSUMED);
      forall p | i <= p < |r.v|
        ensures Alike(v, r.v[p])
      {
        if p != i && p != j {
          assert r.v[p] == s.v[p];
        }
      }
    }
  }

  lemma MergedLone(s: Pass, i: nat, j: nat)
    requires i < j < |s.v| && AllLone(s, i)
    ensures AllLone(MergeAt(s, i, j), i)
  {
    if Similar(s.v[i], s.v[j]) {
      MergeAtFacts(s, i, j);
      MergedIs(s, i, j);
      JoinedGroup(s.v[i], s.v[j]);
      var r := MergeAt(s, i, j);
      forall p, q | i <= p < q < |r.v|
        ensures !TwoDefaults(r.v[p], r.v[q])
      {
        assert p > i ==> !TwoDefaults(s.v[p], s.v[q]);
        assert p == i && q != j ==> r.v[q] == s.v[q] && !TwoDefaults(s.v[i], s.v[q]);
        assert p == i && q < j ==> !TwoDefaults(s.v[q], s.v[j]);
        assert p == i && q > j ==> !TwoDefaults(s.v[j], s.v[q]);
      }
      forall q, p | 0 <= q < |r.kept| && i <= p < |r.v|
        ensures !TwoDefaults(r.kept[q], r.v[p])
      {
        assert !TwoDefaults(s.kept[q], s.v[p]) && !TwoDefaults(s.kept[q], s.v[i]) && !TwoDefaults(s.kept[q], s.v[j]);
      }
    }
  }

  lemma MergedOne(v: seq<PdpProfile>, s: Pass, i: nat, j: nat)
    requires i < j < |s.v| && One(v, s, i) && s.v[i].profileId != CONSUMED
    ensures One(v, MergeAt(s, i, j), i) && MergeAt(s, i, j).v[i].profileId != CONSUMED
  {
    MergeAtClean(s, i, j);
    MergedAlike(v, s, i, j);
    MergedLone(s, i, j);
  }

  lemma {:induction false} RowOne(v: seq<PdpProfile>, s: Pass, i: nat, j: nat)
    requires i < j <= |s.v| && One(v, s, i) && s.v[i].profileId != CONSUMED
    ensures One(v, MergeRow(s, i, j), i) && MergeRow(s, i, j).v[i].profileId != CONSUMED
    decreases |s.v| - j
  {
    if j < |s.v| {
      MergedOne(v, s, i, j);
      RowOne(v, MergeAt(s, i, j), i, j + 1);
    }
  }

  lemma KeepOne(v: seq<PdpProfile>, s: Pass, i: nat)
    requires i < |s.v| && One(v, s, i) && s.v[i].profileId != CONSUMED
    ensures One(v, Keep(s, i), i + 1)
  {
    KeepClean(s, i);
    var r := Keep(s, i);
    forall p, q | 0 <= p < q < |r.kept|
      ensures !TwoDefaults(r.kept[p], r.kept[q])
    {
      if q == |s.kept| {
        assert !TwoDefaults(s.kept[p], s.v[i]);
      }
    }
    forall q, p | 0 <= q < |r.kept| && i + 1 <= p < |r.v|
      ensures !TwoDefaults(r.kept[q], r.v[p])
    {
      if q == |s.kept| {
        assert !TwoDefaults(s.v[i], s.v[p]);
      }
    }
  }

  lemma SkipOne(v: seq<PdpProfile>, s: Pass, i: nat)
    requires i < |s.v| && One(v, s, i)
    ensures One(v, s, i + 1)
  {
  }

  /** One row, kept or skipped. */
  lemma NextRowOne(v: seq<PdpProfile>, s: Pass, i: nat) returns (r: Pass)
    requires i < |s.v| && One(v, s, i)
    ensures One(v, r, i + 1) && |r.v| == |s.v| && MergeRows(s, i) == MergeRows(r, i + 1)
    ensures r == if s.v[i].profileId == CONSUMED then s else Keep(MergeRow(s, i, i + 1), i)
  {
    if s.v[i].profileId == CONSUMED {
      SkipOne(v, s, i);
      r := s;
    } else {
      RowOne(v, s, i, i + 1);
      KeepOne(v, MergeRow(s, i, i + 1), i);
      r := Keep(MergeRow(s, i, i + 1), i);
    }
  }

  lemma {:induction false} RowsOne(v: seq<PdpProfile>, s: Pass, i: nat)
    requires i <= |s.v| && One(v, s, i)
    ensures One(v, MergeRows(s, i), |s.v|)
    decreases |s.v| - i
  {
    if i < |s.v| {
      var r := NextRowOne(v, s, i);
      RowsOne(v, r, i + 1);
    }
  }

  lemma StartAlike(v: seq<PdpProfile>, prefer: int)
    requires OneProtocol(v)
    ensures AllAlike(v, Pass(v, prefer, []), 0)
  {
    forall p | 0 <= p < |v|
      ensures Alike(v, v[p])
    {
      InputAlike(v, p);
    }
  }

  lemma StartLone(v: seq<PdpProfile>, prefer: int)
    requires LoneDefault(v)
    ensures AllLone(Pass(v, prefer, []), 0)
  {
  }

  lemma StartOne(v: seq<PdpProfile>, prefer: int)
    requires ValidIds(v) && OneProtocol(v) && LoneDefault(v)
    ensures One(v, Pass(v, prefer, []), 0)
  {
    StartAlike(v, prefer);
    StartLone(v, prefer);
  }

  // ---- Straddled groups ----

  predicate OfKind(v: seq<PdpProfile>, q: nat, g: Group, p: string) {
    q < |v| && GroupOf(v[q]) == g && v[q].pdpProtocol == p
  }

  /** No "IPV4V6" of the group before j. */
  ghost predicate NarrowBefore(v: seq<PdpProfile>, j: nat, g: Group) {
    forall q: nat | q < j && q < |v| :: !OfKind(v, q, g, IPV4V6)
  }

  /** Entries i and j of one group are "IP" and "IPV6", and its "IPV4V6" entries, of which
      there are some, all stand behind both. */
  ghost predicate Straddles(v: seq<PdpProfile>, i: nat, j: nat) {
    && i < |v| && j < |v| && SameGroup(v[i], v[j])
    && v[i].pdpProtocol == IPV4 && v[j].pdpProtocol == IPV6
    && PdpIn(v, GroupOf(v[i]), IPV4V6)
    && NarrowBefore(v, i, GroupOf(v[i])) && NarrowBefore(v, j, GroupOf(v[i]))
  }

  ghost predicate Straddled(v: seq<PdpProfile>) {
    exists i: nat, j: nat :: Straddles(v, i, j)
  }

  lemma OpposedStraddles(v: seq<PdpProfile>, i: nat, j: nat)
    requires i < j < |v| && SameGroup(v[i], v[j]) && Opposed(v[i].pdpProtocol, v[j].pdpProtocol)
    requires PdpIn(v, GroupOf(v[i]), IPV4V6) && NarrowBefore(v, j, GroupOf(v[i]))
    ensures Straddled(v)
  {
    if v[i].pdpProtocol == IPV4 {
      assert Straddles(v, i, j);
    } else {
      assert Straddles(v, j, i);
    }
  }

  // ---- Without a straddled group nothing clashes ----

  /** A known protocol of the group comes before r. */
  ghost predicate KnownBefore(v: seq<PdpProfile>, r: nat, g: Group) {
    exists q :: 0 <= q < r && q < |v| && GroupOf(v[q]) == g && Known(v[q].pdpProtocol)
  }

  lemma KnownNext(v: seq<PdpProfile>, r: nat, g: Group)
    requires r < |v|
    ensures KnownBefore(v, r + 1, g) <==> KnownBefore(v, r, g) || (GroupOf(v[r]) == g && Known(v[r].pdpProtocol))
  {
    if KnownBefore(v, r, g) {
      var q :| 0 <= q < r && q < |v| && GroupOf(v[q]) == g && Known(v[q].pdpProtocol);
      assert 0 <= q < r + 1 && q < |v| && GroupOf(v[q]) == g && Known(v[q].pdpProtocol);
    }
    if GroupOf(v[r]) == g && Known(v[r].pdpProtocol) {
      assert 0 <= r < r + 1 && r < |v| && GroupOf(v[r]) == g && Known(v[r].pdpProtocol);
    }
  }

  lemma NarrowNext(v: seq<PdpProfile>, j: nat, g: Group)
    requires j < |v|
    ensures NarrowBefore(v, j + 1, g) <==> NarrowBefore(v, j, g) && !OfKind(v, j, g, IPV4V6)
  {
  }

  /** Entries with a known protocol in a group that shows "IPV4V6". */
  ghost predicate Widening(v: seq<PdpProfile>, p: nat)
    requires p < |v|
  {
    Known(v[p].pdpProtocol) && PdpIn(v, GroupOf(v[p]), IPV4V6)
  }

  /** Group and kind never change; a widening entry is consumed or as it came. */
  ghost predicate SlotIs(v: seq<PdpProfile>, p: nat, x: PdpProfile, gone: bool)
    requires p < |v|
  {
    && SameGroup(x, v[p]) && Known(x.pdpProtocol) == Known(v[p].pdpProtocol)
    && (Widening(v, p) ==>
          if gone then x.profileId == CONSUMED
          else x.pdpProtocol == v[p].pdpProtocol && x.profileId != CONSUMED)
  }

  ghost predicate AtRowOne(v: seq<PdpProfile>, s: Pass, r: nat) {
    |s.v| == |v| && forall p | r <= p < |v| :: SlotIs(v, p, s.v[p], KnownBefore(v, r, GroupOf(v[p])))
  }

  /** A widening row has absorbed all known entries so far: it is wide, or still as it came
      and no wide entry was met. */
  ghost predicate RowIsOne(v: seq<PdpProfile>, s: Pass, i: nat, j: nat)
    requires i < |v| == |s.v|
  {
    && SameGroup(s.v[i], v[i]) && Known(s.v[i].pdpProtocol) == Known(v[i].pdpProtocol)
    && s.v[i].profileId != CONSUMED
    && (Widening(v, i) ==>
          || s.v[i].pdpProtocol == IPV4V6
          || (s.v[i].pdpProtocol == v[i].pdpProtocol && NarrowBefore(v, j, GroupOf(v[i]))))
    && (Widening(v, i) ==> !KnownBefore(v, i, GroupOf(v[i])))
  }

  ghost predicate InRowOne(v: seq<PdpProfile>, s: Pass, i: nat, j: nat) {
    && i < j <= |v| == |s.v| && RowIsOne(v, s, i, j)
    && (forall p | i < p < j :: SlotIs(v, p, s.v[p], KnownBefore(v, i + 1, GroupOf(v[p]))))
    && (forall p | j <= p < |v| :: SlotIs(v, p, s.v[p], KnownBefore(v, i, GroupOf(v[p]))))
  }

  lemma FirstKnownIsNarrow(v: seq<PdpProfile>, i: nat)
    requires i < |v| && !KnownBefore(v, i, GroupOf(v[i]))
    ensures NarrowBefore(v, i, GroupOf(v[i]))
  {
    forall q: nat | q < i
      ensures !OfKind(v, q, GroupOf(v[i]), IPV4V6)
    {
      assert !(GroupOf(v[q]) == GroupOf(v[i]) && Known(v[q].pdpProtocol));
    }
  }

  lemma BeginRowOne(v: seq<PdpProfile>, s: Pass, i: nat)
    requires AtRowOne(v, s, i) && i < |v| && s.v[i].profileId != CONSUMED
    ensures InRowOne(v, s, i, i + 1)
  {
    var g := GroupOf(v[i]);
    assert SlotIs(v, i, s.v[i], KnownBefore(v, i, g));
    if Widening(v, i) {
      FirstKnownIsNarrow(v, i);
      NarrowNext(v, i, g);
    }
  }

  /** A widening entry that a widening row of its group meets is live and joins it. */
  lemma WideningMeet(v: seq<PdpProfile>, s: Pass, i: nat, j: nat)
    requires InRowOne(v, s, i, j) && j < |v| && One(v, s, i) && !Straddled(v)
    requires Widening(v, i) && Widening(v, j) && SameGroup(v[i], v[j])
    ensures Similar(s.v[i], s.v[j]) && s.v[j].pdpProtocol == v[j].pdpProtocol
    ensures s.v[i].pdpProtocol == IPV4V6 || v[j].pdpProtocol == IPV4V6 || s.v[i].pdpProtocol == v[j].pdpProtocol == v[i].pdpProtocol
  {
    assert SlotIs(v, j, s.v[j], KnownBefore(v, i, GroupOf(v[j])));
    assert Alike(v, s.v[i]) && Alike(v, s.v[j]) && !TwoDefaults(s.v[i], s.v[j]);
    AlikeSimilar(v, s.v[i], s.v[j]);
    if Opposed(s.v[i].pdpProtocol, v[j].pdpProtocol) {
      OpposedStraddles(v, i, j);
    }
  }

  /** Entries of different kinds, or of different groups, are not similar. */
  lemma OtherKind(v: seq<PdpProfile>, s: Pass, i: nat, j: nat)
    requires InRowOne(v, s, i, j) && j < |v| && Similar(s.v[i], s.v[j])
    ensures SameGroup(v[i], v[j]) && (Widening(v, i) <==> Widening(v, j))
  {
    assert SlotIs(v, j, s.v[j], KnownBefore(v, i, GroupOf(v[j])));
    JoinedProtocol(s.v[i], s.v[j]);
    JoinedGroup(s.v[i], s.v[j]);
  }

  lemma RowAfterOne(v: seq<PdpProfile>, s: Pass, i: nat, j: nat)
    requires InRowOne(v, s, i, j) && j < |v| && One(v, s, i) && !Straddled(v)
    ensures RowIsOne(v, MergeAt(s, i, j), i, j + 1)
  {
    var g := GroupOf(v[i]);
    assert SlotIs(v, j, s.v[j], KnownBefore(v, i, GroupOf(v[j])));
    NarrowNext(v, j, g);
    MergeAtClean(s, i, j);
    if Similar(s.v[i], s.v[j]) {
      OtherKind(v, s, i, j);
      MergedIs(s, i, j);
      JoinedProtocol(s.v[i], s.v[j]);
      JoinedGroup(s.v[i], s.v[j]);
      if Widening(v, i) {
        WideningMeet(v, s, i, j);
      }
    } else if Widening(v, i) && OfKind(v, j, g, IPV4V6) {
      WideningMeet(v, s, i, j);
    }
  }

  lemma SlotAfterOne(v: seq<PdpProfile>, s: Pass, i: nat, j: nat)
    requires InRowOne(v, s, i, j) && j < |v| && One(v, s, i) && !Straddled(v)
    ensures SlotIs(v, j, MergeAt(s, i, j).v[j], KnownBefore(v, i + 1, GroupOf(v[j])))
  {
    assert SlotIs(v, j, s.v[j], KnownBefore(v, i, GroupOf(v[j])));
    KnownNext(v, i, GroupOf(v[j]));
    if Similar(s.v[i], s.v[j]) {
      OtherKind(v, s, i, j);
      MergedIs(s, i, j);
      JoinedProtocol(s.v[i], s.v[j]);
    } else if Widening(v, j) && GroupOf(v[i]) == GroupOf(v[j]) && Known(v[i].pdpProtocol) {
      WideningMeet(v, s, i, j);
    }
  }

  lemma StepRowOne(v: seq<PdpProfile>, s: Pass, i: nat, j: nat)
    requires InRowOne(v, s, i, j) && j < |v| && One(v, s, i) && !Straddled(v)
    ensures InRowOne(v, MergeAt(s, i, j), i, j + 1)
  {
    RowAfterOne(v, s, i, j);
    SlotAfterOne(v, s, i, j);
    var r := MergeAt(s, i, j);
    forall p | 0 <= p < |v| && p != i && p != j
      ensures r.v[p] == s.v[p]
    {
    }
  }

  lemma NoClashOne(v: seq<PdpProfile>, s: Pass, i: nat, j: nat)
    requires InRowOne(v, s, i, j) && j < |v| && One(v, s, i) && !Straddled(v)
    ensures !Clash(v, s.v[i], s.v[j])
  {
    assert SlotIs(v, j, s.v[j], KnownBefore(v, i, GroupOf(v[j])));
    if Clash(v, s.v[i], s.v[j]) {
      assert Alike(v, s.v[i]) && Alike(v, s.v[j]);
      ClashIsHome(v, s.v[i], s.v[j]);
      WideningMeet(v, s, i, j);
      SimilarNotOpposed(s.v[i], s.v[j]);
    }
  }

  lemma SimilarNotOpposed(x: PdpProfile, y: PdpProfile)
    requires Similar(x, y)
    ensures !Opposed(x.pdpProtocol, y.pdpProtocol)
  {
  }

  /** A clash shows in the home protocol. */
  lemma ClashIsHome(v: seq<PdpProfile>, x: PdpProfile, y: PdpProfile)
    requires Alike(v, x) && Alike(v, y) && Clash(v, x, y)
    ensures Opposed(x.pdpProtocol, y.pdpProtocol) && PdpIn(v, GroupOf(x), IPV4V6)
  {
    AlikeAgree(v, x, y);
    var g := GroupOf(x);
    if Opposed(x.roamPdpProtocol, y.roamPdpProtocol) && RoamIn(v, g, IPV4V6) {
      var q :| 0 <= q < |v| && GroupOf(v[q]) == g && v[q].roamPdpProtocol == IPV4V6;
      assert SameValues(v[q], x);
      assert RoamFollows(v, g);
      assert v[q].pdpProtocol == IPV4V6;
    }
  }

  ghost predicate RowGood(v: seq<PdpProfile>, s: Pass, i: nat, j: nat) {
    InRowOne(v, s, i, j) && One(v, s, i)
  }

  /** One step of a row. */
  lemma RowGoodNext(v: seq<PdpProfile>, s: Pass, i: nat, j: nat) returns (r: Pass)
    requires RowGood(v, s, i, j) && j < |v| && !Straddled(v)
    ensures |r.v| == |s.v| == |v| && r == MergeAt(s, i, j) && RowGood(v, r, i, j + 1)
    ensures !Clash(v, s.v[i], s.v[j])
  {
    NoClashOne(v, s, i, j);
    StepRowOne(v, s, i, j);
    MergedOne(v, s, i, j);
    r := MergeAt(s, i, j);
  }

  lemma {:induction false} RowStaysGood(v: seq<PdpProfile>, s: Pass, i: nat, j: nat)
    requires RowGood(v, s, i, j) && !Straddled(v)
    ensures |s.v| == |v| && RowGood(v, MergeRow(s, i, j), i, |v|) && RowClashFree(v, s, i, j)
    decreases |v| - j
  {
    if j < |v| {
      var r := RowGoodNext(v, s, i, j);
      RowStaysGood(v, r, i, j + 1);
    }
  }

  lemma SkipRowOne(v: seq<PdpProfile>, s: Pass, i: nat)
    requires AtRowOne(v, s, i) && i < |v| && s.v[i].profileId == CONSUMED
    ensures AtRowOne(v, s, i + 1)
  {
    assert SlotIs(v, i, s.v[i], KnownBefore(v, i, GroupOf(v[i])));
    forall p | i + 1 <= p < |v|
      ensures SlotIs(v, p, s.v[p], KnownBefore(v, i + 1, GroupOf(v[p])))
    {
      assert SlotIs(v, p, s.v[p], KnownBefore(v, i, GroupOf(v[p])));
      KnownNext(v, i, GroupOf(v[p]));
    }
  }

  ghost predicate Good(v: seq<PdpProfile>, s: Pass, i: nat) {
    AtRowOne(v, s, i) && One(v, s, i)
  }

  lemma StartGood(v: seq<PdpProfile>, prefer: int)
    requires ValidIds(v) && OneProtocol(v) && LoneDefault(v)
    ensures Good(v, Pass(v, prefer, []), 0)
  {
    StartOne(v, prefer);
  }

  lemma KeepGood(v: seq<PdpProfile>, s: Pass, i: nat)
    requires RowGood(v, s, i, |v|)
    ensures Good(v, Keep(s, i), i + 1)
  {
    KeepOne(v, s, i);
  }

  lemma GoodRow(v: seq<PdpProfile>, s: Pass, i: nat) returns (r: Pass)
    requires Good(v, s, i) && i < |v| && s.v[i].profileId != CONSUMED && !Straddled(v)
    ensures r == Keep(MergeRow(s, i, i + 1), i) && Good(v, r, i + 1) && RowClashFree(v, s, i, i + 1)
  {
    BeginRowOne(v, s, i);
    RowStaysGood(v, s, i, i + 1);
    r := Keep(MergeRow(s, i, i + 1), i);
    KeepGood(v, MergeRow(s, i, i + 1), i);
  }

  /** One row, kept or skipped. */
  lemma GoodNext(v: seq<PdpProfile>, s: Pass, i: nat) returns (r: Pass)
    requires Good(v, s, i) && i < |v| && !Straddled(v)
    ensures |s.v| == |r.v| == |v| && Good(v, r, i + 1) && (ClashFree(v, r, i + 1) ==> ClashFree(v, s, i))
  {
    if s.v[i].profileId == CONSUMED {
      SkipRowOne(v, s, i);
      SkipOne(v, s, i);
      r := s;
    } else {
      r := GoodRow(v, s, i);
    }
  }

  lemma {:induction false} GoodIsFree(v: seq<PdpProfile>, s: Pass, i: nat)
    requires Good(v, s, i) && i <= |v| && !Straddled(v)
    ensures |s.v| == |v| && ClashFree(v, s, i)
    decreases |v| - i
  {
    if i < |v| {
      var r := GoodNext(v, s, i);
      GoodIsFree(v, r, i + 1);
    }
  }

  lemma NotStraddledDissimilar(v: seq<PdpProfile>, prefer: int)
    requires ValidIds(v) && OneProtocol(v) && LoneDefault(v) && !Straddled(v)
    ensures Dissimilar(MergeAll(v, prefer).kept)
  {
    StartGood(v, prefer);
    GoodIsFree(v, Pass(v, prefer, []), 0);
    ClashFreeSurvivors(v, prefer);
  }

  // ---- A straddled group leaves two similar profiles ----

  predicate KnownOf(v: seq<PdpProfile>, p: nat, g: Group) {
    p < |v| && GroupOf(v[p]) == g && Known(v[p].pdpProtocol)
  }

  /** Group and kind as in the input; the known entries of g exactly as they came. */
  predicate Untouched(v: seq<PdpProfile>, p: nat, x: PdpProfile, g: Group)
    requires p < |v|
  {
    && SameGroup(x, v[p]) && Known(x.pdpProtocol) == Known(v[p].pdpProtocol)
    && (KnownOf(v, p, g) ==> x == v[p])
  }

  ghost predicate UntouchedFrom(v: seq<PdpProfile>, s: Pass, i: nat, g: Group) {
    |s.v| == |v| && forall p | i <= p < |v| :: Untouched(v, p, s.v[p], g)
  }

  lemma OtherRowStep(v: seq<PdpProfile>, s: Pass, i: nat, j: nat, g: Group)
    requires UntouchedFrom(v, s, i, g) && i < j < |v| && !KnownOf(v, i, g)
    ensures UntouchedFrom(v, MergeAt(s, i, j), i, g)
  {
    assert Untouched(v, i, s.v[i], g) && Untouched(v, j, s.v[j], g);
    if Similar(s.v[i], s.v[j]) {
      MergedIs(s, i, j);
      JoinedGroup(s.v[i], s.v[j]);
      JoinedProtocol(s.v[i], s.v[j]);
    }
  }

  lemma {:induction false} OtherRow(v: seq<PdpProfile>, s: Pass, i: nat, j: nat, g: Group)
    requires UntouchedFrom(v, s, i, g) && i < j <= |v| && !KnownOf(v, i, g)
    ensures UntouchedFrom(v, MergeRow(s, i, j), i, g)
    decreases |v| - j
  {
    if j < |v| {
      OtherRowStep(v, s, i, j, g);
      OtherRow(v, MergeAt(s, i, j), i, j + 1, g);
    }
  }

  lemma OtherRowNext(v: seq<PdpProfile>, s: Pass, i: nat, g: Group) returns (r: Pass)
    requires One(v, s, i) && UntouchedFrom(v, s, i, g) && i < |v| && !KnownOf(v, i, g)
    ensures One(v, r, i + 1) && UntouchedFrom(v, r, i + 1, g) && |s.v| == |v| && MergeRows(s, i) == MergeRows(r, i + 1)
  {
    r := NextRowOne(v, s, i);
    if s.v[i].profileId != CONSUMED {
      OtherRow(v, s, i, i + 1, g);
    }
  }

  /** The pass arrives at the first known entry of g with all of them as they came. */
  lemma {:induction false} ArriveAt(v: seq<PdpProfile>, s: Pass, i: nat, e: nat, g: Group) returns (r: Pass)
    requires One(v, s, i) && UntouchedFrom(v, s, i, g) && i <= e < |v|
    requires forall p: nat | p < e :: !KnownOf(v, p, g)
    ensures One(v, r, e) && UntouchedFrom(v, r, e, g) && MergeRows(s, i) == MergeRows(r, e)
    decreases e - i
  {
    if i == e {
      r := s;
    } else {
      var n := OtherRowNext(v, s, i, g);
      r := ArriveAt(v, n, i + 1, e, g);
    }
  }

  /** Row e of g on its way to b, the first entry with the opposite protocol. */
  ghost predicate OnTheWay(v: seq<PdpProfile>, s: Pass, e: nat, j: nat, b: nat) {
    && e < j <= b < |v| == |s.v|
    && KnownOf(v, e, GroupOf(v[e])) && NarrowBefore(v, b, GroupOf(v[e]))
    && SameGroup(v[e], v[b]) && Opposed(v[e].pdpProtocol, v[b].pdpProtocol)
    && SameGroup(s.v[e], v[e]) && s.v[e].pdpProtocol == v[e].pdpProtocol
    && forall p | j <= p < |v| :: Untouched(v, p, s.v[p], GroupOf(v[e]))
  }

  lemma WayStep(v: seq<PdpProfile>, s: Pass, e: nat, j: nat, b: nat)
    requires OnTheWay(v, s, e, j, b) && j < b
    ensures OnTheWay(v, MergeAt(s, e, j), e, j + 1, b)
  {
    if Similar(s.v[e], s.v[j]) {
      MergedIs(s, e, j);
      JoinedGroup(s.v[e], s.v[j]);
      JoinedProtocol(s.v[e], s.v[j]);
      assert Untouched(v, j, s.v[j], GroupOf(v[e]));
      assert !OfKind(v, j, GroupOf(v[e]), IPV4V6);
    }
  }

  lemma {:induction false} BehindTheRow(s: Pass, i: nat, j: nat, b: nat)
    requires i < b < j <= |s.v|
    ensures MergeRow(s, i, j).v[b] == s.v[b]
    decreases |s.v| - j
  {
    if j < |s.v| {
      BehindTheRow(MergeAt(s, i, j), i, j + 1, b);
    }
  }

  /** The row passes over b. */
  lemma {:induction false} RowPasses(v: seq<PdpProfile>, s: Pass, e: nat, j: nat, b: nat)
    requires OnTheWay(v, s, e, j, b)
    ensures MergeRow(s, e, j).v[b] == v[b]
    decreases b - j
  {
    if j < b {
      WayStep(v, s, e, j, b);
      RowPasses(v, MergeAt(s, e, j), e, j + 1, b);
    } else {
      assert Untouched(v, b, s.v[b], GroupOf(v[e]));
      assert MergeAt(s, e, b) == s;
      BehindTheRow(s, e, b + 1, b);
    }
  }

  lemma {:induction false} RowKind(s: Pass, i: nat, j: nat)
    requires i < j <= |s.v|
    ensures SameGroup(MergeRow(s, i, j).v[i], s.v[i])
    ensures Known(MergeRow(s, i, j).v[i].pdpProtocol) == Known(s.v[i].pdpProtocol)
    decreases |s.v| - j
  {
    if j < |s.v| {
      if Similar(s.v[i], s.v[j]) {
        MergedIs(s, i, j);
        JoinedGroup(s.v[i], s.v[j]);
        JoinedProtocol(s.v[i], s.v[j]);
      }
      RowKind(MergeAt(s, i, j), i, j + 1);
    }
  }

  /** What was kept stays in front. */
  lemma {:induction false} KeptInFront(s: Pass, i: nat, k: seq<PdpProfile>)
    requires i <= |s.v|
    ensures MergeRows(s.(kept := k + s.kept), i).kept == k + MergeRows(s, i).kept
    decreases |s.v| - i
  {
    if i < |s.v| {
      if s.v[i].profileId == CONSUMED {
        KeptInFront(s, i + 1, k);
      } else {
        KeptIsIdle(s, i, i + 1);
        KeptIsIdle(s.(kept := k + s.kept), i, i + 1);
        var r := Keep(MergeRow(s, i, i + 1), i);
        assert r.(kept := k + r.kept) == Keep(MergeRow(s.(kept := k + s.kept), i, i + 1), i);
        KeptInFront(r, i + 1, k);
      }
    }
  }

  /** A live entry is covered by a profile kept later than all kept so far. */
  lemma KeptLater(s: Pass, i: nat, b: nat) returns (q: nat)
    requires i <= b < |s.v| && s.v[b].profileId != CONSUMED
    ensures var kept := MergeRows(s, i).kept;
            |s.kept| <= q < |kept| && Covers(kept[q], s.v[b]) && kept[..|s.kept|] == s.kept
  {
    var t := s.(kept := []);
    assert Live(t, i, false, b) && Covers(t.v[b], s.v[b]);
    RowsCovered(t, i, s.v[b]);
    KeptInFront(t, i, s.kept);
    assert t.(kept := s.kept + []) == s;
    var n :| 0 <= n < |MergeRows(t, i).kept| && Covers(MergeRows(t, i).kept[n], s.v[b]);
    q := |s.kept| + n;
  }

  /** The group's first known entry and the first one opposed to it. */
  lemma FirstOfStraddle(v: seq<PdpProfile>, i: nat, j: nat) returns (e: nat, b: nat)
    requires Straddles(v, i, j)
    ensures e < b < |v| && KnownOf(v, e, GroupOf(v[i])) && SameGroup(v[e], v[b])
    ensures Opposed(v[e].pdpProtocol, v[b].pdpProtocol) && NarrowBefore(v, b, GroupOf(v[i]))
    ensures forall p: nat | p < e :: !KnownOf(v, p, GroupOf(v[i]))
  {
    var g := GroupOf(v[i]);
    e := FirstKnown(v, g, i);
    b := if v[e].pdpProtocol == IPV4 then j else i;
    assert KnownOf(v, j, g);
    assert !OfKind(v, e, g, IPV4V6);
  }

  lemma {:induction false} FirstKnown(v: seq<PdpProfile>, g: Group, i: nat) returns (e: nat)
    requires KnownOf(v, i, g)
    ensures e <= i && KnownOf(v, e, g) && forall p: nat | p < e :: !KnownOf(v, p, g)
  {
    if p: nat :| p < i && KnownOf(v, p, g) {
      e := FirstKnown(v, g, p);
    } else {
      e := i;
    }
  }

  /** The first known entry is kept while the opposed one is still live. */
  lemma OpposedPassed(v: seq<PdpProfile>, prefer: int, g: Group, e: nat, b: nat) returns (w: Pass)
    requires ValidIds(v) && OneProtocol(v) && LoneDefault(v)
    requires e < b < |v| && KnownOf(v, e, g) && SameGroup(v[e], v[b])
    requires Opposed(v[e].pdpProtocol, v[b].pdpProtocol) && NarrowBefore(v, b, g)
    requires forall p: nat | p < e :: !KnownOf(v, p, g)
    ensures |w.v| == |v| && w.v[b] == v[b] && MergeAll(v, prefer) == MergeRows(w, e + 1) && |w.kept| > 0
    ensures var x := w.kept[|w.kept| - 1]; GroupOf(x) == g && Known(x.pdpProtocol)
  {
    StartOne(v, prefer);
    var t := ArriveAt(v, Pass(v, prefer, []), 0, e, g);
    assert Untouched(v, e, t.v[e], g);
    RowPasses(v, t, e, e + 1, b);
    RowKind(t, e, e + 1);
    w := Keep(MergeRow(t, e, e + 1), e);
  }

  /** Two kept profiles, one from the first known entry and a later one from the opposed entry. */
  lemma TwoSurvive(v: seq<PdpProfile>, prefer: int, i: nat, j: nat) returns (p: nat, q: nat)
    requires ValidIds(v) && OneProtocol(v) && LoneDefault(v) && Straddles(v, i, j)
    ensures var kept := MergeAll(v, prefer).kept;
            && p < q < |kept| && GroupOf(kept[p]) == GroupOf(kept[q]) == GroupOf(v[i])
            && Known(kept[p].pdpProtocol) && Known(kept[q].pdpProtocol)
  {
    var g := GroupOf(v[i]);
    var e, b := FirstOfStraddle(v, i, j);
    var w := OpposedPassed(v, prefer, g, e, b);
    q := KeptLater(w, e + 1, b);
    p := |w.kept| - 1;
    assert w.kept[p] == MergeRows(w, e + 1).kept[..|w.kept|][p];
  }

  lemma WideSurvives(v: seq<PdpProfile>, prefer: int, g: Group) returns (z: nat)
    requires ValidIds(v) && PdpIn(v, g, IPV4V6)
    ensures var kept := MergeAll(v, prefer).kept;
            z < |kept| && GroupOf(kept[z]) == g && kept[z].pdpProtocol == IPV4V6
  {
    var k :| 0 <= k < |v| && GroupOf(v[k]) == g && v[k].pdpProtocol == IPV4V6;
    MergeCoversEveryInput(v, prefer, k);
    var kept := MergeAll(v, prefer).kept;
    z :| z < |kept| && Covers(kept[z], v[k]);
  }

  /** A kept profile that is wide is similar to every other kept one of known protocol. */
  lemma KeptSimilar(v: seq<PdpProfile>, prefer: int, p: nat, q: nat)
    requires ValidIds(v) && OneProtocol(v) && LoneDefault(v)
    requires p < |MergeAll(v, prefer).kept| && q < |MergeAll(v, prefer).kept| && p != q
    requires SameGroup(MergeAll(v, prefer).kept[p], MergeAll(v, prefer).kept[q])
    requires Known(MergeAll(v, prefer).kept[p].pdpProtocol) && MergeAll(v, prefer).kept[q].pdpProtocol == IPV4V6
    ensures !Dissimilar(MergeAll(v, prefer).kept)
  {
    var s := MergeAll(v, prefer);
    StartOne(v, prefer);
    RowsOne(v, Pass(v, prefer, []), 0);
    assert !TwoDefaults(s.kept[if p < q then p else q], s.kept[if p < q then q else p]);
    AlikeSimilar(v, s.kept[p], s.kept[q]);
    assert Similar(s.kept[p], s.kept[q]);
  }

  lemma StraddledSimilar(v: seq<PdpProfile>, prefer: int)
    requires ValidIds(v) && OneProtocol(v) && LoneDefault(v) && Straddled(v)
    ensures !Dissimilar(MergeAll(v, prefer).kept)
  {
    var i: nat, j: nat :| Straddles(v, i, j);
    var p, q := TwoSurvive(v, prefer, i, j);
    var z := WideSurvives(v, prefer, GroupOf(v[i]));
    KeptSimilar(v, prefer, if z == p then q else p, z);
  }

  /** Similar profiles survive the merge exactly if some group is straddled. */
  lemma SimilarSurviveWhen(v: seq<PdpProfile>, prefer: int)
    requires ValidIds(v) && OneProtocol(v) && LoneDefault(v)
    ensures !Dissimilar(MergeAll(v, prefer).kept) <==> Straddled(v)
  {
    if Straddled(v) {
      StraddledSimilar(v, prefer);
    } else {
      NotStraddledDissimilar(v, prefer);
    }
  }

  // ---- An input ----

  lemma SampleIsOne(v: seq<PdpProfile>)
    requires v == [Sample(1, "ia", IPV4), Sample(2, "mms", IPV6), Sample(3, "ia", IPV4V6)]
    ensures ValidIds(v) && OneProtocol(v) && LoneDefault(v)
  {
    ShortHasNoDefault(v[0]);
    ShortHasNoDefault(v[1]);
    ShortHasNoDefault(v[2]);
    forall q | 0 <= q < |v|
      ensures RoamFollows(v, GroupOf(v[q]))
    {
    }
  }

  lemma SampleStraddles(v: seq<PdpProfile>)
    requires v == [Sample(1, "ia", IPV4), Sample(2, "mms", IPV6), Sample(3, "ia", IPV4V6)]
    ensures Straddles(v, 0, 1)
  {
    assert |IPV4| == 2 && |IPV6| == 4 && |IPV4V6| == 6;
    assert GroupOf(v[2]) == GroupOf(v[0]) && v[2].pdpProtocol == IPV4V6;
  }

  /** The input whose kept profiles stay similar meets the hypotheses: its one group is
      straddled, so it shows all three protocols and is not compatible. */
  lemma SampleStraddled()
    ensures var v := [Sample(1, "ia", IPV4), Sample(2, "mms", IPV6), Sample(3, "ia", IPV4V6)];
            ValidIds(v) && OneProtocol(v) && LoneDefault(v) && Straddled(v) && !NeverAllThree(v) && !Compatible(v)
  {
    var v := [Sample(1, "ia", IPV4), Sample(2, "mms", IPV6), Sample(3, "ia", IPV4V6)];
    SampleIsOne(v);
    SampleStraddles(v);
    StraddledShowsAll(v, 0, 1);
  }

  lemma StraddledShowsAll(v: seq<PdpProfile>, i: nat, j: nat)
    requires Straddles(v, i, j)
    ensures !NeverAllThree(v) && !Compatible(v)
  {
    assert AllThreePdp(v, GroupOf(v[i]));
    assert SameGroup(v[i], v[j]) && !FieldsAgree(Pdp, v[i], v[j]);
  }
}
