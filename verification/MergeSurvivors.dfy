/** When no two kept profiles are similar: a pass keeps its entries apart for good, as long
    as it never passes over an entry only because one is "IP" and the other "IPV6" while the
    group can still become "IPV4V6". */
module MergeSurvivors {
  import opened TypeList
  import opened ProfileMerge
  import opened MergeTheorems
  import opened MergeGroups

  // ---- Protocols of a group ----

  predicate Known(p: string) {
    p == IPV4 || p == IPV6 || p == IPV4V6
  }

  predicate Opposed(a: string, b: string) {
    (a == IPV4 && b == IPV6) || (a == IPV6 && b == IPV4)
  }

  /** Some entry of the group has this protocol. */
  ghost predicate PdpIn(v: seq<PdpProfile>, g: Group, x: string) {
    exists q :: 0 <= q < |v| && GroupOf(v[q]) == g && v[q].pdpProtocol == x
  }

  ghost predicate RoamIn(v: seq<PdpProfile>, g: Group, x: string) {
    exists q :: 0 <= q < |v| && GroupOf(v[q]) == g && v[q].roamPdpProtocol == x
  }

  /** The profile's protocols occur in its group of the input. */
  ghost predicate Drawn(v: seq<PdpProfile>, x: PdpProfile) {
    PdpIn(v, GroupOf(x), x.pdpProtocol) && RoamIn(v, GroupOf(x), x.roamPdpProtocol)
  }

  /** Two profiles of one group that differ as "IP" and "IPV6", in a group that knows both. */
  ghost predicate Clash(v: seq<PdpProfile>, x: PdpProfile, y: PdpProfile) {
    && SameGroup(x, y)
    && (|| (Opposed(x.pdpProtocol, y.pdpProtocol) && PdpIn(v, GroupOf(x), IPV4V6))
        || (Opposed(x.roamPdpProtocol, y.roamPdpProtocol) && RoamIn(v, GroupOf(x), IPV4V6)))
  }

  // ---- Apart for good ----

  predicate ValuesApart(a: string, b: string) {
    a != "" && b != "" && a != b
  }

  /** Different, and merging cannot change that: one is unknown, or the group never widens. */
  predicate ProtocolsApart(wide: bool, a: string, b: string) {
    a != b && (!Known(a) || !Known(b) || (!wide && Opposed(a, b)))
  }

  ghost predicate Apart(v: seq<PdpProfile>, x: PdpProfile, y: PdpProfile) {
    || !SameGroup(x, y)
    || (HasDefault(x) && HasDefault(y))
    || ValuesApart(x.proxyIpAddress, y.proxyIpAddress)
    || ValuesApart(x.homeUrl, y.homeUrl)
    || ValuesApart(x.mmsIpAddress, y.mmsIpAddress)
    || ProtocolsApart(PdpIn(v, GroupOf(x), IPV4V6), x.pdpProtocol, y.pdpProtocol)
    || ProtocolsApart(RoamIn(v, GroupOf(x), IPV4V6), x.roamPdpProtocol, y.roamPdpProtocol)
  }

  lemma ApartSwap(v: seq<PdpProfile>, x: PdpProfile, y: PdpProfile)
    requires Apart(v, x, y)
    ensures Apart(v, y, x)
  {
  }

  lemma ApartDissimilar(v: seq<PdpProfile>, x: PdpProfile, y: PdpProfile)
    requires Apart(v, x, y)
    ensures !Similar(x, y)
  {
  }

  lemma DissimilarApart(v: seq<PdpProfile>, x: PdpProfile, y: PdpProfile)
    requires !Similar(x, y) && !Clash(v, x, y) && Drawn(v, x) && Drawn(v, y)
    ensures Apart(v, x, y)
  {
  }

  /** What a row becomes when it absorbs or is absorbed by a similar entry. */
  function Joined(a: PdpProfile, b: PdpProfile): PdpProfile {
    Combine(Keeper(a, b), Absorbed(a, b))
  }

  lemma ValueJoined(x: string, n: string, o: string)
    requires SimilarProperty(n, o) && (ValuesApart(x, n) || ValuesApart(x, o))
    ensures ValuesApart(x, Filled(n, o))
  {
  }

  lemma ProtocolJoined(wide: bool, x: string, a: string, n: string, o: string)
    requires SimilarProtocol(n, o) && (a == n || a == o) && ProtocolsApart(wide, x, a)
    requires !wide ==> n != IPV4V6 && o != IPV4V6
    ensures ProtocolsApart(wide, x, Widened(n, o))
  {
  }

  lemma JoinedGroup(a: PdpProfile, b: PdpProfile)
    requires Similar(a, b)
    ensures SameGroup(Joined(a, b), a) && SameGroup(a, b)
    ensures HasDefault(Joined(a, b)) <==> HasDefault(a) || HasDefault(b)
  {
    CarriesConcat(Keeper(a, b).apnTypes, Absorbed(a, b).apnTypes);
  }

  lemma JoinedDrawn(v: seq<PdpProfile>, a: PdpProfile, b: PdpProfile)
    requires Similar(a, b) && Drawn(v, a) && Drawn(v, b)
    ensures Drawn(v, Joined(a, b))
  {
    JoinedGroup(a, b);
  }

  lemma SimilarParts(a: PdpProfile, b: PdpProfile)
    requires Similar(a, b)
    ensures var n, o := Keeper(a, b), Absorbed(a, b);
            && SimilarProtocol(n.pdpProtocol, o.pdpProtocol) && SimilarProtocol(n.roamPdpProtocol, o.roamPdpProtocol)
            && SimilarProperty(n.proxyIpAddress, o.proxyIpAddress) && SimilarProperty(n.homeUrl, o.homeUrl)
            && SimilarProperty(n.mmsIpAddress, o.mmsIpAddress)
  {
  }

  /** Whatever keeps x apart from a row keeps it apart from what the row becomes. */
  lemma ApartJoined(v: seq<PdpProfile>, x: PdpProfile, a: PdpProfile, b: PdpProfile)
    requires Apart(v, x, a) && Similar(a, b) && Drawn(v, a) && Drawn(v, b)
    ensures Apart(v, x, Joined(a, b))
  {
    var n, o := Keeper(a, b), Absorbed(a, b);
    JoinedGroup(a, b);
    SimilarParts(a, b);
    if ValuesApart(x.proxyIpAddress, a.proxyIpAddress) {
      ValueJoined(x.proxyIpAddress, n.proxyIpAddress, o.proxyIpAddress);
    } else if ValuesApart(x.homeUrl, a.homeUrl) {
      ValueJoined(x.homeUrl, n.homeUrl, o.homeUrl);
    } else if ValuesApart(x.mmsIpAddress, a.mmsIpAddress) {
      ValueJoined(x.mmsIpAddress, n.mmsIpAddress, o.mmsIpAddress);
    } else if SameGroup(x, a) && !(HasDefault(x) && HasDefault(a)) {
      ApartByProtocol(v, x, a, b);
    }
  }

  lemma ApartByProtocol(v: seq<PdpProfile>, x: PdpProfile, a: PdpProfile, b: PdpProfile)
    requires SameGroup(x, a) && Similar(a, b) && Drawn(v, a) && Drawn(v, b)
    requires || ProtocolsApart(PdpIn(v, GroupOf(x), IPV4V6), x.pdpProtocol, a.pdpProtocol)
             || ProtocolsApart(RoamIn(v, GroupOf(x), IPV4V6), x.roamPdpProtocol, a.roamPdpProtocol)
    ensures Apart(v, x, Joined(a, b))
  {
    var n, o := Keeper(a, b), Absorbed(a, b);
    SimilarParts(a, b);
    JoinedGroup(a, b);
    var pw, rw := PdpIn(v, GroupOf(x), IPV4V6), RoamIn(v, GroupOf(x), IPV4V6);
    if ProtocolsApart(pw, x.pdpProtocol, a.pdpProtocol) {
      ProtocolJoined(pw, x.pdpProtocol, a.pdpProtocol, n.pdpProtocol, o.pdpProtocol);
    } else {
      ProtocolJoined(rw, x.roamPdpProtocol, a.roamPdpProtocol, n.roamPdpProtocol, o.roamPdpProtocol);
    }
  }

  // ---- The pass ----

  ghost predicate AllDrawn(v: seq<PdpProfile>, s: Pass, i: nat) {
    forall p | i <= p < |s.v| :: Drawn(v, s.v[p])
  }

  ghost predicate KeptApart(v: seq<PdpProfile>, s: Pass) {
    forall p, q | 0 <= p < q < |s.kept| :: Apart(v, s.kept[p], s.kept[q])
  }

  /** Kept profiles are apart from every entry still to be kept. */
  ghost predicate KeptOff(v: seq<PdpProfile>, s: Pass, i: nat) {
    forall q, p | 0 <= q < |s.kept| && i <= p < |s.v| && s.v[p].profileId != CONSUMED :: Apart(v, s.kept[q], s.v[p])
  }

  ghost predicate Off(v: seq<PdpProfile>, s: Pass, i: nat) {
    Clean(s, i) && AllDrawn(v, s, i) && KeptApart(v, s) && KeptOff(v, s, i)
  }

  /** So is row i from the entries it has passed over. */
  ghost predicate RowOff(v: seq<PdpProfile>, s: Pass, i: nat, j: nat) {
    && i < j <= |s.v| && s.v[i].profileId != CONSUMED
    && forall p | i < p < j && s.v[p].profileId != CONSUMED :: Apart(v, s.v[i], s.v[p])
  }

  /** The row never passes over a live entry by a clash. */
  ghost predicate RowClashFree(v: seq<PdpProfile>, s: Pass, i: nat, j: nat)
    requires i < j <= |s.v|
    decreases |s.v| - j
  {
    j < |s.v| ==>
      (s.v[j].profileId != CONSUMED ==> !Clash(v, s.v[i], s.v[j])) && RowClashFree(v, MergeAt(s, i, j), i, j + 1)
  }

  ghost predicate ClashFree(v: seq<PdpProfile>, s: Pass, i: nat)
    requires i <= |s.v|
    decreases |s.v| - i
  {
    i < |s.v| ==>
      if s.v[i].profileId == CONSUMED then ClashFree(v, s, i + 1)
      else RowClashFree(v, s, i, i + 1) && ClashFree(v, Keep(MergeRow(s, i, i + 1), i), i + 1)
  }

  lemma MergedIs(s: Pass, i: nat, j: nat)
    requires i < j < |s.v| && Similar(s.v[i], s.v[j])
    ensures var r := MergeAt(s, i, j);
            && r.v[i] == Joined(s.v[i], s.v[j]) && r.v[j].profileId == CONSUMED
            && r.v[j] == Absorbed(s.v[i], s.v[j]).(profileId := CONSUMED)
            && forall k | 0 <= k < |s.v| && k != i && k != j :: r.v[k] == s.v[k]
  {
  }

  lemma MergedDrawn(v: seq<PdpProfile>, s: Pass, i: nat, j: nat)
    requires i < j < |s.v| && AllDrawn(v, s, i)
    ensures AllDrawn(v, MergeAt(s, i, j), i)
  {
    if Similar(s.v[i], s.v[j]) {
      MergedIs(s, i, j);
      JoinedDrawn(v, s.v[i], s.v[j]);
      var r := MergeAt(s, i, j);
      assert Drawn(v, s.v[i]) && Drawn(v, s.v[j]);
      assert Drawn(v, r.v[j]);
    }
  }

  lemma MergedKeptOff(v: seq<PdpProfile>, s: Pass, i: nat, j: nat)
    requires Off(v, s, i) && i < j < |s.v| && s.v[i].profileId != CONSUMED
    ensures KeptOff(v, MergeAt(s, i, j), i)
  {
    if Similar(s.v[i], s.v[j]) {
      MergedIs(s, i, j);
      var r := MergeAt(s, i, j);
      forall q, p | 0 <= q < |r.kept| && i <= p < |r.v| && r.v[p].profileId != CONSUMED
        ensures Apart(v, r.kept[q], r.v[p])
      {
        if p == i {
          assert Drawn(v, s.v[i]) && Drawn(v, s.v[j]);
          ApartJoined(v, s.kept[q], s.v[i], s.v[j]);
        }
      }
    }
  }

  lemma MergedRowOff(v: seq<PdpProfile>, s: Pass, i: nat, j: nat)
    requires Off(v, s, i) && RowOff(v, s, i, j) && j < |s.v|
    requires s.v[j].profileId != CONSUMED ==> !Clash(v, s.v[i], s.v[j])
    ensures RowOff(v, MergeAt(s, i, j), i, j + 1)
  {
    MergeAtClean(s, i, j);
    assert Drawn(v, s.v[i]) && Drawn(v, s.v[j]);
    if Similar(s.v[i], s.v[j]) {
      MergedIs(s, i, j);
      var r := MergeAt(s, i, j);
      forall p | i < p < j + 1 && r.v[p].profileId != CONSUMED
        ensures Apart(v, r.v[i], r.v[p])
      {
        ApartSwap(v, s.v[i], s.v[p]);
        ApartJoined(v, s.v[p], s.v[i], s.v[j]);
        ApartSwap(v, s.v[p], r.v[i]);
      }
    } else if s.v[j].profileId != CONSUMED {
      DissimilarApart(v, s.v[i], s.v[j]);
    }
  }

  lemma StepOff(v: seq<PdpProfile>, s: Pass, i: nat, j: nat)
    requires Off(v, s, i) && RowOff(v, s, i, j) && j < |s.v|
    requires s.v[j].profileId != CONSUMED ==> !Clash(v, s.v[i], s.v[j])
    ensures Off(v, MergeAt(s, i, j), i) && RowOff(v, MergeAt(s, i, j), i, j + 1)
  {
    MergeAtClean(s, i, j);
    MergedDrawn(v, s, i, j);
    MergedKeptOff(v, s, i, j);
    MergedRowOff(v, s, i, j);
  }

  lemma {:induction false} ThroughRowOff(v: seq<PdpProfile>, s: Pass, i: nat, j: nat)
    requires Off(v, s, i) && RowOff(v, s, i, j) && RowClashFree(v, s, i, j)
    ensures Off(v, MergeRow(s, i, j), i) && RowOff(v, MergeRow(s, i, j), i, |s.v|)
    decreases |s.v| - j
  {
    if j < |s.v| {
      StepOff(v, s, i, j);
      ThroughRowOff(v, MergeAt(s, i, j), i, j + 1);
    }
  }

  lemma KeepOff(v: seq<PdpProfile>, s: Pass, i: nat)
    requires Off(v, s, i) && RowOff(v, s, i, |s.v|)
    ensures Off(v, Keep(s, i), i + 1)
  {
    KeepClean(s, i);
    var r := Keep(s, i);
    forall q, p | 0 <= q < |r.kept| && i + 1 <= p < |r.v| && r.v[p].profileId != CONSUMED
      ensures Apart(v, r.kept[q], r.v[p])
    {
      if q < |s.kept| {
        assert Apart(v, s.kept[q], s.v[p]);
      }
    }
    forall p, q | 0 <= p < q < |r.kept|
      ensures Apart(v, r.kept[p], r.kept[q])
    {
      if q < |s.kept| {
        assert Apart(v, s.kept[p], s.kept[q]);
      } else {
        assert Apart(v, s.kept[p], s.v[i]);
      }
    }
  }

  lemma {:induction false} RowsOff(v: seq<PdpProfile>, s: Pass, i: nat)
    requires i <= |s.v| && Off(v, s, i) && ClashFree(v, s, i)
    ensures KeptApart(v, MergeRows(s, i))
    decreases |s.v| - i
  {
    if i < |s.v| {
      if s.v[i].profileId == CONSUMED {
        RowsOff(v, s, i + 1);
      } else {
        ThroughRowOff(v, s, i, i + 1);
        KeepOff(v, MergeRow(s, i, i + 1), i);
        RowsOff(v, Keep(MergeRow(s, i, i + 1), i), i + 1);
      }
    }
  }

  lemma InputDrawn(v: seq<PdpProfile>, prefer: int)
    ensures AllDrawn(v, Pass(v, prefer, []), 0)
  {
  }

  ghost predicate Dissimilar(kept: seq<PdpProfile>) {
    forall p, q | 0 <= p < |kept| && 0 <= q < |kept| && p != q :: !Similar(kept[p], kept[q])
  }

  /** A pass without a clash leaves no two similar profiles. */
  lemma ClashFreeSurvivors(v: seq<PdpProfile>, prefer: int)
    requires ValidIds(v) && ClashFree(v, Pass(v, prefer, []), 0)
    ensures Dissimilar(MergeAll(v, prefer).kept)
  {
    InputDrawn(v, prefer);
    RowsOff(v, Pass(v, prefer, []), 0);
    ApartKeptDissimilar(v, MergeAll(v, prefer));
  }

  lemma ApartKeptDissimilar(v: seq<PdpProfile>, s: Pass)
    requires KeptApart(v, s)
    ensures Dissimilar(s.kept)
  {
    forall p, q | 0 <= p < |s.kept| && 0 <= q < |s.kept| && p != q
      ensures !Similar(s.kept[p], s.kept[q])
    {
      if p < q {
        assert Apart(v, s.kept[p], s.kept[q]);
      } else {
        ApartSwap(v, s.kept[q], s.kept[p]);
      }
      ApartDissimilar(v, s.kept[p], s.kept[q]);
    }
  }

  // ---- Groups that never show all three protocols ----

  ghost predicate AllThreePdp(v: seq<PdpProfile>, g: Group) {
    PdpIn(v, g, IPV4) && PdpIn(v, g, IPV6) && PdpIn(v, g, IPV4V6)
  }

  ghost predicate AllThreeRoam(v: seq<PdpProfile>, g: Group) {
    RoamIn(v, g, IPV4) && RoamIn(v, g, IPV6) && RoamIn(v, g, IPV4V6)
  }

  /** No APN and MVNO shows "IP", "IPV6" and "IPV4V6" together, at home or in roaming. */
  ghost predicate NeverAllThree(v: seq<PdpProfile>) {
    forall q | 0 <= q < |v| :: !AllThreePdp(v, GroupOf(v[q])) && !AllThreeRoam(v, GroupOf(v[q]))
  }

  lemma NoClash(v: seq<PdpProfile>, x: PdpProfile, y: PdpProfile)
    requires NeverAllThree(v) && Drawn(v, x) && Drawn(v, y)
    ensures !Clash(v, x, y)
  {
    var q :| 0 <= q < |v| && GroupOf(v[q]) == GroupOf(x) && v[q].pdpProtocol == x.pdpProtocol;
    assert !AllThreePdp(v, GroupOf(v[q])) && !AllThreeRoam(v, GroupOf(v[q]));
  }

  lemma {:induction false} RowNeverClashes(v: seq<PdpProfile>, s: Pass, i: nat, j: nat)
    requires NeverAllThree(v) && AllDrawn(v, s, i) && i < j <= |s.v|
    ensures RowClashFree(v, s, i, j) && AllDrawn(v, MergeRow(s, i, j), i)
    decreases |s.v| - j
  {
    if j < |s.v| {
      assert Drawn(v, s.v[i]) && Drawn(v, s.v[j]);
      NoClash(v, s.v[i], s.v[j]);
      MergedDrawn(v, s, i, j);
      RowNeverClashes(v, MergeAt(s, i, j), i, j + 1);
    }
  }

  lemma {:induction false} NeverClashes(v: seq<PdpProfile>, s: Pass, i: nat)
    requires NeverAllThree(v) && AllDrawn(v, s, i) && i <= |s.v|
    ensures ClashFree(v, s, i)
    decreases |s.v| - i
  {
    if i < |s.v| {
      if s.v[i].profileId == CONSUMED {
        NeverClashes(v, s, i + 1);
      } else {
        RowNeverClashes(v, s, i, i + 1);
        NeverClashes(v, Keep(MergeRow(s, i, i + 1), i), i + 1);
      }
    }
  }

  /** If no group shows all three protocols, no two kept profiles are similar, whatever else
      the profiles differ in. */
  lemma SurvivorsAreDissimilar(v: seq<PdpProfile>, prefer: int)
    requires ValidIds(v) && NeverAllThree(v)
    ensures Dissimilar(MergeAll(v, prefer).kept)
  {
    InputDrawn(v, prefer);
    NeverClashes(v, Pass(v, prefer, []), 0);
    ClashFreeSurvivors(v, prefer);
  }
}
