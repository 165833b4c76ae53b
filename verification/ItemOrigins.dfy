/** Where the values of a listed item come from: its credentials from the profile that has its
    id, its types from profiles of its APN, and everything within the field size. */
module ItemOrigins {
  import opened TypeList
  import opened ProfileMerge
  import opened MergeTheorems
  import opened MergeGroups
  import opened MergeSurvivors
  import opened ApnSelection

  predicate SameCredentials(x: PdpProfile, o: PdpProfile) {
    && x.profileId == o.profileId && x.profileName == o.profileName
    && x.mcc == o.mcc && x.mnc == o.mnc
    && x.authType == o.authType && x.authUser == o.authUser && x.authPwd == o.authPwd
    && x.isRoamingApn == o.isRoamingApn && x.edited == o.edited
  }

  /** Some profile has this one's id and credentials and is covered by it. */
  ghost predicate HasOrigin(v: seq<PdpProfile>, x: PdpProfile) {
    exists k :: 0 <= k < |v| && SameCredentials(x, v[k]) && Covers(x, v[k])
  }

  ghost predicate TypeIn(v: seq<PdpProfile>, g: Group, t: string) {
    exists k :: 0 <= k < |v| && GroupOf(v[k]) == g && Token(v[k].apnTypes, t)
  }

  /** Every type of the profile occurs in its APN group. */
  ghost predicate TypesFromGroup(v: seq<PdpProfile>, x: PdpProfile) {
    forall t | Token(x.apnTypes, t) :: TypeIn(v, GroupOf(x), t)
  }

  lemma JoinedTypes(v: seq<PdpProfile>, a: PdpProfile, b: PdpProfile)
    requires Similar(a, b) && TypesFromGroup(v, a) && TypesFromGroup(v, b)
    ensures TypesFromGroup(v, Joined(a, b))
  {
    JoinedGroup(a, b);
    var n, o := Keeper(a, b), Absorbed(a, b);
    forall t | Token(Joined(a, b).apnTypes, t)
      ensures TypeIn(v, GroupOf(a), t)
    {
      TokensOfConcat(n.apnTypes, o.apnTypes, t);
    }
  }

  lemma JoinedOrigin(v: seq<PdpProfile>, a: PdpProfile, b: PdpProfile)
    requires Similar(a, b) && HasOrigin(v, Keeper(a, b))
    ensures HasOrigin(v, Joined(a, b))
  {
    var n, o := Keeper(a, b), Absorbed(a, b);
    if HasDefault(b) {
      SimilarSwap(a, b);
    }
    CombineCovers(n, o);
    var k :| 0 <= k < |v| && SameCredentials(n, v[k]) && Covers(n, v[k]);
    CoversTrans(Joined(a, b), n, v[k]);
    assert SameCredentials(Joined(a, b), v[k]);
  }

  // ---- The pass ----

  ghost predicate TypesKept(v: seq<PdpProfile>, s: Pass, i: nat) {
    && (forall p | i <= p < |s.v| :: TypesFromGroup(v, s.v[p]))
    && (forall q | 0 <= q < |s.kept| :: TypesFromGroup(v, s.kept[q]))
  }

  ghost predicate OriginsKept(v: seq<PdpProfile>, s: Pass, i: nat) {
    && Clean(s, i)
    && (forall p | i <= p < |s.v| && s.v[p].profileId != CONSUMED :: HasOrigin(v, s.v[p]))
    && (forall q | 0 <= q < |s.kept| :: HasOrigin(v, s.kept[q]))
  }

  lemma StepTypes(v: seq<PdpProfile>, s: Pass, i: nat, j: nat)
    requires i < j < |s.v| && TypesKept(v, s, i)
    ensures TypesKept(v, MergeAt(s, i, j), i)
  {
    if Similar(s.v[i], s.v[j]) {
      MergedIs(s, i, j);
      JoinedTypes(v, s.v[i], s.v[j]);
      var r := MergeAt(s, i, j);
      assert TypesFromGroup(v, s.v[i]) && TypesFromGroup(v, s.v[j]);
      assert TypesFromGroup(v, r.v[j]);
    }
  }

  lemma StepOrigins(v: seq<PdpProfile>, s: Pass, i: nat, j: nat)
    requires i < j < |s.v| && OriginsKept(v, s, i) && s.v[i].profileId != CONSUMED
    ensures OriginsKept(v, MergeAt(s, i, j), i) && MergeAt(s, i, j).v[i].profileId != CONSUMED
  {
    MergeAtClean(s, i, j);
    if Similar(s.v[i], s.v[j]) {
      MergedIs(s, i, j);
      JoinedOrigin(v, s.v[i], s.v[j]);
    }
  }

  lemma {:induction false} RowOrigins(v: seq<PdpProfile>, s: Pass, i: nat, j: nat)
    requires i < j <= |s.v| && OriginsKept(v, s, i) && TypesKept(v, s, i) && s.v[i].profileId != CONSUMED
    ensures var r := MergeRow(s, i, j);
            OriginsKept(v, r, i) && TypesKept(v, r, i) && r.v[i].profileId != CONSUMED
    decreases |s.v| - j
  {
    if j < |s.v| {
      StepTypes(v, s, i, j);
      StepOrigins(v, s, i, j);
      RowOrigins(v, MergeAt(s, i, j), i, j + 1);
    }
  }

  lemma NextRowOrigins(v: seq<PdpProfile>, s: Pass, i: nat) returns (r: Pass)
    requires i < |s.v| && OriginsKept(v, s, i) && TypesKept(v, s, i)
    ensures OriginsKept(v, r, i + 1) && TypesKept(v, r, i + 1) && |r.v| == |s.v|
    ensures MergeRows(s, i) == MergeRows(r, i + 1)
  {
    if s.v[i].profileId == CONSUMED {
      r := s;
    } else {
      RowOrigins(v, s, i, i + 1);
      KeepClean(MergeRow(s, i, i + 1), i);
      r := Keep(MergeRow(s, i, i + 1), i);
    }
  }

  lemma {:induction false} RowsOrigins(v: seq<PdpProfile>, s: Pass, i: nat)
    requires i <= |s.v| && OriginsKept(v, s, i) && TypesKept(v, s, i)
    ensures OriginsKept(v, MergeRows(s, i), |s.v|) && TypesKept(v, MergeRows(s, i), |s.v|)
    decreases |s.v| - i
  {
    if i < |s.v| {
      var r := NextRowOrigins(v, s, i);
      RowsOrigins(v, r, i + 1);
    }
  }

  lemma StartOrigins(v: seq<PdpProfile>, prefer: int)
    requires ValidIds(v)
    ensures OriginsKept(v, Pass(v, prefer, []), 0) && TypesKept(v, Pass(v, prefer, []), 0)
  {
    forall k | 0 <= k < |v|
      ensures HasOrigin(v, v[k]) && TypesFromGroup(v, v[k])
    {
      assert SameCredentials(v[k], v[k]) && Covers(v[k], v[k]);
    }
  }

  /** Every kept profile has the id and the credentials of one input profile, which it covers,
      and all its types come from profiles of its APN. */
  lemma KeptOrigins(v: seq<PdpProfile>, prefer: int, q: nat)
    requires ValidIds(v) && q < |MergeAll(v, prefer).kept|
    ensures HasOrigin(v, MergeAll(v, prefer).kept[q]) && TypesFromGroup(v, MergeAll(v, prefer).kept[q])
  {
    StartOrigins(v, prefer);
    RowsOrigins(v, Pass(v, prefer, []), 0);
  }

  // ---- The items ----

  /** Every string of the item and its terminator fit a field of 256 characters. */
  predicate WithinFields(item: ApnItem) {
    && |item.types| < 256 && |item.numeric| < 256 && |item.protocol| < 256 && |item.roamingProtocol| < 256
    && |item.apn| < 256 && |item.apnName| < 256 && |item.user| < 256 && |item.password| < 256
    && |item.homeUrl| < 256 && |item.proxyIpAddress| < 256 && |item.mmsIpAddress| < 256
  }

  lemma FitsExactly(p: PdpProfile)
    ensures AllFit(p) <==> WithinFields(ItemOf(p))
  {
  }

  /** The item stands for the profile: same id, APN and credentials, protocols at least as
      wide, and its proxy, home and mms values. */
  ghost predicate StandsFor(item: ApnItem, o: PdpProfile) {
    && item.profileId == o.profileId && item.apn == o.apn && item.apnName == o.profileName
    && item.numeric == o.mcc + o.mnc
    && item.authType == o.authType && item.user == o.authUser && item.password == o.authPwd
    && item.isRoamingApn == o.isRoamingApn && item.isEdited == o.edited
    && Wider(item.protocol, o.pdpProtocol) && Wider(item.roamingProtocol, o.roamPdpProtocol)
    && Retains(item.proxyIpAddress, o.proxyIpAddress) && Retains(item.homeUrl, o.homeUrl)
    && Retains(item.mmsIpAddress, o.mmsIpAddress)
    && forall t | t != "" && CanDeal(o.apnTypes, t) :: ServesType(item, t)
  }

  lemma ItemStandsFor(x: PdpProfile, o: PdpProfile, prefer: int)
    requires SameCredentials(x, o) && Covers(x, o)
    ensures StandsFor(ItemOf(Typed(x, prefer)), o)
  {
    var item := ItemOf(Typed(x, prefer));
    forall t | t != "" && CanDeal(o.apnTypes, t)
      ensures ServesType(item, t)
    {
      CoverServes(x, o, t);
      assert CanDeal(Typed(x, prefer).apnTypes, t);
    }
  }

  lemma ListedIsAccepted(items: seq<ApnItem>, prefer: int, item: ApnItem)
    ensures item in PreferredFirst(items, prefer) <==> item in items
  {
    OthersKeepOrder(items, prefer);
    assert item in multiset(items) <==> item in multiset(PreferredFirst(items, prefer));
  }

  /** Every listed item stands for the input profile with its id and stays within the fields. */
  lemma ListedItems(v: seq<PdpProfile>, prefer: int, item: ApnItem) returns (k: nat)
    requires ValidIds(v) && item in Catalogue(v, prefer)
    ensures k < |v| && StandsFor(item, v[k]) && WithinFields(item)
  {
    var s := MergeAll(v, prefer);
    ListedIsAccepted(Accepted(s.kept, s.prefer), s.prefer, item);
    AcceptedFrom(s.kept, s.prefer, item);
    var q :| 0 <= q < |s.kept| && AllFit(Typed(s.kept[q], s.prefer)) && item == ItemOf(Typed(s.kept[q], s.prefer));
    KeptOrigins(v, prefer, q);
    FitsExactly(Typed(s.kept[q], s.prefer));
    var n :| 0 <= n < |v| && SameCredentials(s.kept[q], v[n]) && Covers(s.kept[q], v[n]);
    ItemStandsFor(s.kept[q], v[n], s.prefer);
    k := n;
  }

  /** A kept profile is listed exactly if its item would stay within the fields. */
  lemma ListedExactly(v: seq<PdpProfile>, prefer: int, q: nat)
    requires q < |MergeAll(v, prefer).kept|
    ensures var s := MergeAll(v, prefer);
            var item := ItemOf(Typed(s.kept[q], s.prefer));
            item in Catalogue(v, prefer) <==> WithinFields(item)
  {
    var s := MergeAll(v, prefer);
    var item := ItemOf(Typed(s.kept[q], s.prefer));
    ListedIsAccepted(Accepted(s.kept, s.prefer), s.prefer, item);
    FitsExactly(Typed(s.kept[q], s.prefer));
    AcceptedIds(s.kept, s.prefer, q);
    if item in Accepted(s.kept, s.prefer) {
      AcceptedFrom(s.kept, s.prefer, item);
      var p :| 0 <= p < |s.kept| && AllFit(Typed(s.kept[p], s.prefer)) && item == ItemOf(Typed(s.kept[p], s.prefer));
      FitsExactly(Typed(s.kept[p], s.prefer));
    }
  }

  /** A kept profile without types becomes a default item if it is the preferred one; any other
      keeps its types. */
  lemma UntypedServesDefault(v: seq<PdpProfile>, prefer: int, q: nat)
    requires q < |MergeAll(v, prefer).kept|
    ensures var s := MergeAll(v, prefer);
            var x := s.kept[q];
            var item := ItemOf(Typed(x, s.prefer));
            if x.apnTypes == "" && x.profileId == s.prefer
            then item.apnTypes == ["default"] && ServesType(item, "default")
            else item.types == x.apnTypes && item.apnTypes == Split(x.apnTypes, ",")
  {
    DefaultAlone();
    var item := ItemOf(Typed(MergeAll(v, prefer).kept[q], MergeAll(v, prefer).prefer));
    if item.apnTypes == ["default"] {
      assert Serves(item.apnTypes[0], "default");
    }
  }

  lemma DefaultAlone()
    ensures Split("default", ",") == ["default"] && Serves("default", "default")
  {
    var d := "default";
    forall p: nat | p <= |d|
      ensures !OccursAt(d, ",", p)
    {
      CommaAt(d, p);
    }
    FindComma(d, 0);
    LastPiece(d, ",", 0);
    assert d[0..] == d;
    ServesExactly("default", "default");
  }
}
