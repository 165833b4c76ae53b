/** From merged profiles to the item list: length limits, the preferred item in front, and
    the item used for the initial attach. */
module ApnSelection {
  import opened Options
  import opened TypeList
  import opened ProfileMerge
  import opened MergeTheorems

  const FIELD_SIZE: nat := 256
  const INVALID_PROFILE_ID: int := -1

  datatype ApnItem = ApnItem(
    profileId: int,
    apnTypes: seq<string>,
    types: string,
    numeric: string,
    protocol: string,
    roamingProtocol: string,
    authType: int,
    apn: string,
    apnName: string,
    user: string,
    password: string,
    isRoamingApn: bool,
    homeUrl: string,
    proxyIpAddress: string,
    mmsIpAddress: string,
    isEdited: bool)

  /** The string and its terminator fit the field. */
  predicate Fits(s: string) {
    |s| < FIELD_SIZE
  }

  predicate AllFit(p: PdpProfile) {
    && Fits(p.apnTypes) && Fits(p.mcc + p.mnc) && Fits(p.pdpProtocol) && Fits(p.roamPdpProtocol) && Fits(p.apn)
    && Fits(p.profileName) && Fits(p.authUser) && Fits(p.authPwd)
    && Fits(p.homeUrl) && Fits(p.proxyIpAddress) && Fits(p.mmsIpAddress)
  }

  function ItemOf(p: PdpProfile): ApnItem {
    ApnItem(p.profileId, Split(p.apnTypes, ","), p.apnTypes, p.mcc + p.mnc, p.pdpProtocol, p.roamPdpProtocol,
            p.authType, p.apn, p.profileName, p.authUser, p.authPwd, p.isRoamingApn,
            p.homeUrl, p.proxyIpAddress, p.mmsIpAddress, p.edited)
  }

  function MakeApn(p: PdpProfile): Option<ApnItem> {
    if AllFit(p) then Some(ItemOf(p)) else None
  }

  predicate ServesType(item: ApnItem, t: string) {
    exists i :: 0 <= i < |item.apnTypes| && Serves(item.apnTypes[i], t)
  }

  /** A preferred profile without types becomes a default one. */
  function Typed(p: PdpProfile, prefer: int): PdpProfile {
    if p.profileId == prefer && p.apnTypes == "" then p.(apnTypes := ROLE_DEFAULT) else p
  }

  /** Items of the profiles that fit, in order. */
  function Accepted(v: seq<PdpProfile>, prefer: int): seq<ApnItem> {
    if v == [] then []
    else Accepted(v[..|v| - 1], prefer) +
         (var item := MakeApn(Typed(v[|v| - 1], prefer)); if item.Some? then [item.value] else [])
  }

  /** First position from k on with the id, or the length. */
  function IndexOf(items: seq<ApnItem>, id: int, k: nat): (r: nat)
    requires k <= |items|
    ensures k <= r <= |items|
    ensures r < |items| ==> items[r].profileId == id
    ensures forall j | k <= j < r :: items[j].profileId != id
    decreases |items| - k
  {
    if k == |items| || items[k].profileId == id then k else IndexOf(items, id, k + 1)
  }

  function PreferredFirst(items: seq<ApnItem>, prefer: int): seq<ApnItem> {
    var k := IndexOf(items, prefer, 0);
    if k < |items| then [items[k]] + (items[..k] + items[k + 1..]) else items
  }

  function Catalogue(v: seq<PdpProfile>, prefer: int): seq<ApnItem> {
    var s := MergeAll(v, prefer);
    PreferredFirst(Accepted(s.kept, s.prefer), s.prefer)
  }

  /** First item from k on that serves the type, or the length. */
  function FirstServing(items: seq<ApnItem>, t: string, k: nat): (r: nat)
    requires k <= |items|
    ensures k <= r <= |items|
    decreases |items| - k
  {
    if k == |items| || ServesType(items[k], t) then k else FirstServing(items, t, k + 1)
  }

  /** The preferred item if there is one, else the first for initial attach, else the first
      default one, else the first. */
  function AttachApn(items: seq<ApnItem>, prefer: int): Option<ApnItem> {
    if items == [] then None
    else if prefer != INVALID_PROFILE_ID then Some(items[0])
    else
      var ia := FirstServing(items, ROLE_IA, 0);
      var def := FirstServing(items, ROLE_DEFAULT, 0);
      if ia < |items| then Some(items[ia])
      else if def < |items| then Some(items[def])
      else Some(items[0])
  }

  // ---- Item lists ----

  lemma {:induction false} AcceptedIds(v: seq<PdpProfile>, prefer: int, q: nat)
    requires q < |v|
    ensures MakeApn(Typed(v[q], prefer)).Some? ==> ItemOf(Typed(v[q], prefer)) in Accepted(v, prefer)
    decreases |v|
  {
    if q < |v| - 1 {
      AcceptedIds(v[..|v| - 1], prefer, q);
    }
  }

  lemma {:induction false} AcceptedFrom(v: seq<PdpProfile>, prefer: int, item: ApnItem)
    requires item in Accepted(v, prefer)
    ensures exists q :: 0 <= q < |v| && AllFit(Typed(v[q], prefer)) && item == ItemOf(Typed(v[q], prefer))
    decreases |v|
  {
    var last := |v| - 1;
    if item in Accepted(v[..last], prefer) {
      AcceptedFrom(v[..last], prefer, item);
      var q :| 0 <= q < last && AllFit(Typed(v[..last][q], prefer)) && item == ItemOf(Typed(v[..last][q], prefer));
      assert v[q] == v[..last][q];
    } else {
      assert AllFit(Typed(v[last], prefer)) && item == ItemOf(Typed(v[last], prefer));
    }
  }

  /** With distinct ids the preferred id is found exactly when its profile fits. */
  lemma PreferredIsListed(v: seq<PdpProfile>, prefer: int, q: nat)
    requires DistinctIds(v) && q < |v| && v[q].profileId == prefer
    ensures var items := Accepted(v, prefer);
            var k := IndexOf(items, prefer, 0);
            && (k < |items| <==> AllFit(Typed(v[q], prefer)))
            && (k < |items| ==> items[k] == ItemOf(Typed(v[q], prefer)))
  {
    var items := Accepted(v, prefer);
    var k := IndexOf(items, prefer, 0);
    AcceptedIds(v, prefer, q);
    if k < |items| {
      ListedIsPreferred(v, prefer, q, items[k]);
    }
  }

  lemma ListedIsPreferred(v: seq<PdpProfile>, prefer: int, q: nat, item: ApnItem)
    requires DistinctIds(v) && q < |v| && v[q].profileId == prefer
    requires item in Accepted(v, prefer) && item.profileId == prefer
    ensures AllFit(Typed(v[q], prefer)) && item == ItemOf(Typed(v[q], prefer))
  {
    AcceptedFrom(v, prefer, item);
    var p :| 0 <= p < |v| && AllFit(Typed(v[p], prefer)) && item == ItemOf(Typed(v[p], prefer));
    assert v[p].profileId == prefer;
  }

  /** Moving an item to the front keeps all others in order. */
  lemma OthersKeepOrder(items: seq<ApnItem>, prefer: int)
    ensures var out := PreferredFirst(items, prefer);
            var k := IndexOf(items, prefer, 0);
            && multiset(out) == multiset(items)
            && (k < |items| ==> out[0] == items[k] && out[1..] == items[..k] + items[k + 1..])
            && (k == |items| ==> out == items)
  {
    var k := IndexOf(items, prefer, 0);
    if k < |items| {
      FrontMove(items, k);
    }
  }

  lemma FrontMove<T>(items: seq<T>, k: nat)
    requires k < |items|
    ensures var out := [items[k]] + (items[..k] + items[k + 1..]);
            multiset(out) == multiset(items) && out[0] == items[k] && out[1..] == items[..k] + items[k + 1..]
  {
    var a, x, b := items[..k], items[k], items[k + 1..];
    MovedFront(a, x, b);
    SplitAround(items, k);
  }

  lemma SplitAround<T>(items: seq<T>, k: nat)
    requires k < |items|
    ensures items == items[..k] + [items[k]] + items[k + 1..]
  {
  }

  lemma MovedFront<T>(a: seq<T>, x: T, b: seq<T>)
    ensures multiset([x] + (a + b)) == multiset(a + [x] + b)
    ensures ([x] + (a + b))[1..] == a + b && ([x] + (a + b))[0] == x
  {
    assert multiset([x] + (a + b)) == multiset{x} + multiset(a) + multiset(b);
    assert multiset(a + [x] + b) == multiset(a) + multiset{x} + multiset(b);
  }

  // ---- Preference, end to end ----

  /** After merging, the preferred id names a profile that covers the user's choice. If that
      profile fits the item fields it leads the list, serves every type the choice served,
      and is the one used for the initial attach; if not, the attach item is another one. */
  lemma PreferenceEndToEnd(v: seq<PdpProfile>, k: nat) returns (q: nat)
    requires ValidIds(v) && DistinctIds(v) && k < |v|
    ensures var s := MergeAll(v, v[k].profileId);
            var items := Catalogue(v, v[k].profileId);
            && q < |s.kept| && s.kept[q].profileId == s.prefer && Covers(s.kept[q], v[k])
            && var best := Typed(s.kept[q], s.prefer);
               && (AllFit(best) <==> AttachApn(items, s.prefer) == Some(ItemOf(best)))
               && (AllFit(best) ==> items != [] && items[0] == ItemOf(best))
               && (forall t | t != "" && CanDeal(v[k].apnTypes, t) :: ServesType(ItemOf(best), t))
  {
    PreferenceSurvives(v, k);
    var s := MergeAll(v, v[k].profileId);
    q :| 0 <= q < |s.kept| && s.kept[q].profileId == s.prefer && Covers(s.kept[q], v[k]);
    var best := Typed(s.kept[q], s.prefer);
    var items := Accepted(s.kept, s.prefer);
    PreferredIsListed(s.kept, s.prefer, q);
    OthersKeepOrder(items, s.prefer);
    forall t | t != "" && CanDeal(v[k].apnTypes, t)
      ensures ServesType(ItemOf(best), t)
    {
      CoverServes(s.kept[q], v[k], t);
      assert CanDeal(best.apnTypes, t);
    }
    if !AllFit(best) && items != [] {
      assert items[0] in items;
      AcceptedFrom(s.kept, s.prefer, items[0]);
    }
  }

  /** Merging two profiles that fit gives one that fits exactly when both type lists and
      the comma stay within the field. */
  lemma MergedFits(n: PdpProfile, o: PdpProfile)
    requires AllFit(n) && AllFit(o)
    ensures AllFit(Combine(n, o)) <==> |n.apnTypes| + 1 + |o.apnTypes| < FIELD_SIZE
  {
  }

  /** Two profiles that fit on their own, with type lists of 200 characters. */
  function Long(id: int): PdpProfile {
    Sample(id, seq(200, _ => 'a'), IPV4)
  }

  lemma LongHasNoDefault(id: int)
    ensures !HasDefault(Long(id))
  {
    assert ROLE_DEFAULT[0] == 'd';
    var types := Long(id).apnTypes;
    forall p: nat | p <= |types|
      ensures !OccursAt(types, ROLE_DEFAULT, p)
    {
      if p + |ROLE_DEFAULT| <= |types| {
        assert types[p..p + |ROLE_DEFAULT|][0] == 'a';
      }
    }
  }

  lemma LongMerge()
    ensures MergeAll([Long(1), Long(2)], INVALID_PROFILE_ID).kept == [Combine(Long(1), Long(2))]
  {
    LongHasNoDefault(1);
    LongHasNoDefault(2);
    var s := Pass([Long(1), Long(2)], INVALID_PROFILE_ID, []);
    assert Similar(s.v[0], s.v[1]);
    var r := MergeAt(s, 0, 1);
    assert MergeRow(s, 0, 1) == MergeRow(r, 0, 2) == r;
    var k := Keep(r, 0);
    assert MergeRows(k, 1) == MergeRows(k, 2) == k;
  }

  /** Merging can lose both: each of the two would be listed alone, together neither is. */
  lemma MergeCanRefuseBoth()
    ensures AllFit(Long(1)) && AllFit(Long(2)) && Similar(Long(1), Long(2))
    ensures Catalogue([Long(1), Long(2)], INVALID_PROFILE_ID) == []
  {
    LongHasNoDefault(1);
    LongMerge();
    var m := Combine(Long(1), Long(2));
    MergedFits(Long(1), Long(2));
    assert !AllFit(m) && m.apnTypes != "";
    var s := MergeAll([Long(1), Long(2)], INVALID_PROFILE_ID);
    assert Typed(m, s.prefer) == m;
    assert s.kept[..0] == [];
    assert Accepted(s.kept, s.prefer) == [];
  }

  ghost predicate AnyServes(items: seq<ApnItem>, t: string) {
    exists j :: 0 <= j < |items| && ServesType(items[j], t)
  }

  ghost predicate FirstToServe(items: seq<ApnItem>, t: string, k: nat) {
    k < |items| && ServesType(items[k], t) && forall j | 0 <= j < k :: !ServesType(items[j], t)
  }

  /** Without a preference the attach item is the first for initial attach; failing that the
      first default one; failing that the first of all. */
  lemma AttachWithoutPreference(items: seq<ApnItem>) returns (k: nat)
    requires items != []
    ensures k < |items| && AttachApn(items, INVALID_PROFILE_ID) == Some(items[k])
    ensures if AnyServes(items, ROLE_IA) then FirstToServe(items, ROLE_IA, k)
            else if AnyServes(items, ROLE_DEFAULT) then FirstToServe(items, ROLE_DEFAULT, k)
            else k == 0
  {
    SearchFinds(items, ROLE_IA, 0);
    SearchFinds(items, ROLE_DEFAULT, 0);
    var ia := FirstServing(items, ROLE_IA, 0);
    var def := FirstServing(items, ROLE_DEFAULT, 0);
    k := if ia < |items| then ia else if def < |items| then def else 0;
  }

  lemma {:induction false} SearchFinds(items: seq<ApnItem>, t: string, from: nat)
    requires from <= |items|
    ensures var r := FirstServing(items, t, from);
            && (r < |items| ==> ServesType(items[r], t))
            && forall j | from <= j < r :: !ServesType(items[j], t)
    decreases |items| - from
  {
    if from < |items| && !ServesType(items[from], t) {
      SearchFinds(items, t, from + 1);
    }
  }
}
