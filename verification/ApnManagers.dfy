/** The APN manager as the object it is: an in-place merge over the profile array, the
    preferred id it updates on the way, and the item list it builds. */
module ApnManagers {
  import opened Options
  import opened TypeList
  import opened ProfileMerge
  import opened ApnSelection

  class ApnManager {
    var preferId: int
    var allApnItem: seq<ApnItem>

    constructor (prefer: int)
      ensures preferId == prefer && allApnItem == []
    {
      preferId, allApnItem := prefer, [];
    }

    method MergePdpProfile(a: array<PdpProfile>, i: nat, j: nat)
      requires i < j < a.Length && Similar(a[i], a[j])
      modifies `preferId, a
      ensures a[i] == Combine(Keeper(old(a[i]), old(a[j])), Absorbed(old(a[i]), old(a[j])))
      ensures a[j] == Absorbed(old(a[i]), old(a[j]))
      ensures preferId == if old(preferId) == a[j].profileId then a[i].profileId else old(preferId)
      ensures forall k | 0 <= k < a.Length && k != i && k != j :: a[k] == old(a[k])
    {
      if HasDefault(a[j]) {
        a[i], a[j] := a[j], a[i];
      }
      var merged := FillFrom(a[i], a[j]);
      a[i] := merged;
      if preferId == a[j].profileId {
        preferId := a[i].profileId;
      }
    }

    /** The fields that the absorbing profile takes over. */
    method FillFrom(n: PdpProfile, o: PdpProfile) returns (m: PdpProfile)
      ensures m == Combine(n, o)
    {
      m := n.(apnTypes := n.apnTypes + "," + o.apnTypes);
      m := m.(pdpProtocol := if n.pdpProtocol == IPV4V6 then n.pdpProtocol else o.pdpProtocol);
      m := m.(roamPdpProtocol := if n.roamPdpProtocol == IPV4V6 then n.roamPdpProtocol else o.roamPdpProtocol);
      m := m.(homeUrl := if n.homeUrl == "" then o.homeUrl else n.homeUrl);
      m := m.(mmsIpAddress := if n.mmsIpAddress == "" then o.mmsIpAddress else n.mmsIpAddress);
      m := m.(proxyIpAddress := if n.proxyIpAddress == "" then o.proxyIpAddress else n.proxyIpAddress);
    }

    /** One row: entry i absorbs every later similar entry, consumed ones included. */
    method AbsorbSimilar(a: array<PdpProfile>, i: nat)
      requires i < a.Length
      modifies `preferId, a
      ensures var s := MergeRow(Pass(old(a[..]), old(preferId), []), i, i + 1);
              a[..] == s.v && preferId == s.prefer
    {
      ghost var s := Pass(a[..], preferId, []);
      var j := i + 1;
      while j < a.Length
        invariant i < j <= a.Length
        invariant |s.v| == a.Length
        invariant MergeRow(Pass(a[..], preferId, []), i, j) == MergeRow(s, i, i + 1)
      {
        ghost var p := Pass(a[..], preferId, []);
        if Similar(a[i], a[j]) {
          MergePdpProfile(a, i, j);
          a[j] := a[j].(profileId := CONSUMED);
        }
        assert a[..] == MergeAt(p, i, j).v;
        j := j + 1;
      }
    }

    method TryMergeSimilarPdpProfile(a: array<PdpProfile>) returns (newApnVec: seq<PdpProfile>)
      modifies `preferId, a
      ensures var s := MergeAll(old(a[..]), old(preferId));
              newApnVec == s.kept && preferId == s.prefer
    {
      newApnVec := [];
      ghost var s := Pass(a[..], preferId, []);
      var i := 0;
      while i < a.Length
        invariant i <= a.Length
        invariant |s.v| == a.Length
        invariant MergeRows(Pass(a[..], preferId, newApnVec), i) == MergeRows(s, 0)
      {
        if a[i].profileId != CONSUMED {
          ghost var p := Pass(a[..], preferId, newApnVec);
          KeptIsIdle(p, i, i + 1);
          AbsorbSimilar(a, i);
          assert Pass(a[..], preferId, newApnVec) == MergeRow(p, i, i + 1);
          newApnVec := newApnVec + [a[i]];
        }
        i := i + 1;
      }
    }

    /** Merge, make items, and put the preferred one in front. */
    method MakeSpecificApnItem(a: array<PdpProfile>) returns (count: nat)
      modifies this, a
      ensures allApnItem == Catalogue(old(a[..]), old(preferId)) && count == |allApnItem|
      ensures preferId == MergeAll(old(a[..]), old(preferId)).prefer
    {
      allApnItem := [];
      var apnVec := TryMergeSimilarPdpProfile(a);
      count := MakeItems(apnVec);
      PutPreferredFirst();
    }

    method PutPreferredFirst()
      modifies `allApnItem
      ensures allApnItem == PreferredFirst(old(allApnItem), preferId) && |allApnItem| == |old(allApnItem)|
    {
      var k := FindPreferred();
      if k < |allApnItem| {
        var item := allApnItem[k];
        allApnItem := allApnItem[..k] + allApnItem[k + 1..];
        allApnItem := [item] + allApnItem;
      }
    }

    method FindPreferred() returns (k: nat)
      ensures k == IndexOf(allApnItem, preferId, 0)
    {
      k := 0;
      while k < |allApnItem| && allApnItem[k].profileId != preferId
        invariant k <= |allApnItem|
        invariant IndexOf(allApnItem, preferId, k) == IndexOf(allApnItem, preferId, 0)
      {
        k := k + 1;
      }
    }

    method MakeItems(apnVec: seq<PdpProfile>) returns (count: nat)
      requires allApnItem == []
      modifies `allApnItem
      ensures allApnItem == Accepted(apnVec, preferId) && count == |allApnItem|
    {
      count := 0;
      var k := 0;
      while k < |apnVec|
        invariant k <= |apnVec|
        invariant allApnItem == Accepted(apnVec[..k], preferId) && count == |allApnItem|
      {
        assert apnVec[..k + 1][..k] == apnVec[..k];
        var apnData := apnVec[k];
        if apnData.profileId == preferId && apnData.apnTypes == "" {
          apnData := apnData.(apnTypes := ROLE_DEFAULT);
        }
        var item := MakeApn(apnData);
        if item.Some? {
          allApnItem := allApnItem + [item.value];
          count := count + 1;
        }
        k := k + 1;
      }
      assert apnVec[..k] == apnVec;
    }

    method GetRilAttachApn() returns (attach: Option<ApnItem>)
      ensures attach == AttachApn(allApnItem, preferId)
    {
      if allApnItem == [] {
        return None;
      }
      if preferId != INVALID_PROFILE_ID {
        return Some(allApnItem[0]);
      }
      var fallback := |allApnItem|;
      var k := 0;
      while k < |allApnItem|
        invariant k <= |allApnItem| && fallback <= |allApnItem|
        invariant FirstServing(allApnItem, ROLE_IA, k) == FirstServing(allApnItem, ROLE_IA, 0)
        invariant if fallback < |allApnItem| then fallback == FirstServing(allApnItem, ROLE_DEFAULT, 0)
                  else FirstServing(allApnItem, ROLE_DEFAULT, k) == FirstServing(allApnItem, ROLE_DEFAULT, 0)
      {
        var ia := CanDealWithType(allApnItem[k].apnTypes, ROLE_IA);
        if ia {
          return Some(allApnItem[k]);
        }
        if fallback == |allApnItem| {
          var def := CanDealWithType(allApnItem[k].apnTypes, ROLE_DEFAULT);
          if def {
            fallback := k;
          }
        }
        k := k + 1;
      }
      return Some(allApnItem[if fallback < |allApnItem| then fallback else 0]);
    }
  }
}
