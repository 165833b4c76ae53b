/** Merging of similar APN profiles: a quadratic pass that folds every later similar entry
    into the current one, marks it consumed with id -1, and may meet consumed entries again. */
module ProfileMerge {
  import opened TypeList

  const CONSUMED: int := -1
  const IPV4 := "IP"
  const IPV6 := "IPV6"
  const IPV4V6 := "IPV4V6"

  datatype PdpProfile = PdpProfile(
    profileId: int,
    profileName: string,
    mcc: string,
    mnc: string,
    apn: string,
    authType: int,
    authUser: string,
    authPwd: string,
    apnTypes: string,
    isRoamingApn: bool,
    homeUrl: string,
    proxyIpAddress: string,
    mmsIpAddress: string,
    pdpProtocol: string,
    roamPdpProtocol: string,
    mvnoType: string,
    mvnoMatchData: string,
    edited: bool)

  predicate SimilarProperty(a: string, b: string) {
    a == b || a == "" || b == ""
  }

  predicate SimilarProtocol(a: string, b: string) {
    || a == b
    || (a == IPV4V6 && (b == IPV4 || b == IPV6))
    || ((a == IPV4 || a == IPV6) && b == IPV4V6)
  }

  predicate HasDefault(p: PdpProfile) {
    Carries(p.apnTypes)
  }

  predicate Similar(n: PdpProfile, o: PdpProfile) {
    && !(HasDefault(n) && HasDefault(o))
    && n.apn == o.apn
    && SimilarProperty(n.proxyIpAddress, o.proxyIpAddress)
    && SimilarProtocol(n.pdpProtocol, o.pdpProtocol)
    && SimilarProtocol(n.roamPdpProtocol, o.roamPdpProtocol)
    && n.mvnoType == o.mvnoType
    && n.mvnoMatchData == o.mvnoMatchData
    && SimilarProperty(n.homeUrl, o.homeUrl)
    && SimilarProperty(n.mmsIpAddress, o.mmsIpAddress)
  }

  function Filled(a: string, b: string): string {
    if a == "" then b else a
  }

  function Widened(a: string, b: string): string {
    if a == IPV4V6 then a else b
  }

  /** The profile that absorbs and the one that is absorbed: one with "default" absorbs. */
  function Keeper(n: PdpProfile, o: PdpProfile): PdpProfile {
    if HasDefault(o) then o else n
  }

  function Absorbed(n: PdpProfile, o: PdpProfile): PdpProfile {
    if HasDefault(o) then n else o
  }

  function Combine(n: PdpProfile, o: PdpProfile): PdpProfile {
    n.(apnTypes := n.apnTypes + "," + o.apnTypes,
       pdpProtocol := Widened(n.pdpProtocol, o.pdpProtocol),
       roamPdpProtocol := Widened(n.roamPdpProtocol, o.roamPdpProtocol),
       homeUrl := Filled(n.homeUrl, o.homeUrl),
       mmsIpAddress := Filled(n.mmsIpAddress, o.mmsIpAddress),
       proxyIpAddress := Filled(n.proxyIpAddress, o.proxyIpAddress))
  }

  /** The pass so far: the vector, the preferred id and the entries already kept. */
  datatype Pass = Pass(v: seq<PdpProfile>, prefer: int, kept: seq<PdpProfile>)

  function MergeAt(s: Pass, i: nat, j: nat): (r: Pass)
    requires i < j < |s.v|
    ensures |r.v| == |s.v| && r.kept == s.kept
  {
    if Similar(s.v[i], s.v[j]) then
      var n := Keeper(s.v[i], s.v[j]);
      var o := Absorbed(s.v[i], s.v[j]);
      Pass(s.v[i := Combine(n, o)][j := o.(profileId := CONSUMED)],
           if s.prefer == o.profileId then n.profileId else s.prefer,
           s.kept)
    else s
  }

  function MergeRow(s: Pass, i: nat, j: nat): (r: Pass)
    requires i < j <= |s.v|
    ensures |r.v| == |s.v| && r.kept == s.kept
    decreases |s.v| - j
  {
    if j == |s.v| then s else MergeRow(MergeAt(s, i, j), i, j + 1)
  }

  function Keep(s: Pass, i: nat): Pass
    requires i < |s.v|
  {
    s.(kept := s.kept + [s.v[i]])
  }

  function MergeRows(s: Pass, i: nat): Pass
    requires i <= |s.v|
    decreases |s.v| - i
  {
    if i == |s.v| then s
    else if s.v[i].profileId == CONSUMED then MergeRows(s, i + 1)
    else MergeRows(Keep(MergeRow(s, i, i + 1), i), i + 1)
  }

  function MergeAll(v: seq<PdpProfile>, prefer: int): Pass {
    MergeRows(Pass(v, prefer, []), 0)
  }

  /** Rows never look at what was kept. */
  lemma {:induction false} KeptIsIdle(s: Pass, i: nat, j: nat)
    requires i < j <= |s.v|
    ensures MergeRow(s, i, j) == MergeRow(s.(kept := []), i, j).(kept := s.kept)
    decreases |s.v| - j
  {
    if j < |s.v| {
      KeptIsIdle(MergeAt(s, i, j), i, j + 1);
    }
  }
}
