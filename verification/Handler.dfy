/** The data handler: a fixed table of APN holders, the machine pool, the inbox of
    reports, the pending retry and establish events and the cid index, with every handler event as a
    function of that state. Conditions read from outside (settings, radio, database)
    are inputs. */
module Handler {
  import opened Options
  import opened ReasonCodes
  import opened ConnectionMachine
  import opened AttemptInvariant
  import AttemptSteps

  const DEFAULT_ID: ApnId := 1
  const MMS_ID: ApnId := 2
  const SUPL_ID: ApnId := 3
  const DUN_ID: ApnId := 4
  const IA_ID: ApnId := 6
  const INTERNAL_DEFAULT_ID: ApnId := 8
  const XCAP_ID: ApnId := 9
  const BIP_ID: ApnId := 10
  const MAX_ROLE_ID: ApnId := 16

  /** Holders in the order in which they are added. */
  const HOLDER_ORDER: seq<ApnId> :=
    [DEFAULT_ID, MMS_ID, INTERNAL_DEFAULT_ID, XCAP_ID, DUN_ID, IA_ID, SUPL_ID, BIP_ID, 11, 12, 13, 14, 15, 16]

  ghost const ROLES: set<ApnId> := set h | h in HOLDER_ORDER

  /** The same holders, higher priority first. */
  const SORTED_ORDER: seq<ApnId> :=
    [IA_ID, MMS_ID, XCAP_ID, DUN_ID, SUPL_ID, BIP_ID, 11, 12, 13, 14, 15, 16, DEFAULT_ID, INTERNAL_DEFAULT_ID]

  function Priority(h: ApnId): int {
    if h == INTERNAL_DEFAULT_ID then 0
    else if h == DEFAULT_ID then 1
    else if h == IA_ID then 3
    else 2
  }

  datatype Holder = Holder(enabled: bool, state: ApnState, machine: Option<nat>)

  datatype System = System(
    holders: map<ApnId, Holder>,
    pool: seq<Machine>,
    inbox: seq<Report>,
    retries: multiset<ApnId>,
    requests: multiset<ApnId>,
    cidIndex: map<int, nat>)

  function Boot(): System {
    System(map h | h in HOLDER_ORDER :: Holder(false, Idle, None), [], [], multiset{}, multiset{}, map[])
  }

  /** What an attempt to connect reads from outside the protocol. */
  datatype Admission = Admission(
    admitted: bool,       // airplane mode, slot, attach, SIM and roaming checks
    matched: bool,        // some APN item serves the type
    apnFound: bool,       // an APN item was selected
    single: bool,         // only one connection is allowed now
    handoverStuck: bool,  // the clean-up after a handover was refused by the modem
    fits: set<nat>)       // pool machines whose APN item serves the type

  const REFUSED := Admission(false, false, false, false, false, {})

  function SetHolder(s: System, h: ApnId, x: Holder): System {
    s.(holders := s.holders[h := x])
  }

  function SetState(s: System, h: ApnId, st: ApnState): System
    requires h in s.holders
  {
    SetHolder(s, h, s.holders[h].(state := st))
  }

  function SetEnabled(s: System, h: ApnId, on: bool): System {
    if h in s.holders then SetHolder(s, h, s.holders[h].(enabled := on)) else s
  }

  /** MSG_ESTABLISH_DATA_CONNECTION is posted for the holder. */
  function Ask(s: System, h: ApnId): System {
    s.(requests := s.requests + multiset{h})
  }

  function NetworkRequested(s: System, h: ApnId, on: bool): System {
    if h in s.holders then Ask(SetEnabled(s, h, on), h) else s
  }

  // ---- Releasing ----

  /** The disconnect goes to the machine's queue and the holder waits for completion. */
  function SendDisconnect(s: System, h: ApnId, i: nat, reason: DisconnectReason): System
    requires h in s.holders && i < |s.pool|
  {
    var m := s.pool[i];
    SetState(s.(pool := s.pool[i := Post(m, Disconnect(h, reason, m.grants))]), h, Releasing)
  }

  predicate HasMachine(s: System, h: ApnId) {
    h in s.holders && s.holders[h].machine.Some? && s.holders[h].machine.value < |s.pool|
  }

  function ClearConnection(s: System, h: ApnId, reason: DisconnectReason): System {
    if !HasMachine(s, h) then s
    else
      var st := s.holders[h].state;
      if st.Idle? || st.Releasing? || st.Retrying? then s
      else SendDisconnect(s, h, s.holders[h].machine.value, reason)
  }

  function ReleaseDataConnection(s: System, h: ApnId): System {
    if !HasMachine(s, h) then s
    else SendDisconnect(s, h, s.holders[h].machine.value, ReasonClear)
  }

  function ClearEach(s: System, hs: seq<ApnId>, reason: DisconnectReason): System
    decreases |hs|
  {
    if hs == [] then s
    else ClearEach(if hs[0] == MMS_ID then s else ClearConnection(s, hs[0], reason), hs[1..], reason)
  }

  function ClearAllConnections(s: System, reason: DisconnectReason, handoverStuck: bool): System {
    if handoverStuck then s else ClearEach(s, HOLDER_ORDER, reason)
  }

  /** Connections whose matched APNs changed are cleared for a retry. */
  function ClearChanged(s: System, hs: seq<ApnId>, changed: set<ApnId>): System
    decreases |hs|
  {
    if hs == [] then s
    else
      var h := hs[0];
      var s' := if h in changed && h in s.holders && !s.holders[h].state.Idle? && !s.holders[h].state.Failed?
                then ClearConnection(s, h, ReasonRetry) else s;
      ClearChanged(s', hs[1..], changed)
  }

  // ---- Overall state ----

  predicate AnyIn(s: System, a: ApnState, b: ApnState) {
    exists h :: h in s.holders && (s.holders[h].state == a || s.holders[h].state == b)
  }

  function OverallState(s: System): ApnState {
    if s.holders == map[] then Idle
    else if AnyIn(s, Connected, Releasing) then Connected
    else if AnyIn(s, Connecting, Retrying) then Connecting
    else if AnyIn(s, Idle, Idle) then Idle
    else Failed
  }

  predicate HasHigherPriority(s: System, h: ApnId) {
    exists g :: g in s.holders && Priority(g) > Priority(h) && s.holders[g].enabled &&
      (s.holders[g].state.Connected? || s.holders[g].state.Connecting? || s.holders[g].state.Releasing?)
  }

  // ---- Allocation ----

  predicate InUse(s: System, i: nat) {
    exists h :: h in s.holders && s.holders[h].machine == Some(i)
  }

  /** First pool machine from i on that is inactive and held by nobody, or the pool size. */
  function FirstIdle(s: System, i: nat): (r: nat)
    requires i <= |s.pool|
    ensures i <= r <= |s.pool|
    ensures r < |s.pool| ==> s.pool[r].phase.Inactive? && !InUse(s, r)
    decreases |s.pool| - i
  {
    if i == |s.pool| then i
    else if s.pool[i].phase.Inactive? && !InUse(s, i) then i
    else FirstIdle(s, i + 1)
  }

  function Allocate(s: System, h: ApnId): System
    requires h in s.holders
  {
    var i := FirstIdle(s, 0);
    var pool := if i < |s.pool| then s.pool[i := AttemptSteps.Grant(s.pool[i], h)]
                else s.pool + [AttemptSteps.Grant(NEW_MACHINE, h)];
    SetHolder(s.(pool := pool), h, s.holders[h].(state := Connecting, machine := Some(i)))
  }

  /** A connection that can serve the type already: an active one at once, else the last
      activating one, else the first disconnecting one. */
  function FindCompatible(pool: seq<Machine>, fits: set<nat>, i: nat, potential: Option<nat>): Option<nat>
    requires i <= |pool|
    decreases |pool| - i
  {
    if i == |pool| then potential
    else if i !in fits then FindCompatible(pool, fits, i + 1, potential)
    else if pool[i].phase.Active? then Some(i)
    else if pool[i].phase.Activating? then FindCompatible(pool, fits, i + 1, Some(i))
    else if pool[i].phase.Disconnecting? && potential.None? then FindCompatible(pool, fits, i + 1, Some(i))
    else FindCompatible(pool, fits, i + 1, potential)
  }

  predicate SharesConnections(h: ApnId) {
    h != DEFAULT_ID && h != INTERNAL_DEFAULT_ID
  }

  function EstablishDataConnection(s: System, h: ApnId, env: Admission): System
    requires h in s.holders
  {
    if !env.apnFound then s
    else
      var c := if SharesConnections(h) then FindCompatible(s.pool, env.fits, 0, None) else None;
      if c.Some? then
        // An active connection is reused and the request is dropped; otherwise it is repeated.
        if c.value < |s.pool| && s.pool[c.value].phase.Active? then SetEnabled(s, h, false) else Ask(s, h)
      else if env.single && HasHigherPriority(s, h) then s
      else if env.single && (OverallState(s).Connecting? || OverallState(s).Connected?) then
        ClearAllConnections(s, ReasonChange, env.handoverStuck)
      else Allocate(s, h)
  }

  /** BIP and DUN connections make room for the default one. */
  function ReleaseShared(s: System, hs: seq<ApnId>): System
    decreases |hs|
  {
    if hs == [] then s
    else
      var h := hs[0];
      var s' := if (h == BIP_ID || h == DUN_ID) && h in s.holders &&
                   (s.holders[h].state.Connected? || s.holders[h].state.Connecting?)
                then ReleaseDataConnection(s, h) else s;
      ReleaseShared(s', hs[1..])
  }

  function AttemptEstablish(s: System, h: ApnId, env: Admission): System {
    if h !in s.holders || !env.admitted then s
    else if s.holders[h].state.Releasing? && s.requests == multiset{} then Ask(s, h)
    else if !s.holders[h].state.Idle? && !s.holders[h].state.Failed? then s
    else
      var s1 := SetState(s, h, Idle);
      if !env.matched then s1
      else
        var s2 := if h == DEFAULT_ID then ReleaseShared(s1, HOLDER_ORDER) else s1;
        if h in s2.holders then EstablishDataConnection(s2, h, env) else s2
  }

  function EnvOf(envs: map<ApnId, Admission>, h: ApnId): Admission {
    if h in envs then envs[h] else REFUSED
  }

  function EstablishEach(s: System, hs: seq<ApnId>, envs: map<ApnId, Admission>): System
    decreases |hs|
  {
    if hs == [] then s
    else
      var h := hs[0];
      var s' := if h in s.holders && s.holders[h].enabled then
                  var s1 := if s.holders[h].state.Failed? || s.holders[h].state.Retrying?
                            then ReleaseDataConnection(s, h) else s;
                  AttemptEstablish(s1, h, EnvOf(envs, h))
                else s;
      EstablishEach(s', hs[1..], envs)
  }

  datatype Bearer = NoBearer | Wifi | OtherBearer

  function ReleaseReason(h: ApnId, single: bool, bearer: Bearer, primarySlot: bool): DisconnectReason {
    var reason := if single then ReasonChange else ReasonClear;
    var byBearer := if bearer.NoBearer? then reason
                    else if h == INTERNAL_DEFAULT_ID || bearer.Wifi? then ReasonHandover
                    else ReasonClear;
    if byBearer.ReasonHandover? && h == DEFAULT_ID && !primarySlot
    then ReasonClear else byBearer
  }

  /** MSG_ESTABLISH_DATA_CONNECTION: connect an enabled holder, release a disabled one. */
  function MsgEstablish(s: System, h: ApnId, env: Admission, cardAllowed: bool, bearer: Bearer, primarySlot: bool): System {
    var t := s.(requests := s.requests - multiset{h});
    if h !in s.holders then t
    else if cardAllowed && s.holders[h].enabled then AttemptEstablish(t, h, env)
    else ClearConnection(t, h, ReleaseReason(h, env.single, bearer, primarySlot))
  }

  // ---- Reports from machines ----

  /** FindApnNameByApnId falls back to the default role for an unknown id. */
  function ReportedHolder(flag: ApnId): ApnId {
    if 0 <= flag <= MAX_ROLE_ID then flag else DEFAULT_ID
  }

  function EstablishComplete(s: System): System
    requires s.inbox != [] && s.inbox[0].Established?
  {
    var h := ReportedHolder(s.inbox[0].flag);
    var s1 := s.(inbox := s.inbox[1..]);
    if h !in s.holders then s1
    else
      var s2 := s1.(retries := if h == DEFAULT_ID then s.retries + multiset{INTERNAL_DEFAULT_ID} else s.retries);
      SetState(s2, h, if s.holders[h].machine.Some? then Connected else Idle)
  }

  /** The holder gives its machine back and the cid is dropped from the index. */
  function TakeBack(s: System): System
    requires s.inbox != [] && s.inbox[0].Disconnected?
  {
    var h := s.inbox[0].flag;
    var s1 := s.(inbox := s.inbox[1..]);
    if !HasMachine(s, h) then (if h in s.holders then SetState(s1, h, Idle) else s1)
    else
      var cid := s.pool[s.holders[h].machine.value].cid;
      SetHolder(s1.(cidIndex := s.cidIndex - {cid}), h, s.holders[h].(state := Idle, machine := None))
  }

  function RetryOrClear(s: System, h: ApnId, reason: DisconnectReason, envs: map<ApnId, Admission>): System
    requires h in s.holders
  {
    match reason
    case ReasonClear => EstablishEach(ClearConnection(s, h, reason), SORTED_ORDER, envs)
    case ReasonPermanentReject => ClearConnection(s, h, ReasonClear)
    case ReasonRetry => SetState(s, h, Retrying).(retries := s.retries + multiset{h})
    case _ => s
  }

  function DisconnectComplete(s: System, envs: map<ApnId, Admission>): System
    requires s.inbox != [] && s.inbox[0].Disconnected?
  {
    var h := s.inbox[0].flag;
    var s' := TakeBack(s);
    if !HasMachine(s, h) || h !in s'.holders then s'
    else
      var reason := ToDisconnectReason(s.inbox[0].info.reason);
      var t := if s'.holders[h].enabled then RetryOrClear(s', h, reason, envs) else s';
      if reason.ReasonChange? then SortConnection(t) else t
  }

  function FirstEnabled(s: System, hs: seq<ApnId>): Option<ApnId>
    decreases |hs|
  {
    if hs == [] then None
    else if hs[0] in s.holders && s.holders[hs[0]].enabled then Some(hs[0])
    else FirstEnabled(s, hs[1..])
  }

  /** Once everything is down the enabled holder of highest priority is asked for next. */
  function SortConnection(s: System): System {
    var next := FirstEnabled(s, SORTED_ORDER);
    if (OverallState(s).Idle? || OverallState(s).Failed?) && next.Some? then Ask(s, next.value) else s
  }

  function HandleReport(s: System, envs: map<ApnId, Admission>): System {
    if s.inbox == [] then s
    else if s.inbox[0].Established? then EstablishComplete(s)
    else DisconnectComplete(s, envs)
  }

  // ---- Retries ----

  function RetryToSetup(s: System, h: ApnId): System {
    if h !in s.retries then s
    else
      var s' := s.(retries := s.retries - multiset{h});
      if h in s.holders && s.holders[h].state.Retrying? then Ask(SetState(s', h, Idle), h) else s'
  }

  /** Every holder is asked for again; a retrying one goes back to idle and drops all retry
      events. */
  function ResetRetrying(s: System, hs: seq<ApnId>): System
    decreases |hs|
  {
    if hs == [] then s
    else
      var h := hs[0];
      var s' := if h in s.holders && s.holders[h].state.Retrying?
                then SetState(s, h, Idle).(retries := multiset{}) else s;
      ResetRetrying(Ask(s', h), hs[1..])
  }

  function ApnChanged(s: System, clear: bool, handoverStuck: bool): System {
    var s' := if clear then ClearAllConnections(s, ReasonClear, handoverStuck) else s;
    ResetRetrying(s', HOLDER_ORDER)
  }

  // ---- Notices to machines ----

  function NotifyHostDied(s: System): System {
    s.(pool := seq(|s.pool|, i requires 0 <= i < |s.pool| => Post(s.pool[i], HostDied)))
  }

  /** Machines in the index whose cid the modem lists as ended. */
  predicate Ended(s: System, i: nat, ended: map<int, CallInfo>)
    requires i < |s.pool|
  {
    s.pool[i].cid in ended && exists c :: c in s.cidIndex && s.cidIndex[c] == i
  }

  function NotifyEnded(s: System, ended: map<int, CallInfo>): System {
    s.(pool := seq(|s.pool|, i requires 0 <= i < |s.pool| =>
      if Ended(s, i, ended)
      then Post(s.pool[i], LostConnection(ended[s.pool[i].cid].(scene := ModemDeactivate), s.pool[i].grants))
      else s.pool[i]))
  }
}
