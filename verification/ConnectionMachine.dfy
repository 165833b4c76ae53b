/** One data connection machine: the four states under Default, the deferral and
    transition rules of the event handler that drives it, and its queues.

    Fields grants, accepted, completed, answered and the attempt numbers inside events and stored
    results are bookkeeping for stating properties; no transition reads them. */
module ConnectionMachine {
  import opened Options
  import opened ReasonCodes

  type ApnId = int

  const ERROR_APN_ID: int := -1

  datatype RetryScene = SetupData | ModemDeactivate | Others

  /** The part of SetupDataCallResultInfo that drives the protocol. */
  datatype CallInfo = CallInfo(cid: int, active: bool, reason: PdpError, retryTime: int, scene: RetryScene)

  const EMPTY_CALL := CallInfo(0, false, NoError, 0, SetupData)

  function ReasonOnly(reason: PdpError): CallInfo {
    EMPTY_CALL.(reason := reason)
  }

  datatype Event =
    | Init
    | Connect(holder: ApnId, attempt: nat)
    | Disconnect(apn: ApnId, reason: DisconnectReason, attempt: nat)
    | LostConnection(lost: CallInfo, attempt: nat)
    | HostDied
      // Modem answers: a call result, an error response, or neither object.
    | SetupDone(flag: nat, call: CallInfo)
    | SetupError(flag: nat)
    | SetupEmpty
    | DeactivateDone(flag: nat)
    | DeactivateEmpty
    | ConnectCheck(id: nat, clockElapsed: bool)
    | DisconnectCheck(id: nat)

  /** What a machine reports to the handler; origin is the attempt in which the
      reported result was stored. */
  datatype Report =
    | Established(flag: ApnId)
    | Disconnected(flag: ApnId, info: CallInfo, origin: nat)

  datatype Phase = Unstarted | Inactive | Activating | Active | Disconnecting

  /** An accepted connect: whom it serves and the generation its modem request carries. */
  datatype Attempt = Attempt(holder: ApnId, id: nat)

  datatype Stored = Stored(info: CallInfo, attempt: nat)

  datatype Machine = Machine(
    phase: Phase,
    connectId: nat,
    apnId: ApnId,
    cid: int,
    deactiveApnId: ApnId,
    stored: Option<Stored>,
    deferred: seq<Event>,
    immediate: seq<Event>,
    ordinary: seq<Event>,
    connectChecks: multiset<nat>,
    disconnectChecks: multiset<nat>,
    grants: nat,
    accepted: seq<Attempt>,
    completed: seq<Attempt>,
    answered: nat)          // the last attempt that the modem brought up

  /** A machine right after Init(): the start event is posted, nothing is processed. */
  const NEW_MACHINE := Machine(Unstarted, 0, 0, 0, ERROR_APN_ID, None, [], [Init], [],
                               multiset{}, multiset{}, 0, [], [], 0)

  function Post(m: Machine, e: Event): Machine {
    m.(ordinary := m.ordinary + [e])
  }

  /** What processing one event does: new machine, reports in order, and whether the
      machine registered itself in the cid index. */
  datatype Outcome = Outcome(m: Machine, out: seq<Report>, register: bool)

  function Stay(m: Machine): Outcome {
    Outcome(m, [], false)
  }

  function Defer(m: Machine, e: Event): Machine {
    m.(deferred := m.deferred + [e])
  }

  /** End of a transition: deferred events are posted as immediate ones, in order. */
  function Repost(m: Machine): Machine {
    m.(immediate := m.immediate + m.deferred, deferred := [])
  }

  // ---- Inactive ----

  function CompletionInfo(m: Machine): CallInfo {
    if m.stored.Some?
    then CallInfo(m.cid, false, m.stored.value.info.reason, m.stored.value.info.retryTime, m.stored.value.info.scene)
    else EMPTY_CALL.(cid := m.cid)
  }

  function CompletionOrigin(m: Machine): nat {
    if m.stored.Some? then m.stored.value.attempt else 0
  }

  /** Inactive::StateBegin, then the deferred events go out. */
  function EnterInactive(m: Machine): Outcome {
    var bumped := m.(connectId := m.connectId + 1, phase := Inactive);
    if m.deactiveApnId == ERROR_APN_ID then
      Outcome(Repost(bumped), [], false)
    else
      Outcome(
        Repost(bumped.(deactiveApnId := ERROR_APN_ID, stored := None,
                       completed := m.completed + [Attempt(m.deactiveApnId, m.connectId)])),
        [Disconnected(m.deactiveApnId, CompletionInfo(m), CompletionOrigin(m))],
        false)
  }

  /** Back to Inactive with a result to report for the current holder. */
  function Finish(m: Machine, info: CallInfo): Outcome {
    EnterInactive(m.(stored := Some(Stored(info, |m.accepted|)), deactiveApnId := m.apnId))
  }

  function InactiveProcess(m: Machine, e: Event): Outcome {
    if e.Connect? then
      Outcome(
        Repost(m.(phase := Activating, apnId := e.holder,
                  connectChecks := m.connectChecks + multiset{m.connectId},
                  accepted := m.accepted + [Attempt(e.holder, m.connectId)])),
        [], false)
    else Stay(m)
  }

  // ---- Activating ----

  function SetupAnswered(m: Machine, e: Event): Outcome
    requires e.SetupDone?
  {
    if m.connectId != e.flag then Stay(m)
    else
      var withCid := m.(cid := e.call.cid);
      if e.call.reason != NoError || !e.call.active then
        Finish(withCid, e.call.(scene := SetupData))
      else
        Outcome(Repost(Defer(withCid.(phase := Active, answered := |m.accepted|), e)), [], true)
  }

  function ActivatingProcess(m: Machine, e: Event): Outcome {
    match e
    case Connect(_, _) => Stay(Defer(m, e))
    case Disconnect(_, _, _) => Stay(Defer(m, e))
    case SetupDone(_, _) => SetupAnswered(m, e)
    case SetupError(flag) => if m.connectId != flag then Stay(m) else Finish(m, ReasonOnly(Retry))
    case ConnectCheck(id, elapsed) =>
      if id != m.connectId || !elapsed then Stay(m) else Finish(m, ReasonOnly(Retry))
    case _ => Stay(m)
  }

  // ---- Active ----

  function ActiveProcess(m: Machine, e: Event): Outcome {
    match e
    case Disconnect(_, reason, _) =>
      Outcome(
        Repost(m.(phase := Disconnecting,
                  stored := Some(Stored(ReasonOnly(ToPdpError(reason)), |m.accepted|)),
                  disconnectChecks := m.disconnectChecks + multiset{m.connectId})),
        [], false)
    case LostConnection(info, _) => Finish(m, info)
    case HostDied => Finish(m, EMPTY_CALL)
    case SetupDone(_, _) => Outcome(m.(connectChecks := multiset{}), [Established(m.apnId)], false)
    case _ => Stay(m)
  }

  // ---- Disconnecting ----

  /** The modem confirmed: the timer goes, the reason stored on the way in is reported. */
  function Released(m: Machine): Outcome {
    EnterInactive(m.(disconnectChecks := multiset{}, deactiveApnId := m.apnId))
  }

  function DisconnectingProcess(m: Machine, e: Event): Outcome {
    match e
    case Connect(_, _) => Stay(Defer(m, e))
    case Disconnect(_, _, _) => Stay(Defer(m, e))
    case DeactivateDone(flag) => if m.connectId != flag then Stay(m) else Released(m)
    case DeactivateEmpty => Released(m)
    case DisconnectCheck(id) => if id != m.connectId then Stay(m) else Finish(m, ReasonOnly(Retry))
    case HostDied => Finish(m, ReasonOnly(Retry))
    case _ => Stay(m)
  }

  /** One event through the current state, its parent, and the transition it asks for. */
  function Process(m: Machine, e: Event): Outcome {
    match m.phase
    case Unstarted => if e.Init? then EnterInactive(m) else Stay(m)
    case Inactive => InactiveProcess(m, e)
    case Activating => ActivatingProcess(m, e)
    case Active => ActiveProcess(m, e)
    case Disconnecting => DisconnectingProcess(m, e)
  }

  // ---- Dispatch: immediate events first, then the ordinary queue ----

  predicate HasNext(m: Machine) {
    m.immediate != [] || m.ordinary != []
  }

  function NextEvent(m: Machine): Event
    requires HasNext(m)
  {
    if m.immediate != [] then m.immediate[0] else m.ordinary[0]
  }

  function Popped(m: Machine): Machine
    requires HasNext(m)
  {
    if m.immediate != [] then m.(immediate := m.immediate[1..]) else m.(ordinary := m.ordinary[1..])
  }

  function DispatchNext(m: Machine): Outcome
    requires HasNext(m)
  {
    Process(Popped(m), NextEvent(m))
  }

  /** An expired timer is dispatched at any moment at which no immediate event waits. */
  function FireConnectCheck(m: Machine, id: nat, clockElapsed: bool): Outcome {
    if m.immediate == [] && id in m.connectChecks
    then Process(m.(connectChecks := m.connectChecks - multiset{id}), ConnectCheck(id, clockElapsed))
    else Stay(m)
  }

  function FireDisconnectCheck(m: Machine, id: nat): Outcome {
    if m.immediate == [] && id in m.disconnectChecks
    then Process(m.(disconnectChecks := m.disconnectChecks - multiset{id}), DisconnectCheck(id))
    else Stay(m)
  }

  /** The network interface went down: a pending disconnect timer is replaced by a
      shorter one that carries the current generation. */
  function InterfaceDown(m: Machine): Machine {
    if m.disconnectChecks != multiset{}
    then m.(disconnectChecks := multiset{m.connectId})
    else m
  }
}
