/** The connection machine as the object it is: state handlers that store fields and ask
    for a transition, and the event handler that then performs it. Every event takes the
    object where the step function says, and leaves the state bookkeeping consistent. */
module ConnectionObject {
  import opened Options
  import opened ReasonCodes
  import opened ConnectionMachine

  /** Events posted to the machine's event handler, and its pending timers. */
  datatype Queues = Queues(
    immediate: seq<Event>,
    ordinary: seq<Event>,
    connectChecks: multiset<nat>,
    disconnectChecks: multiset<nat>)

  /** Attempt bookkeeping, never read by the handlers. */
  datatype Log = Log(grants: nat, resultAttempt: nat, accepted: seq<Attempt>, completed: seq<Attempt>, answered: nat)

  /** The isActive_ flag of each state object. */
  datatype Marks = Marks(base: bool, inactive: bool, activating: bool, active: bool, disconnecting: bool)

  class CellularDataStateMachine {
    // Event handler: current and requested state, deferred events.
    var curState: Phase
    var destState: Phase
    var deferEvents: seq<Event>
    var queues: Queues
    // The machine's own record of its state, and the isActive_ flags.
    var currentState: Phase
    var isActive: Marks
    // Connection data.
    var connectId: nat
    var apnId: ApnId
    var cid: int
    var deActiveApnTypeId: ApnId
    var resultInfo: Option<CallInfo>
    var log: Log

    ghost function View(): Machine
      reads this
    {
      Machine(curState, connectId, apnId, cid, deActiveApnTypeId,
              if resultInfo.Some? then Some(Stored(resultInfo.value, log.resultAttempt)) else None,
              deferEvents, queues.immediate, queues.ordinary, queues.connectChecks, queues.disconnectChecks,
              log.grants, log.accepted, log.completed, log.answered)
    }

    /** Between events the machine's record equals the event handler's state, that state and
        its parent are flagged, and the only stale flag is the one Active leaves behind. */
    ghost predicate Consistent()
      reads this
    {
      && destState == curState
      && currentState == curState
      && Flags(curState)
    }

    ghost predicate Flags(p: Phase)
      reads this
    {
      && isActive.base == !p.Unstarted?
      && isActive.inactive == p.Inactive?
      && isActive.activating == p.Activating?
      && isActive.disconnecting == p.Disconnecting?
      && (p.Active? ==> isActive.active)
    }

    constructor ()
      ensures View() == NEW_MACHINE && Consistent()
    {
      curState, destState, currentState := Unstarted, Unstarted, Unstarted;
      deferEvents, queues := [], Queues([Init], [], multiset{}, multiset{});
      isActive := Marks(false, false, false, false, false);
      connectId, apnId, cid, deActiveApnTypeId, resultInfo := 0, 0, 0, ERROR_APN_ID, None;
      log := Log(0, 0, [], [], 0);
    }

    // ---- Framework ----

    /** Deferred events are posted as immediate ones, one by one, and the list is emptied. */
    method SendDeferredEvent()
      modifies `queues, `deferEvents
      ensures queues == old(queues).(immediate := old(queues).immediate + old(deferEvents)) && deferEvents == []
    {
      var i := 0;
      ghost var before := queues;
      while i < |deferEvents|
        invariant 0 <= i <= |deferEvents|
        invariant queues == before.(immediate := before.immediate + deferEvents[..i])
        invariant deferEvents == old(deferEvents)
      {
        queues := queues.(immediate := queues.immediate + [deferEvents[i]]);
        i := i + 1;
      }
      deferEvents := [];
    }

    /** Inactive::StateBegin: a new generation, and the stored result reported and cleared. */
    method InactiveBegin() returns (out: seq<Report>)
      modifies `connectId, `isActive, `currentState, `deActiveApnTypeId, `resultInfo, `log
      ensures isActive == old(isActive).(inactive := true) && currentState == Inactive
      ensures connectId == old(connectId) + 1 && deActiveApnTypeId == ERROR_APN_ID
      ensures out == EnterInactive(old(View())).out
      ensures old(deActiveApnTypeId) == ERROR_APN_ID ==> resultInfo == old(resultInfo) && log == old(log)
      ensures old(deActiveApnTypeId) != ERROR_APN_ID ==>
                && resultInfo == None
                && log == old(log).(completed := old(log).completed + [Attempt(old(deActiveApnTypeId), old(connectId))])
    {
      out := [];
      connectId := connectId + 1;
      isActive := isActive.(inactive := true);
      if deActiveApnTypeId != ERROR_APN_ID {
        var info := CallInfo(cid, false, NoError, 0, SetupData);
        if resultInfo.Some? {
          info := info.(reason := resultInfo.value.reason, retryTime := resultInfo.value.retryTime,
                        scene := resultInfo.value.scene);
        }
        out := [Disconnected(deActiveApnTypeId, info, if resultInfo.Some? then log.resultAttempt else 0)];
        log := log.(completed := log.completed + [Attempt(deActiveApnTypeId, connectId - 1)]);
        deActiveApnTypeId := ERROR_APN_ID;
        resultInfo := None;
      }
      currentState := Inactive;
    }

    /** Enter Inactive under its parent. */
    method BecomeInactive() returns (out: seq<Report>)
      requires Left() && destState.Inactive?
      modifies `connectId, `isActive, `currentState, `deActiveApnTypeId, `resultInfo, `log, `curState, `queues, `deferEvents
      ensures Consistent() && curState.Inactive?
      ensures Outcome(View(), out, false) == EnterInactive(old(View()))
    {
      isActive := isActive.(base := true);
      out := InactiveBegin();
      curState := Inactive;
      SendDeferredEvent();
    }

    /** Enter one of the other states under its parent; each flags and records itself. */
    method Become(p: Phase)
      requires !p.Unstarted? && !p.Inactive? && Left() && destState == p
      modifies `isActive, `currentState, `curState, `queues, `deferEvents
      ensures Consistent() && curState == p
      ensures View() == Repost(old(View()).(phase := p))
    {
      isActive := isActive.(base := true);
      match p {
        case Activating => isActive := isActive.(activating := true);
        case Active => isActive := isActive.(active := true);
        case Disconnecting => isActive := isActive.(disconnecting := true);
      }
      currentState := p;
      curState := p;
      SendDeferredEvent();
    }

    /** Every flag is down, except the one the active state forgets to clear. */
    ghost predicate Left()
      reads this
    {
      !isActive.base && !isActive.inactive && !isActive.activating && !isActive.disconnecting
    }

    /** The parent and the current state end. */
    method StateEnd()
      requires Flags(curState)
      modifies `isActive
      ensures Left() && View() == old(View())
    {
      isActive := isActive.(base := false);
      match curState {
        case Inactive => isActive := isActive.(inactive := false);
        case Activating => isActive := isActive.(activating := false);
        case Disconnecting => isActive := isActive.(disconnecting := false);
        case _ =>
      }
    }

    /** Leave the current state and its parent, enter the requested one and its parent. */
    method ProcessTransitions() returns (out: seq<Report>)
      requires !destState.Unstarted? && currentState == curState && Flags(curState)
      modifies `connectId, `currentState, `deActiveApnTypeId, `resultInfo, `log, `curState, `queues, `deferEvents, `isActive
      ensures Consistent()
      ensures Outcome(View(), out, false) == Transit(old(View()), old(destState))
    {
      out := [];
      if curState != destState {
        StateEnd();
        if destState.Inactive? {
          out := BecomeInactive();
        } else {
          Become(destState);
        }
      }
    }

    // ---- State handlers ----

    method SetPdpErrorReason(reason: PdpError)
      modifies `resultInfo, `log
      ensures resultInfo == Some(ReasonOnly(reason)) && log == old(log).(resultAttempt := |log.accepted|)
    {
      SetDataCallResultInfo(ReasonOnly(reason));
    }

    method SetDataCallResultInfo(info: CallInfo)
      modifies `resultInfo, `log
      ensures resultInfo == Some(info) && log == old(log).(resultAttempt := |log.accepted|)
    {
      resultInfo := Some(info);
      log := log.(resultAttempt := |log.accepted|);
    }

    method DoConnect(holder: ApnId)
      modifies `apnId, `queues, `log
      ensures View() == old(View()).(apnId := holder, connectChecks := old(queues).connectChecks + multiset{connectId},
                                     accepted := old(log).accepted + [Attempt(holder, connectId)])
    {
      apnId := holder;
      log := log.(accepted := log.accepted + [Attempt(holder, connectId)]);
      queues := queues.(connectChecks := queues.connectChecks + multiset{connectId});
    }

    /** Activating: a call result for the current generation ends or completes the set-up. */
    method RilActivatePdpContextDone(e: Event) returns (register: bool)
      requires e.SetupDone? && curState.Activating? && destState == curState
      modifies `cid, `resultInfo, `log, `deActiveApnTypeId, `deferEvents, `destState
      ensures var m := old(View());
              if e.flag != connectId then View() == m && destState == curState && !register
              else if e.call.reason != NoError || !e.call.active then
                && View() == m.(cid := e.call.cid, deactiveApnId := m.apnId,
                                stored := Some(Stored(e.call.(scene := SetupData), |m.accepted|)))
                && destState.Inactive? && !register
              else View() == Defer(m.(cid := e.call.cid, answered := |m.accepted|), e) && destState.Active? && register
    {
      register := false;
      if connectId != e.flag {
        return;
      }
      cid := e.call.cid;
      if e.call.reason != NoError || !e.call.active {
        SetDataCallResultInfo(e.call.(scene := SetupData));
        deActiveApnTypeId := apnId;
        destState := Inactive;
        return;
      }
      register := true;
      log := log.(answered := |log.accepted|);
      deferEvents := deferEvents + [e];
      destState := Active;
    }

    /** The attempt ends: store the reason, name the holder to tell, ask for Inactive. */
    method GiveUp(reason: PdpError)
      modifies `resultInfo, `log, `deActiveApnTypeId, `destState
      ensures var m := old(View());
              View() == m.(stored := Some(Stored(ReasonOnly(reason), |m.accepted|)), deactiveApnId := m.apnId)
      ensures destState.Inactive?
    {
      SetPdpErrorReason(reason);
      deActiveApnTypeId := apnId;
      destState := Inactive;
    }

    method ActivatingProcess(e: Event) returns (register: bool)
      requires curState.Activating? && destState == curState
      modifies this
      ensures curState == old(curState) && currentState == old(currentState) && !destState.Unstarted?
      ensures old(Flags(curState)) ==> Flags(curState)
      ensures var m := old(View()); var r := ConnectionMachine.ActivatingProcess(m, e);
              r == Transit(View(), destState).(register := register)
    {
      register := false;
      match e
      case Connect(_, _) => deferEvents := deferEvents + [e];
      case Disconnect(_, _, _) => deferEvents := deferEvents + [e];
      case SetupDone(_, _) => register := RilActivatePdpContextDone(e);
      case SetupError(flag) => if connectId == flag { GiveUp(Retry); }
      case ConnectCheck(id, elapsed) => if id == connectId && elapsed { GiveUp(Retry); }
      case _ =>
    }

    /** Active: remember why, ask the modem to release, wait in Disconnecting. */
    method ProcessDisconnectDone(reason: DisconnectReason)
      modifies `resultInfo, `log, `queues, `destState
      ensures var m := old(View());
              View() == m.(stored := Some(Stored(ReasonOnly(ToPdpError(reason)), |m.accepted|)),
                           disconnectChecks := m.disconnectChecks + multiset{m.connectId})
      ensures destState.Disconnecting?
    {
      SetPdpErrorReason(ToPdpError(reason));
      queues := queues.(disconnectChecks := queues.disconnectChecks + multiset{connectId});
      destState := Disconnecting;
    }

    method ProcessLostConnection(info: CallInfo)
      modifies `resultInfo, `log, `deActiveApnTypeId, `destState
      ensures var m := old(View());
              View() == m.(stored := Some(Stored(info, |m.accepted|)), deactiveApnId := m.apnId)
      ensures destState.Inactive?
    {
      deActiveApnTypeId := apnId;
      SetDataCallResultInfo(info);
      destState := Inactive;
    }

    method ActiveProcess(e: Event) returns (out: seq<Report>)
      requires curState.Active? && destState == curState
      modifies this
      ensures curState == old(curState) && currentState == old(currentState) && !destState.Unstarted?
      ensures old(Flags(curState)) ==> Flags(curState)
      ensures var m := old(View()); var r := ConnectionMachine.ActiveProcess(m, e);
              var t := Transit(View(), destState);
              r == t.(out := out + t.out)
    {
      out := [];
      match e
      case Disconnect(_, reason, _) => ProcessDisconnectDone(reason);
      case LostConnection(info, _) => ProcessLostConnection(info);
      case HostDied => ProcessLostConnection(EMPTY_CALL);
      case SetupDone(_, _) =>
        queues := queues.(connectChecks := multiset{});
        out := [Established(apnId)];
      case _ =>
    }

    method DisconnectingProcess(e: Event)
      requires curState.Disconnecting? && destState == curState
      modifies this
      ensures curState == old(curState) && currentState == old(currentState) && !destState.Unstarted?
      ensures old(Flags(curState)) ==> Flags(curState)
      ensures var m := old(View()); var r := ConnectionMachine.DisconnectingProcess(m, e);
              r == Transit(View(), destState)
    {
      match e
      case Connect(_, _) => deferEvents := deferEvents + [e];
      case Disconnect(_, _, _) => deferEvents := deferEvents + [e];
      case DeactivateDone(flag) => if connectId == flag { ProcessRilDeactivateDataCall(); }
      case DeactivateEmpty => ProcessRilDeactivateDataCall();
      case DisconnectCheck(id) => if id == connectId { GiveUp(Retry); }
      case HostDied => GiveUp(Retry);
      case _ =>
    }

    method ProcessRilDeactivateDataCall()
      modifies `queues, `deActiveApnTypeId, `destState
      ensures View() == old(View()).(disconnectChecks := multiset{}, deactiveApnId := old(apnId))
      ensures destState.Inactive?
    {
      queues := queues.(disconnectChecks := multiset{});
      deActiveApnTypeId := apnId;
      destState := Inactive;
    }

    method Start() returns (out: seq<Report>)
      requires Consistent() && curState.Unstarted?
      modifies this
      ensures Consistent()
      ensures Outcome(View(), out, false) == EnterInactive(old(View()))
    {
      destState := Inactive;
      out := BecomeInactive();
    }

    method InactiveProcess(e: Event)
      requires Consistent() && curState.Inactive?
      modifies this
      ensures Consistent()
      ensures Outcome(View(), [], false) == ConnectionMachine.InactiveProcess(old(View()), e)
    {
      if e.Connect? {
        DoConnect(e.holder);
        destState := Activating;
      }
      var none := ProcessTransitions();
    }

    method HandleActivating(e: Event) returns (out: seq<Report>, register: bool)
      requires Consistent() && curState.Activating?
      modifies this
      ensures Consistent()
      ensures Outcome(View(), out, register) == ConnectionMachine.ActivatingProcess(old(View()), e)
    {
      register := ActivatingProcess(e);
      out := ProcessTransitions();
    }

    method HandleActive(e: Event) returns (out: seq<Report>)
      requires Consistent() && curState.Active?
      modifies this
      ensures Consistent()
      ensures Outcome(View(), out, false) == ConnectionMachine.ActiveProcess(old(View()), e)
    {
      out := ActiveProcess(e);
      var more := ProcessTransitions();
      out := out + more;
    }

    method HandleDisconnecting(e: Event) returns (out: seq<Report>)
      requires Consistent() && curState.Disconnecting?
      modifies this
      ensures Consistent()
      ensures Outcome(View(), out, false) == ConnectionMachine.DisconnectingProcess(old(View()), e)
    {
      DisconnectingProcess(e);
      out := ProcessTransitions();
    }

    /** One event: current state, its parent, then the transition. */
    method ProcessEvent(e: Event) returns (out: seq<Report>, register: bool)
      requires Consistent()
      modifies this
      ensures Consistent()
      ensures Outcome(View(), out, register) == Process(old(View()), e)
    {
      out, register := [], false;
      match curState
      case Unstarted => if e.Init? { out := Start(); }
      case Inactive => InactiveProcess(e);
      case Activating => out, register := HandleActivating(e);
      case Active => out := HandleActive(e);
      case Disconnecting => out := HandleDisconnecting(e);
    }
  }

  /** What the transition to the requested state makes of a machine. */
  function Transit(m: Machine, dest: Phase): Outcome {
    if dest == m.phase then Stay(m)
    else if dest.Inactive? then EnterInactive(m)
    else Outcome(Repost(m.(phase := dest)), [], false)
  }
}
