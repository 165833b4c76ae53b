/** Stall detection and the recovery ladder: ask for the context list, clean up, re-register,
    restart the radio. The trace of actions and resets is bookkeeping that nothing reads. */
module RecoveryMonitor {
  const TRIGGER_PACKETS: int := 10

  datatype Recovery = RequestContextList | CleanupConnections | ReregisterNetwork | RadioRestart

  datatype Act = AskContextList | Cleanup | Reregister | RadioOff | Reset

  datatype Monitor = Monitor(
    enabled: bool,
    pending: nat,       // stall detection events waiting
    screenOn: bool,
    noRecv: int,
    recovery: Recovery,
    inCall: bool,
    trace: seq<Act>)

  const FRESH := Monitor(false, 0, false, 0, RequestContextList, false, [])

  // ---- Timer ----

  function Arm(m: Monitor): Monitor {
    if m.pending == 0 && m.enabled then m.(pending := 1) else m
  }

  function Start(m: Monitor): Monitor {
    var on := m.(enabled := true);
    if on.pending == 0 then on.(pending := 1) else on
  }

  function Stop(m: Monitor): Monitor {
    m.(enabled := false, pending := 0)
  }

  function ScreenChanged(m: Monitor, on: bool, watched: bool): Monitor {
    if m.screenOn == on then m
    else if !watched then m.(screenOn := on)
    else Start(Stop(m.(screenOn := on)))
  }

  // ---- Ladder ----

  function Log(m: Monitor, a: Act): Monitor {
    m.(trace := m.trace + [a])
  }

  function BackToStart(m: Monitor): Monitor {
    Log(m.(recovery := RequestContextList), Reset)
  }

  function Flow(m: Monitor, sent: int, recv: int): Monitor {
    if sent > 0 && recv == 0 then m.(noRecv := m.noRecv + sent)
    else if sent >= 0 && recv > 0 then BackToStart(m.(noRecv := 0))
    else m
  }

  /** Clearing all connections stops stall detection on the way, unless it was refused. */
  function ClearAll(m: Monitor, cleared: bool): Monitor {
    if cleared then Stop(m) else m
  }

  function Recover(m: Monitor, cleared: bool): Monitor {
    if m.inCall then BackToStart(m)
    else
      match m.recovery
      case RequestContextList => Log(m.(recovery := CleanupConnections), AskContextList)
      case CleanupConnections => Log(ClearAll(m.(recovery := ReregisterNetwork), cleared), Cleanup)
      case ReregisterNetwork => Log(m.(recovery := RadioRestart), Reregister)
      case RadioRestart => Log(ClearAll(m.(recovery := RequestContextList), cleared), RadioOff)
  }

  predicate Triggered(m: Monitor, connected: bool) {
    m.noRecv > TRIGGER_PACKETS || (!connected && m.recovery.RadioRestart?)
  }

  /** The stall timer fires. */
  function Tick(m: Monitor, sent: int, recv: int, connected: bool, cleared: bool): Monitor {
    if m.pending == 0 then m
    else
      var flowed := Flow(m.(pending := m.pending - 1), sent, recv);
      Arm(if Triggered(flowed, connected) then Recover(flowed, cleared).(noRecv := 0) else flowed)
  }

  function Judge(m: Monitor, need: bool, cleared: bool): Monitor {
    Arm(if need then Recover(m, cleared) else BackToStart(m))
  }

  datatype Event =
    | StartDetection
    | StopDetection
    | ScreenEvent(on: bool, watched: bool)
    | CallEvent(inCall: bool)
    | TimerEvent(sent: int, recv: int, connected: bool, cleared: bool)
    | JudgeEvent(need: bool, cleared: bool)

  function Step(m: Monitor, e: Event): Monitor {
    match e
    case StartDetection => Start(m)
    case StopDetection => Stop(m)
    case ScreenEvent(on, watched) => ScreenChanged(m, on, watched)
    case CallEvent(inCall) => m.(inCall := inCall)
    case TimerEvent(sent, recv, connected, cleared) => Tick(m, sent, recv, connected, cleared)
    case JudgeEvent(need, cleared) => Judge(m, need, cleared)
  }

  function Exec(m: Monitor, es: seq<Event>): Monitor {
    if es == [] then m else Step(Exec(m, es[..|es| - 1]), es[|es| - 1])
  }

  class DataConnectionMonitor {
    var stallDetectionEnabled: bool
    var stallEvents: nat
    var isScreenOn: bool
    var noRecvPackets: int
    var dataRecoveryState: Recovery
    var callBusy: bool
    var trace: seq<Act>

    ghost function View(): Monitor
      reads this
    {
      Monitor(stallDetectionEnabled, stallEvents, isScreenOn, noRecvPackets, dataRecoveryState, callBusy, trace)
    }

    constructor ()
      ensures View() == FRESH
    {
      stallDetectionEnabled, stallEvents, isScreenOn, noRecvPackets := false, 0, false, 0;
      dataRecoveryState, callBusy, trace := RequestContextList, false, [];
    }

    method StartStallDetectionTimer()
      modifies this
      ensures View() == Start(old(View()))
    {
      stallDetectionEnabled := true;
      if stallEvents == 0 {
        stallEvents := 1;
      }
    }

    method StopStallDetectionTimer()
      modifies this
      ensures View() == Stop(old(View()))
    {
      stallDetectionEnabled := false;
      stallEvents := 0;
    }

    method HandleScreenStateChanged(on: bool, watched: bool)
      modifies this
      ensures View() == ScreenChanged(old(View()), on, watched)
    {
      if isScreenOn == on {
        return;
      }
      isScreenOn := on;
      if !watched {
        return;
      }
      StopStallDetectionTimer();
      StartStallDetectionTimer();
    }

    method UpdateFlowInfo(sentPackets: int, recvPackets: int)
      modifies this
      ensures View() == Flow(old(View()), sentPackets, recvPackets)
    {
      if sentPackets > 0 && recvPackets == 0 {
        noRecvPackets := noRecvPackets + sentPackets;
      } else if (sentPackets > 0 && recvPackets > 0) || (sentPackets == 0 && recvPackets > 0) {
        noRecvPackets := 0;
        dataRecoveryState := RequestContextList;
        trace := trace + [Reset];
      }
    }

    method ClearAllConnections(cleared: bool)
      modifies this
      ensures View() == ClearAll(old(View()), cleared)
    {
      if cleared {
        StopStallDetectionTimer();
      }
    }

    method HandleRecovery(cleared: bool)
      modifies this
      ensures View() == Recover(old(View()), cleared)
    {
      if callBusy {
        dataRecoveryState := RequestContextList;
        trace := trace + [Reset];
        return;
      }
      match dataRecoveryState
      case RequestContextList =>
        dataRecoveryState := CleanupConnections;
        trace := trace + [AskContextList];
      case CleanupConnections =>
        dataRecoveryState := ReregisterNetwork;
        ClearAllConnections(cleared);
        trace := trace + [Cleanup];
      case ReregisterNetwork =>
        dataRecoveryState := RadioRestart;
        trace := trace + [Reregister];
      case RadioRestart =>
        dataRecoveryState := RequestContextList;
        ClearAllConnections(cleared);
        trace := trace + [RadioOff];
    }

    method ArmIfEnabled()
      modifies `stallEvents
      ensures View() == Arm(old(View()))
    {
      if stallEvents == 0 && stallDetectionEnabled {
        stallEvents := 1;
      }
    }

    method OnStallDetectionTimer(sent: int, recv: int, connected: bool, cleared: bool)
      requires stallEvents > 0
      modifies this
      ensures View() == Tick(old(View()), sent, recv, connected, cleared)
    {
      stallEvents := stallEvents - 1;
      UpdateFlowInfo(sent, recv);
      RecoverIfStalled(connected, cleared);
      ArmIfEnabled();
    }

    method RecoverIfStalled(connected: bool, cleared: bool)
      modifies this
      ensures var m := old(View());
              View() == if Triggered(m, connected) then Recover(m, cleared).(noRecv := 0) else m
    {
      if noRecvPackets > TRIGGER_PACKETS || (!connected && dataRecoveryState.RadioRestart?) {
        HandleRecovery(cleared);
        noRecvPackets := 0;
      }
    }

    method IsNeedDoRecovery(need: bool, cleared: bool)
      modifies this
      ensures View() == Judge(old(View()), need, cleared)
    {
      if need {
        HandleRecovery(cleared);
      } else {
        dataRecoveryState := RequestContextList;
        trace := trace + [Reset];
      }
      ArmIfEnabled();
    }
  }

  // ---- Whole runs ----

  /** The last actions are the climb to the current rung. */
  ghost predicate OnRung(r: Recovery, t: seq<Act>) {
    match r
    case RequestContextList => true
    case CleanupConnections => |t| >= 1 && t[|t| - 1] == AskContextList
    case ReregisterNetwork => |t| >= 2 && t[|t| - 2] == AskContextList && t[|t| - 1] == Cleanup
    case RadioRestart =>
      |t| >= 3 && t[|t| - 3] == AskContextList && t[|t| - 2] == Cleanup && t[|t| - 1] == Reregister
  }

  /** Each radio-off comes right after context list, clean-up and re-registration. */
  ghost predicate RadioOffLast(t: seq<Act>) {
    forall p | 0 <= p < |t| && t[p].RadioOff? :: OnRung(RadioRestart, t[..p])
  }

  ghost predicate TimerOk(m: Monitor) {
    m.pending == if m.enabled then 1 else 0
  }

  ghost predicate Sound(m: Monitor) {
    OnRung(m.recovery, m.trace) && RadioOffLast(m.trace)
  }

  lemma LogKeeps(t: seq<Act>, a: Act)
    requires RadioOffLast(t) && (a.RadioOff? ==> OnRung(RadioRestart, t))
    ensures RadioOffLast(t + [a])
  {
    var u := t + [a];
    forall p | 0 <= p < |u| && u[p].RadioOff?
      ensures OnRung(RadioRestart, u[..p])
    {
      assert u[..p] == t[..p];
      if p < |t| {
        assert u[p] == t[p];
      } else {
        assert t[..p] == t;
      }
    }
  }

  function ActOf(r: Recovery): Act {
    match r
    case RequestContextList => AskContextList
    case CleanupConnections => Cleanup
    case ReregisterNetwork => Reregister
    case RadioRestart => RadioOff
  }

  lemma RecoverLogs(m: Monitor, cleared: bool)
    ensures Recover(m, cleared).trace == m.trace + [if m.inCall then Reset else ActOf(m.recovery)]
  {
  }

  function Above(r: Recovery): Recovery {
    match r
    case RequestContextList => CleanupConnections
    case CleanupConnections => ReregisterNetwork
    case ReregisterNetwork => RadioRestart
    case RadioRestart => RequestContextList
  }

  lemma Climb(r: Recovery, t: seq<Act>)
    requires OnRung(r, t)
    ensures OnRung(Above(r), t + [ActOf(r)])
  {
  }

  lemma RecoverSound(m: Monitor, cleared: bool)
    requires Sound(m)
    ensures Sound(Recover(m, cleared))
  {
    RecoverLogs(m, cleared);
    LogKeeps(m.trace, if m.inCall then Reset else ActOf(m.recovery));
    if !m.inCall {
      Climb(m.recovery, m.trace);
      assert Recover(m, cleared).recovery == Above(m.recovery);
    }
  }

  lemma BackSound(m: Monitor)
    requires Sound(m)
    ensures Sound(BackToStart(m))
  {
    LogKeeps(m.trace, Reset);
  }

  /** Timer, counter and screen do not matter to the ladder. */
  lemma SameLadder(m: Monitor, n: Monitor)
    requires Sound(m) && n.recovery == m.recovery && n.trace == m.trace
    ensures Sound(n)
  {
  }

  lemma TickSound(m: Monitor, sent: int, recv: int, connected: bool, cleared: bool)
    requires Sound(m)
    ensures Sound(Tick(m, sent, recv, connected, cleared))
  {
    if m.pending > 0 {
      var taken := m.(pending := m.pending - 1);
      var flowed := Flow(taken, sent, recv);
      SameLadder(m, taken);
      SameLadder(m, taken.(noRecv := 0));
      BackSound(taken.(noRecv := 0));
      SameLadder(taken, taken.(noRecv := m.noRecv + sent));
      assert Sound(flowed);
      RecoverSound(flowed, cleared);
      var last := if Triggered(flowed, connected) then Recover(flowed, cleared) else flowed;
      SameLadder(last, Tick(m, sent, recv, connected, cleared));
    }
  }

  lemma StepSound(m: Monitor, e: Event)
    requires Sound(m)
    ensures Sound(Step(m, e))
  {
    match e
    case TimerEvent(sent, recv, connected, cleared) => TickSound(m, sent, recv, connected, cleared);
    case JudgeEvent(need, cleared) =>
      BackSound(m);
      RecoverSound(m, cleared);
      SameLadder(if need then Recover(m, cleared) else BackToStart(m), Judge(m, need, cleared));
    case _ => SameLadder(m, Step(m, e));
  }

  lemma StepTimer(m: Monitor, e: Event)
    requires TimerOk(m)
    ensures TimerOk(Step(m, e))
  {
  }

  /** In every run the radio is switched off only right after the context list, the clean-up
      and the re-registration, with no reset and no other action between them. */
  lemma {:induction false} RadioOffIsFourth(es: seq<Event>)
    ensures Sound(Exec(FRESH, es)) && RadioOffLast(Exec(FRESH, es).trace)
    decreases |es|
  {
    if es != [] {
      RadioOffIsFourth(es[..|es| - 1]);
      StepSound(Exec(FRESH, es[..|es| - 1]), es[|es| - 1]);
    }
  }

  /** Between events one stall event waits if detection is on, and none if it is off. */
  lemma {:induction false} OneTimerWhileEnabled(es: seq<Event>)
    ensures TimerOk(Exec(FRESH, es))
    decreases |es|
  {
    if es != [] {
      OneTimerWhileEnabled(es[..|es| - 1]);
      StepTimer(Exec(FRESH, es[..|es| - 1]), es[|es| - 1]);
    }
  }

  // ---- The rung counts recoveries ----

  function Rung(r: Recovery): nat {
    match r
    case RequestContextList => 0
    case CleanupConnections => 1
    case ReregisterNetwork => 2
    case RadioRestart => 3
  }

  /** Recovery actions since the last reset. */
  function SinceReset(t: seq<Act>): nat {
    if t == [] || t[|t| - 1].Reset? then 0 else 1 + SinceReset(t[..|t| - 1])
  }

  ghost predicate Counted(m: Monitor) {
    Rung(m.recovery) == SinceReset(m.trace) % 4
  }

  lemma LogCounts(t: seq<Act>, a: Act)
    ensures SinceReset(t + [a]) == if a.Reset? then 0 else SinceReset(t) + 1
  {
    assert (t + [a])[..|t|] == t;
  }

  lemma RecoverCounts(m: Monitor, cleared: bool)
    requires Counted(m)
    ensures Counted(Recover(m, cleared))
  {
    RecoverLogs(m, cleared);
    LogCounts(m.trace, if m.inCall then Reset else ActOf(m.recovery));
    if !m.inCall {
      NextRung(m.recovery, SinceReset(m.trace));
      assert Recover(m, cleared).recovery == Above(m.recovery);
    }
  }

  lemma NextRung(r: Recovery, n: nat)
    requires Rung(r) == n % 4
    ensures Rung(Above(r)) == (n + 1) % 4
  {
  }

  lemma SameCount(m: Monitor, n: Monitor)
    requires Counted(m) && n.recovery == m.recovery && n.trace == m.trace
    ensures Counted(n)
  {
  }

  /** The part of a tick that moves the ladder. */
  function Moved(m: Monitor, sent: int, recv: int, connected: bool, cleared: bool): Monitor {
    var flowed := Flow(m, sent, recv);
    if Triggered(flowed, connected) then Recover(flowed, cleared) else flowed
  }

  lemma TickMoves(m: Monitor, sent: int, recv: int, connected: bool, cleared: bool)
    requires m.pending > 0
    ensures var t := Tick(m, sent, recv, connected, cleared);
            var r := Moved(m.(pending := m.pending - 1), sent, recv, connected, cleared);
            t.recovery == r.recovery && t.trace == r.trace
  {
  }

  lemma MovedCounts(m: Monitor, sent: int, recv: int, connected: bool, cleared: bool)
    requires Counted(m)
    ensures Counted(Moved(m, sent, recv, connected, cleared))
  {
    FlowCounts(m, sent, recv);
    RecoverCounts(Flow(m, sent, recv), cleared);
  }

  lemma TickCounts(m: Monitor, sent: int, recv: int, connected: bool, cleared: bool)
    requires Counted(m)
    ensures Counted(Tick(m, sent, recv, connected, cleared))
  {
    if m.pending > 0 {
      var taken := m.(pending := m.pending - 1);
      SameCount(m, taken);
      MovedCounts(taken, sent, recv, connected, cleared);
      TickMoves(m, sent, recv, connected, cleared);
      SameCount(Moved(taken, sent, recv, connected, cleared), Tick(m, sent, recv, connected, cleared));
    }
  }

  lemma FlowCounts(m: Monitor, sent: int, recv: int)
    requires Counted(m)
    ensures Counted(Flow(m, sent, recv))
  {
    LogCounts(m.trace, Reset);
  }

  lemma StepCounts(m: Monitor, e: Event)
    requires Counted(m)
    ensures Counted(Step(m, e))
  {
    match e
    case TimerEvent(sent, recv, connected, cleared) => TickCounts(m, sent, recv, connected, cleared);
    case JudgeEvent(need, cleared) =>
      RecoverCounts(m, cleared);
      LogCounts(m.trace, Reset);
      SameCount(if need then Recover(m, cleared) else BackToStart(m), Judge(m, need, cleared));
    case _ => SameCount(m, Step(m, e));
  }

  /** After every run the ladder stands on the rung given by the number of recoveries since
      the last reset, modulo four. */
  lemma {:induction false} RungCountsRecoveries(es: seq<Event>)
    ensures Rung(Exec(FRESH, es).recovery) == SinceReset(Exec(FRESH, es).trace) % 4
    decreases |es|
  {
    if es != [] {
      RungCountsRecoveries(es[..|es| - 1]);
      StepCounts(Exec(FRESH, es[..|es| - 1]), es[|es| - 1]);
    }
  }
}
