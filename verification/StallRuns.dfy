/** When stall detection acts, told by the events alone: how many packets went unanswered, when
    that starts a recovery, which action it is, and what switches detection on and off. */
module StallRuns {
  import opened RecoveryMonitor

  // ---- The run, event by event ----

  function Before(es: seq<Event>): seq<Event>
    requires es != []
  {
    es[..|es| - 1]
  }

  function Last(es: seq<Event>): Event
    requires es != []
  {
    es[|es| - 1]
  }

  ghost predicate InCall(es: seq<Event>) {
    es != [] && if Last(es).CallEvent? then Last(es).inCall else InCall(Before(es))
  }

  ghost predicate ScreenIsOn(es: seq<Event>) {
    es != [] && if Last(es).ScreenEvent? then Last(es).on else ScreenIsOn(Before(es))
  }

  /** Detection is on and so its timer can fire. */
  ghost predicate Detecting(es: seq<Event>) {
    Exec(FRESH, es).enabled
  }

  predicate Replied(e: Event) {
    e.TimerEvent? && e.recv > 0 && e.sent >= 0
  }

  predicate Silent(e: Event) {
    e.TimerEvent? && e.recv == 0 && e.sent > 0
  }

  /** Three recoveries since the last reset, modulo four. */
  ghost predicate OnLastRung(es: seq<Event>) {
    SinceReset(Exec(FRESH, es).trace) % 4 == 3
  }

  /** Packets sent without a reply since the last reply or started recovery. */
  ghost function Unanswered(es: seq<Event>): int
    decreases |es|, 0
  {
    if es == [] then 0
    else if Last(es).TimerEvent? && Detecting(Before(es)) then
      if Due(Before(es), Last(es)) then 0 else WithTick(Before(es), Last(es))
    else Unanswered(Before(es))
  }

  /** The same with the packets of this tick. */
  ghost function WithTick(es: seq<Event>, e: Event): int
    requires e.TimerEvent?
    decreases |es|, 1
  {
    if Replied(e) then 0 else Unanswered(es) + if Silent(e) then e.sent else 0
  }

  /** More than ten packets went unanswered, or the ladder stands on its last rung and nothing
      is connected. */
  ghost predicate Due(es: seq<Event>, e: Event)
    requires e.TimerEvent?
    decreases |es|, 2
  {
    WithTick(es, e) > 10 || (!e.connected && OnLastRung(es) && !Replied(e))
  }

  const LADDER: seq<Act> := [AskContextList, Cleanup, Reregister, RadioOff]

  /** What a recovery does now: the next action of the ladder, or a reset during a call. */
  ghost function Recovering(es: seq<Event>): seq<Act> {
    if InCall(es) then [Reset] else [LADDER[SinceReset(Exec(FRESH, es).trace) % 4]]
  }

  // ---- The monitor follows it ----

  ghost predicate Follows(m: Monitor, es: seq<Event>) {
    m.noRecv == Unanswered(es) && m.inCall == InCall(es) && m.screenOn == ScreenIsOn(es)
  }

  lemma SameRun(es: seq<Event>, e: Event)
    ensures Before(es + [e]) == es && Last(es + [e]) == e
    ensures Exec(FRESH, es + [e]) == Step(Exec(FRESH, es), e)
  {
    assert (es + [e])[..|es|] == es;
  }

  lemma LadderAct(es: seq<Event>)
    requires !InCall(es)
    ensures Recovering(es) == [ActOf(Exec(FRESH, es).recovery)]
  {
    RungCountsRecoveries(es);
  }

  lemma LastRung(es: seq<Event>)
    ensures OnLastRung(es) <==> Exec(FRESH, es).recovery.RadioRestart?
  {
    RungCountsRecoveries(es);
  }

  lemma RecoverActs(m: Monitor, es: seq<Event>, cleared: bool)
    requires m.recovery == Exec(FRESH, es).recovery && m.inCall == InCall(es)
    ensures Recover(m, cleared).trace == m.trace + Recovering(es)
  {
    RecoverLogs(m, cleared);
    if !InCall(es) {
      LadderAct(es);
    }
  }

  /** Detection goes off in a recovery exactly if its action was a clean-up that was let through. */
  predicate CleansUp(acts: seq<Act>) {
    Cleanup in acts || RadioOff in acts
  }

  lemma RecoverStops(m: Monitor, es: seq<Event>, cleared: bool)
    requires m.recovery == Exec(FRESH, es).recovery && m.inCall == InCall(es)
    ensures Recover(m, cleared).enabled <==> m.enabled && !(cleared && CleansUp(Recovering(es)))
  {
    if !InCall(es) {
      LadderAct(es);
    }
  }

  lemma TickFlows(es: seq<Event>, e: Event)
    requires e.TimerEvent? && Exec(FRESH, es).pending > 0 && Follows(Exec(FRESH, es), es)
    ensures var m := Exec(FRESH, es);
            var flowed := Flow(m.(pending := m.pending - 1), e.sent, e.recv);
            && flowed.noRecv == WithTick(es, e)
            && flowed.trace == m.trace + (if Replied(e) then [Reset] else [])
            && (Triggered(flowed, e.connected) <==> Due(es, e))
            && (Due(es, e) ==> !Replied(e) && flowed.recovery == m.recovery)
            && flowed.inCall == m.inCall && flowed.screenOn == m.screenOn && flowed.enabled == m.enabled
  {
    LastRung(es);
  }

  /** One tick while detection is on. */
  lemma TickActs(es: seq<Event>, e: Event)
    requires e.TimerEvent? && Detecting(es) && Follows(Exec(FRESH, es), es)
    ensures var m := Exec(FRESH, es);
            var n := Step(m, e);
            var acts := if Due(es, e) then Recovering(es) else [];
            && n.trace == m.trace + (if Replied(e) then [Reset] else []) + acts
            && n.noRecv == (if Due(es, e) then 0 else WithTick(es, e))
            && (n.enabled <==> !(e.cleared && CleansUp(acts)))
            && n.inCall == m.inCall && n.screenOn == m.screenOn
  {
    var m := Exec(FRESH, es);
    OneTimerWhileEnabled(es);
    var flowed := Flow(m.(pending := m.pending - 1), e.sent, e.recv);
    TickFlows(es, e);
    if Due(es, e) {
      RecoverActs(flowed, es, e.cleared);
      RecoverStops(flowed, es, e.cleared);
      Recovered(m, e, flowed);
    } else {
      NotRecovered(m, e, flowed);
    }
  }

  lemma Recovered(m: Monitor, e: Event, flowed: Monitor)
    requires e.TimerEvent? && m.pending > 0 && flowed == Flow(m.(pending := m.pending - 1), e.sent, e.recv)
    requires Triggered(flowed, e.connected)
    ensures var n, r := Step(m, e), Recover(flowed, e.cleared);
            && n.trace == r.trace && n.enabled == r.enabled && n.noRecv == 0
            && n.inCall == flowed.inCall && n.screenOn == flowed.screenOn
  {
  }

  lemma NotRecovered(m: Monitor, e: Event, flowed: Monitor)
    requires e.TimerEvent? && m.pending > 0 && flowed == Flow(m.(pending := m.pending - 1), e.sent, e.recv)
    requires !Triggered(flowed, e.connected)
    ensures Step(m, e) == Arm(flowed)
  {
  }

  lemma {:induction false} RunFollows(es: seq<Event>)
    ensures Follows(Exec(FRESH, es), es)
    decreases |es|
  {
    if es != [] {
      var front, e := Before(es), Last(es);
      RunFollows(front);
      if e.TimerEvent? {
        if Detecting(front) {
          TickActs(front, e);
        } else {
          OneTimerWhileEnabled(front);
        }
      } else if e.JudgeEvent? {
        JudgeKeeps(Exec(FRESH, front), e);
      }
    }
  }

  lemma JudgeKeeps(m: Monitor, e: Event)
    requires e.JudgeEvent?
    ensures var n := Step(m, e); n.noRecv == m.noRecv && n.inCall == m.inCall && n.screenOn == m.screenOn
  {
  }

  // ---- When the monitor acts ----

  /** Over every run: a tick recovers exactly if detection is on and more than ten packets have
      gone unanswered since the last reply or started recovery, this tick's included, or the
      ladder stands on its last rung with nothing connected. Then it takes the next action of
      the ladder, or falls back during a call; a reply falls back too. */
  lemma TickRecovers(es: seq<Event>, e: Event)
    requires e.TimerEvent?
    ensures Exec(FRESH, es + [e]).trace ==
            Exec(FRESH, es).trace +
            (if Detecting(es) && Replied(e) then [Reset] else []) +
            (if Detecting(es) && Due(es, e) then Recovering(es) else [])
  {
    SameRun(es, e);
    RunFollows(es);
    if Detecting(es) {
      TickActs(es, e);
    } else {
      OneTimerWhileEnabled(es);
    }
  }

  /** Of the other events only the verdict acts: it recovers if it has to, else falls back. */
  lemma OthersAct(es: seq<Event>, e: Event)
    requires !e.TimerEvent?
    ensures Exec(FRESH, es + [e]).trace ==
            Exec(FRESH, es).trace +
            if e.JudgeEvent? then (if e.need then Recovering(es) else [Reset]) else []
  {
    SameRun(es, e);
    RunFollows(es);
    if e.JudgeEvent? {
      RecoverActs(Exec(FRESH, es), es, e.cleared);
    }
  }

  /** What an event lets the ladder do. */
  ghost function ActsOf(es: seq<Event>, e: Event): seq<Act> {
    if e.TimerEvent? then (if Detecting(es) && Due(es, e) then Recovering(es) else [])
    else if e.JudgeEvent? && e.need then Recovering(es)
    else []
  }

  /** Detection is on after a start and after a watched change of the screen, off after a stop
      and after a clean-up or radio-off that was let through, and otherwise as it was. */
  lemma DetectionExactly(es: seq<Event>, e: Event)
    ensures Detecting(es + [e]) <==>
              || e.StartDetection?
              || (e.ScreenEvent? && e.watched && e.on != ScreenIsOn(es))
              || (Detecting(es) && !e.StopDetection? &&
                  !((e.TimerEvent? || e.JudgeEvent?) && e.cleared && CleansUp(ActsOf(es, e))))
  {
    SameRun(es, e);
    RunFollows(es);
    if e.TimerEvent? {
      if Detecting(es) {
        TickActs(es, e);
      } else {
        OneTimerWhileEnabled(es);
      }
    } else if e.JudgeEvent? {
      RecoverStops(Exec(FRESH, es), es, e.cleared);
    }
  }

  /** A first burst of more than ten unanswered packets asks for the context list. */
  lemma FirstBurst(sent: int)
    requires sent > 0
    ensures var run := [StartDetection, TimerEvent(sent, 0, true, true)];
            Exec(FRESH, run).trace == if sent > 10 then [AskContextList] else []
  {
    var e := TimerEvent(sent, 0, true, true);
    var start := [StartDetection];
    assert start[..0] == [] && Exec(FRESH, []) == FRESH;
    assert Exec(FRESH, start) == Start(FRESH);
    TickRecovers(start, e);
    assert start + [e] == [StartDetection, e];
    assert Unanswered(start) == Unanswered([]) == 0;
    assert InCall(start) == InCall([]) == false;
  }
}
