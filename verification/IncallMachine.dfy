/** Switching the default data slot during a call: the in-call machine, whose own record of
    its state can differ from the event handler's after a transition requested on entry. */
module IncallMachine {
  datatype Phase = Unstarted | Idle | ActivatingSecondary | ActivatedSecondary | DeactivatingSecondary

  datatype Incall = Incall(
    cur: Phase,          // the event handler's state
    dest: Phase,         // where it is asked to go
    recorded: Phase,     // the machine's own record
    slot: int,
    callOver: bool,
    defaultSlot: int,
    primarySlot: int,
    completes: nat)      // completion messages sent to the data handler

  datatype Event =
    | Start
    | CallStarted(ready: bool, tsts: bool)
    | CallEnded
    | SettingsOn(ready: bool, tsts: bool)
    | SettingsOff(switchOn: bool)
    | DsdsChanged(ready: bool, tsts: bool)
    | DataConnected
    | DataDisconnected

  predicate Secondary(p: Phase) {
    p.ActivatingSecondary? || p.ActivatedSecondary?
  }

  function TargetSlot(slot: int, defaultSlot: int, tsts: bool): int {
    if slot == 3 && tsts then (if defaultSlot == 1 then 0 else 1) else slot
  }

  // ---- Events in each state ----

  /** The secondary card takes over the data connection, if it can and has not yet. */
  function TakeOver(m: Incall, ready: bool, tsts: bool): Incall {
    var target := TargetSlot(m.slot, m.defaultSlot, tsts);
    if ready && m.defaultSlot != target
    then m.(dest := ActivatingSecondary, defaultSlot := target) else m
  }

  function GiveBack(m: Incall): Incall {
    m.(dest := if m.defaultSlot != m.primarySlot then DeactivatingSecondary else Idle)
  }

  function Handle(m: Incall, e: Event): Incall {
    match m.cur
    case Unstarted => m
    case Idle =>
      (match e
       case CallStarted(ready, tsts) => TakeOver(m, ready, tsts)
       case SettingsOn(ready, tsts) => TakeOver(m, ready, tsts)
       case DsdsChanged(ready, tsts) => TakeOver(m, ready, tsts)
       case CallEnded => m.(completes := m.completes + 1)
       case _ => m)
    case DeactivatingSecondary =>
      if e.DataDisconnected? && m.slot != m.primarySlot then m.(dest := Idle) else m
    case _ =>
      (match e
       case DataConnected => if m.cur.ActivatingSecondary? then m.(dest := ActivatedSecondary) else m
       case CallEnded => if m.callOver then GiveBack(m) else m
       case SettingsOff(on) => if !on then GiveBack(m) else m
       case _ => m)
  }

  // ---- Transitions ----

  function Begin(m: Incall, p: Phase, connected: bool): Incall {
    match p
    case Unstarted => m
    case Idle => m.(recorded := Idle, completes := m.completes + if m.callOver then 1 else 0)
    case DeactivatingSecondary =>
      var n := m.(recorded := p);
      var moved := if m.defaultSlot != m.primarySlot then n.(defaultSlot := m.primarySlot) else n.(dest := Idle);
      if connected then moved else moved.(dest := Idle)
    case _ => m.(recorded := p)
  }

  /** The state entered last is whatever the target is after the entry code ran. */
  function Transit(m: Incall, connected: bool): Incall {
    if m.cur == m.dest then m
    else var b := Begin(m, m.dest, connected); b.(cur := b.dest)
  }

  function Process(m: Incall, e: Event, connected: bool): Incall {
    if e.Start? then
      var b := Begin(m.(dest := Idle), Idle, connected);
      Transit(b.(cur := Idle), connected)
    else Transit(Handle(m, e), connected)
  }

  // ---- Runs ----

  datatype Action =
    | Deliver(e: Event, connected: bool)
    | CallState(over: bool)
    | Slots(defaultSlot: int, primarySlot: int)

  function Step(m: Incall, a: Action): Incall {
    match a
    case Deliver(e, connected) => Process(m, e, connected)
    case CallState(over) => m.(callOver := over)
    case Slots(d, p) => m.(defaultSlot := d, primarySlot := p)
  }

  function Exec(m: Incall, run: seq<Action>): Incall {
    if run == [] then m else Step(Exec(m, run[..|run| - 1]), run[|run| - 1])
  }

  function Fresh(slot: int, callOver: bool, defaultSlot: int, primarySlot: int): Incall {
    Incall(Unstarted, Unstarted, Unstarted, slot, callOver, defaultSlot, primarySlot, 0)
  }

  class IncallDataStateMachine {
    var curState: Phase
    var destState: Phase
    var currentState: Phase
    var slotId: int
    var callOver: bool
    var defaultSlotId: int
    var primarySlotId: int
    var completes: nat

    ghost function View(): Incall
      reads this
    {
      Incall(curState, destState, currentState, slotId, callOver, defaultSlotId, primarySlotId, completes)
    }

    constructor (slot: int, over: bool, defaultSlot: int, primarySlot: int)
      ensures View() == Fresh(slot, over, defaultSlot, primarySlot)
    {
      curState, destState, currentState, completes := Unstarted, Unstarted, Unstarted, 0;
      slotId, callOver, defaultSlotId, primarySlotId := slot, over, defaultSlot, primarySlot;
    }

    method StateBegin(p: Phase, connected: bool)
      modifies this
      ensures View() == Begin(old(View()), p, connected)
    {
      match p
      case Unstarted =>
      case Idle =>
        currentState := p;
        if callOver {
          completes := completes + 1;
        }
      case DeactivatingSecondary =>
        currentState := p;
        if defaultSlotId != primarySlotId {
          defaultSlotId := primarySlotId;
        } else {
          destState := Idle;
        }
        if !connected {
          destState := Idle;
        }
      case _ => currentState := p;
    }

    method ProcessTransitions(connected: bool)
      modifies this
      ensures View() == Transit(old(View()), connected)
    {
      if curState != destState {
        StateBegin(destState, connected);
        curState := destState;
      }
    }

    method ActivateSecondary(ready: bool, tsts: bool)
      modifies this
      ensures View() == TakeOver(old(View()), ready, tsts)
    {
      if ready {
        var target := TargetSlot(slotId, defaultSlotId, tsts);
        if defaultSlotId != target {
          destState := ActivatingSecondary;
          defaultSlotId := target;
        }
      }
    }

    method LeaveSecondary()
      modifies this
      ensures View() == GiveBack(old(View()))
    {
      if defaultSlotId != primarySlotId {
        destState := DeactivatingSecondary;
      } else {
        destState := Idle;
      }
    }

    method ProcessMsg(e: Event)
      modifies this
      ensures View() == Handle(old(View()), e)
    {
      match curState
      case Unstarted =>
      case Idle =>
        if e.CallStarted? || e.SettingsOn? || e.DsdsChanged? {
          ActivateSecondary(e.ready, e.tsts);
        } else if e.CallEnded? {
          completes := completes + 1;
        }
      case DeactivatingSecondary =>
        if e.DataDisconnected? && slotId != primarySlotId {
          destState := Idle;
        }
      case ActivatingSecondary =>
        if e.DataConnected? {
          destState := ActivatedSecondary;
        } else {
          SecondaryActive(e);
        }
      case ActivatedSecondary => SecondaryActive(e);
    }

    /** The parent of the two secondary-active states. */
    method SecondaryActive(e: Event)
      modifies this
      ensures var m := old(View());
              View() == if (e.CallEnded? && m.callOver) || (e.SettingsOff? && !e.switchOn) then GiveBack(m) else m
    {
      if (e.CallEnded? && callOver) || (e.SettingsOff? && !e.switchOn) {
        LeaveSecondary();
      }
    }

    method ProcessEvent(e: Event, connected: bool)
      modifies this
      ensures View() == Process(old(View()), e, connected)
    {
      if e.Start? {
        destState := Idle;
        StateBegin(Idle, connected);
        curState := Idle;
      } else {
        ProcessMsg(e);
      }
      ProcessTransitions(connected);
    }

    method IsSecondaryActiveState() returns (yes: bool)
      ensures yes == Secondary(currentState)
    {
      yes := currentState == ActivatingSecondary || currentState == ActivatedSecondary;
    }
  }

  // ---- Theorems ----

  /** The handler has settled, and the record differs only as Deactivating over Idle. */
  ghost predicate Agrees(m: Incall) {
    && m.dest == m.cur
    && (m.recorded == m.cur || (m.cur.Idle? && m.recorded.DeactivatingSecondary?))
  }

  lemma ProcessAgrees(m: Incall, e: Event, connected: bool)
    requires Agrees(m)
    ensures Agrees(Process(m, e, connected))
  {
  }

  lemma {:induction false} RunAgrees(m: Incall, run: seq<Action>)
    requires Agrees(m)
    ensures Agrees(Exec(m, run))
    decreases |run|
  {
    if run != [] {
      RunAgrees(m, run[..|run| - 1]);
      var a := run[|run| - 1];
      if a.Deliver? {
        ProcessAgrees(Exec(m, run[..|run| - 1]), a.e, a.connected);
      }
    }
  }

  /** After every run the record and the event handler agree on being secondary-active. */
  lemma SecondaryActiveIsReal(slot: int, over: bool, d: int, p: int, run: seq<Action>)
    ensures var m := Exec(Fresh(slot, over, d, p), run);
            Secondary(m.recorded) <==> Secondary(m.cur)
  {
    RunAgrees(Fresh(slot, over, d, p), run);
  }

  /** Every event that ends secondary-active leaves the default slot on the primary card. */
  lemma LeavingRestoresPrimary(slot: int, over: bool, d: int, p: int, run: seq<Action>, e: Event, connected: bool)
    requires !e.Start?
    ensures var m := Exec(Fresh(slot, over, d, p), run);
            var n := Process(m, e, connected);
            Secondary(m.cur) && !Secondary(n.cur) ==> n.defaultSlot == n.primarySlot == m.primarySlot
  {
    RunAgrees(Fresh(slot, over, d, p), run);
  }

  /** Such an event makes the record differ from the handler's state exactly when the slot
      had to be moved and no connection was up; then the call is over without the completion
      message that entering Idle would have sent. */
  lemma RecordDiverges(m: Incall, e: Event, connected: bool)
    requires Agrees(m) && Secondary(m.cur) && !e.Start?
    requires !Secondary(Process(m, e, connected).cur)
    ensures var n := Process(m, e, connected);
            && (n.recorded != n.cur <==> m.defaultSlot != m.primarySlot && !connected)
            && (n.recorded != n.cur ==> n.cur.Idle? && n.completes == m.completes)
            && (n.recorded == n.cur && n.cur.Idle? && m.callOver ==> n.completes == m.completes + 1)
  {
  }

  /** The slot that an event can move the data connection to: for the shared slot with two
      stand-by cards the other one, else the machine's own. */
  ghost predicate Wanted(m: Incall, tsts: bool, target: int) {
    if m.slot == 3 && tsts then target == (if m.defaultSlot == 1 then 0 else 1) else target == m.slot
  }

  /** In every run an event enters secondary-active exactly if the machine is idle, the event
      is a call start, a settings change or a change of the stand-by mode, the secondary card
      is ready, and the wanted slot is not the default one yet; then that slot is the default. */
  lemma EntersExactly(slot: int, over: bool, d: int, p: int, run: seq<Action>, e: Event, connected: bool)
    requires !e.Start?
    ensures var m := Exec(Fresh(slot, over, d, p), run);
            var n := Process(m, e, connected);
            && (!Secondary(m.cur) && Secondary(n.cur) <==>
                  && m.cur.Idle? && (e.CallStarted? || e.SettingsOn? || e.DsdsChanged?)
                  && e.ready && !Wanted(m, e.tsts, m.defaultSlot))
            && (!Secondary(m.cur) && Secondary(n.cur) ==>
                  && Wanted(m, e.tsts, n.defaultSlot) && n.defaultSlot != m.defaultSlot
                  && n.recorded == n.cur == ActivatingSecondary)
  {
    RunAgrees(Fresh(slot, over, d, p), run);
  }

  /** An event ends secondary-active exactly if it is a call end with the call over, or a
      settings change to off. */
  ghost predicate Leaves(m: Incall, e: Event) {
    Secondary(m.cur) && ((e.CallEnded? && m.callOver) || (e.SettingsOff? && !e.switchOn))
  }

  /** An event ends the deactivation exactly if it is a disconnect and the primary card is
      another one. */
  ghost predicate Settles(m: Incall, e: Event) {
    m.cur.DeactivatingSecondary? && e.DataDisconnected? && m.slot != m.primarySlot
  }

  /** In every run: where each event leads, and when the completion message is sent. */
  lemma MovesExactly(slot: int, over: bool, d: int, p: int, run: seq<Action>, e: Event, connected: bool)
    requires !e.Start?
    ensures var m := Exec(Fresh(slot, over, d, p), run);
            var n := Process(m, e, connected);
            && (Secondary(m.cur) && !Secondary(n.cur) <==> Leaves(m, e))
            && (m.cur.ActivatingSecondary? && n.cur.ActivatedSecondary? <==> m.cur.ActivatingSecondary? && e.DataConnected?)
            && (n.cur.DeactivatingSecondary? <==>
                  if m.cur.DeactivatingSecondary? then !Settles(m, e)
                  else Leaves(m, e) && m.defaultSlot != m.primarySlot && connected)
            && n.completes == m.completes +
                 if (m.cur.Idle? && e.CallEnded?) ||
                    (m.callOver && (Settles(m, e) || (Leaves(m, e) && m.defaultSlot == m.primarySlot))) then 1 else 0
  {
    RunAgrees(Fresh(slot, over, d, p), run);
  }

  /** A run in which that happens: the call ends before anything was connected. */
  lemma RecordCanDiverge() returns (run: seq<Action>)
    ensures var m := Exec(Fresh(1, false, 0, 0), run);
            m.cur.Idle? && m.recorded.DeactivatingSecondary? && m.callOver && m.completes == 0
  {
    var a := Deliver(Start, false);
    var b := Deliver(CallStarted(true, false), false);
    var c := CallState(true);
    var d := Deliver(CallEnded, false);
    run := [a, b, c, d];
    var m0 := Fresh(1, false, 0, 0);
    assert run[..3] == [a, b, c] && [a, b, c][..2] == [a, b] && [a, b][..1] == [a] && [a][..0] == [];
    assert Exec(m0, []) == m0;
    var m1 := Step(m0, a);
    assert Exec(m0, [a]) == m1 && m1.cur.Idle?;
    var m2 := Step(m1, b);
    assert Exec(m0, [a, b]) == m2 && m2.cur.ActivatingSecondary? && m2.defaultSlot == 1;
    var m3 := Step(m2, c);
    assert Exec(m0, [a, b, c]) == m3;
    assert Exec(m0, run) == Step(m3, d);
  }
}
