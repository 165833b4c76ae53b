/** The event handler under every state machine: what it does with deferred events and with
    targets, whatever the states do. The log of deferrals is bookkeeping. */
module StateMachineFramework {
  import CM = ConnectionMachine

  datatype Handler<S(==), E> = Handler(cur: S, dest: S, deferred: seq<E>, posted: seq<E>, log: seq<E>)

  /** What the states do while one event is processed: events deferred, the target asked for,
      and what the entry code of the target defers and asks for in turn. */
  datatype Reaction<S, E> = Reaction(defers: seq<E>, target: S, late: seq<E>, redirect: S)

  function Defer<S, E>(h: Handler<S, E>, es: seq<E>): Handler<S, E> {
    h.(deferred := h.deferred + es, log := h.log + es)
  }

  function Enter<S, E>(h: Handler<S, E>, r: Reaction<S, E>): Handler<S, E> {
    var begun := Defer(h.(dest := r.redirect), r.late);
    begun.(cur := begun.dest, posted := begun.posted + begun.deferred, deferred := [])
  }

  function ProcessEvent<S(==), E>(h: Handler<S, E>, r: Reaction<S, E>): Handler<S, E> {
    var handled := Defer(h.(dest := r.target), r.defers);
    if handled.cur == handled.dest then handled else Enter(handled, r)
  }

  function Exec<S(==), E>(h: Handler<S, E>, run: seq<Reaction<S, E>>): Handler<S, E> {
    if run == [] then h else ProcessEvent(Exec(h, run[..|run| - 1]), run[|run| - 1])
  }

  ghost predicate Conserves<S, E>(h: Handler<S, E>) {
    h.posted + h.deferred == h.log && h.cur == h.dest
  }

  lemma StepConserves<S, E>(h: Handler<S, E>, r: Reaction<S, E>)
    requires Conserves(h)
    ensures Conserves(ProcessEvent(h, r))
  {
    var handled := Defer(h.(dest := r.target), r.defers);
    assert handled.posted + handled.deferred == handled.log;
    if handled.cur != handled.dest {
      var begun := Defer(handled.(dest := r.redirect), r.late);
      assert begun.posted + begun.deferred == begun.log;
      assert (begun.posted + begun.deferred) + [] == begun.log;
    }
  }

  /** Over any run, what was posted again and what still waits is what was deferred, each
      once and in order; the handler rests in its target. */
  lemma {:induction false} NoDeferredEventLost<S, E>(h: Handler<S, E>, run: seq<Reaction<S, E>>)
    requires Conserves(h)
    ensures Conserves(Exec(h, run))
    decreases |run|
  {
    if run != [] {
      NoDeferredEventLost(h, run[..|run| - 1]);
      StepConserves(Exec(h, run[..|run| - 1]), run[|run| - 1]);
    }
  }

  // ---- The connection machine follows these rules ----

  function Deferrals(m: CM.Machine, e: CM.Event): seq<CM.Event> {
    if (m.phase.Activating? || m.phase.Disconnecting?) && (e.Connect? || e.Disconnect?) then [e]
    else if m.phase.Activating? && CM.Process(m, e).m.phase.Active? then [e]
    else []
  }

  function Rules(m: CM.Machine, log: seq<CM.Event>): Handler<CM.Phase, CM.Event> {
    Handler(m.phase, m.phase, m.deferred, m.immediate, log)
  }

  /** Processing an event is one step of the handler, with no redirection on entry. */
  lemma MachineFollowsRules(m: CM.Machine, e: CM.Event, log: seq<CM.Event>)
    ensures var n := CM.Process(m, e).m;
            var d := Deferrals(m, e);
            Rules(n, log + d) == ProcessEvent(Rules(m, log), Reaction(d, n.phase, [], n.phase))
  {
    var n := CM.Process(m, e).m;
    var d := Deferrals(m, e);
    assert m.deferred + d + [] == m.deferred + d;
    assert log + d + [] == log + d;
    if n.phase == m.phase {
      StayingPut(m, e);
    } else {
      Moving(m, e);
    }
  }

  lemma StayingPut(m: CM.Machine, e: CM.Event)
    requires CM.Process(m, e).m.phase == m.phase
    ensures CM.Process(m, e).m.deferred == m.deferred + Deferrals(m, e)
    ensures CM.Process(m, e).m.immediate == m.immediate
  {
  }

  lemma Moving(m: CM.Machine, e: CM.Event)
    requires CM.Process(m, e).m.phase != m.phase
    ensures CM.Process(m, e).m.deferred == []
    ensures CM.Process(m, e).m.immediate == m.immediate + (m.deferred + Deferrals(m, e))
  {
    assert m.deferred + [] == m.deferred;
  }

  /** What can happen at a machine: the dispatcher takes its next event, a timer fires, or
      an event arrives. */
  datatype Op = Take | Fire(timer: CM.Event) | Arrive(event: CM.Event)

  /** A machine, the immediate events dispatched so far, and all that it deferred. */
  datatype Trail = Trail(m: CM.Machine, taken: seq<CM.Event>, deferrals: seq<CM.Event>)

  function Do(t: Trail, op: Op): Trail {
    match op
    case Take =>
      if !CM.HasNext(t.m) then t
      else
        Trail(CM.DispatchNext(t.m).m,
              if t.m.immediate != [] then t.taken + [t.m.immediate[0]] else t.taken,
              t.deferrals + Deferrals(CM.Popped(t.m), CM.NextEvent(t.m)))
    case Fire(e) => Trail(CM.Process(t.m, e).m, t.taken, t.deferrals + Deferrals(t.m, e))
    case Arrive(e) => t.(m := CM.Post(t.m, e))
  }

  function Drive(m: CM.Machine, ops: seq<Op>): Trail {
    if ops == [] then Trail(m, [], []) else Do(Drive(m, ops[..|ops| - 1]), ops[|ops| - 1])
  }

  /** Immediate events dispatched, waiting and still deferred, against what there was and what
      was deferred since. */
  ghost predicate Balanced(start: seq<CM.Event>, t: Trail) {
    t.taken + t.m.immediate + t.m.deferred == start + t.deferrals
  }

  lemma ProcessBalances(start: seq<CM.Event>, t: Trail, e: CM.Event)
    requires Balanced(start, t)
    ensures Balanced(start, Trail(CM.Process(t.m, e).m, t.taken, t.deferrals + Deferrals(t.m, e)))
  {
    var n := CM.Process(t.m, e).m;
    var d := Deferrals(t.m, e);
    if n.phase == t.m.phase {
      StayingPut(t.m, e);
    } else {
      Moving(t.m, e);
    }
    assert t.taken + n.immediate + n.deferred == (t.taken + t.m.immediate + t.m.deferred) + d;
    assert start + (t.deferrals + d) == (start + t.deferrals) + d;
  }

  lemma DoBalances(start: seq<CM.Event>, t: Trail, op: Op)
    requires Balanced(start, t)
    ensures Balanced(start, Do(t, op))
  {
    match op
    case Take =>
      if CM.HasNext(t.m) {
        var taken := if t.m.immediate != [] then t.taken + [t.m.immediate[0]] else t.taken;
        var p := Trail(CM.Popped(t.m), taken, t.deferrals);
        assert taken + p.m.immediate == t.taken + t.m.immediate;
        ProcessBalances(start, p, CM.NextEvent(t.m));
      }
    case Fire(e) => ProcessBalances(start, t, e);
    case Arrive(_) =>
  }

  /** Whatever is dispatched, fires or arrives, each event the machine defers is dispatched
      again once and in order, or still waits. */
  lemma {:induction false} MachineLosesNothing(m: CM.Machine, ops: seq<Op>)
    requires m.deferred == []
    ensures Balanced(m.immediate, Drive(m, ops))
    decreases |ops|
  {
    if ops != [] {
      MachineLosesNothing(m, ops[..|ops| - 1]);
      DoBalances(m.immediate, Drive(m, ops[..|ops| - 1]), ops[|ops| - 1]);
    }
  }
}
