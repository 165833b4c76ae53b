/** The completions a machine actually sends, over whole runs. */
module ProtocolMessages {
  import opened Options
  import opened ReasonCodes
  import opened ConnectionMachine
  import opened AttemptInvariant
  import opened Handler
  import opened Protocol
  import opened ProtocolFrames
  import opened ProtocolTheorems

  /** The completions among some reports. */
  function Dones(q: seq<Report>): seq<Report> {
    if q == [] then [] else (if q[0].Disconnected? then [q[0]] else []) + Dones(q[1..])
  }

  /** What the action makes of its machine. */
  function OutcomeOf(s: System, a: Action): Outcome
    requires OfMachine(a) && a.i < |s.pool|
  {
    var m := s.pool[a.i];
    match a
    case Dispatch(_) => if HasNext(m) then DispatchNext(m) else Stay(m)
    case ConnectTimer(_, id, elapsed) => FireConnectCheck(m, id, elapsed)
    case DisconnectTimer(_, id) => FireDisconnectCheck(m, id)
    case InterfaceGone(_) => Stay(InterfaceDown(m))
    case ModemAnswer(_, e) => if IsAnswer(e) then Stay(Post(m, e)) else Stay(m)
  }

  /** The completions machine i sends in one step. */
  function StepSends(s: System, a: Action, i: nat): seq<Report> {
    if OfMachine(a) && a.i == i && i < |s.pool| then Dones(OutcomeOf(s, a).out) else []
  }

  /** The completions machine i sends in a run. */
  function Sent(run: seq<Action>, i: nat): seq<Report> {
    if run == [] then []
    else Sent(run[..|run| - 1], i) + StepSends(Exec(Boot(), run[..|run| - 1]), run[|run| - 1], i)
  }

  /** Reports reach the inbox when they are sent, and only then. */
  lemma SentReachesInbox(s: System, a: Action)
    requires OfMachine(a) && a.i < |s.pool|
    ensures var s' := MachineAction(s, a);
            s'.inbox == s.inbox + OutcomeOf(s, a).out && |s'.pool| == |s.pool| && s'.pool[a.i] == OutcomeOf(s, a).m
    ensures forall j | 0 <= j < |s.pool| && j != a.i :: MachineAction(s, a).pool[j] == s.pool[j]
  {
  }

  // ---- One event ----

  /** The completion list grew from before by exactly what was sent. */
  ghost predicate Logs(before: seq<Attempt>, r: Outcome) {
    var d := Dones(r.out);
    && (d == [] ==> r.m.completed == before)
    && (d != [] ==>
          && |d| == 1 && d[0].Disconnected?
          && |r.m.completed| == |before| + 1 && r.m.completed[..|before|] == before
          && r.m.completed[|before|].holder == d[0].flag
          && d[0].origin == |before| + 1)
  }

  lemma StayLogs(m: Machine, m': Machine)
    requires m'.completed == m.completed
    ensures Logs(m.completed, Stay(m'))
  {
  }

  lemma EnterLogs(m: Machine)
    requires m.deactiveApnId != ERROR_APN_ID && m.stored.Some? && m.stored.value.attempt == |m.completed| + 1
    ensures Logs(m.completed, EnterInactive(m))
  {
    var r := EnterInactive(m);
    assert Dones(r.out) == r.out + Dones(r.out[1..]);
    assert r.out[1..] == [];
  }

  lemma FinishLogs(m: Machine, info: CallInfo)
    requires m.apnId != ERROR_APN_ID && |m.accepted| == |m.completed| + 1
    ensures Logs(m.completed, Finish(m, info))
  {
    EnterLogs(m.(stored := Some(Stored(info, |m.accepted|)), deactiveApnId := m.apnId));
  }

  lemma QuietLogs(m: Machine, r: Outcome)
    requires r.m.completed == m.completed && forall i | 0 <= i < |r.out| :: r.out[i].Established?
    ensures Logs(m.completed, r)
  {
    NoDones(r.out);
  }

  lemma {:induction false} NoDones(q: seq<Report>)
    requires forall i | 0 <= i < |q| :: q[i].Established?
    ensures Dones(q) == []
  {
    if q != [] {
      NoDones(q[1..]);
    }
  }

  /** Either the attempt ends through one of the two exits, or nothing is completed. */
  lemma ProcessLogs(m: Machine, e: Event)
    requires Sane(m)
    ensures Logs(m.completed, Process(m, e))
  {
    var r := Process(m, e);
    if Running(m) && r.m.phase.Inactive? {
      EndLogs(m, e);
    } else {
      QuietLogs(m, r);
    }
  }

  ghost predicate Ends(m: Machine, e: Event) {
    HistoryOk(m) && Running(m) && m.apnId != ERROR_APN_ID && Process(m, e).m.phase.Inactive?
  }

  lemma EndLogs(m: Machine, e: Event)
    requires Ends(m, e)
    ensures Logs(m.completed, Process(m, e))
  {
    match m.phase
    case Activating => ActivatingEndLogs(m, e);
    case Active => ActiveEndLogs(m, e);
    case Disconnecting => DisconnectingEndLogs(m, e);
  }

  lemma ActivatingEndLogs(m: Machine, e: Event)
    requires Ends(m, e) && m.phase.Activating?
    ensures Logs(m.completed, Process(m, e))
  {
    if e.SetupDone? {
      FinishLogs(m.(cid := e.call.cid), e.call.(scene := SetupData));
    } else {
      FinishLogs(m, ReasonOnly(Retry));
    }
  }

  lemma ActiveEndLogs(m: Machine, e: Event)
    requires Ends(m, e) && m.phase.Active?
    ensures Logs(m.completed, Process(m, e))
  {
    FinishLogs(m, if e.LostConnection? then e.lost else EMPTY_CALL);
  }

  lemma DisconnectingEndLogs(m: Machine, e: Event)
    requires Ends(m, e) && m.phase.Disconnecting?
    ensures Logs(m.completed, Process(m, e))
  {
    if e.DeactivateDone? || e.DeactivateEmpty? {
      EnterLogs(m.(disconnectChecks := multiset{}, deactiveApnId := m.apnId));
    } else {
      FinishLogs(m, ReasonOnly(Retry));
    }
  }

  ghost predicate Sane(m: Machine) {
    HistoryOk(m) && (Running(m) ==> m.apnId != ERROR_APN_ID)
  }

  lemma DispatchLogs(m: Machine)
    requires Sane(m) && HasNext(m)
    ensures Logs(m.completed, DispatchNext(m))
  {
    ProcessLogs(Popped(m), NextEvent(m));
  }

  lemma ConnectTimerLogs(m: Machine, id: nat, elapsed: bool)
    requires Sane(m)
    ensures Logs(m.completed, FireConnectCheck(m, id, elapsed))
  {
    ProcessLogs(m.(connectChecks := m.connectChecks - multiset{id}), ConnectCheck(id, elapsed));
    StayLogs(m, m);
  }

  lemma DisconnectTimerLogs(m: Machine, id: nat)
    requires Sane(m)
    ensures Logs(m.completed, FireDisconnectCheck(m, id))
  {
    ProcessLogs(m.(disconnectChecks := m.disconnectChecks - multiset{id}), DisconnectCheck(id));
    StayLogs(m, m);
  }

  lemma OutcomeLogs(s: System, a: Action)
    requires OfMachine(a) && a.i < |s.pool| && Sane(s.pool[a.i])
    ensures Logs(s.pool[a.i].completed, OutcomeOf(s, a))
  {
    var m := s.pool[a.i];
    StayLogs(m, m);
    match a
    case Dispatch(_) => if HasNext(m) { DispatchLogs(m); }
    case ConnectTimer(_, id, elapsed) => ConnectTimerLogs(m, id, elapsed);
    case DisconnectTimer(_, id) => DisconnectTimerLogs(m, id);
    case InterfaceGone(_) => StayLogs(m, InterfaceDown(m));
    case ModemAnswer(_, e) => StayLogs(m, Post(m, e));
  }

  lemma ReachableSane(s: System, i: nat)
    requires Reachable(s) && i < |s.pool|
    ensures Sane(s.pool[i])
  {
    MachineHistory(s, i);
    if Running(s.pool[i]) {
      ReachableInv(s);
      var h := RunningIsHeld(s, i);
    }
  }

  // ---- Whole runs ----

  /** Completion k went to the holder of accepted attempt k and carries that attempt's result. */
  ghost predicate Matches(sent: seq<Report>, completed: seq<Attempt>) {
    && |sent| == |completed|
    && forall k | 0 <= k < |sent| ::
         sent[k].Disconnected? && sent[k].flag == completed[k].holder && sent[k].origin == k + 1
  }

  lemma LogsMatch(sent: seq<Report>, m: Machine, r: Outcome)
    requires Matches(sent, m.completed) && Logs(m.completed, r)
    ensures Matches(sent + Dones(r.out), r.m.completed)
  {
    var d := Dones(r.out);
    DonesAreDone(r.out);
    if d == [] {
      assert sent + d == sent;
    } else {
      forall k | 0 <= k < |sent|
        ensures r.m.completed[k] == m.completed[k]
      {
        assert r.m.completed[..|m.completed|][k] == m.completed[k];
      }
    }
  }

  lemma {:induction false} DonesAreDone(q: seq<Report>)
    ensures forall k | 0 <= k < |Dones(q)| :: Dones(q)[k].Disconnected?
  {
    if q != [] {
      DonesAreDone(q[1..]);
    }
  }

  function CompletedBy(s: System, i: nat): seq<Attempt> {
    if i < |s.pool| then s.pool[i].completed else []
  }

  lemma HandlerCompletesNothing(s: System, a: Action, i: nat)
    requires !OfMachine(a)
    ensures CompletedBy(HandlerAction(s, a), i) == CompletedBy(s, i)
  {
    HandlerTouches(s, a);
    if i < |HandlerAction(s, a).pool| {
      assert Touched(Before(s, i), HandlerAction(s, a).pool[i], a.HostDeath?);
    }
  }

  lemma StepMatches(s: System, a: Action, i: nat, sent: seq<Report>)
    requires Reachable(s) && Matches(sent, CompletedBy(s, i))
    ensures Matches(sent + StepSends(s, a, i), CompletedBy(Step(s, a), i))
  {
    assert sent + [] == sent;
    if !OfMachine(a) {
      HandlerCompletesNothing(s, a, i);
    } else if a.i < |s.pool| {
      SentReachesInbox(s, a);
      if a.i == i {
        ReachableSane(s, i);
        OutcomeLogs(s, a);
        LogsMatch(sent, s.pool[i], OutcomeOf(s, a));
      }
    }
  }

  /** In every run the completions a machine has sent are, one by one and in order, those of
      its accepted attempts: to the holder of each and with the result of each. Only the
      attempt in progress is without one. */
  lemma {:induction false} EachAttemptCompletedOnce(run: seq<Action>, i: nat)
    ensures var s := Exec(Boot(), run);
            && Matches(Sent(run, i), CompletedBy(s, i))
            && (i < |s.pool| ==>
                  && |Sent(run, i)| + (if Running(s.pool[i]) then 1 else 0) == |s.pool[i].accepted|
                  && forall k | 0 <= k < |Sent(run, i)| :: Sent(run, i)[k].flag == s.pool[i].accepted[k].holder)
    decreases |run|
  {
    var s := Exec(Boot(), run);
    if run != [] {
      var front := run[..|run| - 1];
      EachAttemptCompletedOnce(front, i);
      StepMatches(Exec(Boot(), front), run[|run| - 1], i, Sent(front, i));
    }
    if i < |s.pool| {
      CompletedOnceInOrder(s, i);
    }
  }
}
