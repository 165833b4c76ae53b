/** How attempts end and what their completions carry: over every run, and as far as the
    handler's reaction to the completion it reads. */
module ProtocolEndings {
  import opened Options
  import opened ReasonCodes
  import opened ConnectionMachine
  import opened AttemptInvariant
  import opened Handler
  import opened ProtocolInvariant
  import opened Protocol
  import opened ProtocolFrames
  import opened ProtocolTheorems
  import opened ProtocolMessages
  import opened ProtocolRelease
  import opened HandlerReactions
  import opened HandlerPriority

  datatype Ending =
    | ErrorAnswer                               // the modem answers the set-up with an error
    | ConnectTimeout
    | SetupRefused(call: CallInfo)              // the modem answers with a cause, or not active
    | ConnectionLost(call: CallInfo)
    | HostDiedActive
    | DisconnectTimeout
    | HostDiedReleasing
    | ReleaseConfirmed(reason: DisconnectReason) // of the request that the machine took

  // ---- Which event ends an attempt ----

  function EndsActivating(id: nat, e: Event): Option<Ending> {
    if e == SetupError(id) then Some(ErrorAnswer)
    else if e == ConnectCheck(id, true) then Some(ConnectTimeout)
    else if e.SetupDone? && e.flag == id && (e.call.reason != NoError || !e.call.active) then Some(SetupRefused(e.call))
    else None
  }

  function EndsActive(e: Event): Option<Ending> {
    if e.LostConnection? then Some(ConnectionLost(e.lost))
    else if e.HostDied? then Some(HostDiedActive)
    else None
  }

  function EndsReleasing(id: nat, e: Event, asked: DisconnectReason): Option<Ending> {
    if e == DeactivateDone(id) || e.DeactivateEmpty? then Some(ReleaseConfirmed(asked))
    else if e == DisconnectCheck(id) then Some(DisconnectTimeout)
    else if e.HostDied? then Some(HostDiedReleasing)
    else None
  }

  function EndedBy(m: Machine, e: Event, asked: DisconnectReason): Option<Ending> {
    match m.phase
    case Activating => EndsActivating(m.connectId, e)
    case Active => EndsActive(e)
    case Disconnecting => EndsReleasing(m.connectId, e, asked)
    case _ => None
  }

  // ---- What a completion carries ----

  /** The cause under which a reason travels. */
  ghost predicate TravelsAs(r: DisconnectReason, c: PdpError) {
    && (r == ReasonNormal <==> c == ToNormal)
    && (r == ReasonGsmAndCallingOnly <==> c == ToGsmAndCallingOnly)
    && (r == ReasonRetry <==> c == Retry)
    && (r == ReasonClear <==> c == ToClearConnection)
    && (r == ReasonChange <==> c == ToChangeConnection)
    && (r == ReasonPermanentReject <==> c == ToPermanentReject)
    && (r == ReasonHandover <==> c == NoError)
  }

  ghost predicate Carries(d: Report, x: Ending) {
    && d.Disconnected? && !d.info.active
    && match x
       case SetupRefused(call) =>
         d.info.cid == call.cid && d.info.reason == call.reason && d.info.retryTime == call.retryTime && d.info.scene == SetupData
       case ConnectionLost(call) =>
         d.info.reason == call.reason && d.info.retryTime == call.retryTime && d.info.scene == call.scene
       case HostDiedActive => d.info.reason == NoError && d.info.retryTime == 0
       case ReleaseConfirmed(r) => TravelsAs(r, d.info.reason) && d.info.retryTime == 0
       case _ => d.info.reason == Retry && d.info.retryTime == 0
  }

  /** What a disconnecting machine has stored is the reason it was asked with. */
  ghost predicate StoresAsked(m: Machine, asked: DisconnectReason) {
    m.phase.Disconnecting? ==>
      m.stored.Some? && TravelsAs(asked, m.stored.value.info.reason) && m.stored.value.info.retryTime == 0
  }

  ghost predicate ReportsEnding(r: Outcome, x: Option<Ending>) {
    if x.Some? then |Dones(r.out)| == 1 && Carries(Dones(r.out)[0], x.value) else Dones(r.out) == []
  }

  lemma OneDone(d: Report)
    requires d.Disconnected?
    ensures Dones([d]) == [d]
  {
    assert [d][1..] == [];
  }

  lemma FinishCarries(m: Machine, info: CallInfo, x: Ending)
    requires m.apnId != ERROR_APN_ID
    requires Carries(Disconnected(m.apnId, info.(cid := m.cid, active := false), |m.accepted|), x)
    ensures ReportsEnding(Finish(m, info), Some(x))
  {
    OneDone(Disconnected(m.apnId, info.(cid := m.cid, active := false), |m.accepted|));
  }

  lemma ActivatingReports(m: Machine, e: Event)
    requires m.phase.Activating? && m.apnId != ERROR_APN_ID
    ensures ReportsEnding(ActivatingProcess(m, e), EndsActivating(m.connectId, e))
  {
    if e == SetupError(m.connectId) {
      FinishCarries(m, ReasonOnly(Retry), ErrorAnswer);
    } else if e == ConnectCheck(m.connectId, true) {
      FinishCarries(m, ReasonOnly(Retry), ConnectTimeout);
    } else if e.SetupDone? && e.flag == m.connectId && (e.call.reason != NoError || !e.call.active) {
      FinishCarries(m.(cid := e.call.cid), e.call.(scene := SetupData), SetupRefused(e.call));
    }
  }

  lemma ActiveReports(m: Machine, e: Event)
    requires m.phase.Active? && m.apnId != ERROR_APN_ID
    ensures ReportsEnding(ActiveProcess(m, e), EndsActive(e))
  {
    if e.LostConnection? {
      FinishCarries(m, e.lost, ConnectionLost(e.lost));
    } else if e.HostDied? {
      FinishCarries(m, EMPTY_CALL, HostDiedActive);
    } else {
      NoDones(ActiveProcess(m, e).out);
    }
  }

  lemma ReleasedCarries(m: Machine, asked: DisconnectReason)
    requires m.phase.Disconnecting? && m.apnId != ERROR_APN_ID && StoresAsked(m, asked)
    ensures ReportsEnding(Released(m), Some(ReleaseConfirmed(asked)))
  {
    OneDone(Released(m).out[0]);
  }

  lemma ReleasingReports(m: Machine, e: Event, asked: DisconnectReason)
    requires m.phase.Disconnecting? && m.apnId != ERROR_APN_ID && StoresAsked(m, asked)
    ensures ReportsEnding(DisconnectingProcess(m, e), EndsReleasing(m.connectId, e, asked))
  {
    ReleasedCarries(m, asked);
    FinishCarries(m, ReasonOnly(Retry), DisconnectTimeout);
    FinishCarries(m, ReasonOnly(Retry), HostDiedReleasing);
  }

  /** For every event: the machine sends a completion exactly if the event ends the attempt,
      and the completion carries what that ending calls for. */
  lemma ProcessReports(m: Machine, e: Event, asked: DisconnectReason)
    requires Sane(m) && StoresAsked(m, asked)
    ensures ReportsEnding(Process(m, e), EndedBy(m, e, asked))
  {
    match m.phase
    case Activating => ActivatingReports(m, e);
    case Active => ActiveReports(m, e);
    case Disconnecting => ReleasingReports(m, e, asked);
    case _ =>
  }

  predicate Accepted(m: Machine, e: Event) {
    e.SetupDone? && e.flag == m.connectId && e.call.reason == NoError && e.call.active
  }

  /** Where one event leads: an attempt starts exactly with a connect in Inactive, comes up
      exactly with an accepted set-up of its generation, is released exactly by a request while
      active, and is over exactly with one of the endings. */
  lemma MovesExactly(m: Machine, e: Event, asked: DisconnectReason)
    requires !m.phase.Unstarted?
    ensures var p := Process(m, e).m.phase;
            && (p.Activating? <==>
                  if m.phase.Activating? then !Accepted(m, e) && EndedBy(m, e, asked).None? else m.phase.Inactive? && e.Connect?)
            && (p.Active? <==>
                  if m.phase.Active? then !e.Disconnect? && EndedBy(m, e, asked).None? else m.phase.Activating? && Accepted(m, e))
            && (p.Disconnecting? <==>
                  if m.phase.Disconnecting? then EndedBy(m, e, asked).None? else m.phase.Active? && e.Disconnect?)
  {
    match m.phase
    case Activating => ActivatingMoves(m, e);
    case Active => ActiveMoves(m, e);
    case Disconnecting => ReleasingMoves(m, e, asked);
    case _ =>
  }

  /** An accepted set-up puts the call's cid on the machine, and the machine under that cid in
      the index, whoever was there before. */
  lemma ComesUpIndexed(s: System, i: nat)
    requires i < |s.pool| && s.pool[i].phase.Activating? && HasNext(s.pool[i]) && Accepted(s.pool[i], NextEvent(s.pool[i]))
    ensures var s' := Step(s, Dispatch(i));
            var cid := NextEvent(s.pool[i]).call.cid;
            && i < |s'.pool| && s'.pool[i].phase.Active? && s'.pool[i].cid == cid
            && s'.cidIndex == s.cidIndex[cid := i]
  {
    PoppedSane(s.pool[i]);
  }

  /** A set-up is announced exactly when an active machine meets the answer it deferred; then
      its holder is told, once, and no connect time-out is left. */
  lemma AnnouncesExactly(m: Machine, e: Event)
    requires Sane(m)
    ensures var r := Process(m, e);
            && ((exists d :: d in r.out && d.Established?) <==> m.phase.Active? && e.SetupDone?)
            && (m.phase.Active? && e.SetupDone? ==>
                  r.out == [Established(m.apnId)] && r.m.phase.Active? && r.m.connectChecks == multiset{})
  {
    if m.phase.Active? && e.SetupDone? {
      assert Process(m, e).out[0].Established?;
    }
  }

  lemma ActivatingMoves(m: Machine, e: Event)
    requires m.phase.Activating?
    ensures var p := ActivatingProcess(m, e).m.phase;
            && (p.Inactive? <==> EndsActivating(m.connectId, e).Some?)
            && (p.Active? <==> Accepted(m, e))
            && !p.Disconnecting? && !p.Unstarted?
  {
  }

  lemma ActiveMoves(m: Machine, e: Event)
    requires m.phase.Active?
    ensures var p := ActiveProcess(m, e).m.phase;
            && (p.Inactive? <==> EndsActive(e).Some?) && (p.Disconnecting? <==> e.Disconnect?)
            && !p.Activating? && !p.Unstarted?
  {
  }

  lemma ReleasingMoves(m: Machine, e: Event, asked: DisconnectReason)
    requires m.phase.Disconnecting?
    ensures var p := DisconnectingProcess(m, e).m.phase;
            (p.Inactive? <==> EndsReleasing(m.connectId, e, asked).Some?) && (p.Disconnecting? || p.Inactive?)
  {
  }

  // ---- Runs ----

  /** The event that machine i processes in a step. */
  function EventOf(s: System, a: Action, i: nat): Option<Event> {
    if !OfMachine(a) || a.i != i || i >= |s.pool| then None
    else
      var m := s.pool[i];
      match a
      case Dispatch(_) => if HasNext(m) then Some(NextEvent(m)) else None
      case ConnectTimer(_, id, elapsed) =>
        if m.immediate == [] && id in m.connectChecks then Some(ConnectCheck(id, elapsed)) else None
      case DisconnectTimer(_, id) =>
        if m.immediate == [] && id in m.disconnectChecks then Some(DisconnectCheck(id)) else None
      case _ => None
  }

  /** The reason of the last request that machine i took while active. */
  function Asked(run: seq<Action>, i: nat): DisconnectReason
    decreases |run|
  {
    if run == [] then ReasonNormal
    else
      var s := Exec(Boot(), run[..|run| - 1]);
      var e := EventOf(s, run[|run| - 1], i);
      if e.Some? && e.value.Disconnect? && s.pool[i].phase.Active? then e.value.reason
      else Asked(run[..|run| - 1], i)
  }

  function StepEnds(s: System, a: Action, i: nat, asked: DisconnectReason): seq<Ending> {
    var e := EventOf(s, a, i);
    if e.None? then []
    else
      var x := EndedBy(s.pool[i], e.value, asked);
      if x.Some? then [x.value] else []
  }

  /** How the attempts of machine i ended, in order. */
  function Endings(run: seq<Action>, i: nat): seq<Ending>
    decreases |run|
  {
    if run == [] then []
    else
      var front := run[..|run| - 1];
      Endings(front, i) + StepEnds(Exec(Boot(), front), run[|run| - 1], i, Asked(front, i))
  }

  ghost predicate AllCarry(sent: seq<Report>, ends: seq<Ending>) {
    |sent| == |ends| && forall k | 0 <= k < |sent| :: Carries(sent[k], ends[k])
  }

  lemma PoppedSane(m: Machine)
    requires HasNext(m)
    ensures Sane(m) ==> Sane(Popped(m))
    ensures forall asked :: StoresAsked(m, asked) ==> StoresAsked(Popped(m), asked)
    ensures forall e, asked :: EndedBy(Popped(m), e, asked) == EndedBy(m, e, asked)
  {
  }

  lemma DispatchReports(m: Machine, asked: DisconnectReason)
    requires HasNext(m) && Sane(m) && StoresAsked(m, asked)
    ensures ReportsEnding(DispatchNext(m), EndedBy(m, NextEvent(m), asked))
  {
    PoppedSane(m);
    ProcessReports(Popped(m), NextEvent(m), asked);
  }

  lemma ConnectTimerReports(m: Machine, id: nat, elapsed: bool, asked: DisconnectReason)
    requires Sane(m) && StoresAsked(m, asked) && m.immediate == [] && id in m.connectChecks
    ensures ReportsEnding(FireConnectCheck(m, id, elapsed), EndedBy(m, ConnectCheck(id, elapsed), asked))
  {
    ProcessReports(m.(connectChecks := m.connectChecks - multiset{id}), ConnectCheck(id, elapsed), asked);
  }

  lemma DisconnectTimerReports(m: Machine, id: nat, asked: DisconnectReason)
    requires Sane(m) && StoresAsked(m, asked) && m.immediate == [] && id in m.disconnectChecks
    ensures ReportsEnding(FireDisconnectCheck(m, id), EndedBy(m, DisconnectCheck(id), asked))
  {
    ProcessReports(m.(disconnectChecks := m.disconnectChecks - multiset{id}), DisconnectCheck(id), asked);
  }

  lemma OutcomeReports(s: System, a: Action, asked: DisconnectReason)
    requires OfMachine(a) && a.i < |s.pool| && Sane(s.pool[a.i]) && StoresAsked(s.pool[a.i], asked)
    ensures AllCarry(Dones(OutcomeOf(s, a).out), StepEnds(s, a, a.i, asked))
  {
    var m := s.pool[a.i];
    if EventOf(s, a, a.i).Some? {
      match a
      case Dispatch(_) => DispatchReports(m, asked);
      case ConnectTimer(_, id, elapsed) => ConnectTimerReports(m, id, elapsed, asked);
      case DisconnectTimer(_, id) => DisconnectTimerReports(m, id, asked);
    }
  }

  /** The machine as it processes its event, and what becomes of it. */
  lemma ProcessStores(m: Machine, e: Event, asked: DisconnectReason)
    requires StoresAsked(m, asked)
    ensures StoresAsked(Process(m, e).m, if e.Disconnect? && m.phase.Active? then e.reason else asked)
  {
  }

  lemma OutcomeStores(s: System, a: Action, asked: DisconnectReason)
    requires OfMachine(a) && a.i < |s.pool| && StoresAsked(s.pool[a.i], asked)
    ensures var e := EventOf(s, a, a.i);
            StoresAsked(OutcomeOf(s, a).m,
              if e.Some? && e.value.Disconnect? && s.pool[a.i].phase.Active? then e.value.reason else asked)
  {
    var m := s.pool[a.i];
    var e := EventOf(s, a, a.i);
    if e.Some? {
      match a
      case Dispatch(_) =>
        PoppedSane(m);
        ProcessStores(Popped(m), e.value, asked);
      case ConnectTimer(_, id, _) =>
        ProcessStores(m.(connectChecks := m.connectChecks - multiset{id}), e.value, asked);
      case DisconnectTimer(_, id) =>
        ProcessStores(m.(disconnectChecks := m.disconnectChecks - multiset{id}), e.value, asked);
    }
  }

  ghost predicate StoresIn(s: System, i: nat, asked: DisconnectReason) {
    i < |s.pool| ==> StoresAsked(s.pool[i], asked)
  }

  lemma HandlerStores(s: System, a: Action, i: nat, asked: DisconnectReason)
    requires !OfMachine(a) && StoresIn(s, i, asked)
    ensures StoresIn(HandlerAction(s, a), i, asked)
  {
    HandlerTouches(s, a);
    if i < |HandlerAction(s, a).pool| {
      assert Touched(Before(s, i), HandlerAction(s, a).pool[i], a.HostDeath?);
    }
  }

  lemma StepStores(s: System, a: Action, i: nat, asked: DisconnectReason)
    requires StoresIn(s, i, asked)
    ensures var e := EventOf(s, a, i);
            StoresIn(Step(s, a), i,
              if e.Some? && e.value.Disconnect? && s.pool[i].phase.Active? then e.value.reason else asked)
  {
    if !OfMachine(a) {
      HandlerStores(s, a, i, asked);
    } else if a.i < |s.pool| {
      SentReachesInbox(s, a);
      if a.i == i {
        OutcomeStores(s, a, asked);
      }
    }
  }

  lemma {:induction false} RunStores(run: seq<Action>, i: nat)
    ensures StoresIn(Exec(Boot(), run), i, Asked(run, i))
    decreases |run|
  {
    if run != [] {
      var front := run[..|run| - 1];
      RunStores(front, i);
      StepStores(Exec(Boot(), front), run[|run| - 1], i, Asked(front, i));
    }
  }

  lemma StepReports(s: System, a: Action, i: nat, asked: DisconnectReason)
    requires Reachable(s) && StoresIn(s, i, asked)
    ensures AllCarry(StepSends(s, a, i), StepEnds(s, a, i, asked))
  {
    if OfMachine(a) && a.i == i && i < |s.pool| {
      ReachableSane(s, i);
      OutcomeReports(s, a, asked);
    }
  }

  lemma AllCarryConcat(p: seq<Report>, x: seq<Ending>, q: seq<Report>, y: seq<Ending>)
    requires AllCarry(p, x) && AllCarry(q, y)
    ensures AllCarry(p + q, x + y)
  {
  }

  /** In every run the completions a machine has sent are those of the ways its attempts
      ended, one by one: Retry after an error answer, a time-out or host death while
      disconnecting; the modem's own cause after a refused set-up or a lost connection; none
      after host death while active; the reason of the request after a confirmed release. */
  lemma {:induction false} CompletionsByEnding(run: seq<Action>, i: nat)
    ensures AllCarry(Sent(run, i), Endings(run, i))
    decreases |run|
  {
    if run != [] {
      var front := run[..|run| - 1];
      var s := Exec(Boot(), front);
      CompletionsByEnding(front, i);
      RunStores(front, i);
      assert Reachable(s);
      StepReports(s, run[|run| - 1], i, Asked(front, i));
      AllCarryConcat(Sent(front, i), Endings(front, i), StepSends(s, run[|run| - 1], i),
                     StepEnds(s, run[|run| - 1], i, Asked(front, i)));
    }
  }

  // ---- The completion that the handler reads ----

  /** What each machine has sent. */
  type Log = nat -> seq<Report>

  /** A completion in the inbox is the last one that its holder's machine sent. */
  ghost predicate IsLastSent(s: System, log: Log, d: Report) {
    && HasMachine(s, d.flag)
    && var sent := log(s.holders[d.flag].machine.value);
       sent != [] && sent[|sent| - 1] == d
  }

  ghost predicate InboxSent(s: System, log: Log) {
    forall k | 0 <= k < |s.inbox| && s.inbox[k].Disconnected? :: IsLastSent(s, log, s.inbox[k])
  }

  /** The step adds what it sends. */
  ghost predicate Adds(s: System, a: Action, log: Log, log': Log) {
    forall i :: log'(i) == log(i) + StepSends(s, a, i)
  }

  lemma ProcessFlags(m: Machine, e: Event)
    requires Sane(m)
    ensures forall d | d in Process(m, e).out && d.Disconnected? ::
              Running(m) && d.flag == m.apnId && Dones(Process(m, e).out) == [d]
  {
    var r := Process(m, e);
    forall d | d in r.out && d.Disconnected?
      ensures Running(m) && d.flag == m.apnId && Dones(r.out) == [d]
    {
      assert r.out == [d];
      OneDone(d);
    }
  }

  lemma OutcomeFlags(s: System, a: Action, d: Report)
    requires OfMachine(a) && a.i < |s.pool| && Sane(s.pool[a.i]) && d in OutcomeOf(s, a).out && d.Disconnected?
    ensures Running(s.pool[a.i]) && d.flag == s.pool[a.i].apnId && StepSends(s, a, a.i) == [d]
  {
    var m := s.pool[a.i];
    match a
    case Dispatch(_) =>
      PoppedSane(m);
      ProcessFlags(Popped(m), NextEvent(m));
    case ConnectTimer(_, id, elapsed) =>
      ProcessFlags(m.(connectChecks := m.connectChecks - multiset{id}), ConnectCheck(id, elapsed));
    case DisconnectTimer(_, id) =>
      ProcessFlags(m.(disconnectChecks := m.disconnectChecks - multiset{id}), DisconnectCheck(id));
  }

  lemma NewIsLast(s: System, a: Action, log: Log, log': Log, d: Report)
    requires Reachable(s) && Adds(s, a, log, log')
    requires OfMachine(a) && a.i < |s.pool| && d in OutcomeOf(s, a).out && d.Disconnected?
    ensures IsLastSent(s, log', d)
  {
    ReachableInv(s);
    ReachableSane(s, a.i);
    OutcomeFlags(s, a, d);
    var h := RunningIsHeld(s, a.i);
    assert log'(a.i) == log(a.i) + [d];
  }

  /** While a completion waits its machine sends no other. */
  lemma NothingNewSent(s: System, a: Action, k: nat)
    requires Reachable(s) && k < |s.inbox| && s.inbox[k].Disconnected?
    ensures HasMachine(s, s.inbox[k].flag)
    ensures StepSends(s, a, s.holders[s.inbox[k].flag].machine.value) == []
  {
    CompletionCarriesOwnResult(s, k);
    var i := s.holders[s.inbox[k].flag].machine.value;
    assert StoresIn(s, i, ReasonNormal);
    StepReports(s, a, i, ReasonNormal);
  }

  lemma OldStaysLast(s: System, a: Action, log: Log, log': Log, k: nat)
    requires Reachable(s) && Adds(s, a, log, log') && InboxSent(s, log)
    requires k < |s.inbox| && s.inbox[k].Disconnected?
    ensures IsLastSent(s, log', s.inbox[k])
  {
    assert IsLastSent(s, log, s.inbox[k]);
    NothingNewSent(s, a, k);
    var i := s.holders[s.inbox[k].flag].machine.value;
    assert log'(i) == log(i) + [];
  }

  lemma StillHolds(s: System, s': System, log: Log, d: Report)
    requires IsLastSent(s, log, d) && s'.holders == s.holders && |s'.pool| == |s.pool|
    ensures IsLastSent(s', log, d)
  {
  }

  lemma SameHolders(s: System, a: Action)
    requires OfMachine(a)
    ensures MachineAction(s, a).holders == s.holders
    ensures a.i >= |s.pool| ==> MachineAction(s, a) == s
  {
  }

  lemma OldStay(s: System, a: Action, log: Log, log': Log)
    requires Reachable(s) && Adds(s, a, log, log') && InboxSent(s, log)
    ensures InboxSent(s, log')
  {
    forall k | 0 <= k < |s.inbox| && s.inbox[k].Disconnected?
      ensures IsLastSent(s, log', s.inbox[k])
    {
      OldStaysLast(s, a, log, log', k);
    }
  }

  lemma MachineStepInbox(s: System, a: Action, log: Log, log': Log)
    requires Reachable(s) && Adds(s, a, log, log') && OfMachine(a) && a.i < |s.pool| && InboxSent(s, log)
    ensures InboxSent(MachineAction(s, a), log')
  {
    var out := OutcomeOf(s, a).out;
    OldStay(s, a, log, log');
    forall d | d in out && d.Disconnected?
      ensures IsLastSent(s, log', d)
    {
      NewIsLast(s, a, log, log', d);
    }
    SentReachesInbox(s, a);
    SameHolders(s, a);
    AddedInbox(s, MachineAction(s, a), log', out);
  }

  lemma AddedInbox(s: System, s': System, log: Log, out: seq<Report>)
    requires InboxSent(s, log) && forall d | d in out && d.Disconnected? :: IsLastSent(s, log, d)
    requires s'.inbox == s.inbox + out && s'.holders == s.holders && |s'.pool| == |s.pool|
    ensures InboxSent(s', log)
  {
    forall k | 0 <= k < |s'.inbox| && s'.inbox[k].Disconnected?
      ensures IsLastSent(s', log, s'.inbox[k])
    {
      assert s'.inbox[k] in s.inbox || s'.inbox[k] in out;
      StillHolds(s, s', log, s'.inbox[k]);
    }
  }

  lemma NoMachineInbox(s: System, a: Action, log: Log, log': Log)
    requires Reachable(s) && Adds(s, a, log, log') && OfMachine(a) && a.i >= |s.pool| && InboxSent(s, log)
    ensures InboxSent(MachineAction(s, a), log')
  {
    SameHolders(s, a);
    OldStay(s, a, log, log');
  }

  /** The handler leaves the machine with whoever awaits a completion. */
  lemma HandlerLeavesMachine(s: System, a: Action, k: nat)
    requires Inv(s) && !OfMachine(a)
    requires k < |HandlerAction(s, a).inbox| && HandlerAction(s, a).inbox[k].Disconnected?
    ensures var s' := HandlerAction(s, a);
            var d := s'.inbox[k];
            && d in s.inbox && d.flag in s.holders && HasMachine(s, d.flag)
            && d.flag in s'.holders && s'.holders[d.flag].machine == s.holders[d.flag].machine
  {
    var s' := HandlerAction(s, a);
    if a.NextReport? {
      ActionRuns(s, a);
      ReportLeavesMachine(s, a.envs, k);
    } else {
      HandlerCalm(s, a);
      AwaiterHasMachine(s, k);
      AllBare(s, s.inbox[k].flag);
      assert Calmed(s.holders[s.inbox[k].flag], s'.holders[s.inbox[k].flag]);
    }
  }

  lemma AwaiterHasMachine(s: System, k: nat)
    requires Inv(s) && k < |s.inbox|
    ensures HasMachine(s, s.inbox[k].flag)
  {
    var h := s.inbox[k].flag;
    assert h in s.holders;
    assert HolderOk(s, h);
    var j := InFor(s.inbox, h, k);
  }

  /** A completion that is read is the last report to its holder. */
  lemma NoReportBehind(s: System, k: nat)
    requires Inv(s) && s.inbox != [] && s.inbox[0].Disconnected? && 0 < k < |s.inbox|
    ensures s.inbox[k].flag != s.inbox[0].flag
  {
    var h := s.inbox[0].flag;
    if s.inbox[k].flag == h {
      TakeBackFacts(s);
      PopReports(s, h);
      var j := InFor(s.inbox[1..], h, k - 1);
    }
  }

  lemma OneReportLeaves(s: System, g: ApnId, envs: map<ApnId, Admission>)
    requires Inv(s) && s.inbox != [] && g in s.holders && s.holders[g].machine.Some?
    ensures HandleReport(s, envs).inbox == s.inbox[1..]
    ensures !(s.inbox[0].Disconnected? && s.inbox[0].flag == g) ==>
              g in HandleReport(s, envs).holders && HandleReport(s, envs).holders[g].machine == s.holders[g].machine
  {
    OneReport(s, g, envs);
  }

  lemma ReportTaken(s: System, envs: map<ApnId, Admission>)
    requires Inv(s)
    ensures HandleReport(s, envs).inbox == if s.inbox == [] then [] else s.inbox[1..]
  {
    if s.inbox != [] {
      ReporterIsHeld(s);
      OneReportLeaves(s, s.inbox[0].flag, envs);
    }
  }

  lemma ReportLeavesMachine(s: System, envs: map<ApnId, Admission>, k: nat)
    requires Inv(s) && k < |HandleReport(s, envs).inbox|
    ensures var s' := HandleReport(s, envs);
            var d := s'.inbox[k];
            && d in s.inbox && HasMachine(s, d.flag)
            && d.flag in s'.holders && s'.holders[d.flag].machine == s.holders[d.flag].machine
  {
    ReportTaken(s, envs);
    BehindKeepsMachine(s, HandleReport(s, envs), envs, k);
  }

  lemma BehindKeepsMachine(s: System, s': System, envs: map<ApnId, Admission>, k: nat)
    requires Inv(s) && s' == HandleReport(s, envs) && s.inbox != [] && s'.inbox == s.inbox[1..] && k < |s'.inbox|
    ensures var d := s'.inbox[k];
            && d in s.inbox && HasMachine(s, d.flag)
            && d.flag in s'.holders && s'.holders[d.flag].machine == s.holders[d.flag].machine
  {
    AwaiterHasMachine(s, k + 1);
    if s.inbox[0].Disconnected? {
      NoReportBehind(s, k + 1);
    }
    OneReportLeaves(s, s.inbox[k + 1].flag, envs);
  }

  lemma HandlerStepInbox(s: System, a: Action, log: Log, log': Log)
    requires Reachable(s) && Adds(s, a, log, log') && !OfMachine(a) && InboxSent(s, log)
    ensures InboxSent(HandlerAction(s, a), log')
  {
    ReachableInv(s);
    var s' := HandlerAction(s, a);
    HandlerTouches(s, a);
    forall k | 0 <= k < |s'.inbox| && s'.inbox[k].Disconnected?
      ensures IsLastSent(s', log', s'.inbox[k])
    {
      HandlerLeavesMachine(s, a, k);
      var d := s'.inbox[k];
      assert IsLastSent(s, log, d);
      var i := s.holders[d.flag].machine.value;
      assert log'(i) == log(i) + [];
    }
  }

  lemma StepInbox(s: System, a: Action, log: Log, log': Log)
    requires Reachable(s) && Adds(s, a, log, log') && InboxSent(s, log)
    ensures InboxSent(Step(s, a), log')
  {
    if !OfMachine(a) {
      HandlerStepInbox(s, a, log, log');
    } else if a.i < |s.pool| {
      MachineStepInbox(s, a, log, log');
    } else {
      NoMachineInbox(s, a, log, log');
    }
  }

  ghost function LogOf(run: seq<Action>): Log {
    (i: nat) => Sent(run, i)
  }

  lemma LogAdds(run: seq<Action>)
    requires run != []
    ensures var front := run[..|run| - 1];
            Adds(Exec(Boot(), front), run[|run| - 1], LogOf(front), LogOf(run))
  {
  }

  lemma {:induction false} RunInbox(run: seq<Action>)
    ensures InboxSent(Exec(Boot(), run), LogOf(run))
    decreases |run|
  {
    if run != [] {
      var front := run[..|run| - 1];
      RunInbox(front);
      LogAdds(run);
      assert Reachable(Exec(Boot(), front));
      StepInbox(Exec(Boot(), front), run[|run| - 1], LogOf(front), LogOf(run));
    }
  }

  /** A retry follows such an ending. */
  predicate Retried(x: Ending) {
    match x
    case SetupRefused(call) => !NoRetry(call.reason)
    case ConnectionLost(call) => !NoRetry(call.reason)
    case ReleaseConfirmed(r) => r == ReasonRetry || r == ReasonHandover
    case _ => true
  }

  lemma CauseRetried(d: Report, x: Ending)
    requires Carries(d, x)
    ensures !NoRetry(d.info.reason) <==> Retried(x)
  {
  }

  /** How an attempt ended decides what its enabled holder does on reading the completion. It
      waits for a retry, with the event pending, after an error answer, a time-out or host
      death; after a refused set-up or a lost connection exactly if the modem's cause is none
      of the sixteen; after a confirmed release exactly if the request was for a retry or a
      hand-over. */
  lemma ReactionByEnding(run: seq<Action>, envs: map<ApnId, Admission>)
    requires CompletionNext(Exec(Boot(), run)) && Enabled(Exec(Boot(), run), Exec(Boot(), run).inbox[0].flag)
    ensures var s := Exec(Boot(), run);
            var h := s.inbox[0].flag;
            var s' := HandleReport(s, envs);
            && HasMachine(s, h) && h in s'.holders
            && var ends := Endings(run, s.holders[h].machine.value);
               && ends != []
               && (s'.holders[h].state.Retrying? && h in s'.retries <==> Retried(ends[|ends| - 1]))
  {
    var s := Exec(Boot(), run);
    assert Reachable(s);
    CompletionEffect(s, envs);
    RunInbox(run);
    var i := s.holders[s.inbox[0].flag].machine.value;
    CompletionsByEnding(run, i);
    NextByEnding(s, LogOf(run), Endings(run, i));
  }

  lemma NextByEnding(s: System, log: Log, ends: seq<Ending>)
    requires InboxSent(s, log) && CompletionNext(s) && HasMachine(s, s.inbox[0].flag)
    requires AllCarry(log(s.holders[s.inbox[0].flag].machine.value), ends)
    ensures ends != [] && (!NoRetry(s.inbox[0].info.reason) <==> Retried(ends[|ends| - 1]))
  {
    assert IsLastSent(s, log, s.inbox[0]);
    CauseRetried(s.inbox[0], ends[|ends| - 1]);
  }
}
