/** A holder is connected only over a machine that the modem brought up in this attempt. */
module ProtocolAnswers {
  import opened Options
  import opened ConnectionMachine
  import opened AttemptInvariant
  import opened Handler
  import opened ProtocolInvariant
  import opened Protocol
  import opened ProtocolFrames
  import opened ProtocolTheorems
  import opened ProtocolMessages

  predicate Up(m: Machine) {
    m.phase.Active? || m.phase.Disconnecting?
  }

  /** The modem answered in the attempt accepted last. */
  predicate Answered(m: Machine) {
    m.answered == |m.accepted| > 0
  }

  ghost predicate UpIsAnswered(s: System) {
    forall i | 0 <= i < |s.pool| && Up(s.pool[i]) :: Answered(s.pool[i])
  }

  ghost predicate Announces(box: seq<Report>, h: ApnId) {
    exists k :: 0 <= k < |box| && box[k] == Established(h)
  }

  /** The holder is connected, or a report says that it is about to be. */
  ghost predicate Announced(s: System, h: ApnId)
    requires h in s.holders
  {
    s.holders[h].state.Connected? || Announces(s.inbox, h)
  }

  ghost predicate AnnouncedIsAnswered(s: System) {
    forall h | HasMachine(s, h) && Announced(s, h) :: Answered(s.pool[s.holders[h].machine.value])
  }

  ghost predicate AnswersOk(s: System) {
    UpIsAnswered(s) && AnnouncedIsAnswered(s)
  }

  // ---- Machine actions ----

  /** What an action makes of its machine. */
  ghost predicate Reacted(m: Machine, r: Outcome) {
    && ((Up(m) ==> Answered(m)) && (m.phase.Activating? ==> m.accepted != []) ==> (Up(r.m) ==> Answered(r.m)))
    && (r.m.accepted == m.accepted || r.m.phase.Activating?)
    && (r.m.answered == m.answered || m.phase.Activating?)
    && (forall k | 0 <= k < |r.out| && r.out[k].Established? :: m.phase.Active? && r.out[k].flag == m.apnId)
  }

  lemma ProcessReacted(m: Machine, n: Machine, e: Event)
    requires n.phase == m.phase && n.answered == m.answered && n.accepted == m.accepted && n.apnId == m.apnId
    ensures Reacted(m, Process(n, e))
  {
    ProcessReports(n, e);
    ProcessAnswers(n, e);
  }

  lemma ProcessReports(m: Machine, e: Event)
    ensures forall k | 0 <= k < |Process(m, e).out| && Process(m, e).out[k].Established? ::
              m.phase.Active? && Process(m, e).out[k].flag == m.apnId
  {
  }

  lemma ProcessAnswers(m: Machine, e: Event)
    ensures var n := Process(m, e).m;
            && ((Up(m) ==> Answered(m)) && (m.phase.Activating? ==> m.accepted != []) ==> (Up(n) ==> Answered(n)))
            && (n.accepted == m.accepted || n.phase.Activating?)
            && (n.answered == m.answered || m.phase.Activating?)
  {
  }

  lemma OutcomeReacted(s: System, a: Action)
    requires OfMachine(a) && a.i < |s.pool|
    ensures Reacted(s.pool[a.i], OutcomeOf(s, a))
  {
    var m := s.pool[a.i];
    match a
    case Dispatch(_) => if HasNext(m) { ProcessReacted(m, Popped(m), NextEvent(m)); }
    case ConnectTimer(_, id, elapsed) =>
      ProcessReacted(m, m.(connectChecks := m.connectChecks - multiset{id}), ConnectCheck(id, elapsed));
    case DisconnectTimer(_, id) =>
      ProcessReacted(m, m.(disconnectChecks := m.disconnectChecks - multiset{id}), DisconnectCheck(id));
    case _ =>
  }

  lemma {:induction false} ForAnnounces(q: seq<Report>, h: ApnId)
    ensures Announces(q, h) <==> Announces(For(q, h), h)
  {
    if q != [] {
      ForAnnounces(q[1..], h);
      AnnouncesCons(q[0], q[1..], h);
      assert q == [q[0]] + q[1..];
      if q[0].flag == h {
        AnnouncesCons(q[0], For(q[1..], h), h);
      } else {
        assert For(q, h) == For(q[1..], h);
      }
    }
  }

  lemma AnnouncesCons(x: Report, q: seq<Report>, h: ApnId)
    ensures Announces([x] + q, h) <==> x == Established(h) || Announces(q, h)
  {
    if Announces(q, h) {
      var k :| 0 <= k < |q| && q[k] == Established(h);
      assert ([x] + q)[k + 1] == Established(h);
    }
    if x == Established(h) {
      assert ([x] + q)[0] == Established(h);
    }
    if k :| 0 <= k < |[x] + q| && ([x] + q)[k] == Established(h) {
      assert k > 0 ==> q[k - 1] == Established(h);
    }
  }

  /** An announced holder's machine is past activation. */
  lemma AnnouncedIsPast(s: System, h: ApnId)
    requires Inv(s) && h in s.holders && Announced(s, h)
    ensures HasMachine(s, h)
    ensures var m := s.pool[s.holders[h].machine.value]; !m.phase.Activating? && m.grants == |m.accepted|
  {
    assert HolderOk(s, h);
    ForAnnounces(s.inbox, h);
  }

  lemma InboxSplits(s: System, out: seq<Report>, h: ApnId)
    requires Announces(s.inbox + out, h)
    ensures Announces(s.inbox, h) || exists k :: 0 <= k < |out| && out[k] == Established(h)
  {
    var k :| 0 <= k < |s.inbox + out| && (s.inbox + out)[k] == Established(h);
    if k >= |s.inbox| {
      assert out[k - |s.inbox|] == Established(h);
    } else {
      assert s.inbox[k] == Established(h);
    }
  }

  /** The report of an active machine goes to its own holder. */
  lemma ReporterHolds(s: System, i: nat, h: ApnId)
    requires Inv(s) && i < |s.pool| && s.pool[i].phase.Active? && s.pool[i].apnId == h
    ensures h in s.holders && s.holders[h].machine == Some(i)
  {
    var g := RunningIsHeld(s, i);
  }

  /** The machine of an announced holder keeps its answer. */
  lemma ReactedKeepsAnswer(m: Machine, r: Outcome)
    requires Reacted(m, r) && Answered(m) && !m.phase.Activating? && !r.m.phase.Activating?
    ensures Answered(r.m)
  {
  }

  lemma OwnHolderAnswered(s: System, a: Action, h: ApnId)
    requires Inv(s) && AnswersOk(s) && OfMachine(a) && a.i < |s.pool| && Reacted(s.pool[a.i], OutcomeOf(s, a))
    requires h in s.holders && s.holders[h].machine == Some(a.i) && !OutcomeOf(s, a).m.phase.Activating?
    requires Announced(s, h) || s.pool[a.i].phase.Active?
    ensures Answered(OutcomeOf(s, a).m)
  {
    if Announced(s, h) {
      AnnouncedIsPast(s, h);
      assert HasMachine(s, h);
    }
    ReactedKeepsAnswer(s.pool[a.i], OutcomeOf(s, a));
  }

  /** Whoever is announced after a machine action was so before, or holds that machine, active. */
  lemma WhoIsAnnounced(s: System, a: Action, h: ApnId)
    requires Inv(s) && OfMachine(a) && a.i < |s.pool| && h in s.holders && Announced(MachineAction(s, a), h)
    ensures Announced(s, h) || (s.pool[a.i].phase.Active? && s.holders[h].machine == Some(a.i))
  {
    SentReachesInbox(s, a);
    OutcomeReacted(s, a);
    if !Announced(s, h) {
      InboxSplits(s, OutcomeOf(s, a).out, h);
      var k :| 0 <= k < |OutcomeOf(s, a).out| && OutcomeOf(s, a).out[k] == Established(h);
      ReporterHolds(s, a.i, h);
    }
  }

  lemma MachineHolderAnswered(s: System, a: Action, h: ApnId)
    requires Inv(s) && AnswersOk(s) && OfMachine(a) && a.i < |s.pool|
    requires HasMachine(MachineAction(s, a), h) && Announced(MachineAction(s, a), h)
    ensures var s' := MachineAction(s, a); Answered(s'.pool[s'.holders[h].machine.value])
  {
    SentReachesInbox(s, a);
    WhoIsAnnounced(s, a, h);
    if s.holders[h].machine == Some(a.i) {
      OutcomeReacted(s, a);
      MachineActionKeeps(s, a);
      AnnouncedIsPast(MachineAction(s, a), h);
      OwnHolderAnswered(s, a, h);
    } else {
      assert HasMachine(s, h);
    }
  }

  lemma ActivatingAccepted(s: System, i: nat)
    requires Inv(s) && i < |s.pool|
    ensures s.pool[i].phase.Activating? ==> s.pool[i].accepted != []
  {
    if Running(s.pool[i]) {
      var h := RunningIsHeld(s, i);
    }
  }

  lemma MachineAnswers(s: System, a: Action)
    requires Inv(s) && AnswersOk(s) && OfMachine(a)
    ensures AnswersOk(MachineAction(s, a))
  {
    if a.i < |s.pool| {
      var s' := MachineAction(s, a);
      SentReachesInbox(s, a);
      OutcomeReacted(s, a);
      ActivatingAccepted(s, a.i);
      forall h | HasMachine(s', h) && Announced(s', h)
        ensures Answered(s'.pool[s'.holders[h].machine.value])
      {
        MachineHolderAnswered(s, a, h);
      }
    }
  }

  // ---- Handler actions ----

  lemma TouchedAnswers(s: System, s': System, host: bool)
    requires PoolTouched(s, s', host) && UpIsAnswered(s)
    ensures UpIsAnswered(s')
    ensures forall i | 0 <= i < |s.pool| :: Answered(s'.pool[i]) == Answered(s.pool[i])
  {
    forall i | 0 <= i < |s'.pool|
      ensures i < |s.pool| ==> Answered(s'.pool[i]) == Answered(s.pool[i])
      ensures Up(s'.pool[i]) ==> Answered(s'.pool[i])
    {
      assert Touched(Before(s, i), s'.pool[i], host);
    }
  }

  /** Announced afterwards means announced before, over the same machine. */
  ghost predicate NothingNew(s: System, s': System, h: ApnId)
    requires h in s'.holders
  {
    Announced(s', h) ==>
      h in s.holders && HasMachine(s, h) && Announced(s, h) && s'.holders[h].machine == s.holders[h].machine
  }

  lemma CalmNothingNew(s: System, s': System, h: ApnId)
    requires Inv(s) && HoldersCalm(s, s') && s'.inbox == s.inbox && h in s'.holders
    ensures NothingNew(s, s', h)
  {
    if Announced(s', h) {
      AllBare(s, h);
      AnnouncedIsPast(s, h);
    }
  }

  lemma NothingNewAnswers(s: System, s': System, host: bool)
    requires AnswersOk(s) && PoolTouched(s, s', host)
    requires forall h | h in s'.holders :: NothingNew(s, s', h)
    ensures AnswersOk(s')
  {
    TouchedAnswers(s, s', host);
  }

  lemma TailAnnounces(s: System, h: ApnId)
    requires s.inbox != [] && Announces(s.inbox[1..], h)
    ensures Announces(s.inbox, h)
  {
    var k :| 0 <= k < |s.inbox[1..]| && s.inbox[1..][k] == Established(h);
    assert s.inbox[k + 1] == Established(h);
  }

  lemma EstablishedNothingNew(s: System, h: ApnId)
    requires Inv(s) && s.inbox != [] && s.inbox[0].Established? && h in EstablishComplete(s).holders
    ensures NothingNew(s, EstablishComplete(s), h)
  {
    ReporterIsHeld(s);
    if Announced(EstablishComplete(s), h) {
      if Announces(s.inbox[1..], h) {
        TailAnnounces(s, h);
      } else if s.inbox[0].flag == h {
        assert s.inbox[0] == Established(h);
      }
      AnnouncedIsPast(s, h);
    }
  }

  lemma CompletedNothingNew(s: System, envs: map<ApnId, Admission>, h: ApnId)
    requires Inv(s) && s.inbox != [] && s.inbox[0].Disconnected? && h in DisconnectComplete(s, envs).holders
    ensures NothingNew(s, DisconnectComplete(s, envs), h)
  {
    TakeBackFacts(s);
    TakeBackKeeps(s);
    CompletionGentle(s, envs);
    var t := TakeBack(s);
    CalmNothingNew(t, DisconnectComplete(s, envs), h);
    if Announced(DisconnectComplete(s, envs), h) && Announces(s.inbox[1..], h) {
      TailAnnounces(s, h);
    }
  }

  lemma ReportAnswers(s: System, envs: map<ApnId, Admission>)
    requires Inv(s) && AnswersOk(s)
    ensures AnswersOk(HandleReport(s, envs))
  {
    if s.inbox != [] {
      var s' := HandleReport(s, envs);
      ReportTouches(s, envs);
      forall h | h in s'.holders
        ensures NothingNew(s, s', h)
      {
        if s.inbox[0].Established? {
          EstablishedNothingNew(s, h);
        } else {
          CompletedNothingNew(s, envs, h);
        }
      }
      NothingNewAnswers(s, s', false);
    }
  }

  lemma HandlerAnswers(s: System, a: Action)
    requires Inv(s) && AnswersOk(s) && !OfMachine(a)
    ensures AnswersOk(HandlerAction(s, a))
  {
    if a.NextReport? {
      ActionRuns(s, a);
      ReportAnswers(s, a.envs);
    } else {
      var s' := HandlerAction(s, a);
      HandlerTouches(s, a);
      HandlerCalm(s, a);
      forall h | h in s'.holders
        ensures NothingNew(s, s', h)
      {
        CalmNothingNew(s, s', h);
      }
      NothingNewAnswers(s, s', a.HostDeath?);
    }
  }

  lemma {:induction false} RunAnswers(run: seq<Action>)
    ensures AnswersOk(Exec(Boot(), run))
    decreases |run|
  {
    if run != [] {
      var s, a := Exec(Boot(), run[..|run| - 1]), run[|run| - 1];
      RunAnswers(run[..|run| - 1]);
      RunKeeps(run[..|run| - 1]);
      if OfMachine(a) {
        MachineAnswers(s, a);
      } else {
        HandlerAnswers(s, a);
      }
    }
  }

  /** A connected holder's machine was brought up by the modem in the very attempt that was
      granted last. */
  lemma ConnectedMeansAnswered(s: System, h: ApnId)
    requires Reachable(s) && h in s.holders && s.holders[h].state.Connected?
    ensures HasMachine(s, h)
    ensures var m := s.pool[s.holders[h].machine.value]; m.answered == |m.accepted| == m.grants > 0
  {
    ReachableInv(s);
    AnnouncedIsPast(s, h);
    ReachableAnswers(s);
    assert HasMachine(s, h) && Announced(s, h);
  }

  lemma ReachableAnswers(s: System)
    requires Reachable(s)
    ensures AnswersOk(s)
  {
    var run :| Exec(Boot(), run) == s;
    RunAnswers(run);
  }
}
