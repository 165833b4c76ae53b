/** The reason of a release, from the handler's request to the handler's reading of the
    completion, through any continuation of the run in between. */
module ProtocolReasons {
  import opened Options
  import opened ReasonCodes
  import opened ConnectionMachine
  import opened AttemptInvariant
  import opened Handler
  import opened ProtocolInvariant
  import opened Protocol
  import opened ProtocolFrames
  import opened ProtocolTimers
  import opened ProtocolTheorems
  import opened ProtocolMessages

  /** Events that end an active attempt before or instead of the request. */
  predicate Disrupts(e: Event) {
    e.Disconnect? || e.LostConnection? || Kills(e)
  }

  /** Events that end a disconnecting attempt without an answer from the modem. */
  predicate Kills(e: Event) {
    e.HostDied? || e.DisconnectCheck?
  }

  ghost predicate Peaceful(q: seq<Event>) {
    forall k | 0 <= k < |q| :: !Disrupts(q[k])
  }

  ghost predicate Harmless(q: seq<Event>) {
    forall k | 0 <= k < |q| :: !Kills(q[k])
  }

  /** The request with this reason is the first event in the queue that disrupts. */
  ghost predicate RequestAhead(q: seq<Event>, reason: DisconnectReason) {
    exists k :: 0 <= k < |q| && q[k].Disconnect? && q[k].reason == reason && Peaceful(q[..k])
  }

  /** The request is on its way to an active machine. */
  ghost predicate Asked(m: Machine, reason: DisconnectReason) {
    && m.phase.Active? && m.deferred == [] && Peaceful(m.immediate)
    && RequestAhead(m.ordinary, reason) && Harmless(m.ordinary)
  }

  /** The machine waits for the modem with the reason stored. */
  ghost predicate Leaving(m: Machine, reason: DisconnectReason) {
    && m.phase.Disconnecting? && m.stored.Some? && m.stored.value.info.reason == ToPdpError(reason)
    && Harmless(m.immediate) && Harmless(m.ordinary)
  }

  /** The attempt has ended. */
  predicate Left(m: Machine) {
    m.phase.Inactive? && m.grants == |m.accepted|
  }

  ghost predicate Carried(m: Machine, reason: DisconnectReason, id: nat) {
    (m.connectId == id && (Asked(m, reason) || Leaving(m, reason))) || Left(m)
  }

  // ---- The machine ----

  lemma AskedNext(q: seq<Event>, reason: DisconnectReason)
    requires RequestAhead(q, reason)
    ensures q != [] && (Disrupts(q[0]) ==> q[0].Disconnect? && q[0].reason == reason)
    ensures !Disrupts(q[0]) ==> RequestAhead(q[1..], reason)
  {
    var k :| 0 <= k < |q| && q[k].Disconnect? && q[k].reason == reason && Peaceful(q[..k]);
    if k > 0 {
      assert q[..k][0] == q[0];
      assert q[1..][k - 1] == q[k];
      assert q[1..][..k - 1] == q[..k][1..];
    }
  }

  lemma TakenPeacefully(m: Machine, e: Event, reason: DisconnectReason)
    requires m.phase.Active? && m.deferred == [] && !Disrupts(e)
    ensures var n := Process(m, e).m;
            && n.phase.Active? && n.connectId == m.connectId && n.deferred == []
            && n.immediate == m.immediate && n.ordinary == m.ordinary
            && forall k | 0 <= k < |Process(m, e).out| :: Process(m, e).out[k].Established?
  {
  }

  ghost predicate ReportsReason(out: seq<Report>, reason: DisconnectReason) {
    forall k | 0 <= k < |out| && out[k].Disconnected? :: out[k].info.reason == ToPdpError(reason)
  }

  lemma AskedDispatch(m: Machine, reason: DisconnectReason)
    requires Asked(m, reason)
    ensures HasNext(m)
    ensures var r := DispatchNext(m);
            && r.m.connectId == m.connectId && (Asked(r.m, reason) || Leaving(r.m, reason))
            && ReportsReason(r.out, reason)
  {
    AskedNext(m.ordinary, reason);
    var e, p := NextEvent(m), Popped(m);
    if m.immediate != [] {
      assert !Disrupts(m.immediate[0]);
      TakenPeacefully(p, e, reason);
    } else if !Disrupts(e) {
      TakenPeacefully(p, e, reason);
    } else {
      assert DispatchNext(m).m.immediate == [];
    }
  }

  lemma LeavingProcess(m: Machine, e: Event, reason: DisconnectReason)
    requires Leaving(m, reason) && !Kills(e) && m.grants == |m.accepted|
    ensures var r := Process(m, e);
            && ((r.m.connectId == m.connectId && Leaving(r.m, reason)) || Left(r.m))
            && ReportsReason(r.out, reason)
  {
  }

  lemma LeavingDispatch(m: Machine, reason: DisconnectReason)
    requires Leaving(m, reason) && HasNext(m) && m.grants == |m.accepted|
    ensures var r := DispatchNext(m);
            && ((r.m.connectId == m.connectId && Leaving(r.m, reason)) || Left(r.m))
            && ReportsReason(r.out, reason)
  {
    var e := NextEvent(m);
    assert !Kills(e);
    LeavingProcess(Popped(m), e, reason);
  }

  /** An event that does nothing to an active or disconnecting machine. */
  lemma IdleEvent(m: Machine, e: Event)
    requires e.ConnectCheck? || (e.DisconnectCheck? && e.id != m.connectId) || (e.DisconnectCheck? && !m.phase.Disconnecting?)
    requires m.phase.Active? || m.phase.Disconnecting? || m.phase.Inactive?
    ensures Process(m, e) == Stay(m)
  {
  }

  lemma TimersChanged(m: Machine, n: Machine, reason: DisconnectReason, id: nat)
    requires Carried(m, reason, id)
    requires n == m.(connectChecks := n.connectChecks, disconnectChecks := n.disconnectChecks)
    ensures Carried(n, reason, id)
  {
  }

  lemma ConnectTimerCarries(m: Machine, reason: DisconnectReason, id: nat, x: nat, elapsed: bool)
    requires Carried(m, reason, id)
    ensures Carried(FireConnectCheck(m, x, elapsed).m, reason, id) && FireConnectCheck(m, x, elapsed).out == []
  {
    var n := m.(connectChecks := m.connectChecks - multiset{x});
    TimersChanged(m, n, reason, id);
    IdleEvent(n, ConnectCheck(x, elapsed));
  }

  /** A disconnect timer of another generation does nothing. */
  lemma StaleTimerCarries(m: Machine, reason: DisconnectReason, id: nat, x: nat)
    requires Carried(m, reason, id) && x != id
    ensures Carried(FireDisconnectCheck(m, x).m, reason, id) && FireDisconnectCheck(m, x).out == []
  {
    var n := m.(disconnectChecks := m.disconnectChecks - multiset{x});
    TimersChanged(m, n, reason, id);
    IdleEvent(n, DisconnectCheck(x));
  }

  lemma PostCarries(m: Machine, e: Event, reason: DisconnectReason, id: nat)
    requires Carried(m, reason, id) && !Kills(e)
    ensures Carried(Post(m, e), reason, id)
  {
    if Asked(m, reason) {
      AppendKeepsRequest(m.ordinary, Post(m, e).ordinary, reason);
    }
  }

  lemma AppendKeepsRequest(q: seq<Event>, r: seq<Event>, reason: DisconnectReason)
    requires RequestAhead(q, reason) && q <= r
    ensures RequestAhead(r, reason)
  {
    var k :| 0 <= k < |q| && q[k].Disconnect? && q[k].reason == reason && Peaceful(q[..k]);
    assert r[..k] == q[..k] && r[k] == q[k];
  }

  lemma TouchedCarries(m: Machine, m': Machine, reason: DisconnectReason, id: nat)
    requires Carried(m, reason, id) && Touched(m, m', false) && m'.grants == m.grants
    ensures Carried(m', reason, id)
  {
    if Asked(m, reason) {
      AppendKeepsRequest(m.ordinary, m'.ordinary, reason);
    }
    forall k | 0 <= k < |m'.ordinary| && Harmless(m.ordinary)
      ensures !Kills(m'.ordinary[k])
    {
      if k < |m.ordinary| {
        assert m'.ordinary[k] == m.ordinary[k];
      } else {
        assert FromHandler(m'.ordinary[k], false);
      }
    }
  }

  lemma ExtendsReason(p: seq<Report>, q: seq<Report>, h: ApnId, reason: DisconnectReason)
    requires InboxReason(p, h, reason) && ReportsReason(q, reason)
    ensures InboxReason(p + q, h, reason)
  {
  }

  // ---- The system ----

  ghost predicate InboxReason(box: seq<Report>, h: ApnId, reason: DisconnectReason) {
    forall k | 0 <= k < |box| && box[k].Disconnected? && box[k].flag == h :: box[k].info.reason == ToPdpError(reason)
  }

  /** Attempt n of machine i for holder h: accepted in generation id and not yet taken back. */
  datatype Watch = Watch(h: ApnId, i: nat, n: nat, id: nat)

  predicate Watched(s: System, w: Watch) {
    w.h in s.holders && s.holders[w.h].machine == Some(w.i) && w.i < |s.pool| && s.pool[w.i].grants == w.n
  }

  ghost predicate Tracked(s: System, w: Watch, reason: DisconnectReason) {
    Watched(s, w) && Carried(s.pool[w.i], reason, w.id) && InboxReason(s.inbox, w.h, reason)
  }

  /** Neither the death of the host nor the attempt's own time-out. */
  predicate Undisturbed(a: Action, w: Watch) {
    !a.HostDeath? && !(a.DisconnectTimer? && a.i == w.i && a.id == w.id)
  }

  lemma LeftIsSettled(s: System, w: Watch)
    requires Inv(s) && Watched(s, w) && Left(s.pool[w.i])
    ensures Settled(s.pool[w.i])
  {
    assert HolderOk(s, w.h);
  }

  lemma RunningIsGranted(s: System, w: Watch)
    requires Inv(s) && Watched(s, w) && Running(s.pool[w.i])
    ensures s.pool[w.i].grants == |s.pool[w.i].accepted|
  {
    assert HolderOk(s, w.h);
  }

  lemma SettledDispatch(m: Machine)
    requires Settled(m) && HasNext(m)
    ensures Left(DispatchNext(m).m) && DispatchNext(m).out == []
  {
    assert Within(NextEvent(m), 0, m.grants);
  }

  lemma DispatchCarries(s: System, w: Watch, reason: DisconnectReason)
    requires Inv(s) && Watched(s, w) && Carried(s.pool[w.i], reason, w.id) && HasNext(s.pool[w.i])
    ensures var r := DispatchNext(s.pool[w.i]); Carried(r.m, reason, w.id) && ReportsReason(r.out, reason)
  {
    var m := s.pool[w.i];
    if Left(m) {
      LeftIsSettled(s, w);
      SettledDispatch(m);
    } else if Asked(m, reason) {
      AskedDispatch(m, reason);
    } else {
      RunningIsGranted(s, w);
      LeavingDispatch(m, reason);
    }
  }

  lemma OwnActionCarries(s: System, a: Action, w: Watch, reason: DisconnectReason)
    requires Inv(s) && Watched(s, w) && Carried(s.pool[w.i], reason, w.id)
    requires OfMachine(a) && a.i == w.i && Undisturbed(a, w)
    ensures Carried(OutcomeOf(s, a).m, reason, w.id) && ReportsReason(OutcomeOf(s, a).out, reason)
  {
    var m := s.pool[w.i];
    match a
    case Dispatch(_) => if HasNext(m) { DispatchCarries(s, w, reason); }
    case ConnectTimer(_, x, elapsed) => ConnectTimerCarries(m, reason, w.id, x, elapsed);
    case DisconnectTimer(_, x) => StaleTimerCarries(m, reason, w.id, x);
    case InterfaceGone(_) => TimersChanged(m, InterfaceDown(m), reason, w.id);
    case ModemAnswer(_, e) => if IsAnswer(e) { PostCarries(m, e, reason, w.id); }
  }

  /** Reports come from running machines and go to the holder they serve. */
  ghost predicate ToOwnHolder(m: Machine, out: seq<Report>) {
    |out| <= 1 && (out != [] ==> out[0].flag == m.apnId && Running(m))
  }

  lemma ProcessFlags(m: Machine, n: Machine, e: Event)
    requires m.deactiveApnId == ERROR_APN_ID
    requires n.phase == m.phase && n.apnId == m.apnId && n.deactiveApnId == m.deactiveApnId
    ensures ToOwnHolder(m, Process(n, e).out)
  {
  }

  lemma OutcomeFlags(s: System, a: Action)
    requires OfMachine(a) && a.i < |s.pool| && s.pool[a.i].deactiveApnId == ERROR_APN_ID
    ensures ToOwnHolder(s.pool[a.i], OutcomeOf(s, a).out)
  {
    var m := s.pool[a.i];
    match a
    case Dispatch(_) => if HasNext(m) { ProcessFlags(m, Popped(m), NextEvent(m)); }
    case ConnectTimer(_, id, elapsed) =>
      ProcessFlags(m, m.(connectChecks := m.connectChecks - multiset{id}), ConnectCheck(id, elapsed));
    case DisconnectTimer(_, id) =>
      ProcessFlags(m, m.(disconnectChecks := m.disconnectChecks - multiset{id}), DisconnectCheck(id));
    case _ =>
  }

  lemma NoStoredHolder(s: System, i: nat)
    requires Inv(s) && i < |s.pool|
    ensures s.pool[i].deactiveApnId == ERROR_APN_ID
  {
    UnusedIsFree(s, i);
    if InUse(s, i) {
      var h :| h in s.holders && s.holders[h].machine == Some(i);
      assert HolderOk(s, h);
    }
  }

  lemma OtherReports(s: System, a: Action, w: Watch)
    requires Inv(s) && Watched(s, w) && OfMachine(a) && a.i < |s.pool| && a.i != w.i
    ensures forall k | 0 <= k < |OutcomeOf(s, a).out| :: OutcomeOf(s, a).out[k].flag != w.h
  {
    NoStoredHolder(s, a.i);
    OutcomeFlags(s, a);
    if Running(s.pool[a.i]) {
      var g := RunningIsHeld(s, a.i);
    }
  }

  lemma MachineTracks(s: System, a: Action, w: Watch, reason: DisconnectReason)
    requires Inv(s) && Tracked(s, w, reason) && OfMachine(a) && Undisturbed(a, w) && Watched(MachineAction(s, a), w)
    ensures Tracked(MachineAction(s, a), w, reason)
  {
    if a.i < |s.pool| {
      SentReachesInbox(s, a);
      if a.i == w.i {
        OwnActionCarries(s, a, w, reason);
        ExtendsReason(s.inbox, OutcomeOf(s, a).out, w.h, reason);
      } else {
        OtherReports(s, a, w);
      }
    }
  }

  lemma ReportShrinks(s: System, envs: map<ApnId, Admission>)
    requires Inv(s)
    ensures HandleReport(s, envs).inbox == if s.inbox == [] then [] else s.inbox[1..]
  {
    if s.inbox != [] && s.inbox[0].Disconnected? {
      ReporterIsHeld(s);
      CompletionGentle(s, envs);
    }
  }

  lemma HandlerTracks(s: System, a: Action, w: Watch, reason: DisconnectReason)
    requires Inv(s) && Tracked(s, w, reason) && !OfMachine(a) && Undisturbed(a, w) && Watched(HandlerAction(s, a), w)
    ensures Tracked(HandlerAction(s, a), w, reason)
  {
    var t := HandlerAction(s, a);
    HandlerTouches(s, a);
    assert Touched(Before(s, w.i), t.pool[w.i], false);
    TouchedCarries(s.pool[w.i], t.pool[w.i], reason, w.id);
    if a.NextReport? {
      ActionRuns(s, a);
      ReportShrinks(s, a.envs);
    } else {
      HandlerCalm(s, a);
    }
  }

  lemma {:induction false} RunTracks(s: System, run: seq<Action>, w: Watch, reason: DisconnectReason)
    requires Inv(s) && Tracked(s, w, reason)
    requires forall k | 0 <= k < |run| :: Undisturbed(run[k], w)
    requires forall k | 0 <= k <= |run| :: Watched(Exec(s, run[..k]), w)
    ensures Inv(Exec(s, run)) && Tracked(Exec(s, run), w, reason)
    decreases |run|
  {
    if run != [] {
      var front, a := run[..|run| - 1], run[|run| - 1];
      forall k | 0 <= k <= |front|
        ensures Watched(Exec(s, front[..k]), w)
      {
        assert front[..k] == run[..k];
      }
      assert run[..|run|] == run && Watched(Exec(s, run[..|run|]), w);
      RunTracks(s, front, w, reason);
      var t := Exec(s, front);
      StepKeeps(t, a);
      if OfMachine(a) {
        MachineTracks(t, a, w, reason);
      } else {
        HandlerTracks(t, a, w, reason);
      }
    }
  }

  // ---- From the request to the reading ----

  /** Nothing queued at the machine disrupts it. */
  ghost predicate Quiet(m: Machine) {
    Peaceful(m.immediate) && Peaceful(m.ordinary)
  }

  lemma RequestIsFirst(m: Machine, e: Event)
    requires m.phase.Active? && m.deferred == [] && Quiet(m) && e.Disconnect?
    ensures Carried(Post(m, e), e.reason, m.connectId)
  {
    var q := Post(m, e).ordinary;
    assert q[|m.ordinary|] == e && q[..|m.ordinary|] == m.ordinary;
  }

  /** While its attempt is in progress no completion is queued for a holder. */
  lemma NoCompletionYet(s: System, h: ApnId, reason: DisconnectReason)
    requires Inv(s) && HasMachine(s, h) && Running(s.pool[s.holders[h].machine.value])
    ensures InboxReason(s.inbox, h, reason)
  {
    assert HolderOk(s, h);
    forall k | 0 <= k < |s.inbox| && s.inbox[k].flag == h
      ensures s.inbox[k].Established?
    {
      var j := InFor(s.inbox, h, k);
    }
  }

  /** The holder may be asked to release, and its machine is active with nothing in the way. */
  ghost predicate Releasable(s: System, h: ApnId) {
    && HasMachine(s, h) && (s.holders[h].state.Connecting? || s.holders[h].state.Connected?)
    && var m := s.pool[s.holders[h].machine.value]; m.phase.Active? && Quiet(m)
  }

  function WatchOf(s: System, h: ApnId): Watch
    requires HasMachine(s, h)
  {
    var i := s.holders[h].machine.value;
    Watch(h, i, s.pool[i].grants, s.pool[i].connectId)
  }

  lemma RequestStarts(s: System, h: ApnId, reason: DisconnectReason)
    requires Inv(s) && AllTimersOk(false, s) && Releasable(s, h)
    ensures Tracked(ClearConnection(s, h, reason), WatchOf(s, h), reason)
  {
    var w := WatchOf(s, h);
    var m := s.pool[w.i];
    assert TimersOk(false, m);
    RequestIsFirst(m, Disconnect(h, reason, m.grants));
    NoCompletionYet(s, h, reason);
    assert ClearConnection(s, h, reason) == SendDisconnect(s, h, w.i, reason);
  }

  /** The run leaves the attempt alone, and the attempt is not taken back on the way. */
  ghost predicate Follows(s: System, run: seq<Action>, w: Watch) {
    && (forall k | 0 <= k < |run| :: Undisturbed(run[k], w))
    && (forall k | 0 <= k <= |run| :: Watched(Exec(s, run[..k]), w))
  }

  /** What the handler reads next, if it is a completion for h. */
  predicate NextReads(t: System, h: ApnId, cause: PdpError) {
    t.inbox != [] && t.inbox[0].Disconnected? && t.inbox[0].flag == h ==> t.inbox[0].info.reason == cause
  }

  lemma CauseEndToEnd(s: System, h: ApnId, reason: DisconnectReason, run: seq<Action>)
    requires Reachable(s) && Releasable(s, h) && Follows(ClearConnection(s, h, reason), run, WatchOf(s, h))
    ensures NextReads(Exec(ClearConnection(s, h, reason), run), h, ToPdpError(reason))
  {
    ReachableInv(s);
    ReachableTimers(s);
    RequestStarts(s, h, reason);
    ClearKeeps(s, h, reason);
    RunTracks(ClearConnection(s, h, reason), run, WatchOf(s, h), reason);
  }

  lemma CauseDecodes(reason: DisconnectReason)
    ensures ToDisconnectReason(ToPdpError(reason)) == reason <==> !reason.ReasonHandover?
    ensures reason.ReasonHandover? ==> ToDisconnectReason(ToPdpError(reason)) == ReasonRetry
  {
  }

  /** The handler asks an active machine, with nothing disruptive queued, to release. However
      the run goes on, as long as the host lives and the attempt's own time-out does not fire,
      the completion it finally reads decodes to the reason it gave if and only if that is not
      the hand-over reason; a hand-over is read as a retry. */
  lemma ReasonEndToEnd(s: System, h: ApnId, reason: DisconnectReason, run: seq<Action>)
    requires Reachable(s) && Releasable(s, h) && Follows(ClearConnection(s, h, reason), run, WatchOf(s, h))
    ensures var t := Exec(ClearConnection(s, h, reason), run);
            t.inbox != [] && t.inbox[0].Disconnected? && t.inbox[0].flag == h ==>
              && (ToDisconnectReason(t.inbox[0].info.reason) == reason <==> !reason.ReasonHandover?)
              && (reason.ReasonHandover? ==> ToDisconnectReason(t.inbox[0].info.reason) == ReasonRetry)
  {
    CauseEndToEnd(s, h, reason, run);
    CauseDecodes(reason);
  }
}
