/** What holds in every reachable state of the connection protocol. */
module ProtocolTheorems {
  import opened Options
  import opened ReasonCodes
  import opened ConnectionMachine
  import opened AttemptInvariant
  import opened AttemptSteps
  import opened Handler
  import opened ProtocolInvariant
  import opened Protocol

  // ---- One obligation per held machine ----

  function Connects(q: seq<Event>): nat {
    if q == [] then 0 else (if q[0].Connect? then 1 else 0) + Connects(q[1..])
  }

  function Completions(q: seq<Report>, h: ApnId): nat {
    if q == [] then 0 else (if q[0].Disconnected? && q[0].flag == h then 1 else 0) + Completions(q[1..], h)
  }

  lemma {:induction false} ConnectsConcat(p: seq<Event>, q: seq<Event>)
    ensures Connects(p + q) == Connects(p) + Connects(q)
  {
    if p == [] {
      assert p + q == q;
    } else {
      assert (p + q)[1..] == p[1..] + q;
      ConnectsConcat(p[1..], q);
    }
  }

  lemma {:induction false} BoundedHasNoConnect(q: seq<Event>, lo: nat, hi: nat)
    requires Bounded(q, lo, hi)
    ensures Connects(q) == 0
  {
    if q != [] {
      BoundedHasNoConnect(q[1..], lo, hi);
    }
  }

  lemma {:induction false} CompletionsFor(q: seq<Report>, h: ApnId)
    ensures Completions(q, h) == Completions(For(q, h), h)
  {
    if q != [] {
      CompletionsFor(q[1..], h);
      if q[0].flag == h {
        assert For(q, h)[1..] == For(q[1..], h);
      } else {
        assert For(q, h) == For(q[1..], h);
      }
    }
  }

  lemma {:induction false} EstablishedAreNoCompletions(q: seq<Report>, h: ApnId)
    requires AllEstablished(q)
    ensures Completions(q, h) == 0
  {
    if q != [] {
      EstablishedAreNoCompletions(q[1..], h);
    }
  }

  lemma {:induction false} OneCompletion(q: seq<Report>, h: ApnId, attempt: nat)
    requires EndsInCompletion(q, attempt) && q[|q| - 1].flag == h
    ensures Completions(q, h) == 1
    decreases |q|
  {
    if |q| == 1 {
      assert q[1..] == [];
    } else {
      assert q[0] == q[..|q| - 1][0];
      assert q[1..][..|q| - 2] == q[..|q| - 1][1..];
      OneCompletion(q[1..], h, attempt);
    }
  }

  lemma {:induction false} ForFlags(q: seq<Report>, h: ApnId)
    ensures forall i | 0 <= i < |For(q, h)| :: For(q, h)[i].flag == h
  {
    if q != [] {
      ForFlags(q[1..], h);
    }
  }

  function QueuedConnects(m: Machine): nat {
    Connects(m.ordinary) + Connects(m.immediate) + Connects(m.deferred)
  }

  lemma WaitingHasOneConnect(m: Machine, h: ApnId)
    requires Waiting(m, h)
    ensures QueuedConnects(m) == 1
  {
    var k: nat :| WaitingAt(m, h, k);
    var q := m.ordinary;
    assert q == q[..k] + ([q[k]] + q[k + 1..]);
    ConnectsConcat(q[..k], [q[k]] + q[k + 1..]);
    ConnectsConcat([q[k]], q[k + 1..]);
    BoundedHasNoConnect(q[..k], 0, |m.accepted|);
    BoundedHasNoConnect(q[k + 1..], m.grants, m.grants);
    assert [q[k]][1..] == [];
    if m.phase.Inactive? {
      BoundedHasNoConnect(m.immediate, 0, |m.accepted|);
    } else {
      assert m.immediate[1..] == [];
    }
  }

  lemma OthersHaveNoConnect(m: Machine, h: ApnId)
    requires Busy(m, h) || Settled(m)
    ensures QueuedConnects(m) == 0
  {
    var lo := if Settled(m) then 0 else m.grants;
    BoundedHasNoConnect(m.ordinary, lo, m.grants);
    BoundedHasNoConnect(m.immediate, lo, m.grants);
    BoundedHasNoConnect(m.deferred, lo, m.grants);
  }

  lemma HeldObligation(m: Machine, h: ApnId, st: ApnState, box: seq<Report>)
    requires Held(m, h, st, box)
    requires forall i | 0 <= i < |box| :: box[i].flag == h
    ensures QueuedConnects(m) + (if Running(m) then 1 else 0) + Completions(box, h) == 1
    ensures Running(m) ==> m.apnId == h
  {
    if Waiting(m, h) {
      WaitingHasOneConnect(m, h);
    } else if Busy(m, h) {
      OthersHaveNoConnect(m, h);
      EstablishedAreNoCompletions(box, h);
    } else {
      OthersHaveNoConnect(m, h);
      OneCompletion(box, h, m.grants);
    }
  }

  /** A held machine owes its holder exactly one thing: a queued connect, an attempt in
      progress for this holder, or one queued completion. */
  lemma ExactlyOneObligation(s: System, h: ApnId)
    requires Reachable(s) && HasMachine(s, h)
    ensures var m := s.pool[s.holders[h].machine.value];
            && QueuedConnects(m) + (if Running(m) then 1 else 0) + Completions(s.inbox, h) == 1
            && (Running(m) ==> m.apnId == h)
  {
    ReachableInv(s);
    assert HolderOk(s, h);
    CompletionsFor(s.inbox, h);
    ForFlags(s.inbox, h);
    HeldObligation(s.pool[s.holders[h].machine.value], h, s.holders[h].state, For(s.inbox, h));
  }

  /** A machine nobody holds is inactive with no connect queued, and a holder without a
      machine has no completion coming. */
  lemma NothingOwedOtherwise(s: System, i: nat, h: ApnId)
    requires Reachable(s)
    ensures i < |s.pool| && !InUse(s, i) ==> s.pool[i].phase.Inactive? && QueuedConnects(s.pool[i]) == 0
    ensures h in s.holders && s.holders[h].machine.None? ==> Completions(s.inbox, h) == 0
  {
    ReachableInv(s);
    if i < |s.pool| && !InUse(s, i) {
      assert Free(s.pool[i]);
      OthersHaveNoConnect(s.pool[i], h);
    }
    if h in s.holders && s.holders[h].machine.None? {
      assert HolderOk(s, h);
      CompletionsFor(s.inbox, h);
    }
  }

  /** A connect is consumed in Inactive only, by the machine granted to its holder, as
      the next attempt of that machine. */
  lemma ConnectConsumedInInactive(s: System, i: nat)
    requires Reachable(s) && i < |s.pool| && HasNext(s.pool[i]) && NextEvent(s.pool[i]).Connect?
    ensures var m := s.pool[i]; var e := NextEvent(m);
            && m.phase.Inactive?
            && e.holder in s.holders && s.holders[e.holder].machine == Some(i)
            && e.attempt == m.grants == |m.accepted| + 1
  {
    ReachableInv(s);
    var m := s.pool[i];
    UnusedIsFree(s, i);
    SettledNext(m);
    var h :| h in s.holders && s.holders[h].machine == Some(i);
    assert HolderOk(s, h);
    ConnectMeansWaiting(m, h, s.holders[h].state, For(s.inbox, h));
  }

  lemma UnusedIsFree(s: System, i: nat)
    requires Inv(s) && i < |s.pool|
    ensures InUse(s, i) || Free(s.pool[i])
  {
  }

  lemma SettledNext(m: Machine)
    requires HasNext(m)
    ensures Settled(m) ==> !NextEvent(m).Connect?
  {
    if Settled(m) {
      assert Within(NextEvent(m), 0, m.grants);
    }
  }

  lemma BusyNext(m: Machine, h: ApnId)
    requires HasNext(m)
    ensures Busy(m, h) ==> !NextEvent(m).Connect?
  {
    if Busy(m, h) {
      assert Within(NextEvent(m), m.grants, m.grants);
    }
  }

  lemma WaitingNext(m: Machine, h: ApnId)
    requires HasNext(m)
    ensures Waiting(m, h) && NextEvent(m).Connect? ==>
              m.phase.Inactive? && NextEvent(m) == Connect(h, m.grants)
  {
    if Waiting(m, h) {
      var k: nat :| WaitingAt(m, h, k);
      if m.immediate == [] && k > 0 {
        assert m.ordinary[0] == m.ordinary[..k][0];
        assert Within(m.ordinary[0], 0, |m.accepted|);
      } else if m.immediate != [] && m.phase.Inactive? {
        assert Within(m.immediate[0], 0, |m.accepted|);
      }
    }
  }

  lemma ConnectMeansWaiting(m: Machine, h: ApnId, st: ApnState, box: seq<Report>)
    requires Held(m, h, st, box) && HasNext(m) && NextEvent(m).Connect?
    ensures m.phase.Inactive? && NextEvent(m) == Connect(h, m.grants) && m.grants == |m.accepted| + 1
  {
    BusyNext(m, h);
    SettledNext(m);
    WaitingNext(m, h);
  }

  // ---- Attempt isolation ----

  ghost predicate InQueue(e: Event, q: seq<Event>) {
    exists k :: 0 <= k < |q| && q[k] == e
  }

  /** Still to be processed: in one of the queues, or a running timer. */
  ghost predicate Deliverable(m: Machine, e: Event) {
    || InQueue(e, m.immediate) || InQueue(e, m.ordinary) || InQueue(e, m.deferred)
    || (e.ConnectCheck? && e.id in m.connectChecks)
    || (e.DisconnectCheck? && e.id in m.disconnectChecks)
  }

  ghost predicate EarlierId(m: Machine, id: nat) {
    exists k :: 0 <= k < |m.accepted| - 1 && m.accepted[k].id == id
  }

  /** Issued for an attempt before the one in progress. */
  ghost predicate IssuedEarlier(m: Machine, e: Event) {
    match e
    case Disconnect(_, _, a) => a < |m.accepted|
    case LostConnection(_, a) => a < |m.accepted|
    case SetupDone(flag, _) => EarlierId(m, flag)
    case SetupError(flag) => EarlierId(m, flag)
    case DeactivateDone(flag) => EarlierId(m, flag)
    case ConnectCheck(id, _) => EarlierId(m, id)
    case DisconnectCheck(id) => EarlierId(m, id)
    case _ => false
  }

  ghost predicate SameAttempt(m: Machine, m': Machine) {
    && m'.phase == m.phase && m'.connectId == m.connectId && m'.apnId == m.apnId && m'.cid == m.cid
    && m'.stored == m.stored && m'.accepted == m.accepted && m'.completed == m.completed
  }

  lemma RunningIsHeld(s: System, i: nat) returns (h: ApnId)
    requires Inv(s) && i < |s.pool| && Running(s.pool[i])
    ensures h in s.holders && s.holders[h].machine == Some(i)
    ensures Busy(s.pool[i], h) && HistoryOk(s.pool[i]) && h != ERROR_APN_ID
  {
    UnusedIsFree(s, i);
    h :| h in s.holders && s.holders[h].machine == Some(i);
    assert HolderOk(s, h);
  }

  lemma EarlierIsNotCurrent(m: Machine, id: nat)
    requires HistoryOk(m) && Running(m) && EarlierId(m, id)
    ensures id < m.connectId
  {
    var k :| 0 <= k < |m.accepted| - 1 && m.accepted[k].id == id;
    assert m.accepted[k].id < m.accepted[|m.accepted| - 1].id;
  }

  lemma QueuedIsCurrent(m: Machine, h: ApnId, e: Event)
    requires Busy(m, h) && Deliverable(m, e) && (e.Disconnect? || e.LostConnection?)
    ensures e.attempt == |m.accepted|
  {
    assert Within(e, m.grants, m.grants);
  }

  lemma StaleAnswer(m: Machine, e: Event, id: nat)
    requires Running(m) && id != m.connectId
    requires e.SetupDone? || e.SetupError? || e.DeactivateDone? ==> e.flag == id
    requires e.ConnectCheck? || e.DisconnectCheck? ==> e.id == id
    requires e.SetupDone? || e.SetupError? || e.DeactivateDone? || e.ConnectCheck? || e.DisconnectCheck?
    ensures SameAttempt(m, Process(m, e).m)
  {
  }

  /** Whatever is still to be delivered and was issued for an earlier attempt leaves the
      attempt in progress alone; release requests and loss notices of earlier attempts are
      not even left over. */
  lemma AttemptIsolation(s: System, i: nat, e: Event)
    requires Reachable(s) && i < |s.pool| && Running(s.pool[i])
    requires Deliverable(s.pool[i], e) && IssuedEarlier(s.pool[i], e)
    ensures SameAttempt(s.pool[i], Process(s.pool[i], e).m)
    ensures !e.Disconnect? && !e.LostConnection?
  {
    ReachableInv(s);
    var m := s.pool[i];
    var h := RunningIsHeld(s, i);
    if e.Disconnect? || e.LostConnection? {
      QueuedIsCurrent(m, h, e);
    } else {
      var id := if e.SetupDone? || e.SetupError? || e.DeactivateDone? then e.flag else e.id;
      EarlierIsNotCurrent(m, id);
      StaleAnswer(m, e, id);
    }
  }

  /** An answer without its flag is the one late answer that ends a later attempt, and it
      does so exactly when the machine is disconnecting. */
  lemma UnflaggedAnswer(m: Machine)
    requires Running(m)
    ensures Process(m, DeactivateEmpty).m.phase != m.phase <==> m.phase.Disconnecting?
    ensures SameAttempt(m, Process(m, SetupEmpty).m)
  {
  }

  /** The interface callback gives a left-over disconnect timer the current generation,
      whichever attempt started it. On an active machine it then stands beside the timer of
      the next disconnect, ends that disconnect when it fires, and leaves the other pending. */
  lemma InterfaceDownRetags(m: Machine, id: nat, d: Event)
    requires id in m.disconnectChecks
    ensures m.connectId in InterfaceDown(m).disconnectChecks
    ensures id in InterfaceDown(m).disconnectChecks <==> id == m.connectId
    ensures m.phase.Active? && m.immediate == [] && m.deferred == [] && d.Disconnect? ==>
              var n := Process(InterfaceDown(m), d).m;
              && n.phase.Disconnecting? && n.disconnectChecks == multiset{m.connectId, m.connectId}
              && FireDisconnectCheck(n, m.connectId).m.phase.Inactive?
              && FireDisconnectCheck(n, m.connectId).m.disconnectChecks == multiset{m.connectId}
  {
    if m.phase.Active? && m.immediate == [] && m.deferred == [] && d.Disconnect? {
      var n := Process(InterfaceDown(m), d).m;
      assert n.immediate == [];
    }
  }

  /** Every activation request carries a larger generation than all before it on its machine. */
  lemma ActivationIdsIncrease(s: System, i: nat, a: nat, b: nat)
    requires Reachable(s) && i < |s.pool| && a < b < |s.pool[i].accepted|
    ensures s.pool[i].accepted[a].id < s.pool[i].accepted[b].id
  {
    MachineHistory(s, i);
  }

  lemma MachineHistory(s: System, i: nat)
    requires Reachable(s) && i < |s.pool|
    ensures HistoryOk(s.pool[i])
  {
    ReachableInv(s);
    if InUse(s, i) {
      var h :| h in s.holders && s.holders[h].machine == Some(i);
      assert HolderOk(s, h);
    } else {
      assert Free(s.pool[i]);
    }
  }

  // ---- Completions ----

  /** Attempts are completed once each, in order, to the holder that asked; only the
      attempt in progress is still open. */
  lemma CompletedOnceInOrder(s: System, i: nat)
    requires Reachable(s) && i < |s.pool|
    ensures var m := s.pool[i];
            && |m.completed| + (if Running(m) then 1 else 0) == |m.accepted|
            && forall k | 0 <= k < |m.completed| :: m.completed[k] == m.accepted[k]
  {
    MachineHistory(s, i);
  }

  /** A queued completion reports a result stored during the very attempt it ends. */
  lemma CompletionCarriesOwnResult(s: System, k: nat)
    requires Reachable(s) && k < |s.inbox| && s.inbox[k].Disconnected?
    ensures var h := s.inbox[k].flag;
            && HasMachine(s, h)
            && s.inbox[k].origin == |s.pool[s.holders[h].machine.value].accepted|
            && s.pool[s.holders[h].machine.value].phase.Inactive?
  {
    ReachableInv(s);
    var h := s.inbox[k].flag;
    assert HolderOk(s, h);
    var j := InFor(s.inbox, h, k);
    var box := For(s.inbox, h);
    assert s.holders[h].machine.Some?;
    CompletionEnds(s.pool[s.holders[h].machine.value], h, s.holders[h].state, box, j);
  }

  lemma {:induction false} InFor(q: seq<Report>, h: ApnId, k: nat) returns (j: nat)
    requires k < |q| && q[k].flag == h
    ensures j < |For(q, h)| && For(q, h)[j] == q[k]
  {
    if k == 0 {
      j := 0;
    } else {
      j := InFor(q[1..], h, k - 1);
      if q[0].flag == h {
        j := j + 1;
      }
    }
  }

  lemma CompletionIsAtEnd(box: seq<Report>, attempt: nat, j: nat)
    requires j < |box|
    ensures EndsInCompletion(box, attempt) && j < |box| - 1 ==> box[j].Established?
  {
    if j < |box| - 1 {
      assert box[..|box| - 1][j] == box[j];
    }
  }

  lemma CompletionEnds(m: Machine, h: ApnId, st: ApnState, box: seq<Report>, j: nat)
    requires Held(m, h, st, box) && j < |box| && box[j].Disconnected?
    ensures Settled(m) && box[j].origin == |m.accepted|
  {
    CompletionIsAtEnd(box, m.grants, j);
  }

  // ---- Holders ----

  /** A holder has a machine exactly while it is connecting, connected or disconnecting,
      and never fails. */
  lemma StateMatchesMachine(s: System, h: ApnId)
    requires Reachable(s) && h in s.holders
    ensures var x := s.holders[h];
            && (x.machine.Some? <==> x.state.Connecting? || x.state.Connected? || x.state.Releasing?)
            && !x.state.Failed?
  {
    ReachableInv(s);
    assert HolderOk(s, h);
  }

  /** Every report finds its holder with a machine, so the fallback branches for a missing
      holder or machine are never taken. */
  lemma ReportsFindTheirMachine(s: System)
    requires Reachable(s) && s.inbox != []
    ensures var h := s.inbox[0].flag; ReportedHolder(h) == h && HasMachine(s, h)
    ensures s.inbox[0].Established? ==> EstablishComplete(s).holders[s.inbox[0].flag].state.Connected?
  {
    ReachableInv(s);
    ReporterIsHeld(s);
  }

  /** A retrying holder has its retry timer, and a disconnecting one has a request queued
      or deferred, a machine on its way out, or a completion coming. */
  lemma NoLostWakeUp(s: System, h: ApnId)
    requires Reachable(s) && h in s.holders
    ensures s.holders[h].state.Retrying? ==> h in s.retries
    ensures s.holders[h].state.Releasing? ==>
              && HasMachine(s, h)
              && var m := s.pool[s.holders[h].machine.value];
                 ReleasePending(m) || m.phase.Disconnecting? || Completions(s.inbox, h) == 1
  {
    ReachableInv(s);
    assert HolderOk(s, h);
    if s.holders[h].state.Releasing? {
      var m := s.pool[s.holders[h].machine.value];
      if Settled(m) {
        CompletionsFor(s.inbox, h);
        ForFlags(s.inbox, h);
        OneCompletion(For(s.inbox, h), h, m.grants);
      }
    }
  }

  // ---- Allocation ----

  /** No two holders share a machine. */
  lemma MachinesAreExclusive(s: System, g: ApnId, h: ApnId)
    requires Reachable(s) && g in s.holders && h in s.holders
    requires s.holders[g].machine.Some? && s.holders[g].machine == s.holders[h].machine
    ensures g == h
  {
    ReachableInv(s);
  }

  /** A machine handed out has finished and reported every attempt it accepted. */
  lemma HandedOutFinished(s: System)
    requires Reachable(s) && FirstIdle(s, 0) < |s.pool|
    ensures var m := s.pool[FirstIdle(s, 0)];
            && m.completed == m.accepted && m.grants == |m.accepted|
            && QueuedConnects(m) == 0 && m.deferred == [] && m.stored.None?
  {
    ReachableInv(s);
    var m := s.pool[FirstIdle(s, 0)];
    assert Free(m);
    OthersHaveNoConnect(m, 0);
  }

  ghost predicate OthersUntouched(s: System, s': System, h: ApnId, i: nat) {
    && s'.inbox == s.inbox && s'.retries == s.retries && s'.requests == s.requests && s'.cidIndex == s.cidIndex
    && s'.holders.Keys == s.holders.Keys
    && (forall g | g in s.holders && g != h :: s'.holders[g] == s.holders[g])
    && |s.pool| <= |s'.pool|
    && (forall j | 0 <= j < |s.pool| && j != i :: s'.pool[j] == s.pool[j])
  }

  /** Handing out gives an idle holder a machine nobody held, with exactly one connect
      queued, and touches no other holder or machine. */
  lemma HandOutEffect(s: System, h: ApnId)
    requires Reachable(s) && h in s.holders && s.holders[h].state.Idle?
    ensures var s' := Allocate(s, h);
            && HasMachine(s', h) && s'.holders[h].state.Connecting?
            && var i := s'.holders[h].machine.value;
               && !InUse(s, i) && QueuedConnects(s'.pool[i]) == 1 && !Running(s'.pool[i])
               && OthersUntouched(s, s', h, i)
  {
    ReachableInv(s);
    assert HolderOk(s, h);
    NextSlotUnused(s);
    var i := FirstIdle(s, 0);
    if i < |s.pool| {
      GrantHolds(s.pool[i], h);
      WaitingHasOneConnect(Grant(s.pool[i], h), h);
    } else {
      GrantHolds(NEW_MACHINE, h);
      WaitingHasOneConnect(Grant(NEW_MACHINE, h), h);
    }
  }

  /** A clear changes something exactly for a holder that is connecting or connected: then a
      request of the current attempt with the given reason is last in its machine's queue,
      and no other holder or machine is touched. */
  lemma ClearEffect(s: System, h: ApnId, reason: DisconnectReason)
    requires Reachable(s) && h in s.holders
    ensures var s' := ClearConnection(s, h, reason);
            && (s' == s <==> !s.holders[h].state.Connecting? && !s.holders[h].state.Connected?)
            && (s' != s ==>
                  && HasMachine(s, h) && HasMachine(s', h) && s'.holders[h].state.Releasing?
                  && var i := s.holders[h].machine.value;
                     && s'.holders[h].machine == Some(i)
                     && ReleasePending(s'.pool[i])
                     && var q := s'.pool[i].ordinary;
                        && q != [] && q[..|q| - 1] == s.pool[i].ordinary
                        && q[|q| - 1] == Disconnect(h, reason, s.pool[i].grants)
                        && OthersUntouched(s, s', h, i))
  {
    ReachableInv(s);
    assert HolderOk(s, h);
    if s.holders[h].state.Connecting? || s.holders[h].state.Connected? {
      SentEffect(s, h, s.holders[h].machine.value, reason);
    }
  }

  lemma SentEffect(s: System, h: ApnId, i: nat, reason: DisconnectReason)
    requires h in s.holders && s.holders[h].machine == Some(i) && i < |s.pool| && !s.holders[h].state.Releasing?
    ensures var s' := SendDisconnect(s, h, i, reason);
            && s' != s
            && HasMachine(s', h) && s'.holders[h].state.Releasing? && s'.holders[h].machine == Some(i)
            && ReleasePending(s'.pool[i])
            && var q := s'.pool[i].ordinary;
               && q != [] && q[..|q| - 1] == s.pool[i].ordinary
               && q[|q| - 1] == Disconnect(h, reason, s.pool[i].grants)
               && OthersUntouched(s, s', h, i)
  {
    var s' := SendDisconnect(s, h, i, reason);
    assert s'.holders[h].state != s.holders[h].state;
    var q := s'.pool[i].ordinary;
    assert q[|q| - 1].Disconnect? && q[|q| - 1].attempt == s'.pool[i].grants;
  }

  // ---- Cid index ----

  /** Every index entry names a held machine that carries that cid and is past activation. */
  lemma IndexIsSound(s: System, c: int)
    requires Reachable(s) && c in s.cidIndex
    ensures var i := s.cidIndex[c];
            && i < |s.pool| && s.pool[i].cid == c && InUse(s, i)
            && !s.pool[i].phase.Activating? && QueuedConnects(s.pool[i]) == 0
  {
    ReachableInv(s);
    assert EntryOk(s, c);
    var i := s.cidIndex[c];
    var h :| h in s.holders && s.holders[h].machine == Some(i);
    assert HolderOk(s, h);
    OthersHaveNoConnect(s.pool[i], h);
  }

  // ---- Reason round trip ----

  /** Events that leave a disconnecting machine waiting for the modem. */
  predicate KeepsWaiting(m: Machine, e: Event) {
    && !(e.DeactivateDone? && e.flag == m.connectId)
    && !e.DeactivateEmpty?
    && !(e.DisconnectCheck? && e.id == m.connectId)
    && !e.HostDied?
  }

  function ProcessAll(m: Machine, es: seq<Event>): Machine {
    if es == [] then m else Process(ProcessAll(m, es[..|es| - 1]), es[|es| - 1]).m
  }

  lemma {:induction false} WaitingForModem(m: Machine, es: seq<Event>)
    requires m.phase.Disconnecting?
    requires forall k | 0 <= k < |es| :: KeepsWaiting(m, es[k])
    ensures SameAttempt(m, ProcessAll(m, es))
    decreases |es|
  {
    if es != [] {
      WaitingForModem(m, es[..|es| - 1]);
      assert KeepsWaiting(m, es[|es| - 1]);
    }
  }

  lemma ReleasedReport(m: Machine, answer: Event)
    requires m.phase.Disconnecting? && m.apnId != ERROR_APN_ID && m.stored.Some?
    requires answer == DeactivateDone(m.connectId) || answer.DeactivateEmpty?
    ensures var out := Process(m, answer).out;
            |out| == 1 && out[0].Disconnected? && out[0].flag == m.apnId && out[0].info.reason == m.stored.value.info.reason
  {
  }

  lemma ReasonSurvives(m: Machine, e: Event, es: seq<Event>, answer: Event)
    requires m.phase.Active? && m.apnId != ERROR_APN_ID && e.Disconnect?
    requires forall k | 0 <= k < |es| :: KeepsWaiting(m, es[k])
    requires answer == DeactivateDone(m.connectId) || answer.DeactivateEmpty?
    ensures var out := Process(ProcessAll(Process(m, e).m, es), answer).out;
            && |out| == 1 && out[0].Disconnected? && out[0].flag == m.apnId
            && out[0].info.reason == ToPdpError(e.reason)
  {
    var d := Process(m, e).m;
    assert d.stored.Some? && d.stored.value.info.reason == ToPdpError(e.reason);
    WaitingForModem(d, es);
    ReleasedReport(ProcessAll(d, es), answer);
  }

  /** A disconnect that reaches an active machine is reported, to the holder it serves, with
      the reason it was sent with, through any events that come before the modem's answer,
      exactly for the reasons that the map knows. */
  lemma ReasonRoundTrip(s: System, i: nat, e: Event, es: seq<Event>, answer: Event)
    requires Reachable(s) && i < |s.pool| && s.pool[i].phase.Active? && e.Disconnect?
    requires forall k | 0 <= k < |es| :: KeepsWaiting(s.pool[i], es[k])
    requires answer == DeactivateDone(s.pool[i].connectId) || answer.DeactivateEmpty?
    ensures var m := s.pool[i];
            var out := Process(ProcessAll(Process(m, e).m, es), answer).out;
            && |out| == 1 && out[0].Disconnected?
            && out[0].flag in s.holders && s.holders[out[0].flag].machine == Some(i)
            && (ToDisconnectReason(out[0].info.reason) == e.reason <==> !e.reason.ReasonHandover?)
            && (e.reason.ReasonHandover? ==> ToDisconnectReason(out[0].info.reason) == ReasonRetry)
  {
    ReachableInv(s);
    var h := RunningIsHeld(s, i);
    ReasonSurvives(s.pool[i], e, es, answer);
  }
}
