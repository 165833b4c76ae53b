/** Every event a machine can process keeps the attempt invariant. */
module AttemptSteps {
  import opened Options
  import opened ReasonCodes
  import opened ConnectionMachine
  import opened AttemptInvariant

  // ---- Queue facts ----

  lemma BoundedConcat(p: seq<Event>, q: seq<Event>, lo: nat, hi: nat)
    requires Bounded(p, lo, hi) && Bounded(q, lo, hi)
    ensures Bounded(p + q, lo, hi)
  {
  }

  lemma AsksLeft(p: seq<Event>, q: seq<Event>, a: nat)
    requires Asks(p, a)
    ensures Asks(p + q, a)
  {
    var i :| 0 <= i < |p| && p[i].Disconnect? && p[i].attempt == a;
    assert (p + q)[i] == p[i];
  }

  lemma AsksRight(p: seq<Event>, q: seq<Event>, a: nat)
    requires Asks(q, a)
    ensures Asks(p + q, a)
  {
    var i :| 0 <= i < |q| && q[i].Disconnect? && q[i].attempt == a;
    assert (p + q)[|p| + i] == q[i];
  }

  lemma AsksTail(q: seq<Event>, a: nat)
    requires Asks(q, a)
    requires q != [] && !(q[0].Disconnect? && q[0].attempt == a)
    ensures Asks(q[1..], a)
  {
    var i :| 0 <= i < |q| && q[i].Disconnect? && q[i].attempt == a;
    assert q[1..][i - 1] == q[i];
  }

  // ---- Leaving an attempt ----

  /** Whatever ends an attempt leaves the machine settled and reports it exactly once. */
  lemma EndOfAttempt(m: Machine, h: ApnId, st: ApnState, box: seq<Report>)
    requires Busy(m, h)
    requires st.Connecting? || st.Connected? || st.Releasing?
    requires h != ERROR_APN_ID
    requires m.deactiveApnId == h
    requires m.stored.Some? && m.stored.value.attempt == |m.accepted|
    requires Increasing(m.accepted)
    requires |m.accepted| > 0
    requires m.accepted[|m.accepted| - 1] == Attempt(m.apnId, m.connectId)
    requires m.completed == m.accepted[..|m.accepted| - 1]
    requires AllEstablished(box)
    ensures var r := EnterInactive(m);
            Held(r.m, h, st, box + r.out) && Settled(r.m) && |r.out| == 1 && r.out[0].flag == h
  {
    var r := EnterInactive(m);
    assert r.m.completed == m.accepted;
    BoundedConcat(m.immediate, m.deferred, m.grants, m.grants);
    var all := box + r.out;
    assert all[..|all| - 1] == box;
  }

  // ---- An attempt in progress ----

  /** Before e was taken off its queue the holder's wish to release, if any, was pending. */
  ghost predicate ReleaseKnown(m: Machine, st: ApnState, e: Event) {
    st.Releasing? ==>
      || m.phase.Disconnecting?
      || ReleasePending(m)
      || (e.Disconnect? && e.attempt == m.grants)
  }

  ghost predicate BusyHeld(m: Machine, h: ApnId, st: ApnState, box: seq<Report>) {
    && HistoryOk(m)
    && (st.Connecting? || st.Connected? || st.Releasing?)
    && h != ERROR_APN_ID
    && Busy(m, h)
    && AllEstablished(box)
    && (m.phase.Activating? ==> box == [] && !st.Connected?)
  }

  lemma DeferralKeeps(m: Machine, h: ApnId, st: ApnState, box: seq<Report>, e: Event)
    requires BusyHeld(m, h, st, box)
    requires Within(e, m.grants, m.grants)
    requires ReleaseKnown(m, st, e)
    ensures Held(Defer(m, e), h, st, box)
  {
    var m' := Defer(m, e);
    BoundedConcat(m.deferred, [e], m.grants, m.grants);
    if e.Disconnect? {
      assert m'.deferred[|m.deferred|] == e;
    } else if Asks(m.deferred, m.grants) {
      AsksLeft(m.deferred, [e], m.grants);
    }
  }

  lemma RepostKeepsRequests(m: Machine)
    requires ReleasePending(m)
    ensures ReleasePending(Repost(m))
  {
    if Asks(m.immediate, m.grants) {
      AsksLeft(m.immediate, m.deferred, m.grants);
    } else if Asks(m.deferred, m.grants) {
      AsksRight(m.immediate, m.deferred, m.grants);
    }
  }

  lemma SetupAccepted(m: Machine, h: ApnId, st: ApnState, e: Event)
    requires BusyHeld(m, h, st, []) && m.phase.Activating?
    requires e.SetupDone? && ReleaseKnown(m, st, e)
    ensures Held(Repost(Defer(m.(cid := e.call.cid, phase := Active, answered := |m.accepted|), e)), h, st, [])
  {
    var d := Defer(m.(cid := e.call.cid, phase := Active, answered := |m.accepted|), e);
    BoundedConcat(m.deferred, [e], m.grants, m.grants);
    BoundedConcat(d.immediate, d.deferred, m.grants, m.grants);
    if st.Releasing? {
      if Asks(m.deferred, m.grants) {
        AsksLeft(m.deferred, [e], m.grants);
      }
      RepostKeepsRequests(d);
    }
  }

  /** The holder keeps the machine, and all that was reported is addressed to it. */
  ghost predicate Kept(r: Outcome, h: ApnId, st: ApnState, box: seq<Report>) {
    Held(r.m, h, st, box + r.out) && forall i | 0 <= i < |r.out| :: r.out[i].flag == h
  }

  lemma StayKept(m: Machine, h: ApnId, st: ApnState, box: seq<Report>)
    requires Held(m, h, st, box)
    ensures Kept(Stay(m), h, st, box)
  {
    assert box + [] == box;
  }

  lemma UnchangedHeld(m: Machine, h: ApnId, st: ApnState, box: seq<Report>, e: Event)
    requires BusyHeld(m, h, st, box) && !e.Disconnect? && ReleaseKnown(m, st, e)
    ensures Held(m, h, st, box)
  {
  }

  lemma FinishKept(m: Machine, h: ApnId, st: ApnState, box: seq<Report>, info: CallInfo)
    requires BusyHeld(m, h, st, box)
    ensures Kept(Finish(m, info), h, st, box)
  {
    EndOfAttempt(m.(stored := Some(Stored(info, |m.accepted|)), deactiveApnId := h), h, st, box);
  }

  lemma ReleasedKept(m: Machine, h: ApnId, st: ApnState, box: seq<Report>)
    requires BusyHeld(m, h, st, box) && m.phase.Disconnecting?
    ensures Kept(Released(m), h, st, box)
  {
    EndOfAttempt(m.(disconnectChecks := multiset{}, deactiveApnId := h), h, st, box);
  }

  lemma DeferKept(m: Machine, h: ApnId, st: ApnState, box: seq<Report>, e: Event)
    requires BusyHeld(m, h, st, box) && Within(e, m.grants, m.grants) && ReleaseKnown(m, st, e)
    ensures Kept(Stay(Defer(m, e)), h, st, box)
  {
    DeferralKeeps(m, h, st, box, e);
    StayKept(Defer(m, e), h, st, box);
  }

  lemma CidBusyHeld(m: Machine, h: ApnId, st: ApnState, box: seq<Report>, cid: int)
    requires BusyHeld(m, h, st, box)
    ensures BusyHeld(m.(cid := cid), h, st, box)
  {
  }

  lemma AnsweredKept(m: Machine, h: ApnId, st: ApnState, e: Event)
    requires BusyHeld(m, h, st, []) && m.phase.Activating? && e.SetupDone? && ReleaseKnown(m, st, e)
    ensures Kept(SetupAnswered(m, e), h, st, [])
  {
    if m.connectId != e.flag {
      UnchangedHeld(m, h, st, [], e);
      StayKept(m, h, st, []);
    } else if e.call.reason != NoError || !e.call.active {
      CidBusyHeld(m, h, st, [], e.call.cid);
      FinishKept(m.(cid := e.call.cid), h, st, [], e.call.(scene := SetupData));
    } else {
      SetupAccepted(m, h, st, e);
      StayKept(Repost(Defer(m.(cid := e.call.cid, phase := Active, answered := |m.accepted|), e)), h, st, []);
    }
  }

  lemma ActivatingKeeps(m: Machine, h: ApnId, st: ApnState, e: Event)
    requires BusyHeld(m, h, st, []) && m.phase.Activating?
    requires Within(e, m.grants, m.grants) && ReleaseKnown(m, st, e)
    ensures Kept(ActivatingProcess(m, e), h, st, [])
  {
    match e
    case Disconnect(_, _, _) => DeferKept(m, h, st, [], e);
    case SetupDone(_, _) => AnsweredKept(m, h, st, e);
    case _ =>
      UnchangedHeld(m, h, st, [], e);
      StayKept(m, h, st, []);
      FinishKept(m, h, st, [], ReasonOnly(Retry));
  }

  lemma DisconnectTaken(m: Machine, h: ApnId, st: ApnState, box: seq<Report>, e: Event)
    requires BusyHeld(m, h, st, box) && m.phase.Active? && e.Disconnect?
    ensures Kept(ActiveProcess(m, e), h, st, box)
  {
    BoundedConcat(m.immediate, m.deferred, m.grants, m.grants);
    StayKept(ActiveProcess(m, e).m, h, st, box);
  }

  lemma ForwardKept(m: Machine, h: ApnId, st: ApnState, box: seq<Report>, e: Event)
    requires BusyHeld(m, h, st, box) && m.phase.Active? && e.SetupDone? && ReleaseKnown(m, st, e)
    ensures Kept(ActiveProcess(m, e), h, st, box)
  {
    var r := ActiveProcess(m, e);
    assert r.out == [Established(m.apnId)];
    assert ReleasePending(m) ==> ReleasePending(r.m);
  }

  lemma ActiveKeeps(m: Machine, h: ApnId, st: ApnState, box: seq<Report>, e: Event)
    requires BusyHeld(m, h, st, box) && m.phase.Active?
    requires Within(e, m.grants, m.grants) && ReleaseKnown(m, st, e)
    ensures Kept(ActiveProcess(m, e), h, st, box)
  {
    match e
    case Disconnect(_, _, _) => DisconnectTaken(m, h, st, box, e);
    case LostConnection(info, _) => FinishKept(m, h, st, box, info);
    case HostDied => FinishKept(m, h, st, box, EMPTY_CALL);
    case SetupDone(_, _) => ForwardKept(m, h, st, box, e);
    case _ =>
      UnchangedHeld(m, h, st, box, e);
      StayKept(m, h, st, box);
  }

  lemma DisconnectingKeeps(m: Machine, h: ApnId, st: ApnState, box: seq<Report>, e: Event)
    requires BusyHeld(m, h, st, box) && m.phase.Disconnecting?
    requires Within(e, m.grants, m.grants)
    ensures Kept(DisconnectingProcess(m, e), h, st, box)
  {
    match e
    case Disconnect(_, _, _) => DeferKept(m, h, st, box, e);
    case _ =>
      UnchangedHeld(m, h, st, box, e);
      StayKept(m, h, st, box);
      ReleasedKept(m, h, st, box);
      FinishKept(m, h, st, box, ReasonOnly(Retry));
  }

  lemma BusyKeeps(m: Machine, h: ApnId, st: ApnState, box: seq<Report>, e: Event)
    requires BusyHeld(m, h, st, box)
    requires Within(e, m.grants, m.grants)
    requires ReleaseKnown(m, st, e)
    ensures Kept(Process(m, e), h, st, box)
  {
    match m.phase
    case Activating => ActivatingKeeps(m, h, st, e);
    case Active => ActiveKeeps(m, h, st, box, e);
    case Disconnecting => DisconnectingKeeps(m, h, st, box, e);
  }

  // ---- Dispatch ----

  lemma PopBusy(m: Machine, h: ApnId, st: ApnState, box: seq<Report>)
    requires Held(m, h, st, box) && Busy(m, h) && HasNext(m)
    ensures BusyHeld(Popped(m), h, st, box)
    ensures Within(NextEvent(m), m.grants, m.grants)
    ensures ReleaseKnown(Popped(m), st, NextEvent(m))
  {
    var e := NextEvent(m);
    if st.Releasing? && !m.phase.Disconnecting? && !(e.Disconnect? && e.attempt == m.grants) {
      if m.immediate != [] && Asks(m.immediate, m.grants) {
        AsksTail(m.immediate, m.grants);
      } else if m.immediate == [] && Asks(m.ordinary, m.grants) {
        AsksTail(m.ordinary, m.grants);
      }
    }
  }

  /** A waiting machine drops leftovers and takes up its connect only in Inactive. */
  lemma DispatchWaiting(m: Machine, h: ApnId, st: ApnState)
    requires Held(m, h, st, []) && Waiting(m, h) && HasNext(m)
    ensures var r := DispatchNext(m); Held(r.m, h, st, []) && r.out == [] && !r.register
    ensures NextEvent(m).Connect? ==> m.phase.Inactive?
  {
    var k: nat :| WaitingAt(m, h, k);
    if m.immediate != [] {
      var r := DispatchNext(m);
      assert r.m.ordinary == m.ordinary;
      assert WaitingAt(r.m, h, k);
      if st.Releasing? {
        if m.phase.Inactive? && Asks(m.immediate, m.grants) {
          AsksTail(m.immediate, m.grants);
        }
      }
    } else if k == 0 {
      ConnectTaken(m, h, st);
    } else {
      LeftoverDropped(m, h, st, k);
    }
  }

  lemma AcceptedGrows(s: seq<Attempt>, a: Attempt)
    requires Increasing(s) && Below(s, a.id)
    ensures Increasing(s + [a]) && (s + [a])[..|s|] == s
  {
  }

  lemma ConnectTaken(m: Machine, h: ApnId, st: ApnState)
    requires Held(m, h, st, []) && Waiting(m, h) && m.immediate == []
    requires WaitingAt(m, h, 0)
    ensures var r := DispatchNext(m); Held(r.m, h, st, []) && r.out == [] && !r.register
    ensures m.phase.Inactive?
  {
    TakenStarts(m, h);
    if st.Releasing? {
      assert Asks(m.ordinary, m.grants);
      AsksTail(m.ordinary, m.grants);
      assert ReleasePending(DispatchNext(m).m);
    }
  }

  lemma TakenStarts(m: Machine, h: ApnId)
    requires HistoryOk(m) && Waiting(m, h) && m.immediate == [] && WaitingAt(m, h, 0)
    ensures var r := DispatchNext(m);
            && m.phase.Inactive? && r.m.phase.Activating? && HistoryOk(r.m) && Busy(r.m, h)
            && r.out == [] && !r.register && r.m.ordinary == m.ordinary[1..] && r.m.grants == m.grants
  {
    var r := DispatchNext(m);
    var a := Attempt(h, m.connectId);
    AcceptedGrows(m.accepted, a);
    assert r.m.accepted == m.accepted + [a];
    assert m.ordinary[0 + 1..] == m.ordinary[1..];
    assert r.m.immediate == [] && r.m.deferred == [];
  }

  lemma LeftoverDropped(m: Machine, h: ApnId, st: ApnState, k: nat)
    requires Held(m, h, st, []) && Waiting(m, h) && m.immediate == []
    requires WaitingAt(m, h, k) && k > 0
    ensures var r := DispatchNext(m); Held(r.m, h, st, []) && r.out == [] && !r.register
    ensures !NextEvent(m).Connect?
  {
    var e := NextEvent(m);
    assert e == m.ordinary[..k][0];
    var m' := Popped(m);
    assert m'.ordinary[k - 1] == m.ordinary[k];
    assert m'.ordinary[..k - 1] == m.ordinary[..k][1..];
    assert m'.ordinary[k - 1 + 1..] == m.ordinary[k + 1..];
    assert WaitingAt(m', h, k - 1);
    if st.Releasing? {
      AsksTail(m.ordinary, m.grants);
    }
  }

  lemma DispatchHeld(m: Machine, h: ApnId, st: ApnState, box: seq<Report>)
    requires Held(m, h, st, box) && HasNext(m)
    ensures var r := DispatchNext(m);
            Held(r.m, h, st, box + r.out) && forall i | 0 <= i < |r.out| :: r.out[i].flag == h
  {
    if Waiting(m, h) {
      DispatchWaiting(m, h, st);
    } else if Busy(m, h) {
      PopBusy(m, h, st, box);
      BusyKeeps(Popped(m), h, st, box, NextEvent(m));
    } else {
      assert Within(NextEvent(m), 0, m.grants);
      assert box + [] == box;
    }
  }

  lemma DispatchFree(m: Machine)
    requires Free(m) && HasNext(m)
    ensures var r := DispatchNext(m); Free(r.m) && r.out == [] && !r.register
  {
    assert Within(NextEvent(m), 0, m.grants);
  }

  // ---- Timers ----

  lemma ConnectCheckHeld(m: Machine, h: ApnId, st: ApnState, box: seq<Report>, id: nat, clockElapsed: bool)
    requires Held(m, h, st, box)
    ensures var r := FireConnectCheck(m, id, clockElapsed);
            Held(r.m, h, st, box + r.out) && forall i | 0 <= i < |r.out| :: r.out[i].flag == h
  {
    assert box + [] == box;
    if m.immediate == [] && id in m.connectChecks {
      var m' := m.(connectChecks := m.connectChecks - multiset{id});
      if Busy(m, h) {
        BusyKeeps(m', h, st, box, ConnectCheck(id, clockElapsed));
      } else if Waiting(m, h) {
        var k: nat :| WaitingAt(m, h, k);
        assert WaitingAt(m', h, k);
      }
    }
  }

  lemma DisconnectCheckHeld(m: Machine, h: ApnId, st: ApnState, box: seq<Report>, id: nat)
    requires Held(m, h, st, box)
    ensures var r := FireDisconnectCheck(m, id);
            Held(r.m, h, st, box + r.out) && forall i | 0 <= i < |r.out| :: r.out[i].flag == h
  {
    assert box + [] == box;
    if m.immediate == [] && id in m.disconnectChecks {
      var m' := m.(disconnectChecks := m.disconnectChecks - multiset{id});
      if Busy(m, h) {
        BusyKeeps(m', h, st, box, DisconnectCheck(id));
      } else if Waiting(m, h) {
        var k: nat :| WaitingAt(m, h, k);
        assert WaitingAt(m', h, k);
      }
    }
  }

  lemma InterfaceDownHeld(m: Machine, h: ApnId, st: ApnState, box: seq<Report>)
    requires Held(m, h, st, box)
    ensures Held(InterfaceDown(m), h, st, box)
  {
    if Waiting(m, h) {
      var k: nat :| WaitingAt(m, h, k);
      assert WaitingAt(InterfaceDown(m), h, k);
    }
  }

  // ---- Posts to a machine ----

  /** Posting an event that names the current attempt, or none, keeps the invariant. */
  lemma PostHeld(m: Machine, h: ApnId, st: ApnState, box: seq<Report>, e: Event)
    requires Held(m, h, st, box)
    requires Within(e, m.grants, m.grants)
    ensures Held(Post(m, e), h, st, box)
    ensures e.Disconnect? ==> ReleasePending(Post(m, e))
  {
    var m' := Post(m, e);
    if Asks(m.ordinary, m.grants) {
      AsksLeft(m.ordinary, [e], m.grants);
    }
    if e.Disconnect? {
      assert m'.ordinary[|m.ordinary|] == e;
    }
    if Waiting(m, h) {
      var k: nat :| WaitingAt(m, h, k);
      assert m'.ordinary[..k] == m.ordinary[..k];
      assert m'.ordinary[k + 1..] == m.ordinary[k + 1..] + [e];
      BoundedConcat(m.ordinary[k + 1..], [e], m.grants, m.grants);
      assert WaitingAt(m', h, k);
    }
  }

  lemma PostFree(m: Machine, e: Event)
    requires Free(m) && Within(e, 0, m.grants)
    ensures Free(Post(m, e))
  {
  }

  /** A release request: the disconnect is queued and the holder says so. */
  lemma ReleaseHeld(m: Machine, h: ApnId, st: ApnState, box: seq<Report>, reason: DisconnectReason)
    requires Held(m, h, st, box)
    ensures Held(Post(m, Disconnect(h, reason, m.grants)), h, Releasing, box)
  {
    PostHeld(m, h, st, box, Disconnect(h, reason, m.grants));
  }

  // ---- Handing a machine out and taking it back ----

  function Grant(m: Machine, h: ApnId): Machine {
    Post(m.(grants := m.grants + 1), Connect(h, m.grants + 1))
  }

  lemma GrantHolds(m: Machine, h: ApnId)
    requires Free(m) || m == NEW_MACHINE
    requires h != ERROR_APN_ID
    ensures Held(Grant(m, h), h, Connecting, [])
  {
    var m' := Grant(m, h);
    assert m'.ordinary[..|m.ordinary|] == m.ordinary;
    assert WaitingAt(m', h, |m.ordinary|);
  }

  lemma EstablishedTaken(m: Machine, h: ApnId, st: ApnState, box: seq<Report>)
    requires Held(m, h, st, box) && box != [] && box[0].Established?
    ensures Held(m, h, Connected, box[1..])
  {
    if Settled(m) {
      assert box[1..][..|box| - 2] == box[..|box| - 1][1..];
    }
  }

  lemma CompletionIsLast(box: seq<Report>, attempt: nat)
    ensures EndsInCompletion(box, attempt) && |box| > 1 ==> box[0].Established?
  {
    if |box| > 1 {
      assert box[..|box| - 1][0] == box[0];
    }
  }

  lemma CompletionTaken(m: Machine, h: ApnId, st: ApnState, box: seq<Report>)
    requires Held(m, h, st, box) && box != [] && box[0].Disconnected?
    ensures Free(m) && box == [box[0]] && box[0].origin == m.grants
  {
    CompletionIsLast(box, m.grants);
  }
}
