/** What one machine, its holder's state and the reports addressed to that holder keep
    true together, whatever event the machine processes next. */
module AttemptInvariant {
  import opened Options
  import opened ConnectionMachine

  datatype ApnState = Idle | Connecting | Connected | Releasing | Failed | Retrying

  predicate Running(m: Machine) {
    m.phase.Activating? || m.phase.Active? || m.phase.Disconnecting?
  }

  // ---- Stamps on queued events ----

  /** A queued event that is neither a start nor a connect and, if it was issued for an
      attempt, was issued for one between lo and hi. */
  predicate Within(e: Event, lo: nat, hi: nat) {
    match e
    case Init => false
    case Connect(_, _) => false
    case Disconnect(_, _, a) => lo <= a <= hi
    case LostConnection(_, a) => lo <= a <= hi
    case _ => true
  }

  ghost predicate Bounded(q: seq<Event>, lo: nat, hi: nat) {
    forall i | 0 <= i < |q| :: Within(q[i], lo, hi)
  }

  /** A disconnect issued for attempt a is in the queue. */
  ghost predicate Asks(q: seq<Event>, a: nat) {
    exists i :: 0 <= i < |q| && q[i].Disconnect? && q[i].attempt == a
  }

  ghost predicate ReleasePending(m: Machine) {
    Asks(m.ordinary, m.grants) || Asks(m.immediate, m.grants) || Asks(m.deferred, m.grants)
  }

  // ---- History ----

  ghost predicate Increasing(s: seq<Attempt>) {
    forall i, j | 0 <= i < j < |s| :: s[i].id < s[j].id
  }

  ghost predicate Below(s: seq<Attempt>, bound: nat) {
    forall i | 0 <= i < |s| :: s[i].id < bound
  }

  /** Generations grow, every finished attempt was reported once, in order and to the
      holder it served, and a result is stored only on the way out. */
  ghost predicate HistoryOk(m: Machine) {
    && m.deactiveApnId == ERROR_APN_ID
    && Increasing(m.accepted)
    && (m.stored.Some? <==> m.phase.Disconnecting?)
    && (m.stored.Some? ==> m.stored.value.attempt == |m.accepted|)
    && if Running(m) then
         && |m.accepted| > 0
         && m.accepted[|m.accepted| - 1] == Attempt(m.apnId, m.connectId)
         && m.completed == m.accepted[..|m.accepted| - 1]
       else
         && Below(m.accepted, m.connectId)
         && m.completed == m.accepted
  }

  // ---- The three situations of a machine that a holder holds ----

  ghost predicate WaitingAt(m: Machine, h: ApnId, k: nat) {
    && k < |m.ordinary|
    && m.ordinary[k] == Connect(h, m.grants)
    && Bounded(m.ordinary[..k], 0, |m.accepted|)
    && Bounded(m.ordinary[k + 1..], m.grants, m.grants)
  }

  /** Granted, connect still queued behind leftovers of earlier attempts only. */
  ghost predicate Waiting(m: Machine, h: ApnId) {
    && m.grants == |m.accepted| + 1
    && m.deferred == []
    && (m.phase.Inactive? || m.phase.Unstarted?)
    && (m.phase.Unstarted? ==> m.immediate == [Init])
    && (m.phase.Inactive? ==> Bounded(m.immediate, 0, |m.accepted|))
    && exists k: nat :: WaitingAt(m, h, k)
  }

  /** An attempt is in progress and everything queued was issued for it. */
  ghost predicate Busy(m: Machine, h: ApnId) {
    && Running(m)
    && m.grants == |m.accepted|
    && m.apnId == h
    && Bounded(m.immediate, m.grants, m.grants)
    && Bounded(m.ordinary, m.grants, m.grants)
    && Bounded(m.deferred, m.grants, m.grants)
  }

  /** No attempt in progress, no connect queued. */
  ghost predicate Settled(m: Machine) {
    && m.phase.Inactive?
    && m.grants == |m.accepted|
    && m.deferred == []
    && Bounded(m.immediate, 0, m.grants)
    && Bounded(m.ordinary, 0, m.grants)
  }

  ghost predicate AllEstablished(box: seq<Report>) {
    forall i | 0 <= i < |box| :: box[i].Established?
  }

  /** Reports that end in the one completion of the given attempt. */
  ghost predicate EndsInCompletion(box: seq<Report>, attempt: nat) {
    && box != []
    && AllEstablished(box[..|box| - 1])
    && box[|box| - 1].Disconnected?
    && box[|box| - 1].origin == attempt
  }

  ghost predicate Held(m: Machine, h: ApnId, st: ApnState, box: seq<Report>) {
    && HistoryOk(m)
    && (st.Connecting? || st.Connected? || st.Releasing?)
    && h != ERROR_APN_ID
    && (|| (Waiting(m, h) && box == [] && !st.Connected? && (st.Releasing? ==> ReleasePending(m)))
        || (Busy(m, h) && AllEstablished(box)
            && (m.phase.Activating? ==> box == [] && !st.Connected?)
            && (st.Releasing? ==> m.phase.Disconnecting? || ReleasePending(m)))
        || (Settled(m) && EndsInCompletion(box, m.grants)))
  }

  ghost predicate Free(m: Machine) {
    HistoryOk(m) && Settled(m)
  }
}
