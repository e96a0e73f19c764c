/** The invariant of the lease protocol: rows, histories, workers and messages. */
module LeaseInvariant {
  import opened Options
  import opened Tasks
  import opened TaskRows
  import opened LeaseProtocol

  /** How many more status changes the row can go through. */
  function Remaining(r: Row): int {
    match r.status
    case Queued => 2 * (r.maxRetries + 1 - r.attempts)
    case Running => 2 * (r.maxRetries + 1 - r.attempts) + 1
    case _ => 0
  }

  /** The row and the history of one task. */
  ghost predicate TaskOk(duration: nat, clock: Time, r: Row, y: Tally) {
    && (r.status.Queued? || r.status.Running? || r.status.Success? || r.status.Failed? || r.status.Cancelled?)
    && |y.claimants| == r.attempts <= r.maxRetries + 1
    && (r.attempts == 0 ==> r.worker == None && r.lease == None && r.beat == None)
    && (r.status == Queued ==> AttemptsLeft(r) && r.worker == None && r.lease == None)
    && (r.status == Running ==>
          && r.attempts > 0 && r.worker == Some(y.claimants[r.attempts - 1])
          && r.beat.Some? && r.beat.value <= clock && r.lease == Some(r.beat.value + duration))
    && r.attempts == y.successes + y.retries + y.requeues + y.failures + y.expiries + One(r.status == Running)
    && y.successes == One(r.status == Success)
    && y.failures + y.expiries == One(r.status == Failed)
    && y.moves + Remaining(r) <= 2 * (r.maxRetries + 1)
  }

  /** A busy worker against the row of the task it works on. */
  ghost predicate WorkOk(clock: Time, w: WorkerId, ws: WorkerState, r: Row, y: Tally)
    requires Busy(ws)
  {
    && 0 < ws.k <= r.attempts && |y.claimants| == r.attempts && y.claimants[ws.k - 1] == w
    && (Owned(r, w) ==> r.attempts == ws.k)
    && (ws.Committing? ==>
          && (ws.until < clock || (Owned(r, w) && ws.until <= LeaseEnd(r)))
          && (ws.e == EndRetry ==> ws.k <= r.maxRetries))
  }

  ghost predicate WorkerOk(s: State, w: WorkerId) {
    w in s.workers && Busy(s.workers[w]) ==>
      && s.workers[w].t in s.rows && s.workers[w].t in s.tally
      && WorkOk(s.clock, w, s.workers[w], s.rows[s.workers[w].t], s.tally[s.workers[w].t])
  }

  ghost predicate RowOk(duration: nat, s: State, t: TaskId) {
    t in s.rows ==> t in s.tally && TaskOk(duration, s.clock, s.rows[t], s.tally[t])
  }

  /** The id of the task is somewhere from where it reaches a worker. */
  ghost predicate Located(s: State, t: TaskId) {
    t in s.queue || t in s.outbox || exists w :: w in s.workers && InHand(s.workers[w]) == Some(t)
  }

  ghost predicate NotLost(s: State, t: TaskId) {
    t in s.rows && s.rows[t].status == Queued && t !in s.lost ==> Located(s, t)
  }

  ghost predicate Inv(duration: nat, s: State) {
    && (forall t {:trigger RowOk(duration, s, t)} :: RowOk(duration, s, t))
    && (forall w {:trigger WorkerOk(s, w)} :: WorkerOk(s, w))
    && (forall t {:trigger NotLost(s, t)} :: NotLost(s, t))
  }

  // What single writes do to the invariant of the row.

  lemma ClaimTaskOk(duration: nat, clock: Time, r: Row, y: Tally, w: WorkerId, now: Time)
    requires TaskOk(duration, clock, r, y) && Claimable(r) && now <= clock
    ensures TaskOk(duration, clock, ClaimRow(r, w, now, duration), TallyClaim(y, w))
  {
  }

  lemma EndTaskOk(duration: nat, clock: Time, r: Row, y: Tally, w: WorkerId, e: Ending)
    requires TaskOk(duration, clock, r, y) && Owned(r, w) && (e == EndRetry ==> AttemptsLeft(r))
    ensures TaskOk(duration, clock, EndRow(r, e), TallyEnding(y, e))
  {
  }

  lemma RecoverTaskOk(duration: nat, clock: Time, r: Row, y: Tally, now: Time)
    requires TaskOk(duration, clock, r, y) && Expired(r, now)
    ensures TaskOk(duration, clock, RecoverRow(r), TallyRecovery(y, r))
  {
  }

  lemma CancelTaskOk(duration: nat, clock: Time, r: Row, y: Tally)
    requires TaskOk(duration, clock, r, y) && CancelInTime(r)
    ensures TaskOk(duration, clock, CancelRow(r), TallyCancel(y, r))
  {
  }

  // Rows.

  lemma RowsStayOk(duration: nat, s: State, e: Event, t: TaskId)
    requires Inv(duration, s) && Enabled(s, e) && Clean(s, e)
    ensures RowOk(duration, Apply(duration, s, e), t)
  {
    assert RowOk(duration, s, t);
    if Target(s, e) == Some(t) {
      if e.Commit? {
        assert WorkerOk(s, e.w);
      }
      WrittenRowIsOk(duration, s, e, t);
    } else {
      OtherTasksStay(duration, s, e, t);
      ClockGrows(duration, s, e);
    }
  }

  lemma WrittenRowIsOk(duration: nat, s: State, e: Event, t: TaskId)
    requires RowOk(duration, s, t) && Enabled(s, e) && Clean(s, e) && Target(s, e) == Some(t)
    requires e.Commit? ==> WorkerOk(s, e.w)
    ensures RowOk(duration, Apply(duration, s, e), t)
  {
    match e
    case Create(_, _) =>
    case Claim(w, now) =>
      if t in s.rows && Claimable(s.rows[t]) {
        ClaimTaskOk(duration, s.clock, s.rows[t], s.tally[t], w, now);
      }
    case Renew(_, _) =>
    case Commit(w) => EndTaskOk(duration, s.clock, s.rows[t], s.tally[t], w, s.workers[w].e);
    case Recover(_, now) => RecoverTaskOk(duration, s.clock, s.rows[t], s.tally[t], now);
    case Cancel(_) => CancelTaskOk(duration, s.clock, s.rows[t], s.tally[t]);
  }

  // Workers.

  lemma WorkersStayOk(duration: nat, s: State, e: Event, w: WorkerId)
    requires Inv(duration, s) && Enabled(s, e) && Clean(s, e)
    ensures WorkerOk(Apply(duration, s, e), w)
  {
    assert WorkerOk(s, w);
    if w in s.workers && Busy(s.workers[w]) {
      assert RowOk(duration, s, s.workers[w].t);
    }
    if !ActsFor(e, w) {
      OtherWorkersStay(duration, s, e, w);
      if w in s.workers && Busy(s.workers[w]) {
        BystanderStaysOk(duration, s, e, w);
      }
    } else if e.Claim? {
      assert RowOk(duration, s, s.workers[w].t);
    } else {
      ActorStaysOk(duration, s, e, w);
    }
  }

  lemma ActorStaysOk(duration: nat, s: State, e: Event, w: WorkerId)
    requires WorkerOk(s, w) && Enabled(s, e) && Clean(s, e) && ActsFor(e, w) && !e.Claim?
    requires w in s.workers && Busy(s.workers[w]) ==> RowOk(duration, s, s.workers[w].t)
    ensures WorkerOk(Apply(duration, s, e), w)
  {
    match e
    case Renew(_, _) =>
    case Finish(_, _) =>
    case Commit(_) =>
    case _ =>
  }

  /** A busy worker that takes no part in an event keeps what it relies on. */
  lemma BystanderStaysOk(duration: nat, s: State, e: Event, w: WorkerId)
    requires Enabled(s, e) && Clean(s, e) && !ActsFor(e, w) && w in s.workers && Busy(s.workers[w])
    requires WorkerOk(s, w) && RowOk(duration, s, s.workers[w].t)
    ensures WorkerOk(Apply(duration, s, e), w)
  {
    OtherWorkersStay(duration, s, e, w);
    ClockGrows(duration, s, e);
    if Target(s, e) == Some(s.workers[w].t) {
      OwnRowIsWritten(duration, s, e, w);
    } else {
      OtherTasksStay(duration, s, e, s.workers[w].t);
    }
  }

  lemma OwnRowIsWritten(duration: nat, s: State, e: Event, w: WorkerId)
    requires Enabled(s, e) && Clean(s, e) && !ActsFor(e, w) && w in s.workers && Busy(s.workers[w])
    requires WorkerOk(s, w) && RowOk(duration, s, s.workers[w].t) && Target(s, e) == Some(s.workers[w].t)
    ensures WorkerOk(Apply(duration, s, e), w)
  {
    match e
    case Claim(v, _) => assert v != w;
    case Renew(v, _) => assert v != w;
    case Commit(v) => assert v != w;
    case Recover(_, _) =>
    case Cancel(_) =>
  }

  // Messages.

  lemma NothingGetsLost(duration: nat, s: State, e: Event, t: TaskId)
    requires Inv(duration, s) && Enabled(s, e) && Clean(s, e)
    ensures NotLost(Apply(duration, s, e), t)
  {
    assert NotLost(s, t);
    var n := Apply(duration, s, e);
    if t in n.rows && n.rows[t].status == Queued && t !in n.lost {
      if t in s.rows && s.rows[t].status == Queued {
        StillLocated(duration, s, e, t);
      } else {
        NewlyQueuedIsLocated(duration, s, e, t);
      }
    }
  }

  lemma NewlyQueuedIsLocated(duration: nat, s: State, e: Event, t: TaskId)
    requires Enabled(s, e) && (t in s.rows ==> s.rows[t].status != Queued)
    requires var n := Apply(duration, s, e); t in n.rows && n.rows[t].status == Queued
    ensures Located(Apply(duration, s, e), t)
  {
    var n := Apply(duration, s, e);
    if Target(s, e) != Some(t) {
      OtherTasksStay(duration, s, e, t);
    } else {
      match e
      case Create(_, _) => assert t in n.outbox;
      case Claim(_, _) =>
      case Renew(_, _) =>
      case Commit(w) => assert InHand(n.workers[w]) == Some(t);
      case Recover(_, _) => assert t in n.outbox;
      case Cancel(_) =>
    }
  }

  lemma StillLocated(duration: nat, s: State, e: Event, t: TaskId)
    requires Enabled(s, e) && Located(s, t) && t in s.rows && s.rows[t].status == Queued
    requires var n := Apply(duration, s, e); t !in n.lost && t in n.rows && n.rows[t].status == Queued
    ensures Located(Apply(duration, s, e), t)
  {
    if t in s.queue {
      StillLocatedInQueue(duration, s, e, t);
    } else if t in s.outbox {
      StillLocatedInOutbox(duration, s, e, t);
    } else {
      var w :| w in s.workers && InHand(s.workers[w]) == Some(t);
      StillLocatedInHand(duration, s, e, t, w);
    }
  }

  lemma StillLocatedInQueue(duration: nat, s: State, e: Event, t: TaskId)
    requires Enabled(s, e) && t in s.queue
    ensures Located(Apply(duration, s, e), t)
  {
    if e.Pop? && t !in s.queue[1..] {
      assert t == s.queue[0];
      assert InHand(Apply(duration, s, e).workers[e.w]) == Some(t);
    }
  }

  lemma StillLocatedInOutbox(duration: nat, s: State, e: Event, t: TaskId)
    requires Enabled(s, e) && t in s.outbox && t !in Apply(duration, s, e).lost
    ensures Located(Apply(duration, s, e), t)
  {
  }

  lemma StillLocatedInHand(duration: nat, s: State, e: Event, t: TaskId, w: WorkerId)
    requires Enabled(s, e) && w in s.workers && InHand(s.workers[w]) == Some(t)
    requires t in s.rows && s.rows[t].status == Queued
    requires var n := Apply(duration, s, e); t !in n.lost && t in n.rows && n.rows[t].status == Queued
    ensures Located(Apply(duration, s, e), t)
  {
    if !ActsFor(e, w) {
      OtherWorkersStay(duration, s, e, w);
      assert InHand(Apply(duration, s, e).workers[w]) == Some(t);
    } else {
      HandLetsGo(duration, s, e, t, w);
    }
  }

  /** The id leaves the hand of a worker with a claim, back to the queue, or for good. */
  lemma HandLetsGo(duration: nat, s: State, e: Event, t: TaskId, w: WorkerId)
    requires Enabled(s, e) && w in s.workers && InHand(s.workers[w]) == Some(t) && ActsFor(e, w)
    requires t in s.rows && s.rows[t].status == Queued
    ensures var n := Apply(duration, s, e); t in n.queue || t in n.lost || n.rows[t].status == Running
  {
    match e
    case Claim(_, _) =>
    case Republish(_, ok) => assert ok ==> t in s.queue + [t];
    case Crash(_) =>
  }

  lemma StepKeepsInv(duration: nat, s: State, e: Event)
    requires Inv(duration, s) && Enabled(s, e) && Clean(s, e)
    ensures Inv(duration, Apply(duration, s, e))
  {
    var n := Apply(duration, s, e);
    forall t ensures RowOk(duration, n, t) && NotLost(n, t) {
      RowsStayOk(duration, s, e, t);
      NothingGetsLost(duration, s, e, t);
    }
    forall w ensures WorkerOk(n, w) {
      WorkersStayOk(duration, s, e, w);
    }
  }

  lemma InvStays(duration: nat, b: seq<State>, i: nat)
    requires IsRun(duration, b) && i + 1 < |b| && Inv(duration, b[i]) && !b[i + 1].overrun
    ensures Inv(duration, b[i + 1])
  {
    var e := StepOf(duration, b, i);
    StepKeepsInv(duration, b[i], e);
  }

  lemma {:induction false} RunsKeepInv(duration: nat, b: seq<State>, k: nat)
    requires IsRun(duration, b) && k < |b| && !b[k].overrun
    ensures Inv(duration, b[k])
  {
    if k == 0 {
      assert StepAt(duration, b, 0);
    } else {
      if b[k - 1].overrun {
        OverrunStays(duration, b, k - 1);
      }
      RunsKeepInv(duration, b, k - 1);
      InvStays(duration, b, k - 1);
    }
  }
}
