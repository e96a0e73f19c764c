/** Check, then write by primary key: exactly when the unguarded writes are safe. */
module LeaseWrites {
  import opened Options
  import opened Tasks
  import opened TaskRows
  import opened LeaseInvariant
  import opened LeaseProtocol
  import opened LeaseRuns
  import opened LeaseTheorems
  import opened LeaseDelivery

  // The final write of a worker.

  /** As long as the lease seen at the check has not run out, the row still belongs to the attempt checked. */
  lemma LeaseGuardsCommit(duration: nat, b: seq<State>, i: nat, w: WorkerId)
    requires IsRun(duration, b) && i < |b| && !b[i].overrun && w in b[i].workers && b[i].workers[w].Committing?
    requires b[i].clock <= b[i].workers[w].until
    ensures Enabled(b[i], Commit(w)) && Clean(b[i], Commit(w))
    ensures b[i].rows[b[i].workers[w].t].attempts == b[i].workers[w].k
  {
    RunsKeepInv(duration, b, i);
    assert WorkerOk(b[i], w);
  }

  /**
   * A step that does not write late: workers within the lease they checked, cancel requests before a claim,
   * renewals in the order of their clock readings.
   */
  predicate InTime(s: State, e: Event)
    requires Enabled(s, e)
  {
    && (e.Commit? ==> s.clock <= s.workers[e.w].until)
    && (e.Cancel? ==> CancelInTime(s.rows[e.t]))
    && (e.Renew? && OwnsTask(s, e.w, s.workers[e.w].t) ==> Advances(s.rows[s.workers[e.w].t], e.now))
  }

  ghost predicate NextInTime(duration: nat, s: State, t: State) {
    exists e :: Enabled(s, e) && InTime(s, e) && t == Apply(duration, s, e)
  }

  ghost predicate InTimeAt(duration: nat, b: seq<State>, i: nat)
    requires 0 < i < |b|
  {
    NextInTime(duration, b[i - 1], b[i])
  }

  ghost predicate Punctual(duration: nat, b: seq<State>) {
    forall i {:trigger InTimeAt(duration, b, i)} :: 0 < i < |b| ==> InTimeAt(duration, b, i)
  }

  lemma PunctualStep(duration: nat, b: seq<State>, i: nat)
    requires IsRun(duration, b) && Punctual(duration, b) && 0 < i < |b| && !b[i - 1].overrun
    ensures !b[i].overrun
  {
    var s := b[i - 1];
    assert InTimeAt(duration, b, i);
    var e :| Enabled(s, e) && InTime(s, e) && b[i] == Apply(duration, s, e);
    if e.Commit? {
      LeaseGuardsCommit(duration, b, i - 1, e.w);
    }
    CleanIffNotOverrun(duration, s, e);
  }

  /** Writing in time is enough: a punctual run never overruns a check, so all theorems here apply throughout. */
  lemma {:induction false} PunctualRunsAreNeverOverrun(duration: nat, b: seq<State>, i: nat)
    requires IsRun(duration, b) && Punctual(duration, b) && i < |b|
    ensures !b[i].overrun
  {
    if i == 0 {
      assert StepAt(duration, b, 0);
    } else {
      PunctualRunsAreNeverOverrun(duration, b, i - 1);
      PunctualStep(duration, b, i);
    }
  }

  /**
   * Whatever others do, and however the worker renews its lease meanwhile, the row still belongs to `w` when
   * it writes, as long as the deadline is not over.
   */
  ghost predicate CheckHolds(duration: nat, s: State, w: WorkerId, t: TaskId, deadline: Time) {
    forall z :: Leads(duration, Some(w), s, z) && z.clock <= deadline ==> OwnsTask(z, w, t)
  }

  lemma OthersRespectLease(duration: nat, s: State, w: WorkerId, t: TaskId, e: Event)
    requires RowOk(duration, s, t) && OwnsTask(s, w, t) && s.clock <= LeaseEnd(s.rows[t])
    requires Enabled(s, e) && Rests(e, Some(w)) && Clean(s, e)
    ensures var n := Apply(duration, s, e); OwnsTask(n, w, t) && LeaseEnd(s.rows[t]) <= LeaseEnd(n.rows[t])
  {
    if Target(s, e) != Some(t) {
      OtherTasksStay(duration, s, e, t);
    }
  }

  /** Until the deadline the row still belongs to the worker, with a lease no shorter than it was. */
  ghost predicate LeaseHeld(s: State, z: State, w: WorkerId, t: TaskId, deadline: Time) {
    t in s.rows && (z.clock <= deadline ==> OwnsTask(z, w, t) && LeaseEnd(s.rows[t]) <= LeaseEnd(z.rows[t]))
  }

  lemma LeaseHeldAt(duration: nat, c: seq<State>, i: nat, w: WorkerId, t: TaskId, deadline: Time)
    requires Continues(duration, Some(w), c) && 0 < i < |c| && Inv(duration, c[i - 1])
    requires LeaseHeld(c[0], c[i - 1], w, t, deadline) && deadline <= LeaseEnd(c[0].rows[t])
    ensures LeaseHeld(c[0], c[i], w, t, deadline)
  {
    var e := EventAt(duration, Some(w), c, i);
    ClockGrows(duration, c[i - 1], e);
    assert RowOk(duration, c[i - 1], t);
    if c[i].clock <= deadline {
      OthersRespectLease(duration, c[i - 1], w, t, e);
    }
  }

  /** The clock passes the lease and the task is recovered. */
  lemma LapseTakesRow(duration: nat, s: State, w: WorkerId, t: TaskId, deadline: Time) returns (z: State)
    requires !s.overrun && OwnsTask(s, w, t) && s.rows[t].lease.Some?
    requires LeaseEnd(s.rows[t]) < deadline && s.clock <= deadline
    ensures Leads(duration, Some(w), s, z) && z.clock == deadline && !OwnsTask(z, w, t)
  {
    var y := Apply(duration, s, Tick(deadline - s.clock));
    Step(duration, Some(w), s, Tick(deadline - s.clock));
    z := Apply(duration, y, Recover(t, deadline));
    Step(duration, Some(w), y, Recover(t, deadline));
    LeadsOn(duration, Some(w), s, y, z);
  }

  /** Whoever owns a row keeps it up to a deadline, in every continuation, exactly if the lease lasts that long. */
  lemma OwnerKeepsIffLeaseLasts(duration: nat, s: State, w: WorkerId, t: TaskId, deadline: Time)
    requires Inv(duration, s) && !s.overrun && OwnsTask(s, w, t) && s.clock <= deadline
    ensures CheckHolds(duration, s, w, t, deadline) <==> deadline <= LeaseEnd(s.rows[t])
  {
    assert RowOk(duration, s, t);
    if deadline <= LeaseEnd(s.rows[t]) {
      forall z | Leads(duration, Some(w), s, z) && z.clock <= deadline ensures OwnsTask(z, w, t) {
        var c :| Continues(duration, Some(w), c) && c[0] == s && c[|c| - 1] == z;
        forall k | 0 < k < |c| && Inv(duration, c[k - 1]) && LeaseHeld(s, c[k - 1], w, t, deadline)
          ensures LeaseHeld(s, c[k], w, t, deadline)
        {
          LeaseHeldAt(duration, c, k, w, t, deadline);
        }
        Along(duration, Some(w), c, |c| - 1, x => LeaseHeld(s, x, w, t, deadline));
      }
    } else {
      var z := LapseTakesRow(duration, s, w, t, deadline);
    }
  }

  /**
   * The check of a worker that is about to write holds up to a deadline, against everything that others can do
   * until then, exactly if the lease in the row lasts that long.
   */
  lemma CheckHoldsIffLeaseLasts(duration: nat, b: seq<State>, i: nat, w: WorkerId, deadline: Time)
    requires IsRun(duration, b) && i < |b| && !b[i].overrun && b[i].clock <= deadline
    requires w in b[i].workers && b[i].workers[w].Committing? && OwnsTask(b[i], w, b[i].workers[w].t)
    ensures var t := b[i].workers[w].t;
      CheckHolds(duration, b[i], w, t, deadline) <==> deadline <= LeaseEnd(b[i].rows[t])
  {
    RunsKeepInv(duration, b, i);
    OwnerKeepsIffLeaseLasts(duration, b[i], w, b[i].workers[w].t, deadline);
  }

  // What a renewal is worth.

  /** A claim or renewal with a clock reading of `now`, which is no late write, buys one lease from `now` on. */
  ghost predicate Secures(duration: nat, s: State, e: Event, w: WorkerId, t: TaskId, now: Time) {
    && Enabled(s, e) && Clean(s, e) && (e == Claim(w, now) || e == Renew(w, now)) && s.workers[w].t == t
    && OwnsTask(Apply(duration, s, e), w, t) && (e.Claim? ==> Claimable(s.rows[t]))
  }

  /**
   * After a claim or a renewal the worker keeps its row, in every continuation in which its main loop rests, up to
   * a deadline exactly if that lies no more than a lease behind the reading of the clock.
   */
  lemma RenewalSecuresLease(duration: nat, b: seq<State>, i: nat, e: Event, w: WorkerId, t: TaskId, now: Time,
                            deadline: Time)
    requires IsRun(duration, b) && i < |b| && !b[i].overrun && Secures(duration, b[i], e, w, t, now)
    requires b[i].clock <= deadline
    ensures CheckHolds(duration, Apply(duration, b[i], e), w, t, deadline) <==> deadline <= now + duration
  {
    RunsKeepInv(duration, b, i);
    StepKeepsInv(duration, b[i], e);
    OwnerKeepsIffLeaseLasts(duration, Apply(duration, b[i], e), w, t, deadline);
  }

  /** Up to the deadline recovery took nothing, nor can it, unless a worker closed an attempt. */
  ghost predicate Secured(s: State, z: State, w: WorkerId, t: TaskId, deadline: Time) {
    && t in z.rows && Closings(z, t) >= Closings(s, t)
    && (z.clock <= deadline && Closings(z, t) == Closings(s, t) ==>
          OwnsTask(z, w, t) && deadline <= LeaseEnd(z.rows[t]) && Recoveries(z, t) == Recoveries(s, t))
  }

  lemma SecuredAt(duration: nat, c: seq<State>, i: nat, w: WorkerId, t: TaskId, deadline: Time)
    requires Continues(duration, None, c) && 0 < i < |c| && Inv(duration, c[i - 1])
    requires Secured(c[0], c[i - 1], w, t, deadline)
    ensures Secured(c[0], c[i], w, t, deadline)
  {
    var s := c[i - 1];
    var e := EventAt(duration, None, c, i);
    ClockGrows(duration, s, e);
    assert RowOk(duration, s, t);
    HistoryGrows(duration, s, e, t);
    if c[i].clock <= deadline && !Closes(s, e, t) && Closings(s, t) == Closings(c[0], t) {
      SecuredRowStays(duration, s, e, w, t, deadline);
    }
  }

  lemma SecuredRowStays(duration: nat, s: State, e: Event, w: WorkerId, t: TaskId, deadline: Time)
    requires RowOk(duration, s, t) && OwnsTask(s, w, t) && s.clock <= deadline <= LeaseEnd(s.rows[t])
    requires Enabled(s, e) && Clean(s, e) && !Closes(s, e, t)
    ensures var n := Apply(duration, s, e); OwnsTask(n, w, t) && deadline <= LeaseEnd(n.rows[t]) && !Recovers(e, t)
  {
    if Target(s, e) == Some(t) {
      match e
      case Claim(_, _) =>
      case Renew(_, _) =>
      case Recover(_, _) =>
      case Cancel(_) =>
    } else {
      OtherTasksStay(duration, s, e, t);
    }
  }

  lemma SecuredAlong(duration: nat, s: State, w: WorkerId, t: TaskId, deadline: Time, z: State)
    requires Inv(duration, s) && !s.overrun && OwnsTask(s, w, t) && deadline <= LeaseEnd(s.rows[t])
    requires Leads(duration, None, s, z)
    ensures Secured(s, z, w, t, deadline)
  {
    var c :| Continues(duration, None, c) && c[0] == s && c[|c| - 1] == z;
    forall k | 0 < k < |c| && Inv(duration, c[k - 1]) && Secured(s, c[k - 1], w, t, deadline)
      ensures Secured(s, c[k], w, t, deadline)
    {
      SecuredAt(duration, c, k, w, t, deadline);
    }
    Along(duration, None, c, |c| - 1, x => Secured(s, x, w, t, deadline));
  }

  /**
   * While the clock is no more than a lease past the reading that a claim or renewal used, recovery cannot take the
   * task in any continuation, whatever the worker and others do, before a worker closes the attempt.
   */
  lemma RenewedTaskIsNotRecovered(duration: nat, b: seq<State>, i: nat, e: Event, w: WorkerId, t: TaskId, now: Time,
                                  z: State)
    requires IsRun(duration, b) && i < |b| && !b[i].overrun && Secures(duration, b[i], e, w, t, now)
    requires Leads(duration, None, Apply(duration, b[i], e), z) && z.clock <= now + duration
    requires Closings(z, t) == Closings(Apply(duration, b[i], e), t)
    ensures OwnsTask(z, w, t) && Recoveries(z, t) == Recoveries(Apply(duration, b[i], e), t)
    ensures forall x :: !Enabled(z, Recover(t, x))
  {
    RunsKeepInv(duration, b, i);
    StepKeepsInv(duration, b[i], e);
    CleanIffNotOverrun(duration, b[i], e);
    SecuredAlong(duration, Apply(duration, b[i], e), w, t, now + duration, z);
  }

  // The write of a cancel request.

  /** Whatever happens until the pending cancellation is written, it hits the row as it was checked. */
  ghost predicate CancelHolds(duration: nat, s: State, t: TaskId) {
    forall z :: Leads(duration, None, s, z) && Enabled(z, Cancel(t)) ==> Clean(z, Cancel(t))
  }

  /**
   * The check of a pending cancellation holds exactly if the task is cancelled already, or queued with its
   * message gone: any other queued task can be claimed before the cancellation is written.
   */
  lemma CancelHoldsIffUnreachable(duration: nat, b: seq<State>, i: nat, t: TaskId)
    requires IsRun(duration, b) && i < |b| && !b[i].overrun && Enabled(b[i], Cancel(t))
    ensures CancelHolds(duration, b[i], t) <==>
      b[i].rows[t].status == Cancelled || (b[i].rows[t].status == Queued && !Located(b[i], t))
  {
    var s := b[i];
    RunsKeepInv(duration, b, i);
    if Stranded(s, t, s.rows[t].attempts) {
      forall z | Leads(duration, None, s, z) && Enabled(z, Cancel(t)) ensures Clean(z, Cancel(t)) {
        StrandedForever(duration, s, t, s.rows[t].attempts, z);
      }
    } else if Waiting(s, t) {
      var z := LocatedCanBeAttempted(duration, s, t);
      assert Enabled(z, Cancel(t));
    } else {
      assert RowOk(duration, s, t);
      Stay(duration, None, s);
    }
  }

  // The promise of a guarded write, broken.

  /** Task 0 is in the queue. */
  function Pushed(s: State): State {
    s.(outbox := multiset{}, queue := [0])
  }

  /** Task 0 was popped by a worker w that just booted. */
  function Delivered(s: State, w: WorkerId): State {
    s.(outbox := multiset{}, workers := s.workers[w := Holding(0)])
  }

  lemma DeliverySteps(s: State, w: WorkerId)
    requires s.queue == [] && s.outbox == multiset{0} && w !in s.workers
    ensures Apply(10, s, Push(0)) == Pushed(s)
    ensures Apply(10, Becomes(Pushed(s), w, Idle), Pop(w)) == Delivered(s, w)
  {
    assert s.outbox - multiset{0} == multiset{} && s.queue + [0] == [0] && [0][1..] == [];
    assert s.workers[w := Idle][w := Holding(0)] == s.workers[w := Holding(0)];
  }

  lemma Deliver(b: seq<State>, s: State, w: WorkerId) returns (d: seq<State>)
    requires IsRun(10, b) && b[|b| - 1] == s && s.queue == [] && s.outbox == multiset{0} && w !in s.workers
    ensures IsRun(10, d) && d[|d| - 1] == Delivered(s, w)
  {
    DeliverySteps(s, w);
    d := Extend(10, b, s, Push(0));
    d := Extend(10, d, Pushed(s), Boot(w));
    d := Extend(10, d, Becomes(Pushed(s), w, Idle), Pop(w));
  }

  /** Task 0 is in the hand of w1. */
  function Held(): State {
    Delivered(Submitted(), "w1")
  }

  lemma Hold() returns (b: seq<State>)
    ensures IsRun(10, b) && b[|b| - 1] == Held()
  {
    b := Submit(10);
    b := Deliver(b, Submitted(), "w1");
  }

  /** Task 0 was claimed by w1 at time 0 with a lease of 10. */
  function Taken(): State {
    Held().(rows := map[0 := Row(Running, 1, 1, Some("w1"), Some(10), Some(0))],
            tally := map[0 := Tally(["w1"], 0, 0, 0, 0, 0, 1)],
            workers := map["w1" := Executing(0, 1)])
  }

  lemma TakeHeld(cancelling: multiset<TaskId>)
    ensures Apply(10, Held().(cancelling := cancelling), Claim("w1", 0)) == Taken().(cancelling := cancelling)
  {
    var n := Apply(10, Held().(cancelling := cancelling), Claim("w1", 0));
    assert n.tally[0].claimants == ["w1"];
    assert n.rows == Taken().rows && n.tally == Taken().tally && n.workers == Taken().workers;
  }

  /** The handler of w1 finished, and w1 checked that it owns the row. */
  function Checked(): State {
    Taken().(workers := map["w1" := Committing(0, 1, EndSuccess, 10)])
  }

  lemma Check() returns (b: seq<State>)
    ensures IsRun(10, b) && b[|b| - 1] == Checked()
  {
    b := Hold();
    b := Extend(10, b, Held(), Claim("w1", 0));
    TakeHeld(multiset{});
    b := Extend(10, b, Taken(), Finish("w1", Succeeded));
  }

  /** The lease of w1 ran out and the task was requeued. */
  function Lapsed(): State {
    Checked().(clock := 11, rows := map[0 := Row(Queued, 1, 1, None, None, Some(0))],
               tally := map[0 := Tally(["w1"], 0, 0, 1, 0, 0, 2)], outbox := multiset{0})
  }

  lemma RecoverLapsed()
    ensures Apply(10, Checked().(clock := 11), Recover(0, 11)) == Lapsed()
  {
    var n := Apply(10, Checked().(clock := 11), Recover(0, 11));
    assert n.rows == Lapsed().rows && n.tally == Lapsed().tally && n.outbox == Lapsed().outbox;
  }

  lemma Lapse() returns (b: seq<State>)
    ensures IsRun(10, b) && b[|b| - 1] == Lapsed()
  {
    b := Check();
    b := Extend(10, b, Checked(), Tick(11));
    b := Extend(10, b, Checked().(clock := 11), Recover(0, 11));
    RecoverLapsed();
  }

  /**
   * Without punctuality the promise fails: a worker checks ownership of attempt 1, its lease runs out, the
   * task is recovered and attempt 2 claimed by another worker, and then the first worker writes by primary
   * key. The result of attempt 1 closes attempt 2, whose own result will be rejected.
   */
  lemma LateWriteHitsLaterAttempt() returns (b: seq<State>)
    ensures IsRun(10, b)
    ensures var s := b[|b| - 1];
      && s.overrun
      && "w2" in s.workers && s.workers["w2"] == Executing(0, 2)
      && 0 in s.rows && s.rows[0].status == Success && s.rows[0].attempts == 2 && !OwnsTask(s, "w2", 0)
  {
    b := Lapse();
    b := Deliver(b, Lapsed(), "w2");
    var s := b[|b| - 1];
    b := Extend(10, b, s, Claim("w2", 11));
    var y := b[|b| - 1];
    assert y.workers["w1"] == Committing(0, 1, EndSuccess, 10) && Owned(y.rows[0], "w2");
    b := Extend(10, b, y, Commit("w1"));
  }

  /** A user asks to cancel a queued task, a worker claims it, and then the cancellation is written after all. */
  lemma LateCancelHitsRunningTask() returns (b: seq<State>)
    ensures IsRun(10, b)
    ensures var s := b[|b| - 1];
      && s.overrun
      && "w1" in s.workers && s.workers["w1"] == Executing(0, 1)
      && 0 in s.rows && s.rows[0].status == Cancelled && !OwnsTask(s, "w1", 0)
  {
    b := Hold();
    b := Extend(10, b, Held(), CheckCancel(0));
    var s := Held().(cancelling := multiset{0});
    assert Apply(10, Held(), CheckCancel(0)) == s;
    b := Extend(10, b, s, Claim("w1", 0));
    TakeHeld(multiset{0});
    b := Extend(10, b, Taken().(cancelling := multiset{0}), Cancel(0));
  }
}
