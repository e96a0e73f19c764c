/** What the lease protocol guarantees in every run: fencing, leases, bounds, statuses. */
module LeaseTheorems {
  import opened Options
  import opened Tasks
  import opened TaskRows
  import opened LeaseInvariant
  import opened LeaseProtocol
  import opened LeaseRuns

  // Fencing.

  /**
   * Ownership is checked by worker id alone, and that is enough: a worker busy with attempt k of a task owns
   * the row exactly when attempt k is still the running one. A result of attempt k never passes the check
   * once the task was recovered, requeued or claimed again, by whomever.
   */
  lemma OwnershipFences(duration: nat, b: seq<State>, i: nat, w: WorkerId)
    requires IsRun(duration, b) && i < |b| && !b[i].overrun && w in b[i].workers && Busy(b[i].workers[w])
    ensures var t, k := b[i].workers[w].t, b[i].workers[w].k;
      && t in b[i].rows
      && (OwnsTask(b[i], w, t) <==> b[i].rows[t].status == Running && b[i].rows[t].attempts == k)
  {
    RunsKeepInv(duration, b, i);
    assert WorkerOk(b[i], w);
    assert RowOk(duration, b[i], b[i].workers[w].t);
  }

  /** No two workers ever run the same attempt of a task. */
  lemma AttemptIsExclusive(duration: nat, b: seq<State>, i: nat, v: WorkerId, w: WorkerId)
    requires IsRun(duration, b) && i < |b| && !b[i].overrun && v in b[i].workers && w in b[i].workers
    requires Busy(b[i].workers[v]) && Busy(b[i].workers[w])
    requires b[i].workers[v].t == b[i].workers[w].t && b[i].workers[v].k == b[i].workers[w].k
    ensures v == w
  {
    RunsKeepInv(duration, b, i);
    assert WorkerOk(b[i], v) && WorkerOk(b[i], w);
  }

  // How attempts end.

  /** Attempts of the task that recovery closed. */
  function Recoveries(s: State, t: TaskId): nat {
    TallyOf(s, t).requeues + TallyOf(s, t).expiries
  }

  /** Attempts of the task that a worker closed. */
  function Closings(s: State, t: TaskId): nat {
    TallyOf(s, t).successes + TallyOf(s, t).retries + TallyOf(s, t).failures
  }

  predicate Recovers(e: Event, t: TaskId) {
    e.Recover? && e.t == t
  }

  predicate Closes(s: State, e: Event, t: TaskId)
    requires Enabled(s, e)
  {
    e.Commit? && s.workers[e.w].t == t
  }

  lemma WrittenHistory(duration: nat, s: State, e: Event, t: TaskId)
    requires Enabled(s, e) && t in s.rows && t in s.tally && Target(s, e) == Some(t)
    ensures var n := Apply(duration, s, e);
      && t in n.rows && t in n.tally
      && Recoveries(n, t) == Recoveries(s, t) + One(Recovers(e, t))
      && Closings(n, t) == Closings(s, t) + One(Closes(s, e, t))
  {
    match e
    case Claim(_, _) =>
    case Renew(_, _) =>
    case Commit(_) =>
    case Recover(_, _) =>
    case Cancel(_) =>
  }

  /** The counters grow with the events they count, and with no others. */
  lemma HistoryGrows(duration: nat, s: State, e: Event, t: TaskId)
    requires RowOk(duration, s, t) && Enabled(s, e) && t in s.rows
    ensures t in Apply(duration, s, e).rows
    ensures Recoveries(Apply(duration, s, e), t) == Recoveries(s, t) + One(Recovers(e, t))
    ensures Closings(Apply(duration, s, e), t) == Closings(s, t) + One(Closes(s, e, t))
  {
    if Target(s, e) == Some(t) {
      WrittenHistory(duration, s, e, t);
    } else {
      OtherTasksStay(duration, s, e, t);
    }
  }

  // Leases and recovery.

  /** A running task can be recovered exactly when its last claim or renewal lies more than a lease back. */
  lemma RecoverableIffSilent(duration: nat, b: seq<State>, i: nat, t: TaskId)
    requires IsRun(duration, b) && i < |b| && !b[i].overrun && t in b[i].rows && b[i].rows[t].status == Running
    ensures b[i].rows[t].beat.Some?
    ensures (exists now :: Enabled(b[i], Recover(t, now))) <==> b[i].clock > b[i].rows[t].beat.value + duration
  {
    RunsKeepInv(duration, b, i);
    assert RowOk(duration, b[i], t);
    if b[i].clock > b[i].rows[t].beat.value + duration {
      assert Enabled(b[i], Recover(t, b[i].clock));
    }
  }

  /** If the task runs, its last claim or renewal lies no more than a lease back. */
  predicate InLease(duration: nat, s: State, t: TaskId) {
    t in s.rows && s.rows[t].status == Running ==>
      s.rows[t].beat.Some? && s.clock <= s.rows[t].beat.value + duration
  }

  lemma NobodyRecoversTimely(duration: nat, s: State, e: Event, t: TaskId)
    requires RowOk(duration, s, t) && InLease(duration, s, t) && Enabled(s, e)
    ensures !Recovers(e, t)
  {
  }

  lemma NobodyTakesTimely(duration: nat, s: State, e: Event, w: WorkerId, t: TaskId)
    requires RowOk(duration, s, t) && InLease(duration, s, t) && OwnsTask(s, w, t)
    requires Enabled(s, e) && Clean(s, e) && !Closes(s, e, t)
    ensures OwnsTask(Apply(duration, s, e), w, t)
  {
    NobodyRecoversTimely(duration, s, e, t);
    if Target(s, e) == Some(t) {
      match e
      case Claim(_, _) =>
      case Renew(_, _) =>
      case Cancel(_) =>
    } else {
      OtherTasksStay(duration, s, e, t);
    }
  }

  /** Recovery took nothing, and unless a worker closed an attempt the row still belongs to `w`. */
  ghost predicate KeptByOwner(s: State, z: State, w: WorkerId, t: TaskId) {
    && t in z.rows && Recoveries(z, t) == Recoveries(s, t)
    && (Closings(z, t) > Closings(s, t) || (Closings(z, t) == Closings(s, t) && OwnsTask(z, w, t)))
  }

  lemma KeptByOwnerAt(duration: nat, c: seq<State>, i: nat, w: WorkerId, t: TaskId)
    requires Continues(duration, None, c) && 0 < i < |c| && Inv(duration, c[i - 1]) && InLease(duration, c[i - 1], t)
    requires KeptByOwner(c[0], c[i - 1], w, t)
    ensures KeptByOwner(c[0], c[i], w, t)
  {
    var e := EventAt(duration, None, c, i);
    assert RowOk(duration, c[i - 1], t);
    HistoryGrows(duration, c[i - 1], e, t);
    NobodyRecoversTimely(duration, c[i - 1], e, t);
    if Closings(c[i - 1], t) == Closings(c[0], t) && !Closes(c[i - 1], e, t) {
      NobodyTakesTimely(duration, c[i - 1], e, w, t);
    }
  }

  /**
   * Over any stretch of a run in which the clock never passes the last claim or renewal plus the lease, the
   * attempt of the owner is not recovered: the owner keeps the row until it closes the attempt itself.
   */
  lemma TimelyOwnerKeepsRow(duration: nat, b: seq<State>, i: nat, j: nat, w: WorkerId, t: TaskId)
    requires IsRun(duration, b) && i <= j < |b| && !b[j].overrun && OwnsTask(b[i], w, t)
    requires forall k :: i <= k < j ==> InLease(duration, b[k], t)
    ensures KeptByOwner(b[i], b[j], w, t)
  {
    RunContinues(duration, b, i, j);
    var c := b[i..j + 1];
    forall k | 0 < k < |c| && Inv(duration, c[k - 1]) && KeptByOwner(b[i], c[k - 1], w, t)
      ensures KeptByOwner(b[i], c[k], w, t)
    {
      assert c[k - 1] == b[i + k - 1];
      KeptByOwnerAt(duration, c, k, w, t);
    }
    Along(duration, None, c, j - i, z => KeptByOwner(b[i], z, w, t));
  }

  // Crashed owners.

  /** The task runs in the database, but no live process works on it for its owner. */
  ghost predicate Orphaned(s: State, t: TaskId) {
    && t in s.rows && s.rows[t].status == Running
    && forall w :: w in s.workers && Busy(s.workers[w]) && s.workers[w].t == t ==> !OwnsTask(s, w, t)
  }

  lemma CrashOrphans(duration: nat, s: State, w: WorkerId)
    requires w in s.workers && Busy(s.workers[w]) && OwnsTask(s, w, s.workers[w].t)
    ensures Orphaned(Apply(duration, s, Crash(w)), s.workers[w].t)
  {
  }

  lemma OrphanStays(duration: nat, s: State, e: Event, t: TaskId)
    requires Enabled(s, e) && Clean(s, e) && Orphaned(s, t) && !Recovers(e, t)
    ensures Orphaned(Apply(duration, s, e), t) && Apply(duration, s, e).rows[t] == s.rows[t]
  {
    if Target(s, e) == Some(t) {
      match e
      case Claim(_, _) =>
      case Renew(w, _) => assert !OwnsTask(s, w, t);
      case Commit(_) =>
      case Cancel(_) =>
    } else {
      OtherTasksStay(duration, s, e, t);
    }
  }

  /** Recovery took the task meanwhile, or it lies there as it did, lease included. */
  ghost predicate StillWaiting(s: State, z: State, t: TaskId) {
    && t in s.rows && t in z.rows
    && (|| Recoveries(z, t) > Recoveries(s, t)
        || (Recoveries(z, t) == Recoveries(s, t) && Orphaned(z, t) && z.rows[t] == s.rows[t]))
  }

  lemma StillWaitingAt(duration: nat, c: seq<State>, i: nat, t: TaskId)
    requires Continues(duration, None, c) && 0 < i < |c| && Inv(duration, c[i - 1]) && StillWaiting(c[0], c[i - 1], t)
    ensures StillWaiting(c[0], c[i], t)
  {
    var e := EventAt(duration, None, c, i);
    assert RowOk(duration, c[i - 1], t);
    HistoryGrows(duration, c[i - 1], e, t);
    if Recoveries(c[i - 1], t) == Recoveries(c[0], t) && !Recovers(e, t) {
      OrphanStays(duration, c[i - 1], e, t);
    }
  }

  /**
   * The task of a worker that crashes keeps its row, lease included, in every continuation until recovery has
   * taken it; with RecoverableIffSilent, that becomes possible the moment the clock passes the lease.
   */
  lemma CrashedTaskWaitsForRecovery(duration: nat, b: seq<State>, i: nat, w: WorkerId, z: State)
    requires IsRun(duration, b) && i < |b| && !b[i].overrun && w in b[i].workers && Busy(b[i].workers[w])
    requires OwnsTask(b[i], w, b[i].workers[w].t) && Leads(duration, None, Apply(duration, b[i], Crash(w)), z)
    ensures var s, t := b[i], b[i].workers[w].t;
      t in z.rows && (Recoveries(z, t) > Recoveries(s, t) || (Orphaned(z, t) && z.rows[t] == s.rows[t]))
  {
    var s, t := b[i], b[i].workers[w].t;
    var n := Apply(duration, s, Crash(w));
    RunsKeepInv(duration, b, i);
    StepKeepsInv(duration, s, Crash(w));
    CrashOrphans(duration, s, w);
    assert n.rows == s.rows && n.tally == s.tally && !n.overrun;
    var c :| Continues(duration, None, c) && c[0] == n && c[|c| - 1] == z;
    forall k | 0 < k < |c| && Inv(duration, c[k - 1]) && StillWaiting(n, c[k - 1], t) ensures StillWaiting(n, c[k], t) {
      StillWaitingAt(duration, c, k, t);
    }
    Along(duration, None, c, |c| - 1, x => StillWaiting(n, x, t));
  }

  // Bounds and conservation.

  /**
   * At most 1 + max_retries attempts, claims within the bound, and at most two status changes per attempt. Before its
   * first attempt a task has no worker, lease or heartbeat.
   */
  lemma AttemptBound(duration: nat, b: seq<State>, i: nat, t: TaskId)
    requires IsRun(duration, b) && i < |b| && !b[i].overrun && t in b[i].rows
    ensures var r := b[i].rows[t];
      && r.attempts <= r.maxRetries + 1
      && (r.status == Queued ==> r.attempts <= r.maxRetries)
      && (r.attempts == 0 ==> r.worker == None && r.lease == None && r.beat == None)
      && TallyOf(b[i], t).moves <= 2 * (r.maxRetries + 1)
  {
    RunsKeepInv(duration, b, i);
    assert RowOk(duration, b[i], t);
  }

  /**
   * Every claim is an attempt, and every attempt is closed exactly once, by its worker or by recovery, unless
   * it is the one running. Only a worker's success leads to SUCCESS, only one failure of either to FAILED.
   */
  lemma AttemptsAreConserved(duration: nat, b: seq<State>, i: nat, t: TaskId)
    requires IsRun(duration, b) && i < |b| && !b[i].overrun && t in b[i].rows
    ensures var r, y := b[i].rows[t], TallyOf(b[i], t);
      && |y.claimants| == r.attempts
      && r.attempts == Closings(b[i], t) + Recoveries(b[i], t) + One(r.status == Running)
      && y.successes <= 1 && (y.successes == 1 <==> r.status == Success)
      && (y.failures + y.expiries == 1 <==> r.status == Failed)
  {
    RunsKeepInv(duration, b, i);
    assert RowOk(duration, b[i], t);
  }

  function TotalClaims(s: State, ts: seq<TaskId>): nat {
    if ts == [] then 0 else |TallyOf(s, ts[0]).claimants| + TotalClaims(s, ts[1..])
  }

  function TotalAllowance(s: State, ts: seq<TaskId>): nat
    requires forall t :: t in ts ==> t in s.rows
  {
    if ts == [] then 0 else s.rows[ts[0]].maxRetries + 1 + TotalAllowance(s, ts[1..])
  }

  /** Tasks are claimed no more often in total than the sum of their allowances. */
  lemma {:induction false} TotalClaimsBound(duration: nat, b: seq<State>, i: nat, ts: seq<TaskId>)
    requires IsRun(duration, b) && i < |b| && !b[i].overrun && forall t :: t in ts ==> t in b[i].rows
    ensures TotalClaims(b[i], ts) <= TotalAllowance(b[i], ts)
  {
    if ts != [] {
      AttemptsAreConserved(duration, b, i, ts[0]);
      AttemptBound(duration, b, i, ts[0]);
      TotalClaimsBound(duration, b, i, ts[1..]);
    }
  }

  // Statuses.

  /** Every event moves the status of every task along the declared table, with RETRY_WAIT passed in one go. */
  lemma StatusFollowsTable(duration: nat, s: State, e: Event, t: TaskId)
    requires Enabled(s, e) && Clean(s, e) && t in s.rows
    ensures var n := Apply(duration, s, e);
      t in n.rows && n.rows[t].maxRetries == s.rows[t].maxRetries && TaskMove(s.rows[t].status, n.rows[t].status)
  {
    if Target(s, e) == Some(t) {
      match e
      case Claim(_, _) => assert IsValidTransition(Queued, Running);
      case Renew(_, _) =>
      case Commit(_) => assert {TaskStatus.Success, TaskStatus.Failed} <= ValidTransitions(Running);
      case Recover(_, _) => assert IsValidTransition(Running, TaskStatus.Failed);
      case Cancel(_) => assert IsValidTransition(Queued, Cancelled) && IsValidTransition(Created, Cancelled);
    } else {
      OtherTasksStay(duration, s, e, t);
    }
  }

  ghost predicate TableLeads(x: TaskStatus, y: TaskStatus) {
    exists p :: TablePath(p) && p[0] == x && p[|p| - 1] == y
  }

  lemma MoveLeads(x: TaskStatus, y: TaskStatus)
    requires TaskMove(x, y)
    ensures TableLeads(x, y)
  {
    TaskMoveIffCollapsedPath(x, y);
    var p :| CollapsedPath(p, x, y);
    assert TablePath(p);
  }

  lemma TableLeadsOn(x: TaskStatus, y: TaskStatus, z: TaskStatus)
    requires TableLeads(x, y) && TableLeads(y, z)
    ensures TableLeads(x, z)
  {
    var p :| TablePath(p) && p[0] == x && p[|p| - 1] == y;
    var q :| TablePath(q) && q[0] == y && q[|q| - 1] == z;
    var r := p + q[1..];
    forall i | 0 < i < |r| ensures IsValidTransition(r[i - 1], r[i]) {
      if i >= |p| {
        assert r[i] == q[i - |p| + 1] && r[i - 1] == q[i - |p|];
      }
    }
    assert TablePath(r);
  }

  /** The status of the task in `z` lies on a walk from its status in `s`. */
  ghost predicate OnWalk(s: State, z: State, t: TaskId) {
    t in s.rows && t in z.rows && TableLeads(s.rows[t].status, z.rows[t].status)
  }

  lemma OnWalkAt(duration: nat, c: seq<State>, i: nat, t: TaskId)
    requires Continues(duration, None, c) && 0 < i < |c| && OnWalk(c[0], c[i - 1], t)
    ensures OnWalk(c[0], c[i], t)
  {
    var e := EventAt(duration, None, c, i);
    StatusFollowsTable(duration, c[i - 1], e, t);
    MoveLeads(c[i - 1].rows[t].status, c[i].rows[t].status);
    TableLeadsOn(c[0].rows[t].status, c[i - 1].rows[t].status, c[i].rows[t].status);
  }

  /** Between any two states of a run the status of a task has followed the declared table. */
  lemma HistoryFollowsTable(duration: nat, b: seq<State>, i: nat, j: nat, t: TaskId)
    requires IsRun(duration, b) && i <= j < |b| && !b[j].overrun && t in b[i].rows
    ensures t in b[j].rows && TableLeads(b[i].rows[t].status, b[j].rows[t].status)
  {
    RunContinues(duration, b, i, j);
    var c := b[i..j + 1];
    MoveLeads(b[i].rows[t].status, b[i].rows[t].status);
    forall k | 0 < k < |c| && OnWalk(b[i], c[k - 1], t) ensures OnWalk(b[i], c[k], t) {
      OnWalkAt(duration, c, k, t);
    }
    Along(duration, None, c, j - i, z => OnWalk(b[i], z, t));
  }

  lemma FinalRowStays(duration: nat, s: State, e: Event, t: TaskId)
    requires Enabled(s, e) && Clean(s, e) && t in s.rows && Absorbing(s.rows[t].status)
    ensures t in Apply(duration, s, e).rows && Apply(duration, s, e).rows[t] == s.rows[t]
  {
    if Target(s, e) == Some(t) {
      match e
      case Claim(_, _) =>
      case Renew(_, _) =>
      case Commit(_) =>
      case Recover(_, _) =>
      case Cancel(_) =>
    } else {
      OtherTasksStay(duration, s, e, t);
    }
  }

  ghost predicate SameRow(s: State, z: State, t: TaskId) {
    t in s.rows && t in z.rows && z.rows[t] == s.rows[t]
  }

  lemma FinalRowStaysAt(duration: nat, c: seq<State>, i: nat, t: TaskId)
    requires Continues(duration, None, c) && 0 < i < |c| && t in c[i - 1].rows && Absorbing(c[i - 1].rows[t].status)
    ensures t in c[i].rows && c[i].rows[t] == c[i - 1].rows[t]
  {
    var e := EventAt(duration, None, c, i);
    FinalRowStays(duration, c[i - 1], e, t);
  }

  /** A task that reached a final status keeps its row for good. */
  lemma FinalRowsStay(duration: nat, b: seq<State>, i: nat, j: nat, t: TaskId)
    requires IsRun(duration, b) && i <= j < |b| && !b[j].overrun && t in b[i].rows && Absorbing(b[i].rows[t].status)
    ensures t in b[j].rows && b[j].rows[t] == b[i].rows[t]
  {
    RunContinues(duration, b, i, j);
    var c := b[i..j + 1];
    forall k | 0 < k < |c| && SameRow(b[i], c[k - 1], t) ensures SameRow(b[i], c[k], t) {
      FinalRowStaysAt(duration, c, k, t);
    }
    Along(duration, None, c, j - i, z => SameRow(b[i], z, t));
  }
}
