/** The services on the task table and the queue, one call at a time. */
module TaskStore {
  import opened Options
  import opened Tasks
  import opened TaskRows

  /** The answers to a request to cancel a task. */
  datatype Cancellation = NoSuchTask | InvalidStateTransition | Cancelled

  /** The ids of the list whose push gets through. */
  function Delivered(ts: seq<TaskId>, reachable: set<TaskId>): seq<TaskId> {
    if ts == [] then []
    else Delivered(ts[..|ts| - 1], reachable) + (if ts[|ts| - 1] in reachable then [ts[|ts| - 1]] else [])
  }

  /**
   * What becomes of a row that a worker claims, runs to the outcome and closes: one attempt more, SUCCESS
   * exactly on success, QUEUED again only for a retryable error within the allowance, FAILED otherwise.
   */
  function Attempted(r: Row, w: WorkerId, o: Outcome, now: Time, duration: nat): (a: Row)
    ensures r.status != Queued ==> a == r
    ensures r.status == Queued ==>
      && a.attempts == r.attempts + 1 && a.maxRetries == r.maxRetries
      && (a.status == Success <==> o == Succeeded)
      && (a.status == Queued <==> o == RetryableError && r.attempts < r.maxRetries)
      && (a.status == Queued || Reportable(a.status))
      && (a.status == Queued ==> a.worker == None && a.lease == None && a.beat == None)
      && (a.status != Queued ==> a.worker == Some(w) && a.lease == Some(now + duration) && a.beat == Some(now))
  {
    if Claimable(r) then
      var claimed := ClaimRow(r, w, now, duration);
      EndRow(claimed, EndingOf(claimed, o))
    else r
  }

  /** What the database and the Redis list hold. */
  datatype Table = Table(rows: map<TaskId, Row>, queue: seq<TaskId>)

  /** The table after a worker took one message: nothing if the task is not queued, else one whole attempt. */
  function Processed(x: Table, w: WorkerId, t: TaskId, o: Outcome, now: Time, duration: nat,
                     reachable: set<TaskId>): Table
  {
    if t in x.rows && Claimable(x.rows[t]) then
      var a := Attempted(x.rows[t], w, o, now, duration);
      Table(x.rows[t := a], x.queue + (if a.status == Queued then Delivered([t], reachable) else []))
    else x
  }

  /** The table after a pop from the left. */
  function Popped(x: Table): Table {
    if x.queue == [] then x else x.(queue := x.queue[1..])
  }

  /** The table after a renewal by `w`: a later end of the lease, for the owner of a running task only. */
  function Renewed(x: Table, w: WorkerId, t: TaskId, now: Time, duration: nat): Table {
    if t in x.rows && Owned(x.rows[t], w) then x.(rows := x.rows[t := RenewRow(x.rows[t], now, duration)]) else x
  }

  /** The table after a request to cancel the task. */
  function Withdrawn(x: Table, t: TaskId): Table {
    if t in x.rows && Cancellable(x.rows[t]) then x.(rows := x.rows[t := CancelRow(x.rows[t])]) else x
  }

  /** The recovery candidates. */
  function StaleTasks(rows: map<TaskId, Row>, now: Time): set<TaskId> {
    set t | t in rows && Expired(rows[t], now)
  }

  /** The rows after recovery has dealt with the tasks of `done`. */
  ghost predicate Recovered(before: map<TaskId, Row>, after: map<TaskId, Row>, done: set<TaskId>) {
    && after.Keys == before.Keys
    && forall t :: t in after ==> after[t] == if t in done then RecoverRow(before[t]) else before[t]
  }

  /** The list names each of the requeued tasks among `done` once. */
  ghost predicate Requeued(before: map<TaskId, Row>, done: set<TaskId>, ts: seq<TaskId>) {
    && (forall t :: t in ts <==> t in done && t in before && AttemptsLeft(before[t]))
    && (forall i, j :: 0 <= i < j < |ts| ==> ts[i] != ts[j])
  }

  lemma OneMoreDone(before: map<TaskId, Row>, rows: map<TaskId, Row>, done: set<TaskId>, t: TaskId, now: Time)
    requires Recovered(before, rows, done) && t in rows && t !in done && Expired(before[t], now)
    ensures Expired(rows[t], now) && Recovered(before, rows[t := RecoverRow(rows[t])], done + {t})
  {
  }

  lemma OneMoreRequeued(before: map<TaskId, Row>, done: set<TaskId>, ts: seq<TaskId>, t: TaskId)
    requires Requeued(before, done, ts) && t in before && t !in done
    ensures Requeued(before, done + {t}, if AttemptsLeft(before[t]) then ts + [t] else ts)
  {
    assert t !in ts;
  }

  lemma DeliveredOneMore(ts: seq<TaskId>, t: TaskId, reachable: set<TaskId>)
    ensures Delivered(ts + [t], reachable) == Delivered(ts, reachable) + Delivered([t], reachable)
  {
    assert (ts + [t])[..|ts|] == ts;
  }

  lemma NothingLeftExpired(before: map<TaskId, Row>, after: map<TaskId, Row>, now: Time)
    requires Recovered(before, after, StaleTasks(before, now))
    ensures forall t :: t in after ==> !Expired(after[t], now)
  {
  }

  class Store {
    var rows: map<TaskId, Row>
    /** The Redis list; pushes go right, pops come from the left. */
    var queue: seq<TaskId>

    /** Append, or report that the queue could not be reached. The row is not touched either way. */
    method Publish(t: TaskId, reachable: set<TaskId>) returns (ok: bool)
      modifies this`queue
      ensures ok <==> t in reachable
      ensures queue == old(queue) + Delivered([t], reachable)
    {
      ok := t in reachable;
      if ok {
        queue := queue + [t];
      }
    }

    /** Pop from the left, or nothing when the list stays empty. */
    method Consume() returns (t: Option<TaskId>)
      modifies this`queue
      ensures Table(rows, queue) == Popped(old(Table(rows, queue)))
      ensures t == if old(queue) == [] then None else Some(old(queue)[0])
    {
      if queue == [] {
        return None;
      }
      t := Some(queue[0]);
      queue := queue[1..];
    }

    /** QUEUED to RUNNING for exactly one caller. */
    method AtomicClaim(w: WorkerId, t: TaskId, now: Time, duration: nat) returns (claimed: bool)
      modifies this`rows
      ensures claimed <==> t in old(rows) && old(rows)[t].status == Queued
      ensures claimed ==>
        && t in rows && Owned(rows[t], w)
        && rows == old(rows)[t := old(rows)[t].(status := Running, worker := Some(w), lease := Some(now + duration),
                                                attempts := old(rows)[t].attempts + 1, beat := Some(now))]
      ensures !claimed ==> rows == old(rows)
    {
      claimed := t in rows && Claimable(rows[t]);
      if claimed {
        rows := rows[t := ClaimRow(rows[t], w, now, duration)];
      }
    }

    method RenewTaskLease(w: WorkerId, t: TaskId, now: Time, duration: nat) returns (renewed: bool)
      modifies this`rows
      ensures renewed <==> t in old(rows) && Owned(old(rows)[t], w)
      ensures Table(rows, queue) == Renewed(old(Table(rows, queue)), w, t, now, duration)
      ensures rows == if renewed then
          old(rows)[t := old(rows)[t].(lease := Some(now + duration), beat := Some(now))]
        else old(rows)
    {
      renewed := t in rows && Owned(rows[t], w);
      if renewed {
        rows := rows[t := RenewRow(rows[t], now, duration)];
      }
    }

    /** RUNNING to SUCCESS for the owner; a late result changes nothing. */
    method TransitionToSuccess(w: WorkerId, t: TaskId) returns (accepted: bool)
      modifies this`rows
      ensures accepted <==> t in old(rows) && Owned(old(rows)[t], w)
      ensures rows == if accepted then old(rows)[t := old(rows)[t].(status := Success)] else old(rows)
    {
      accepted := t in rows && Owned(rows[t], w);
      if accepted {
        rows := rows[t := EndRow(rows[t], EndSuccess)];
      }
    }

    /** Another attempt if the error allows one and attempts are left, else FAILED; a late failure changes nothing. */
    method HandleTaskFailure(w: WorkerId, t: TaskId, retryable: bool, reachable: set<TaskId>)
      modifies this
      ensures !(t in old(rows) && Owned(old(rows)[t], w)) ==> rows == old(rows) && queue == old(queue)
      ensures t in old(rows) && Owned(old(rows)[t], w) ==>
        var r := old(rows)[t];
        if retryable && r.attempts <= r.maxRetries then
          && rows == old(rows)[t := r.(status := Queued, worker := None, lease := None, beat := None)]
          && queue == old(queue) + Delivered([t], reachable)
        else
          rows == old(rows)[t := r.(status := Failed)] && queue == old(queue)
    {
      if t !in rows || !Owned(rows[t], w) {
        return;
      }
      var end := EndingOf(rows[t], if retryable then RetryableError else FatalError);
      rows := rows[t := EndRow(rows[t], end)];
      if end == EndRetry {
        var _ := Publish(t, reachable);
      }
    }

    /**
     * Claim, execute, close. Returns the status with which the workflow engine is called afterwards: the
     * final status of the task, if it has one that is reported.
     */
    method ProcessTask(w: WorkerId, t: TaskId, o: Outcome, now: Time, duration: nat, reachable: set<TaskId>)
      returns (report: Option<TaskStatus>)
      modifies this
      ensures Table(rows, queue) == Processed(old(Table(rows, queue)), w, t, o, now, duration, reachable)
      ensures var ran := t in old(rows) && old(rows)[t].status == Queued;
        report == if ran && Reportable(rows[t].status) then Some(rows[t].status) else None
    {
      report := None;
      var claimed := AtomicClaim(w, t, now, duration);
      if !claimed {
        return;
      }
      if o == Succeeded {
        var _ := TransitionToSuccess(w, t);
      } else {
        HandleTaskFailure(w, t, o == RetryableError, reachable);
      }
      if Reportable(rows[t].status) {
        report := Some(rows[t].status);
      }
    }

    /** The conditional update of one recovery candidate. */
    method RecoverOne(t: TaskId, now: Time) returns (requeued: bool)
      modifies this`rows
      ensures requeued <==> t in old(rows) && Expired(old(rows)[t], now) && AttemptsLeft(old(rows)[t])
      ensures rows == if t in old(rows) && Expired(old(rows)[t], now) then
          old(rows)[t := RecoverRow(old(rows)[t])]
        else old(rows)
    {
      requeued := false;
      if t in rows && Expired(rows[t], now) {
        requeued := AttemptsLeft(rows[t]);
        rows := rows[t := RecoverRow(rows[t])];
      }
    }

    /**
     * Recovers every task whose lease expired before `now`, each once, and pushes the requeued ones. The
     * rest of the table is left alone, and a second recovery at the same time finds nothing to do.
     */
    method RecoverStaleTasks(now: Time, reachable: set<TaskId>) returns (requeued: seq<TaskId>)
      modifies this
      ensures Recovered(old(rows), rows, StaleTasks(old(rows), now))
      ensures forall t :: t in rows ==> !Expired(rows[t], now)
      ensures Requeued(old(rows), StaleTasks(old(rows), now), requeued)
      ensures forall t :: t in old(rows) && Expired(old(rows)[t], now) ==>
        && (t in requeued <==> old(rows)[t].attempts <= old(rows)[t].maxRetries)
        && t in rows
        && rows[t] == old(rows)[t].(status := if t in requeued then Queued else Failed, worker := None, lease := None)
      ensures forall t :: t in requeued ==> t in old(rows) && Expired(old(rows)[t], now)
      ensures queue == old(queue) + Delivered(requeued, reachable)
    {
      requeued := [];
      var stale := StaleTasks(rows, now);
      ghost var done: set<TaskId> := {};
      while stale != {}
        invariant done + stale == StaleTasks(old(rows), now) && done !! stale
        invariant Recovered(old(rows), rows, done)
        invariant Requeued(old(rows), done, requeued)
        invariant queue == old(queue) + Delivered(requeued, reachable)
        decreases stale
      {
        var t :| t in stale;
        assert t in StaleTasks(old(rows), now);
        OneMoreDone(old(rows), rows, done, t, now);
        OneMoreRequeued(old(rows), done, requeued, t);
        stale, done := stale - {t}, done + {t};
        var back := RecoverOne(t, now);
        if back {
          var _ := Publish(t, reachable);
          DeliveredOneMore(requeued, t, reachable);
          requeued := requeued + [t];
        }
      }
      NothingLeftExpired(old(rows), rows, now);
    }

    /** CREATED or QUEUED to CANCELLED; any other status is refused, and an unknown task is reported. */
    method CancelTask(t: TaskId) returns (answer: Cancellation)
      modifies this`rows
      ensures answer == NoSuchTask <==> t !in old(rows)
      ensures answer.Cancelled? <==> t in old(rows) && IsValidTransition(old(rows)[t].status, TaskStatus.Cancelled)
      ensures answer.Cancelled? <==> t in old(rows) && (old(rows)[t].status == Created || old(rows)[t].status == Queued)
      ensures answer.Cancelled? ==> rows == old(rows)[t := old(rows)[t].(status := TaskStatus.Cancelled)]
      ensures Table(rows, queue) == Withdrawn(old(Table(rows, queue)), t)
    {
      if t !in rows {
        return NoSuchTask;
      }
      if !Cancellable(rows[t]) {
        return InvalidStateTransition;
      }
      rows := rows[t := CancelRow(rows[t])];
      answer := Cancellation.Cancelled;
    }
  }
}
