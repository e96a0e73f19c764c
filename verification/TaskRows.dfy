/** The row of one task and the guarded updates that workers, recovery and users make on it. */
module TaskRows {
  import opened Options
  import opened Tasks

  type WorkerId = string
  type TaskId = nat
  type Time = int

  /** The columns that the lease protocol reads and writes. */
  datatype Row = Row(status: TaskStatus, attempts: nat, maxRetries: nat,
                     worker: Option<WorkerId>, lease: Option<Time>, beat: Option<Time>)

  /** How an attempt ended: with a result, with an error worth another attempt, or with one that is not. */
  datatype Outcome = Succeeded | RetryableError | FatalError

  /** What the worker writes for an attempt that ended. */
  datatype Ending = EndSuccess | EndRetry | EndFailed

  function NewRow(maxRetries: nat): Row {
    Row(Queued, 0, maxRetries, None, None, None)
  }

  predicate Claimable(r: Row) {
    r.status == Queued
  }

  function ClaimRow(r: Row, w: WorkerId, now: Time, duration: nat): Row {
    r.(status := Running, worker := Some(w), attempts := r.attempts + 1,
       lease := Some(now + duration), beat := Some(now))
  }

  /** The guard of renewal and of the final writes of a worker. */
  predicate Owned(r: Row, w: WorkerId) {
    r.status == Running && r.worker == Some(w)
  }

  function RenewRow(r: Row, now: Time, duration: nat): Row {
    r.(lease := Some(now + duration), beat := Some(now))
  }

  predicate AttemptsLeft(r: Row) {
    r.attempts <= r.maxRetries
  }

  function EndingOf(r: Row, o: Outcome): Ending {
    match o
    case Succeeded => EndSuccess
    case RetryableError => if AttemptsLeft(r) then EndRetry else EndFailed
    case FatalError => EndFailed
  }

  /** The write itself, by primary key alone. */
  function EndRow(r: Row, e: Ending): Row {
    match e
    case EndSuccess => r.(status := Success)
    case EndRetry => r.(status := Queued, worker := None, lease := None, beat := None)
    case EndFailed => r.(status := Failed)
  }

  predicate Expired(r: Row, now: Time) {
    r.status == Running && r.lease.Some? && r.lease.value < now
  }

  /** Requeue while attempts are left, fail otherwise. The heartbeat column is left alone. */
  function RecoverRow(r: Row): Row {
    r.(status := if AttemptsLeft(r) then Queued else Failed, worker := None, lease := None)
  }

  predicate Cancellable(r: Row) {
    r.status == Created || r.status == Queued
  }

  function CancelRow(r: Row): Row {
    r.(status := Cancelled)
  }
}
