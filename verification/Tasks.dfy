/** Task statuses and the declared transition table. */
module Tasks {

  datatype TaskStatus =
    | Created | Queued | Running | Success | RetryWait | Failed | DeadLetter | Cancelled | TimedOut

  function ValidTransitions(s: TaskStatus): set<TaskStatus> {
    match s
    case Created => {Queued, Cancelled}
    case Queued => {Running, Cancelled}
    case Running => {Success, RetryWait, Failed, DeadLetter, TimedOut}
    case RetryWait => {Queued}
    case Success | Failed | DeadLetter | Cancelled | TimedOut => {}
  }

  predicate IsValidTransition(current: TaskStatus, target: TaskStatus) {
    target in ValidTransitions(current)
  }

  predicate Absorbing(s: TaskStatus) {
    ValidTransitions(s) == {}
  }

  /** The final statuses that a worker reports to the workflow engine. Cancellation is not among them. */
  predicate Reportable(s: TaskStatus) {
    s in {Success, Failed, DeadLetter, TimedOut}
  }

  /** A walk through the declared table. */
  ghost predicate TablePath(p: seq<TaskStatus>) {
    |p| > 0 && forall i :: 0 < i < |p| ==> IsValidTransition(p[i - 1], p[i])
  }

  /**
   * What one write may do to the status of a task: keep it, follow the table, or go from RUNNING back to
   * QUEUED at once, which is the walk through RETRY_WAIT with its middle left out.
   */
  predicate TaskMove(before: TaskStatus, after: TaskStatus) {
    before == after || IsValidTransition(before, after) || (before == Running && after == Queued)
  }

  /** A walk that passes through RETRY_WAIT only. */
  ghost predicate CollapsedPath(p: seq<TaskStatus>, before: TaskStatus, after: TaskStatus) {
    && TablePath(p) && p[0] == before && p[|p| - 1] == after
    && forall i :: 0 < i < |p| - 1 ==> p[i] == RetryWait
  }

  /** The moves are exactly the walks through the table that RETRY_WAIT disappears from, and there are no others. */
  lemma TaskMoveIffCollapsedPath(before: TaskStatus, after: TaskStatus)
    ensures TaskMove(before, after) <==> exists p :: CollapsedPath(p, before, after)
  {
    if TaskMove(before, after) {
      var p := if before == after then [before]
               else if before == Running && after == Queued then [Running, RetryWait, Queued]
               else [before, after];
      assert CollapsedPath(p, before, after);
    }
    if p :| CollapsedPath(p, before, after) {
      assert |p| > 2 ==> IsValidTransition(p[0], p[1]) && IsValidTransition(p[1], p[2]);
    }
  }

  /**
   * What the table says, without the table: a task can be cancelled exactly before it runs, a running task ends in
   * a status that is reported or waits for a retry, and the statuses that nothing leaves are the reported ones and
   * CANCELLED.
   */
  lemma TableFacts(s: TaskStatus, x: TaskStatus)
    ensures IsValidTransition(s, Cancelled) <==> s == Created || s == Queued
    ensures IsValidTransition(s, Running) <==> s == Queued
    ensures IsValidTransition(s, Queued) <==> s == Created || s == RetryWait
    ensures IsValidTransition(Running, x) <==> x in {Success, Failed, DeadLetter, TimedOut, RetryWait}
    ensures Absorbing(s) <==> s in {Success, Failed, DeadLetter, TimedOut, Cancelled}
    ensures Absorbing(s) <==> Reportable(s) || s == Cancelled
  {
  }
}
