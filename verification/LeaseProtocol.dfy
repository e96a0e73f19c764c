/**
 * Any number of workers, recoverers, submitters and users working on any number of tasks through the
 * database and the queue. Every committed statement and every queue operation is one event.
 */
module LeaseProtocol {
  import opened Options
  import opened Tasks
  import opened TaskRows

  /** Where the main loop of a live worker process stands. */
  datatype WorkerState =
    | Idle
    | Holding(t: TaskId)                  // popped the id, did not try to claim yet
    | Executing(t: TaskId, k: nat)        // claimed attempt k, handler running
    | Committing(t: TaskId, k: nat, e: Ending, until: Time) // ownership checked under a lease until then; write pending
    | Republishing(t: TaskId)             // requeued the row, push pending
    | Reporting(t: TaskId)                // about to call the workflow hook

  /**
   * What happened to a task so far: who claimed its attempts, how the attempts were closed, and how often the
   * status changed.
   */
  datatype Tally = Tally(claimants: seq<WorkerId>, successes: nat, retries: nat, requeues: nat,
                         failures: nat, expiries: nat, moves: nat)

  /**
   * `outbox` holds the ids that a submitter, dispatcher or recoverer committed as QUEUED and has not pushed
   * yet. `lost` records the tasks for which a push failed or a process died with the id in its hands.
   * `cancelling` holds the tasks that a user request found cancellable and is about to cancel. Workers and
   * cancel requests check first and then write by primary key, and renewals read the clock before they write;
   * `overrun` records that such a write hit a row that had moved on since.
   */
  datatype State = State(rows: map<TaskId, Row>, tally: map<TaskId, Tally>, queue: seq<TaskId>,
                         outbox: multiset<TaskId>, workers: map<WorkerId, WorkerState>, clock: Time,
                         lost: set<TaskId>, cancelling: multiset<TaskId>, overrun: bool)

  datatype Event =
    | Create(t: TaskId, maxRetries: nat)
    | Push(t: TaskId)
    | PushFails(t: TaskId)
    | Boot(w: WorkerId)
    | Pop(w: WorkerId)
    | Claim(w: WorkerId, now: Time)
    | Renew(w: WorkerId, now: Time)
    | Finish(w: WorkerId, o: Outcome)
    | Commit(w: WorkerId)
    | Republish(w: WorkerId, ok: bool)
    | Report(w: WorkerId)
    | Crash(w: WorkerId)
    | Recover(t: TaskId, now: Time)
    | CheckCancel(t: TaskId)
    | Cancel(t: TaskId)
    | Tick(d: nat)

  predicate Busy(ws: WorkerState) {
    ws.Executing? || ws.Committing?
  }

  predicate OwnsTask(s: State, w: WorkerId, t: TaskId) {
    t in s.rows && Owned(s.rows[t], w)
  }

  /**
   * Which events can happen. Claims, renewals and recovery use a time that was read earlier. Nothing but the
   * earlier check stands before the final write of a worker or of a cancel request.
   */
  predicate Enabled(s: State, e: Event) {
    match e
    case Create(t, _) => t !in s.rows
    case Push(t) => t in s.outbox
    case PushFails(t) => t in s.outbox
    case Boot(w) => w !in s.workers
    case Pop(w) => w in s.workers && s.workers[w].Idle? && s.queue != []
    case Claim(w, now) => w in s.workers && s.workers[w].Holding? && now <= s.clock
    case Renew(w, now) => w in s.workers && Busy(s.workers[w]) && now <= s.clock
    case Finish(w, _) => w in s.workers && s.workers[w].Executing?
    case Commit(w) => w in s.workers && s.workers[w].Committing? && s.workers[w].t in s.rows
    case Republish(w, _) => w in s.workers && s.workers[w].Republishing?
    case Report(w) => w in s.workers && s.workers[w].Reporting?
    case Crash(w) => w in s.workers
    case Recover(t, now) => t in s.rows && now <= s.clock && Expired(s.rows[t], now)
    case CheckCancel(t) => t in s.rows && Cancellable(s.rows[t])
    case Cancel(t) => t in s.cancelling && t in s.rows
    case Tick(_) => true
  }

  function LeaseEnd(r: Row): Time {
    if r.lease.Some? then r.lease.value else 0
  }

  /** The time is no earlier than the last claim or renewal of the row. */
  predicate Advances(r: Row, now: Time) {
    r.beat.Some? ==> r.beat.value <= now
  }

  /** The row is still as the cancel request found it, or another request was faster. */
  predicate CancelInTime(r: Row) {
    Cancellable(r) || r.status == Cancelled
  }

  function One(b: bool): nat {
    if b then 1 else 0
  }

  function TallyOf(s: State, t: TaskId): Tally {
    if t in s.tally then s.tally[t] else Tally([], 0, 0, 0, 0, 0, 0)
  }

  function Write(s: State, t: TaskId, r: Row, y: Tally): State {
    s.(rows := s.rows[t := r], tally := s.tally[t := y])
  }

  function Becomes(s: State, w: WorkerId, ws: WorkerState): State {
    s.(workers := s.workers[w := ws])
  }

  function TallyEnding(y: Tally, e: Ending): Tally {
    match e
    case EndSuccess => y.(successes := y.successes + 1, moves := y.moves + 1)
    case EndRetry => y.(retries := y.retries + 1, moves := y.moves + 1)
    case EndFailed => y.(failures := y.failures + 1, moves := y.moves + 1)
  }

  function TallyRecovery(y: Tally, r: Row): Tally {
    if AttemptsLeft(r) then y.(requeues := y.requeues + 1, moves := y.moves + 1)
    else y.(expiries := y.expiries + 1, moves := y.moves + 1)
  }

  function TallyClaim(y: Tally, w: WorkerId): Tally {
    y.(claimants := y.claimants + [w], moves := y.moves + 1)
  }

  function TallyCancel(y: Tally, r: Row): Tally {
    y.(moves := y.moves + One(r.status != Cancelled))
  }

  /** Losing the id of a task. */
  function Lose(s: State, t: TaskId): State {
    s.(lost := s.lost + {t})
  }

  /** The id that a process holds in its hands between two durable places. */
  function InHand(ws: WorkerState): Option<TaskId> {
    match ws
    case Holding(t) => Some(t)
    case Republishing(t) => Some(t)
    case _ => None
  }

  function Apply(duration: nat, s: State, e: Event): State
    requires Enabled(s, e)
  {
    match e
    case Create(t, n) => Write(s, t, NewRow(n), Tally([], 0, 0, 0, 0, 0, 0)).(outbox := s.outbox + multiset{t})
    case Push(t) => s.(outbox := s.outbox - multiset{t}, queue := s.queue + [t])
    case PushFails(t) => Lose(s.(outbox := s.outbox - multiset{t}), t)
    case Boot(w) => Becomes(s, w, Idle)
    case Pop(w) => Becomes(s, w, Holding(s.queue[0])).(queue := s.queue[1..])
    case Claim(w, now) =>
      var t := s.workers[w].t;
      if t in s.rows && Claimable(s.rows[t]) then
        var r := ClaimRow(s.rows[t], w, now, duration);
        Becomes(Write(s, t, r, TallyClaim(TallyOf(s, t), w)), w, Executing(t, r.attempts))
      else Becomes(s, w, Idle)
    case Renew(w, now) =>
      var t := s.workers[w].t;
      if OwnsTask(s, w, t) then
        Write(s, t, RenewRow(s.rows[t], now, duration), TallyOf(s, t))
          .(overrun := s.overrun || !Advances(s.rows[t], now))
      else s
    case Finish(w, o) =>
      var t, k := s.workers[w].t, s.workers[w].k;
      if OwnsTask(s, w, t) then Becomes(s, w, Committing(t, k, EndingOf(s.rows[t], o), LeaseEnd(s.rows[t])))
      else Becomes(s, w, Reporting(t))
    case Commit(w) =>
      var t, end := s.workers[w].t, s.workers[w].e;
      Becomes(Write(s, t, EndRow(s.rows[t], end), TallyEnding(TallyOf(s, t), end)), w,
              if end == EndRetry then Republishing(t) else Reporting(t))
        .(overrun := s.overrun || !OwnsTask(s, w, t))
    case Republish(w, ok) =>
      var t := s.workers[w].t;
      var after := Becomes(s, w, Reporting(t));
      if ok then after.(queue := s.queue + [t]) else Lose(after, t)
    case Report(w) => Becomes(s, w, Idle)
    case Crash(w) =>
      var after := s.(workers := s.workers - {w});
      if InHand(s.workers[w]).Some? then Lose(after, InHand(s.workers[w]).value) else after
    case Recover(t, now) =>
      var r := s.rows[t];
      var after := Write(s, t, RecoverRow(r), TallyRecovery(TallyOf(s, t), r));
      if AttemptsLeft(r) then after.(outbox := s.outbox + multiset{t}) else after
    case CheckCancel(t) => s.(cancelling := s.cancelling + multiset{t})
    case Cancel(t) =>
      Write(s, t, CancelRow(s.rows[t]), TallyCancel(TallyOf(s, t), s.rows[t]))
        .(cancelling := s.cancelling - multiset{t}, overrun := s.overrun || !CancelInTime(s.rows[t]))
    case Tick(d) => s.(clock := s.clock + d)
  }

  /** The event is no late write: what its check or its clock reading relied on still holds. */
  predicate Clean(s: State, e: Event)
    requires Enabled(s, e)
  {
    && !s.overrun
    && (e.Commit? ==> OwnsTask(s, e.w, s.workers[e.w].t))
    && (e.Cancel? ==> CancelInTime(s.rows[e.t]))
    && (e.Renew? && OwnsTask(s, e.w, s.workers[e.w].t) ==> Advances(s.rows[s.workers[e.w].t], e.now))
  }

  lemma CleanIffNotOverrun(duration: nat, s: State, e: Event)
    requires Enabled(s, e)
    ensures Clean(s, e) <==> !Apply(duration, s, e).overrun
  {
  }

  ghost predicate Next(duration: nat, s: State, t: State) {
    exists e :: Enabled(s, e) && t == Apply(duration, s, e)
  }

  ghost predicate Init(s: State) {
    && s.rows == map[] && s.tally == map[] && s.queue == [] && s.outbox == multiset{} && s.workers == map[]
    && s.lost == {} && s.cancelling == multiset{} && !s.overrun
  }

  /** State number `i` of a run: an initial state, or one event after the state before. */
  ghost predicate StepAt(duration: nat, b: seq<State>, i: nat)
    requires i < |b|
  {
    if i == 0 then Init(b[0]) else Next(duration, b[i - 1], b[i])
  }

  ghost predicate IsRun(duration: nat, b: seq<State>) {
    |b| > 0 && forall i {:trigger StepAt(duration, b, i)} :: 0 <= i < |b| ==> StepAt(duration, b, i)
  }

  // What an event leaves alone.

  /** The task whose row the event writes. */
  function Target(s: State, e: Event): Option<TaskId>
    requires Enabled(s, e)
  {
    match e
    case Create(t, _) => Some(t)
    case Claim(w, _) => Some(s.workers[w].t)
    case Renew(w, _) => Some(s.workers[w].t)
    case Commit(w) => Some(s.workers[w].t)
    case Recover(t, _) => Some(t)
    case Cancel(t) => Some(t)
    case _ => None
  }

  /** Row and history of the task are the same in both states. */
  predicate SameTask(s: State, n: State, t: TaskId) {
    && (t in s.rows <==> t in n.rows) && (t in s.rows ==> n.rows[t] == s.rows[t])
    && (t in s.tally <==> t in n.tally) && (t in s.tally ==> n.tally[t] == s.tally[t])
  }

  lemma ClaimLeavesOthers(duration: nat, s: State, w: WorkerId, now: Time, t: TaskId)
    requires Enabled(s, Claim(w, now)) && s.workers[w].t != t
    ensures SameTask(s, Apply(duration, s, Claim(w, now)), t)
  {
  }

  lemma CommitLeavesOthers(duration: nat, s: State, w: WorkerId, t: TaskId)
    requires Enabled(s, Commit(w)) && s.workers[w].t != t
    ensures SameTask(s, Apply(duration, s, Commit(w)), t)
  {
  }

  lemma QuietEventLeavesTasks(duration: nat, s: State, e: Event, t: TaskId)
    requires Enabled(s, e) && Target(s, e) == None
    ensures SameTask(s, Apply(duration, s, e), t)
  {
  }

  lemma OtherTasksStay(duration: nat, s: State, e: Event, t: TaskId)
    requires Enabled(s, e) && Target(s, e) != Some(t)
    ensures SameTask(s, Apply(duration, s, e), t)
  {
    match e
    case Create(_, _) =>
    case Claim(w, now) => ClaimLeavesOthers(duration, s, w, now, t);
    case Renew(_, _) =>
    case Commit(w) => CommitLeavesOthers(duration, s, w, t);
    case Recover(_, _) =>
    case Cancel(_) =>
    case _ => QuietEventLeavesTasks(duration, s, e, t);
  }

  predicate ActsFor(e: Event, w: WorkerId) {
    match e
    case Boot(v) => v == w
    case Pop(v) => v == w
    case Claim(v, _) => v == w
    case Renew(v, _) => v == w
    case Finish(v, _) => v == w
    case Commit(v) => v == w
    case Republish(v, _) => v == w
    case Report(v) => v == w
    case Crash(v) => v == w
    case _ => false
  }

  /** The worker stands where it stood. */
  predicate SameWorker(s: State, n: State, w: WorkerId) {
    (w in s.workers <==> w in n.workers) && (w in s.workers ==> n.workers[w] == s.workers[w])
  }

  lemma ClaimLeavesWorkers(duration: nat, s: State, v: WorkerId, now: Time, w: WorkerId)
    requires Enabled(s, Claim(v, now)) && v != w
    ensures SameWorker(s, Apply(duration, s, Claim(v, now)), w)
  {
  }

  lemma CrashLeavesWorkers(duration: nat, s: State, v: WorkerId, w: WorkerId)
    requires Enabled(s, Crash(v)) && v != w
    ensures SameWorker(s, Apply(duration, s, Crash(v)), w)
  {
  }

  /** The events of submitters, recoverers, users and the clock. */
  predicate Outside(e: Event) {
    e.Create? || e.Push? || e.PushFails? || e.Recover? || e.CheckCancel? || e.Cancel? || e.Tick?
  }

  lemma OutsideLeavesWorkers(duration: nat, s: State, e: Event, w: WorkerId)
    requires Enabled(s, e) && Outside(e)
    ensures SameWorker(s, Apply(duration, s, e), w)
  {
  }

  lemma OtherWorkersStay(duration: nat, s: State, e: Event, w: WorkerId)
    requires Enabled(s, e) && !ActsFor(e, w)
    ensures SameWorker(s, Apply(duration, s, e), w)
  {
    if Outside(e) {
      OutsideLeavesWorkers(duration, s, e, w);
    } else {
      match e
      case Claim(v, now) => ClaimLeavesWorkers(duration, s, v, now, w);
      case Crash(v) => CrashLeavesWorkers(duration, s, v, w);
      case _ =>
    }
  }

  lemma ClockGrows(duration: nat, s: State, e: Event)
    requires Enabled(s, e)
    ensures Apply(duration, s, e).clock == s.clock + (if e.Tick? then e.d else 0)
  {
  }

  // Runs.

  /** The event behind a step of a run. */
  lemma StepOf(duration: nat, b: seq<State>, i: nat) returns (e: Event)
    requires IsRun(duration, b) && i + 1 < |b|
    ensures Enabled(b[i], e) && b[i + 1] == Apply(duration, b[i], e)
    ensures Clean(b[i], e) <==> !b[i + 1].overrun
  {
    assert StepAt(duration, b, i + 1);
    e :| Enabled(b[i], e) && b[i + 1] == Apply(duration, b[i], e);
    CleanIffNotOverrun(duration, b[i], e);
  }

  /** A late write is never forgotten. */
  lemma OverrunStays(duration: nat, b: seq<State>, i: nat)
    requires IsRun(duration, b) && i + 1 < |b| && b[i].overrun
    ensures b[i + 1].overrun
  {
    var e := StepOf(duration, b, i);
  }

  lemma {:induction false} OverrunStaysInRun(duration: nat, b: seq<State>, i: nat, j: nat)
    requires IsRun(duration, b) && i <= j < |b| && b[i].overrun
    ensures b[j].overrun
    decreases j - i
  {
    if i < j {
      OverrunStays(duration, b, i);
      OverrunStaysInRun(duration, b, i + 1, j);
    }
  }
}
