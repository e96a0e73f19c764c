/** Messages: when a queued task reaches a worker, and when it never does. */
module LeaseDelivery {
  import opened Options
  import opened Tasks
  import opened TaskRows
  import opened LeaseInvariant
  import opened LeaseProtocol
  import opened LeaseRuns
  import opened LeaseTheorems

  predicate Waiting(s: State, t: TaskId) {
    t in s.rows && s.rows[t].status == Queued
  }

  /** Unless a push failed or a process died with the id in hand, a queued task is on its way to a worker. */
  lemma QueuedTaskIsLocated(duration: nat, b: seq<State>, i: nat, t: TaskId)
    requires IsRun(duration, b) && i < |b| && !b[i].overrun && Waiting(b[i], t) && t !in b[i].lost
    ensures Located(b[i], t)
  {
    RunsKeepInv(duration, b, i);
    assert NotLost(b[i], t);
  }

  // A message that is somewhere can be delivered.

  /** The task went from waiting to its next attempt; nobody asked for more cancellations, or fewer. */
  ghost predicate AttemptStarted(s: State, z: State, t: TaskId) {
    && t in s.rows && t in z.rows && z.rows[t].status == Running && z.rows[t].attempts == s.rows[t].attempts + 1
    && z.cancelling == s.cancelling
  }

  lemma {:induction false} LongestName(ws: set<WorkerId>) returns (n: nat)
    ensures forall w :: w in ws ==> |w| <= n
  {
    if ws == {} {
      n := 0;
    } else {
      var w :| w in ws;
      var m := LongestName(ws - {w});
      n := if |w| > m then |w| else m;
      assert forall v :: v in ws ==> v == w || v in ws - {w};
    }
  }

  lemma FreshName(ws: set<WorkerId>) returns (w: WorkerId)
    ensures w !in ws
  {
    var n := LongestName(ws);
    w := seq(n + 1, _ => 'w');
  }

  lemma ClaimFromHand(duration: nat, s: State, t: TaskId, w: WorkerId) returns (z: State)
    requires !s.overrun && Waiting(s, t) && w in s.workers && s.workers[w] == Holding(t)
    ensures Leads(duration, None, s, z) && AttemptStarted(s, z, t)
  {
    var e := Claim(w, s.clock);
    z := Apply(duration, s, e);
    Step(duration, None, s, e);
  }

  /** A worker that just booted takes the head of the queue. */
  lemma BootAndPop(duration: nat, s: State) returns (w: WorkerId, z: State)
    requires !s.overrun && s.queue != []
    ensures Leads(duration, None, s, z) && !z.overrun
    ensures w in z.workers && z.workers[w] == Holding(s.queue[0])
    ensures z.queue == s.queue[1..] && z.rows == s.rows && z.cancelling == s.cancelling
  {
    w := FreshName(s.workers.Keys);
    var y := Apply(duration, s, Boot(w));
    Step(duration, None, s, Boot(w));
    z := Apply(duration, y, Pop(w));
    Step(duration, None, y, Pop(w));
    LeadsOn(duration, None, s, y, z);
  }

  lemma {:induction false} ClaimFromQueue(duration: nat, s: State, t: TaskId) returns (z: State)
    requires !s.overrun && Waiting(s, t) && t in s.queue
    ensures Leads(duration, None, s, z) && AttemptStarted(s, z, t)
    decreases |s.queue|
  {
    var w, y := BootAndPop(duration, s);
    if s.queue[0] == t {
      z := ClaimFromHand(duration, y, t, w);
    } else {
      z := ClaimFromQueue(duration, y, t);
    }
    LeadsOn(duration, None, s, y, z);
  }

  lemma PushReaches(duration: nat, s: State, e: Event, t: TaskId) returns (z: State)
    requires !s.overrun && Waiting(s, t) && Enabled(s, e)
    requires e == Push(t) || (e.Republish? && e.ok && s.workers[e.w].t == t)
    ensures Leads(duration, None, s, z) && AttemptStarted(s, z, t)
  {
    var y := Apply(duration, s, e);
    Step(duration, None, s, e);
    assert y.queue == s.queue + [t];
    z := ClaimFromQueue(duration, y, t);
    LeadsOn(duration, None, s, y, z);
  }

  /** Wherever the id is, the events that bring it to a worker and have it claimed are possible. */
  lemma LocatedCanBeAttempted(duration: nat, s: State, t: TaskId) returns (z: State)
    requires !s.overrun && Waiting(s, t) && Located(s, t)
    ensures Leads(duration, None, s, z) && AttemptStarted(s, z, t)
  {
    if t in s.queue {
      z := ClaimFromQueue(duration, s, t);
    } else if t in s.outbox {
      z := PushReaches(duration, s, Push(t), t);
    } else {
      var w :| w in s.workers && InHand(s.workers[w]) == Some(t);
      if s.workers[w].Holding? {
        z := ClaimFromHand(duration, s, t, w);
      } else {
        z := PushReaches(duration, s, Republish(w, true), t);
      }
    }
  }

  // A message that is nowhere stays nowhere.

  /** Queued with its message gone, or cancelled in that condition. */
  ghost predicate Stranded(s: State, t: TaskId, attempts: nat) {
    && t in s.rows && s.rows[t].attempts == attempts
    && (s.rows[t].status == Cancelled || (s.rows[t].status == Queued && !Located(s, t)))
  }

  lemma NobodyPicksItUp(duration: nat, s: State, e: Event, t: TaskId, w: WorkerId)
    requires Enabled(s, e) && Clean(s, e) && Waiting(s, t) && !Located(s, t)
    requires w in Apply(duration, s, e).workers
    ensures InHand(Apply(duration, s, e).workers[w]) != Some(t)
  {
    assert w in s.workers ==> InHand(s.workers[w]) != Some(t);
    if !ActsFor(e, w) {
      OtherWorkersStay(duration, s, e, w);
    } else {
      match e
      case Pop(_) => assert s.queue[0] in s.queue;
      case Commit(_) => assert s.workers[w].t != t;
      case _ =>
    }
  }

  lemma NobodyQueuesIt(duration: nat, s: State, e: Event, t: TaskId)
    requires Enabled(s, e) && Waiting(s, t) && !Located(s, t)
    ensures t !in Apply(duration, s, e).queue
  {
    match e
    case Republish(v, _) => assert InHand(s.workers[v]) == Some(s.workers[v].t);
    case Pop(_) => assert t !in s.queue[1..];
    case _ =>
  }

  lemma NobodyOwesIt(duration: nat, s: State, e: Event, t: TaskId)
    requires Enabled(s, e) && Waiting(s, t) && !Located(s, t)
    ensures t !in Apply(duration, s, e).outbox
  {
  }

  lemma NobodyClaimsIt(duration: nat, s: State, e: Event, t: TaskId)
    requires Enabled(s, e) && Clean(s, e) && Waiting(s, t) && !Located(s, t)
    ensures var n := Apply(duration, s, e);
      && t in n.rows && n.rows[t].attempts == s.rows[t].attempts
      && (n.rows[t].status == Queued || n.rows[t].status == Cancelled)
  {
    if Target(s, e) != Some(t) {
      OtherTasksStay(duration, s, e, t);
    }
  }

  lemma StrandedStays(duration: nat, s: State, e: Event, t: TaskId, attempts: nat)
    requires Enabled(s, e) && Clean(s, e) && Stranded(s, t, attempts)
    ensures Stranded(Apply(duration, s, e), t, attempts)
  {
    if s.rows[t].status == Queued {
      NobodyQueuesIt(duration, s, e, t);
      NobodyOwesIt(duration, s, e, t);
      NobodyClaimsIt(duration, s, e, t);
      forall w | w in Apply(duration, s, e).workers ensures InHand(Apply(duration, s, e).workers[w]) != Some(t) {
        NobodyPicksItUp(duration, s, e, t, w);
      }
    } else {
      FinalRowStays(duration, s, e, t);
    }
  }

  lemma StrandedAt(duration: nat, c: seq<State>, i: nat, t: TaskId, attempts: nat)
    requires Continues(duration, None, c) && 0 < i < |c| && Stranded(c[i - 1], t, attempts)
    ensures Stranded(c[i], t, attempts)
  {
    var e := EventAt(duration, None, c, i);
    StrandedStays(duration, c[i - 1], e, t, attempts);
  }

  lemma StrandedForever(duration: nat, s: State, t: TaskId, attempts: nat, z: State)
    requires Leads(duration, None, s, z) && Inv(duration, s) && !s.overrun && Stranded(s, t, attempts)
    ensures Inv(duration, z) && !z.overrun && Stranded(z, t, attempts)
  {
    var c :| Continues(duration, None, c) && c[0] == s && c[|c| - 1] == z;
    forall k | 0 < k < |c| && Stranded(c[k - 1], t, attempts) ensures Stranded(c[k], t, attempts) {
      StrandedAt(duration, c, k, t, attempts);
    }
    Along(duration, None, c, |c| - 1, x => Stranded(x, t, attempts));
  }

  /**
   * A queued task can get another attempt exactly if its id is in the queue, in an outbox or in a hand.
   * Nothing publishes it a second time: once the message is gone the task can only be cancelled.
   */
  lemma AttemptedAgainIffLocated(duration: nat, b: seq<State>, i: nat, t: TaskId)
    requires IsRun(duration, b) && i < |b| && !b[i].overrun && Waiting(b[i], t)
    ensures (exists z :: Leads(duration, None, b[i], z) && t in z.rows && z.rows[t].attempts > b[i].rows[t].attempts)
      <==> Located(b[i], t)
    ensures !Located(b[i], t) ==> t in b[i].lost
    ensures !Located(b[i], t) ==>
      forall z :: Leads(duration, None, b[i], z) ==> Stranded(z, t, b[i].rows[t].attempts)
  {
    var s := b[i];
    if Located(s, t) {
      var z := LocatedCanBeAttempted(duration, s, t);
    } else {
      RunsKeepInv(duration, b, i);
      assert NotLost(s, t);
      forall z | Leads(duration, None, s, z) ensures Stranded(z, t, s.rows[t].attempts) {
        StrandedForever(duration, s, t, s.rows[t].attempts, z);
      }
    }
  }

  /**
   * Recovery gives a task another attempt exactly if it had at most `maxRetries` attempts so far: then it is queued,
   * with its id about to be pushed, and some continuation has it claimed once more. Otherwise it failed for good.
   */
  lemma RecoveredTaskRunsAgainIffAttemptsLeft(duration: nat, b: seq<State>, i: nat, t: TaskId, now: Time)
    requires IsRun(duration, b) && i < |b| && !b[i].overrun && Enabled(b[i], Recover(t, now))
    ensures var r, n := b[i].rows[t], Apply(duration, b[i], Recover(t, now));
      && n.rows[t].status == (if r.attempts <= r.maxRetries then Queued else Failed)
      && (r.attempts <= r.maxRetries ==> t in n.outbox)
      && ((exists z :: Leads(duration, None, n, z) && t in z.rows && z.rows[t].attempts > r.attempts)
            <==> r.attempts <= r.maxRetries)
  {
    var r, n := b[i].rows[t], Apply(duration, b[i], Recover(t, now));
    RunsKeepInv(duration, b, i);
    StepKeepsInv(duration, b[i], Recover(t, now));
    if r.attempts <= r.maxRetries {
      var z := LocatedCanBeAttempted(duration, n, t);
    } else {
      forall z | Leads(duration, None, n, z) && t in z.rows ensures z.rows[t].attempts == r.attempts {
        FailedForever(duration, n, t, z);
      }
    }
  }

  lemma FailedForever(duration: nat, s: State, t: TaskId, z: State)
    requires Leads(duration, None, s, z) && Inv(duration, s) && !s.overrun && t in s.rows && Absorbing(s.rows[t].status)
    ensures SameRow(s, z, t)
  {
    var c :| Continues(duration, None, c) && c[0] == s && c[|c| - 1] == z;
    forall k | 0 < k < |c| && SameRow(s, c[k - 1], t) ensures SameRow(s, c[k], t) {
      FinalRowStaysAt(duration, c, k, t);
    }
    Along(duration, None, c, |c| - 1, x => SameRow(s, x, t));
  }

  // Workers get free.

  /** How many events a worker has before it at most, until it waits for a message again. */
  function EventsLeft(ws: WorkerState): nat {
    match ws
    case Idle => 0
    case Reporting(_) => 1
    case Republishing(_) => 2
    case Committing(_, _, _, _) => 3
    case Executing(_, _) => 4
    case Holding(_) => 5
  }

  /** The next event of the worker's main loop, other than taking a message. */
  predicate NextOf(s: State, w: WorkerId, e: Event) {
    Enabled(s, e) && ActsFor(e, w) && !e.Boot? && !e.Pop? && !e.Renew? && !e.Crash?
  }

  function SomeNext(s: State, w: WorkerId): Event
    requires w in s.workers
  {
    match s.workers[w]
    case Holding(_) => Claim(w, s.clock)
    case Executing(_, _) => Finish(w, Succeeded)
    case Committing(_, _, _, _) => Commit(w)
    case Republishing(_) => Republish(w, true)
    case _ => Report(w)
  }

  lemma NextLowersEvents(duration: nat, s: State, w: WorkerId, e: Event)
    requires NextOf(s, w, e)
    ensures w in s.workers && w in Apply(duration, s, e).workers
    ensures EventsLeft(Apply(duration, s, e).workers[w]) < EventsLeft(s.workers[w])
  {
    match e
    case Claim(_, _) =>
    case Finish(_, _) =>
    case Commit(_) =>
    case Republish(_, _) =>
    case Report(_) =>
  }

  /**
   * A live worker that is not waiting for a message can always go on, whatever others did to its task, and each event
   * of its main loop brings it closer to waiting again.
   */
  lemma WorkerGetsFree(duration: nat, b: seq<State>, i: nat, w: WorkerId)
    requires IsRun(duration, b) && i < |b| && !b[i].overrun && w in b[i].workers && !b[i].workers[w].Idle?
    ensures exists e :: NextOf(b[i], w, e)
    ensures forall e :: NextOf(b[i], w, e) ==>
      var n := Apply(duration, b[i], e); w in n.workers && EventsLeft(n.workers[w]) < EventsLeft(b[i].workers[w])
  {
    RunsKeepInv(duration, b, i);
    assert WorkerOk(b[i], w);
    assert NextOf(b[i], w, SomeNext(b[i], w));
    forall e | NextOf(b[i], w, e)
      ensures var n := Apply(duration, b[i], e);
        w in n.workers && EventsLeft(n.workers[w]) < EventsLeft(b[i].workers[w])
    {
      NextLowersEvents(duration, b[i], w, e);
    }
  }

  // Witnesses.

  /** A run may go on with any enabled event. */
  lemma Extend(duration: nat, b: seq<State>, s: State, e: Event) returns (d: seq<State>)
    requires IsRun(duration, b) && b[|b| - 1] == s && Enabled(s, e)
    ensures IsRun(duration, d) && d[|d| - 1] == Apply(duration, s, e)
  {
    d := b + [Apply(duration, s, e)];
    forall i | 0 <= i < |d| ensures StepAt(duration, d, i) {
      if i < |b| {
        assert StepAt(duration, b, i);
      }
    }
  }

  /** Before anything happened. */
  function Fresh(): State {
    State(map[], map[], [], multiset{}, map[], 0, {}, multiset{}, false)
  }

  /** Task 0 was submitted, with one retry. */
  function Submitted(): State {
    Fresh().(rows := map[0 := NewRow(1)], tally := map[0 := Tally([], 0, 0, 0, 0, 0, 0)], outbox := multiset{0})
  }

  lemma Submit(duration: nat) returns (b: seq<State>)
    ensures IsRun(duration, b) && b[|b| - 1] == Submitted()
  {
    assert StepAt(duration, [Fresh()], 0);
    b := Extend(duration, [Fresh()], Fresh(), Create(0, 1));
  }

  /** The push of a submitted task fails: it is queued, and its message is nowhere. */
  lemma MessageCanBeLost(duration: nat) returns (b: seq<State>)
    ensures IsRun(duration, b)
    ensures var s := b[|b| - 1]; !s.overrun && Waiting(s, 0) && !Located(s, 0)
  {
    b := Submit(duration);
    b := Extend(duration, b, Submitted(), PushFails(0));
  }
}
