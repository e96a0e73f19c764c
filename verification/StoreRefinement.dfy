/** The services of the task store, as sequences of events of the lease protocol. */
module StoreRefinement {
  import opened Options
  import opened Sequences
  import opened Tasks
  import opened TaskRows
  import opened TaskStore
  import opened LeaseProtocol
  import opened LeaseRuns

  /** What a state of the protocol shows of the database and the Redis list. */
  function Shows(s: State): Table {
    Table(s.rows, s.queue)
  }

  // A worker processes a message.

  /** The handler of a worker that owns the row ends, and the worker writes what it made of that. */
  lemma EndIsEvents(duration: nat, s: State, w: WorkerId, o: Outcome) returns (z: State)
    requires !s.overrun && w in s.workers && s.workers[w].Executing? && OwnsTask(s, w, s.workers[w].t)
    ensures Leads(duration, None, s, z)
    ensures var t := s.workers[w].t;
      var a := EndRow(s.rows[t], EndingOf(s.rows[t], o));
      && z.rows == s.rows[t := a] && z.queue == s.queue && z.outbox == s.outbox && !z.overrun
      && z.workers == s.workers[w := if a.status == Queued then Republishing(t) else Reporting(t)]
  {
    var y := Apply(duration, s, Finish(w, o));
    Step(duration, None, s, Finish(w, o));
    z := Apply(duration, y, Commit(w));
    Step(duration, None, y, Commit(w));
    LeadsOn(duration, None, s, y, z);
  }

  /** The worker claims, its handler ends, and it writes what it made of that. */
  lemma AttemptIsEvents(duration: nat, s: State, w: WorkerId, o: Outcome, now: Time) returns (z: State)
    requires !s.overrun && w in s.workers && s.workers[w].Holding? && now <= s.clock
    requires s.workers[w].t in s.rows && Claimable(s.rows[s.workers[w].t])
    ensures Leads(duration, None, s, z)
    ensures var t := s.workers[w].t;
      var a := Attempted(s.rows[t], w, o, now, duration);
      && z.rows == s.rows[t := a] && z.queue == s.queue && z.outbox == s.outbox && !z.overrun
      && z.workers == s.workers[w := if a.status == Queued then Republishing(t) else Reporting(t)]
  {
    var t := s.workers[w].t;
    var y := Apply(duration, s, Claim(w, now));
    Step(duration, None, s, Claim(w, now));
    assert y.rows[t] == ClaimRow(s.rows[t], w, now, duration);
    z := EndIsEvents(duration, y, w, o);
    LeadsOn(duration, None, s, y, z);
  }

  lemma RepublishIsEvent(duration: nat, s: State, w: WorkerId, t: TaskId, reachable: set<TaskId>) returns (z: State)
    requires !s.overrun && w in s.workers && s.workers[w] == Republishing(t)
    ensures Leads(duration, None, s, z) && Shows(z) == Table(s.rows, s.queue + Delivered([t], reachable))
    ensures z.outbox == s.outbox && w in z.workers && z.workers[w] == Reporting(t)
  {
    var e := Republish(w, t in reachable);
    z := Apply(duration, s, e);
    Step(duration, None, s, e);
    assert [t][..0] == [];
  }

  /** The result of a worker that no longer owns the row is dropped: the table stays, and the worker gets free. */
  lemma StaleEndIsEvents(duration: nat, s: State, w: WorkerId, o: Outcome) returns (z: State)
    requires !s.overrun && w in s.workers && s.workers[w].Executing? && !OwnsTask(s, w, s.workers[w].t)
    ensures Leads(duration, None, s, z)
    ensures z == s.(workers := s.workers[w := Idle])
  {
    var y := Apply(duration, s, Finish(w, o));
    Step(duration, None, s, Finish(w, o));
    z := Apply(duration, y, Report(w));
    Step(duration, None, y, Report(w));
    LeadsOn(duration, None, s, y, z);
    assert y.workers[w := Idle] == s.workers[w := Idle];
  }

  /**
   * ProcessTask is the worker's part of the protocol: for a worker that popped an id, the events Claim, Finish,
   * Commit and Republish lead to exactly the rows and the queue that the service leaves behind.
   */
  lemma ProcessTaskIsEvents(duration: nat, s: State, w: WorkerId, o: Outcome, now: Time, reachable: set<TaskId>)
    returns (z: State)
    requires !s.overrun && w in s.workers && s.workers[w].Holding? && now <= s.clock
    ensures Leads(duration, None, s, z)
    ensures Shows(z) == Processed(Shows(s), w, s.workers[w].t, o, now, duration, reachable)
    ensures z.outbox == s.outbox && w in z.workers
    ensures var t := s.workers[w].t;
      z.workers[w] == if t in s.rows && Claimable(s.rows[t]) then Reporting(t) else Idle
  {
    var t := s.workers[w].t;
    if t in s.rows && Claimable(s.rows[t]) {
      var y := AttemptIsEvents(duration, s, w, o, now);
      if y.workers[w].Republishing? {
        z := RepublishIsEvent(duration, y, w, t, reachable);
        LeadsOn(duration, None, s, y, z);
      } else {
        z := y;
      }
    } else {
      z := Apply(duration, s, Claim(w, now));
      Step(duration, None, s, Claim(w, now));
    }
  }

  // Recovery.

  /** Nothing changed but rows, histories, the queue, and the record of lost messages. */
  ghost predicate SameElsewhere(s: State, z: State) {
    && z.outbox == s.outbox && z.workers == s.workers && z.clock == s.clock && z.cancelling == s.cancelling
    && !z.overrun
  }

  lemma RecoverOneIsEvents(duration: nat, s: State, t: TaskId, now: Time, reachable: set<TaskId>) returns (z: State)
    requires !s.overrun && now <= s.clock && t in s.rows && Expired(s.rows[t], now)
    ensures Leads(duration, None, s, z) && SameElsewhere(s, z)
    ensures z.rows == s.rows[t := RecoverRow(s.rows[t])]
    ensures z.queue == s.queue + (if AttemptsLeft(s.rows[t]) then Delivered([t], reachable) else [])
  {
    var y := Apply(duration, s, Recover(t, now));
    Step(duration, None, s, Recover(t, now));
    z := y;
    if AttemptsLeft(s.rows[t]) {
      var e := if t in reachable then Push(t) else PushFails(t);
      assert t in y.outbox && y.outbox - multiset{t} == s.outbox;
      z := Apply(duration, y, e);
      Step(duration, None, y, e);
      LeadsOn(duration, None, s, y, z);
    }
  }

  lemma RecoveredTwice(x: map<TaskId, Row>, y: map<TaskId, Row>, z: map<TaskId, Row>, a: set<TaskId>, b: set<TaskId>)
    requires Recovered(x, y, a) && Recovered(y, z, b) && a !! b
    ensures Recovered(x, z, a + b)
  {
  }

  lemma {:induction false} RequeueIsEvents(duration: nat, s: State, now: Time, ts: seq<TaskId>, reachable: set<TaskId>)
    returns (z: State)
    requires !s.overrun && now <= s.clock && Distinct(ts)
    requires forall t :: t in ts ==> t in s.rows && Expired(s.rows[t], now) && AttemptsLeft(s.rows[t])
    ensures Leads(duration, None, s, z) && SameElsewhere(s, z)
    ensures Recovered(s.rows, z.rows, SetOf(ts)) && z.queue == s.queue + Delivered(ts, reachable)
  {
    if ts == [] {
      z := s;
      Stay(duration, None, s);
    } else {
      var last, rest := ts[|ts| - 1], ts[..|ts| - 1];
      assert ts == rest + [last];
      SetOfSnoc(rest, last);
      DeliveredOneMore(rest, last, reachable);
      var y := RequeueIsEvents(duration, s, now, rest, reachable);
      assert y.rows[last] == s.rows[last];
      z := RecoverOneIsEvents(duration, y, last, now, reachable);
      LeadsOn(duration, None, s, y, z);
      RecoveredTwice(s.rows, y.rows, z.rows, SetOf(rest), {last});
    }
  }

  lemma {:induction false} ExpiryIsEvents(duration: nat, s: State, now: Time, ts: set<TaskId>) returns (z: State)
    requires !s.overrun && now <= s.clock
    requires forall t :: t in ts ==> t in s.rows && Expired(s.rows[t], now) && !AttemptsLeft(s.rows[t])
    ensures Leads(duration, None, s, z) && SameElsewhere(s, z)
    ensures Recovered(s.rows, z.rows, ts) && z.queue == s.queue
  {
    if ts == {} {
      z := s;
      Stay(duration, None, s);
    } else {
      var t :| t in ts;
      var y := ExpiryIsEvents(duration, s, now, ts - {t});
      assert y.rows[t] == s.rows[t];
      z := RecoverOneIsEvents(duration, y, t, now, {});
      LeadsOn(duration, None, s, y, z);
      RecoveredTwice(s.rows, y.rows, z.rows, ts - {t}, {t});
      assert ts - {t} + {t} == ts;
    }
  }

  /**
   * RecoverStaleTasks is the recoverer's part of the protocol: whatever rows and list the service returns, a
   * sequence of Recover, Push and PushFails events leads to exactly these rows and to its queue.
   */
  lemma RecoverStaleTasksIsEvents(duration: nat, s: State, now: Time, reachable: set<TaskId>,
                                  rows: map<TaskId, Row>, requeued: seq<TaskId>)
    returns (z: State)
    requires !s.overrun && now <= s.clock
    requires Recovered(s.rows, rows, StaleTasks(s.rows, now)) && Requeued(s.rows, StaleTasks(s.rows, now), requeued)
    ensures Leads(duration, None, s, z) && SameElsewhere(s, z)
    ensures Shows(z) == Table(rows, s.queue + Delivered(requeued, reachable))
  {
    var stale := StaleTasks(s.rows, now);
    var y := RequeueIsEvents(duration, s, now, requeued, reachable);
    var rest := stale - SetOf(requeued);
    forall t | t in rest ensures t in y.rows && y.rows[t] == s.rows[t] && !AttemptsLeft(s.rows[t]) {
      assert t !in requeued;
    }
    z := ExpiryIsEvents(duration, y, now, rest);
    LeadsOn(duration, None, s, y, z);
    RecoveredTwice(s.rows, y.rows, z.rows, SetOf(requeued), rest);
    assert SetOf(requeued) + rest == stale;
    assert z.rows.Keys == rows.Keys;
  }

  // The other services.

  /** Consume, by a worker that waits for a message and gets one, is Pop. */
  lemma ConsumeIsEvent(duration: nat, s: State, w: WorkerId)
    requires w in s.workers && s.workers[w].Idle? && s.queue != []
    ensures var z := Apply(duration, s, Pop(w));
      Shows(z) == Popped(Shows(s)) && z.workers == s.workers[w := Holding(s.queue[0])]
  {
  }

  /** RenewTaskLease, for the task that the worker is busy with, is Renew. */
  lemma RenewTaskLeaseIsEvent(duration: nat, s: State, w: WorkerId, now: Time)
    requires w in s.workers && Busy(s.workers[w]) && now <= s.clock
    ensures Shows(Apply(duration, s, Renew(w, now))) == Renewed(Shows(s), w, s.workers[w].t, now, duration)
  {
  }

  /** CancelTask without an interruption is CheckCancel and Cancel, and nothing for a task it refuses. */
  lemma CancelTaskIsEvents(duration: nat, s: State, t: TaskId) returns (z: State)
    requires !s.overrun
    ensures Leads(duration, None, s, z) && SameElsewhere(s, z) && Shows(z) == Withdrawn(Shows(s), t)
  {
    if t in s.rows && Cancellable(s.rows[t]) {
      var y := Apply(duration, s, CheckCancel(t));
      Step(duration, None, s, CheckCancel(t));
      z := Apply(duration, y, Cancel(t));
      Step(duration, None, y, Cancel(t));
      LeadsOn(duration, None, s, y, z);
      assert y.cancelling - multiset{t} == s.cancelling;
    } else {
      z := s;
      Stay(duration, None, s);
    }
  }
}
