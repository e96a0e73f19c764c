/** What the death of calls leaves behind: over whole continuations, when a run can stall and when it cannot. */
module WorkflowDeaths {
  import opened Graph
  import opened Options
  import opened Sequences
  import opened Tasks
  import opened Workflow
  import opened WorkflowProtocol
  import opened WorkflowProgress
  import opened WorkflowCalls

  // Continuations in which no call dies any more.

  ghost predicate AliveAt(c: Config, d: seq<State>, i: nat)
    requires 0 < i < |d|
  {
    AliveStep(c, d[i - 1], d[i])
  }

  ghost predicate Continues(c: Config, d: seq<State>) {
    |d| > 0 && forall i {:trigger AliveAt(c, d, i)} :: 0 < i < |d| ==> AliveAt(c, d, i)
  }

  ghost predicate Leads(c: Config, s: State, z: State) {
    exists d :: Continues(c, d) && d[0] == s && d[|d| - 1] == z
  }

  lemma Stay(c: Config, s: State)
    ensures Leads(c, s, s)
  {
    assert Continues(c, [s]);
  }

  lemma LeadsOn(c: Config, s: State, t: State, z: State)
    requires AliveStep(c, s, t) && Leads(c, t, z)
    ensures Leads(c, s, z)
  {
    var d :| Continues(c, d) && d[0] == t && d[|d| - 1] == z;
    var e := [s] + d;
    forall i | 0 < i < |e| ensures AliveAt(c, e, i) {
      if i > 1 {
        assert AliveAt(c, d, i - 1);
        assert e[i - 1] == d[i - 2] && e[i] == d[i - 1];
      }
    }
    assert e[0] == s && e[|e| - 1] == z;
  }

  lemma {:induction false} LeadsTrans(c: Config, d: seq<State>, z: State)
    requires Continues(c, d) && Leads(c, d[|d| - 1], z)
    ensures Leads(c, d[0], z)
  {
    if |d| > 1 {
      var last := |d| - 1;
      var e := d[..last];
      assert AliveAt(c, d, last);
      LeadsOn(c, d[last - 1], d[last], z);
      forall i | 0 < i < |e| ensures AliveAt(c, e, i) {
        assert AliveAt(c, d, i);
      }
      LeadsTrans(c, e, z);
    }
  }

  lemma Join(c: Config, s: State, t: State, z: State)
    requires Leads(c, s, t) && Leads(c, t, z)
    ensures Leads(c, s, z)
  {
    var d :| Continues(c, d) && d[0] == s && d[|d| - 1] == t;
    LeadsTrans(c, d, z);
  }

  lemma {:induction false} SafeAlong(c: Config, d: seq<State>, k: nat)
    requires Continues(c, d) && k < |d| && Safe(c, d[0])
    ensures Safe(c, d[k]) && Later(c.g, d[0].rows, d[k].rows)
    ensures Attended(c, d[0]) ==> Attended(c, d[k])
  {
    if k > 0 {
      SafeAlong(c, d, k - 1);
      assert AliveAt(c, d, k);
      StepIsSafe(c, d[k - 1], d[k]);
      LaterTrans(c.g, d[0].rows, d[k - 1].rows, d[k].rows);
      if Attended(c, d[0]) {
        AliveStepIsAttended(c, d[k - 1], d[k]);
      }
    }
  }

  lemma SafeAfter(c: Config, s: State, z: State)
    requires Leads(c, s, z) && Safe(c, s)
    ensures Safe(c, z) && Later(c.g, s.rows, z.rows)
    ensures Attended(c, s) ==> Attended(c, z)
  {
    var d :| Continues(c, d) && d[0] == s && d[|d| - 1] == z;
    SafeAlong(c, d, |d| - 1);
  }

  /** However the calls go on: whenever none is in flight, the run is over or waits for a report. */
  ghost predicate GetsThrough(c: Config, s: State) {
    forall z :: Leads(c, s, z) && z.procs == map[] ==>
      Over(z.rows.run) || SomeUnreported(c, z.rows, z.reported)
  }

  lemma AttendedGetsThrough(c: Config, rank: map<Node, nat>, s: State)
    requires Ranked(c.g, rank) && Safe(c, s) && Attended(c, s)
    ensures GetsThrough(c, s)
  {
    forall z | Leads(c, s, z) && z.procs == map[] ensures Over(z.rows.run) || SomeUnreported(c, z.rows, z.reported) {
      SafeAfter(c, s, z);
      QuietMeansWaiting(c, rank, z);
    }
  }

  // A call that is left alone runs to its end.

  /** The node that the call is going to mark. */
  function CarriedBy(p: Proc): Option<Node> {
    if p.Entered? || p.Marking? then Some(p.n) else None
  }

  /** No running node but `n0` is marked, no root is taken, and the tasks are as they were, apart from new ones. */
  ghost predicate Calm(c: Config, r: Rows, t: Rows, n0: Option<Node>) {
    && (forall n {:trigger At(t, n)} ::
          n in c.g.nodes && At(r, n).NodeRunning? && Some(n) != n0 ==> At(t, n).NodeRunning?)
    && (forall n {:trigger IsRoot(c.g, n)} :: IsRoot(c.g, n) && At(r, n).NodePending? ==> At(t, n).NodePending?)
    && (forall n {:trigger n in t.task} :: n in r.task ==> n in t.task && t.task[n] == r.task[n])
    && (forall n {:trigger n in t.task} :: n in t.task && n !in r.task ==> t.task[n] == Queued)
  }

  lemma CalmOn(c: Config, r: Rows, t: Rows, u: Rows, n0: Option<Node>, n1: Option<Node>)
    requires Calm(c, r, t, n0) && Calm(c, t, u, n1) && (n1 == None || n1 == n0)
    ensures Calm(c, r, u, n0)
  {
    forall n | n in c.g.nodes && At(r, n).NodeRunning? && Some(n) != n0 ensures At(u, n).NodeRunning? {
      assert At(t, n).NodeRunning?;
    }
    forall n ensures n in r.task ==> n in u.task && u.task[n] == r.task[n]
      ensures n in u.task && n !in r.task ==> u.task[n] == Queued
    {
      assert n in r.task ==> n in t.task;
    }
  }

  lemma StepIsCalm(c: Config, r: Rows, p: Proc, r': Rows, p': Option<Proc>)
    requires c.policy == Continue && RowsOk(c.g, c.policy, r) && ProcOk(c, r, p) && ProcStep(c, r, p, r', p')
    requires !p.Starting?
    ensures Calm(c, r, r', CarriedBy(p))
    ensures p'.Some? ==> !p'.value.Starting? && (CarriedBy(p'.value) == None || CarriedBy(p'.value) == CarriedBy(p))
  {
    match p
    case Marking(n, _) => assert NodeOk(c.g, c.policy, r, n);
    case Acting(m, _, _, _, _) => assert NodeOk(c.g, c.policy, r, m);
    case _ =>
  }

  lemma {:induction false} Enumerate(s: set<Node>) returns (q: seq<Node>)
    ensures Distinct(q) && forall n :: n in q <==> n in s
  {
    if s == {} {
      q := [];
    } else {
      var n :| n in s;
      var rest := Enumerate(s - {n});
      SetOfSnoc(rest, n);
      q := rest + [n];
    }
  }

  /** A call can always take a step: nothing it waits for is up to others. */
  lemma CanStep(c: Config, r: Rows, p: Proc) returns (r': Rows, p': Option<Proc>)
    requires ProcOk(c, r, p)
    ensures ProcStep(c, r, p, r', p')
  {
    r' := r;
    match p
    case Starting(roots) =>
      if roots == [] {
        p' := None;
      } else {
        r', p' := TryDispatch(r, roots[0]), Some(Starting(roots[1..]));
      }
    case Entered(n, t) => p' := if Over(r.run) then None else Some(Marking(n, t));
    case Marking(n, t) =>
      r' := Conclude(r, n, t);
      p' := Some(if Verdictful(t).NodeFailed? && c.policy == FailFast then FailingFast(n) else Scanning(r'));
    case FailingFast(_) => r', p' := AbortRun(r), None;
    case Scanning(base) =>
      var todo := Enumerate(PendingOf(c, r));
      p' := Some(Visiting(todo, false, base));
    case Visiting(todo, changed, base) =>
      if todo == [] {
        p' := Some(if changed then Scanning(base) else Checking);
      } else {
        var d := Decide(c.g, r, todo[0]);
        assert MayShow(c.g, base, r, r) && Looks(c, r, p, d);
        p' := Some(if d == Wait then Visiting(todo[1..], changed, base)
                   else Acting(todo[0], d, todo[1..], changed, base));
      }
    case Acting(m, d, todo, changed, base) =>
      r', p' := Act(r, m, d), Some(Visiting(todo, changed || At(r, m).NodePending?, WithOwn(base, m, d)));
    case Checking => p' := if AllSettled(c.g, r) then Some(Finalizing(Verdict(c.g, r))) else None;
    case Finalizing(v) => r', p' := r.(run := v), None;
  }

  /** The only call in flight runs to its end. */
  lemma {:induction false} RunAlone(c: Config, s: State, i: nat) returns (z: State)
    requires c.policy == Continue && Safe(c, s) && s.procs.Keys == {i} && !s.procs[i].Starting?
    ensures Leads(c, s, z) && z.procs == map[] && z.reported == s.reported
    ensures Calm(c, s.rows, z.rows, CarriedBy(s.procs[i]))
    decreases Work(c, s.rows, s.procs[i])
  {
    var p := s.procs[i];
    assert ProcOk(c, s.rows, p);
    var r, p' := CanStep(c, s.rows, p);
    StepIsCalm(c, s.rows, p, r, p');
    OwnStepLowersWork(c, s.rows, p, r, p');
    var t := s.(rows := r, procs := Put(s.procs, i, p'));
    assert CallSteps(c, s, t, i);
    StepIsSafe(c, s, t);
    if p' == None {
      z := t;
      Stay(c, t);
      assert t.procs == map[];
    } else {
      z := RunAlone(c, t, i);
      CalmOn(c, s.rows, r, z.rows, CarriedBy(p), CarriedBy(p'.value));
    }
    LeadsOn(c, s, t, z);
  }

  // All reports come in.

  /** The task gets to a final status that is reported. */
  lemma {:induction false} FinishTask(c: Config, s: State, n: Node, x: TaskStatus) returns (z: State)
    requires n in s.rows.task && s.rows.task[n] == x && x != Cancelled
    ensures Leads(c, s, z) && n in z.rows.task && Reportable(z.rows.task[n])
    ensures z == s.(rows := s.rows.(task := s.rows.task[n := z.rows.task[n]]))
    decreases match x case Created => 3 case RetryWait => 3 case Queued => 2 case Running => 1 case _ => 0
  {
    if Reportable(x) {
      z := s;
      Stay(c, s);
      assert s.rows.task[n := x] == s.rows.task;
    } else {
      var y := if x == Running then TaskStatus.Success else if x == Queued then Running else Queued;
      assert TaskMove(x, y);
      var t := s.(rows := s.rows.(task := s.rows.task[n := y]));
      assert TaskMoves(s, t, n, y);
      z := FinishTask(c, t, n, y);
      LeadsOn(c, s, t, z);
      assert s.rows.task[n := y][n := z.rows.task[n]] == s.rows.task[n := z.rows.task[n]];
    }
  }

  /** No task that waits for its report is cancelled. */
  ghost predicate NoneCancelled(c: Config, s: State) {
    forall n {:trigger Unreported(c, s.rows, s.reported, n)} ::
      Unreported(c, s.rows, s.reported, n) && n in s.rows.task ==> s.rows.task[n] != Cancelled
  }

  /** Pending roots are still pending, and running nodes that were reported are still running. */
  ghost predicate Untouched(c: Config, s: State, z: State) {
    && (forall n {:trigger IsRoot(c.g, n)} ::
          IsRoot(c.g, n) && At(s.rows, n).NodePending? ==> At(z.rows, n).NodePending?)
    && (forall n {:trigger At(z.rows, n)} ::
          n in c.g.nodes && At(s.rows, n).NodeRunning? && n in s.reported ==> At(z.rows, n).NodeRunning?)
  }

  /** The task of one node ends, the end is reported, and the call runs to its end. */
  lemma ReportOne(c: Config, s: State, n: Node) returns (z: State)
    requires c.policy == Continue && Safe(c, s) && s.procs == map[] && NoneCancelled(c, s)
    requires Unreported(c, s.rows, s.reported, n)
    ensures Leads(c, s, z) && z.procs == map[] && z.reported == s.reported + {n}
    ensures NoneCancelled(c, z) && Untouched(c, s, z)
  {
    assert NodeOk(c.g, c.policy, s.rows, n);
    var t := FinishTask(c, s, n, s.rows.task[n]);
    SafeAfter(c, s, t);
    var u := t.(procs := t.procs[0 := Entered(n, t.rows.task[n])], reported := t.reported + {n});
    assert CallEnters(t, u, 0, n);
    StepIsSafe(c, t, u);
    z := RunAlone(c, u, 0);
    LeadsOn(c, t, u, z);
    Join(c, s, t, z);
    SafeAfter(c, s, z);
    assert forall m :: At(u.rows, m) == At(s.rows, m);
    ReportedTasks(c, s, u, z, n);
  }

  lemma ReportedTasks(c: Config, s: State, u: State, z: State, n: Node)
    requires Safe(c, s) && Safe(c, z) && NoneCancelled(c, s) && Later(c.g, s.rows, z.rows)
    requires u.rows.task.Keys == s.rows.task.Keys
    requires forall m :: m in s.rows.task && m != n ==> u.rows.task[m] == s.rows.task[m]
    requires Calm(c, u.rows, z.rows, Some(n)) && z.reported == s.reported + {n}
    ensures NoneCancelled(c, z)
  {
    forall m | Unreported(c, z.rows, z.reported, m) && m in z.rows.task ensures z.rows.task[m] != Cancelled {
      if m in u.rows.task {
        assert NodeOk(c.g, c.policy, s.rows, m);
        assert Settled(At(s.rows, m)) ==> At(z.rows, m) == At(s.rows, m);
        assert Unreported(c, s.rows, s.reported, m);
      }
    }
  }

  lemma {:induction false} ReportAll(c: Config, s: State) returns (z: State)
    requires c.policy == Continue && Safe(c, s) && s.procs == map[] && NoneCancelled(c, s)
    ensures Leads(c, s, z) && z.procs == map[] && !SomeUnreported(c, z.rows, z.reported) && Untouched(c, s, z)
    decreases c.g.nodes - s.reported
  {
    if n :| Unreported(c, s.rows, s.reported, n) {
      var t := ReportOne(c, s, n);
      SafeAfter(c, s, t);
      z := ReportAll(c, t);
      Join(c, s, t, z);
    } else {
      z := s;
      Stay(c, s);
    }
  }

  /** With nobody left to attend to it, what was left undone is never done. */
  lemma UnattendedCanStall(c: Config, s: State)
    requires c.policy == Continue && Safe(c, s) && s.procs == map[] && NoneCancelled(c, s) && !Attended(c, s)
    ensures !GetsThrough(c, s)
  {
    Stay(c, s);
    var z := ReportAll(c, s);
    SafeAfter(c, s, z);
    if n :| Owed(c, s.rows, n) && !SeenTo(c, s, n) {
      assert IsRoot(c.g, n) ==> At(z.rows, n).NodePending?;
    } else if n :| Unmarked(c, s.rows, s.reported, n) && !SomeCarries(s.procs, n) {
      assert At(z.rows, n).NodeRunning?;
    } else {
      assert NeedsVerdict(c, s.rows);
    }
  }

  /**
   * Whatever deaths came before: if the state is attended, no continuation stalls, that is, whenever no call is
   * in flight the run is over or waits for a report. Under CONTINUE, with no call left in flight and no awaited
   * task cancelled, the converse holds as well: let the tasks end, report them, and the run stalls.
   */
  lemma GetsThroughIffAttended(c: Config, rank: map<Node, nat>, b: seq<State>, k: nat)
    requires Ranked(c.g, rank) && IsRun(c, b) && k < |b|
    ensures Attended(c, b[k]) ==> GetsThrough(c, b[k])
    ensures c.policy == Continue && b[k].procs == map[] && NoneCancelled(c, b[k]) ==>
      (GetsThrough(c, b[k]) <==> Attended(c, b[k]))
  {
    RunsAreSafe(c, b, k);
    if Attended(c, b[k]) {
      AttendedGetsThrough(c, rank, b[k]);
    } else if c.policy == Continue && b[k].procs == map[] && NoneCancelled(c, b[k]) {
      UnattendedCanStall(c, b[k]);
    }
  }
}
