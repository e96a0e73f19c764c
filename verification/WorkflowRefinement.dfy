/** A call that is left alone does what the engine promises of one call at a time. */
module WorkflowRefinement {
  import opened Graph
  import opened Options
  import opened Sequences
  import opened Tasks
  import opened Workflow
  import opened WorkflowProtocol
  import opened WorkflowCalls
  import opened WorkflowDeaths
  import opened WorkflowEngine
  import opened WorkflowOutcomes

  /** Only call number `i` acts. Other calls may be in flight, but stand still. */
  ghost predicate LoneAt(c: Config, d: seq<State>, i: nat, k: nat)
    requires 0 < k < |d|
  {
    CallSteps(c, d[k - 1], d[k], i)
  }

  ghost predicate Lone(c: Config, d: seq<State>, i: nat) {
    |d| > 0 && forall k {:trigger LoneAt(c, d, i, k)} :: 0 < k < |d| ==> LoneAt(c, d, i, k)
  }

  // A report.

  /** What a report found when it came, and what it brings. */
  datatype Report = Report(r: Rows, n: Node, t: TaskStatus)

  /** The rows show nothing but what `base` shows, as far as nodes are settled. */
  ghost predicate UpToDate(g: Dag, base: Rows, r: Rows) {
    KeepsSettled(g, base, r) && KeepsSettled(g, r, base)
  }

  /** The pending nodes outside of the set still wait. */
  ghost predicate WaitOutside(g: Dag, r: Rows, out: set<Node>) {
    forall n {:trigger Decide(g, r, n)} ::
      n in g.nodes && At(r, n).NodePending? && n !in out ==> Decide(g, r, n) == Wait
  }

  ghost predicate StillPending(g: Dag, r: Rows, todo: seq<Node>) {
    Distinct(todo) && forall n :: n in todo ==> n in g.nodes && At(r, n).NodePending?
  }

  /** The call goes through the evaluation, after it marked its node. */
  ghost predicate Evaluating(c: Config, x: Report, r: Rows) {
    && !Over(x.r.run) && (c.policy == Continue || x.t == TaskStatus.Success)
    && Progress(c.g, c.policy, Conclude(x.r, x.n, x.t), r)
  }

  /** Where a report stands that nobody interfered with. */
  ghost predicate OnTrack(c: Config, x: Report, r: Rows, p: Proc) {
    match p
    case Starting(_) => false
    case Entered(n, t) => r == x.r && n == x.n && t == x.t
    case Marking(n, t) => r == x.r && n == x.n && t == x.t && !Over(r.run)
    case FailingFast(_) =>
      !Over(x.r.run) && c.policy == FailFast && x.t != TaskStatus.Success && r == Conclude(x.r, x.n, x.t)
    case Scanning(base) => Evaluating(c, x, r) && UpToDate(c.g, base, r)
    case Visiting(todo, changed, base) =>
      && Evaluating(c, x, r) && UpToDate(c.g, base, r) && StillPending(c.g, r, todo)
      && (!changed ==> WaitOutside(c.g, r, SetOf(todo)))
    case Acting(m, d, todo, changed, base) =>
      && Evaluating(c, x, r) && UpToDate(c.g, base, r) && StillPending(c.g, r, [m] + todo)
      && d == Decide(c.g, r, m)
    case Checking => Evaluating(c, x, r) && NothingToDecide(c.g, r)
    case Finalizing(v) => Evaluating(c, x, r) && NothingToDecide(c.g, r) && AllSettled(c.g, r) && v == Verdict(c.g, r)
  }

  /** An up to date look shows the decision for the rows as they are. */
  lemma LookIsExact(c: Config, r: Rows, p: Proc, d: Decision)
    requires p.Visiting? && p.todo != [] && UpToDate(c.g, p.base, r) && Looks(c, r, p, d)
    ensures d == Decide(c.g, r, p.todo[0])
  {
    var view :| MayShow(c.g, p.base, r, view) && d == Decide(c.g, view, p.todo[0]);
    KeepsSettledTrans(c.g, r, p.base, view);
    Monotone(c.g, view, r, p.todo[0]);
    Monotone(c.g, r, view, p.todo[0]);
  }

  lemma MarkOnTrack(c: Config, x: Report, r: Rows, p: Proc, r': Rows, p': Option<Proc>)
    requires RowsOk(c.g, c.policy, r) && ProcOk(c, r, p) && OnTrack(c, x, r, p) && ProcStep(c, r, p, r', p')
    requires p.Marking?
    ensures p'.Some? && OnTrack(c, x, r', p'.value)
  {
    ConcludeKeepsOk(c.g, c.policy, r, p.n, p.t);
    ProgressRefl(c.g, c.policy, r');
  }

  lemma ScanOnTrack(c: Config, x: Report, r: Rows, p: Proc, r': Rows, p': Option<Proc>)
    requires OnTrack(c, x, r, p) && ProcStep(c, r, p, r', p') && p.Scanning?
    ensures p'.Some? && OnTrack(c, x, r', p'.value)
  {
  }

  lemma VisitOnTrack(c: Config, x: Report, r: Rows, p: Proc, r': Rows, p': Option<Proc>)
    requires OnTrack(c, x, r, p) && ProcStep(c, r, p, r', p') && p.Visiting?
    ensures p'.Some? && OnTrack(c, x, r', p'.value)
  {
    if p.todo == [] {
      assert p'.value.Checking? ==> NothingToDecide(c.g, r) by {
        assert forall n :: n !in SetOf(p.todo);
      }
    } else if p'.value.Visiting? {
      LookIsExact(c, r, p, Wait);
      assert p.todo == [p.todo[0]] + p.todo[1..];
    } else {
      LookIsExact(c, r, p, p'.value.d);
      assert p.todo == [p.todo[0]] + p.todo[1..];
    }
  }

  lemma ActUpToDate(c: Config, r: Rows, m: Node, d: Decision, base: Rows)
    requires RowsOk(c.g, c.policy, r) && UpToDate(c.g, base, r) && m in c.g.nodes && At(r, m).NodePending?
    requires d != Wait
    ensures UpToDate(c.g, WithOwn(base, m, d), Act(r, m, d))
  {
    var t, own := Act(r, m, d), WithOwn(base, m, d);
    forall n | n in c.g.nodes
      ensures Settled(At(own, n)) ==> At(t, n) == At(own, n)
      ensures Settled(At(t, n)) ==> At(own, n) == At(t, n)
    {
      assert n != m ==> At(own, n) == At(base, n) && At(t, n) == At(r, n);
    }
  }

  lemma ActOnTrack(c: Config, x: Report, r: Rows, p: Proc, r': Rows, p': Option<Proc>)
    requires RowsOk(c.g, c.policy, r) && ProcOk(c, r, p) && OnTrack(c, x, r, p) && ProcStep(c, r, p, r', p')
    requires p.Acting?
    ensures p'.Some? && OnTrack(c, x, r', p'.value)
  {
    var m, todo := p.m, p.todo;
    assert ([m] + todo)[0] == m;
    ActUpToDate(c, r, m, p.d, p.base);
    ActIsSafe(c, r, m, p.d, p.base);
    ActMovesOnlyPending(c.g, c.policy, r, m);
    ProgressTrans(c.g, c.policy, Conclude(x.r, x.n, x.t), r, r');
    TailStaysPending(c.g, r, r', m, todo);
  }

  lemma TailStaysPending(g: Dag, r: Rows, t: Rows, m: Node, todo: seq<Node>)
    requires StillPending(g, r, [m] + todo) && forall n :: n in g.nodes && n != m ==> At(t, n) == At(r, n)
    ensures StillPending(g, t, todo)
  {
    var all := [m] + todo;
    forall i, j | 0 <= i < j < |todo| ensures todo[i] != todo[j] {
      assert all[i + 1] == todo[i] && all[j + 1] == todo[j];
    }
    forall n | n in todo ensures n in g.nodes && At(t, n).NodePending? {
      var i :| 0 <= i < |todo| && todo[i] == n;
      assert all[0] == m && all[i + 1] == n && n in all;
    }
  }

  /** Each step keeps the report on track, and where it returns the rows are as Advance leaves them. */
  lemma StepOnTrack(c: Config, x: Report, r: Rows, p: Proc, r': Rows, p': Option<Proc>)
    requires RowsOk(c.g, c.policy, x.r) && x.n in x.r.task && x.r.task[x.n] == x.t && Reportable(x.t)
    requires RowsOk(c.g, c.policy, r) && ProcOk(c, r, p) && OnTrack(c, x, r, p) && ProcStep(c, r, p, r', p')
    ensures p'.Some? ==> OnTrack(c, x, r', p'.value)
    ensures p' == None ==> Advanced(c.g, c.policy, x.r, x.n, x.t, r')
  {
    match p
    case Entered(_, _) => LaterRefl(c.g, c.policy, r);
    case Marking(_, _) => MarkOnTrack(c, x, r, p, r', p');
    case FailingFast(m) =>
      ConcludeKeepsOk(c.g, c.policy, x.r, x.n, x.t);
      AbortKeepsOk(c.g, r, m);
      LaterTrans(c.g, x.r, r, r');
    case Scanning(_) => ScanOnTrack(c, x, r, p, r', p');
    case Visiting(_, _, _) => VisitOnTrack(c, x, r, p, r', p');
    case Acting(_, _, _, _, _) => ActOnTrack(c, x, r, p, r', p');
    case Checking => CheckOnTrack(c, x, r, r', p');
    case Finalizing(_) => FinalizeOnTrack(c, x, r, p, r');
  }

  lemma CheckOnTrack(c: Config, x: Report, r: Rows, r': Rows, p': Option<Proc>)
    requires RowsOk(c.g, c.policy, x.r) && x.n in x.r.task && x.r.task[x.n] == x.t && Reportable(x.t)
    requires OnTrack(c, x, r, Checking) && ProcStep(c, r, Checking, r', p')
    ensures p'.Some? ==> OnTrack(c, x, r', p'.value)
    ensures p' == None ==> Advanced(c.g, c.policy, x.r, x.n, x.t, r')
  {
    ConcludeKeepsOk(c.g, c.policy, x.r, x.n, x.t);
    LaterTrans(c.g, x.r, Conclude(x.r, x.n, x.t), r);
    assert r.(run := x.r.run) == r;
  }

  lemma FinalizeOnTrack(c: Config, x: Report, r: Rows, p: Proc, r': Rows)
    requires RowsOk(c.g, c.policy, x.r) && x.n in x.r.task && x.r.task[x.n] == x.t && Reportable(x.t)
    requires p.Finalizing? && OnTrack(c, x, r, p) && r' == r.(run := p.v)
    ensures Advanced(c.g, c.policy, x.r, x.n, x.t, r')
  {
    var marked := Conclude(x.r, x.n, x.t);
    ConcludeKeepsOk(c.g, c.policy, x.r, x.n, x.t);
    FinalizeKeepsOk(c.g, c.policy, r);
    LaterTrans(c.g, x.r, marked, r);
    LaterTrans(c.g, x.r, r, r');
    SameStatusSameDecisions(c.g, r, r');
    assert r'.(run := x.r.run) == r;
  }

  lemma {:induction false} LoneOnTrack(c: Config, d: seq<State>, i: nat, k: nat, x: Report)
    requires Lone(c, d, i) && k < |d| && Safe(c, d[0]) && i in d[0].procs && d[0].procs[i] == Entered(x.n, x.t)
    requires x.r == d[0].rows
    ensures Safe(c, d[k])
    ensures i in d[k].procs ==> OnTrack(c, x, d[k].rows, d[k].procs[i])
    ensures i !in d[k].procs ==> Advanced(c.g, c.policy, x.r, x.n, x.t, d[k].rows)
  {
    assert ProcOk(c, d[0].rows, d[0].procs[i]);
    if k > 0 {
      LoneOnTrack(c, d, i, k - 1, x);
      assert LoneAt(c, d, i, k);
      CallOnTrack(c, d[k - 1], d[k], i, x);
    }
  }

  lemma CallOnTrack(c: Config, s: State, t: State, i: nat, x: Report)
    requires Safe(c, s) && CallSteps(c, s, t, i) && OnTrack(c, x, s.rows, s.procs[i])
    requires RowsOk(c.g, c.policy, x.r) && x.n in x.r.task && x.r.task[x.n] == x.t && Reportable(x.t)
    ensures Safe(c, t)
    ensures i in t.procs ==> OnTrack(c, x, t.rows, t.procs[i])
    ensures i !in t.procs ==> Advanced(c.g, c.policy, x.r, x.n, x.t, t.rows)
  {
    StepIsSafe(c, s, t);
    var p: Option<Proc> :|
      ProcStep(c, s.rows, s.procs[i], t.rows, p) && t == s.(rows := t.rows, procs := Put(s.procs, i, p));
    assert ProcOk(c, s.rows, s.procs[i]);
    StepOnTrack(c, x, s.rows, s.procs[i], t.rows, p);
  }

  /** A call that is not stopped gets to its end, with its own steps alone. */
  lemma {:induction false} CanReturn(c: Config, s: State, i: nat) returns (d: seq<State>)
    requires Safe(c, s) && i in s.procs
    ensures Lone(c, d, i) && d[0] == s && i !in d[|d| - 1].procs
    decreases Work(c, s.rows, s.procs[i])
  {
    var p := s.procs[i];
    assert ProcOk(c, s.rows, p);
    var r, p' := CanStep(c, s.rows, p);
    OwnStepLowersWork(c, s.rows, p, r, p');
    var t := s.(rows := r, procs := Put(s.procs, i, p'));
    assert CallSteps(c, s, t, i);
    StepIsSafe(c, s, t);
    if p' == None {
      d := [s, t];
      assert LoneAt(c, d, i, 1);
    } else {
      var e := CanReturn(c, t, i);
      d := [s] + e;
      LoneOn(c, s, e, i);
    }
  }

  lemma LoneOn(c: Config, s: State, e: seq<State>, i: nat)
    requires Lone(c, e, i) && CallSteps(c, s, e[0], i)
    ensures Lone(c, [s] + e, i)
  {
    var d := [s] + e;
    forall k | 0 < k < |d| ensures LoneAt(c, d, i, k) {
      assert k > 1 ==> LoneAt(c, e, i, k - 1) && d[k] == e[k - 1] && d[k - 1] == e[k - 2];
    }
  }

  lemma LoneReportAdvances(c: Config, d: seq<State>, i: nat, n: Node, t: TaskStatus)
    requires Lone(c, d, i) && Safe(c, d[0]) && i in d[0].procs && d[0].procs[i] == Entered(n, t)
    requires i !in d[|d| - 1].procs
    ensures Advanced(c.g, c.policy, d[0].rows, n, t, d[|d| - 1].rows)
  {
    LoneOnTrack(c, d, i, |d| - 1, Report(d[0].rows, n, t));
  }

  /**
   * The protocol refines the engine: a report that acts alone, in whatever order it visits the nodes and whatever its
   * session shows, leaves rows as Advance promises them. On an acyclic workflow these are the only ones.
   */
  lemma LoneReportIsAdvance(c: Config, b: seq<State>, k: nat, i: nat, n: Node, t: TaskStatus, d: seq<State>)
    requires IsRun(c, b) && k < |b| && i in b[k].procs && b[k].procs[i] == Entered(n, t)
    requires Lone(c, d, i) && d[0] == b[k] && i !in d[|d| - 1].procs
    ensures Advanced(c.g, c.policy, b[k].rows, n, t, d[|d| - 1].rows)
    ensures HasRank(c.g) ==>
      forall z :: Advanced(c.g, c.policy, b[k].rows, n, t, z) ==> z == d[|d| - 1].rows
  {
    RunsAreSafe(c, b, k);
    LoneReportAdvances(c, d, i, n, t);
    if HasRank(c.g) {
      OnlyOneWay(c, b[k].rows, n, t, d[|d| - 1].rows);
    }
  }

  lemma OnlyOneWay(c: Config, r: Rows, n: Node, t: TaskStatus, y: Rows)
    requires HasRank(c.g) && Advanced(c.g, c.policy, r, n, t, y)
    ensures forall z :: Advanced(c.g, c.policy, r, n, t, z) ==> z == y
  {
    var rank :| Ranked(c.g, rank);
    forall z | Advanced(c.g, c.policy, r, n, t, z) ensures z == y {
      AdvancedIsUnique(c.g, c.policy, rank, r, n, t, z, y);
    }
  }

  // The start of a run.

  /** The roots that are no longer listed run, each with a queued task. */
  ghost predicate Launched(c: Config, r: Rows, roots: seq<Node>) {
    && r.run == RunRunning && r.task.Keys <= c.g.nodes
    && (forall n {:trigger At(r, n)} :: n in c.g.nodes ==>
          if IsRoot(c.g, n) && n !in roots then At(r, n) == NodeRunning
          else At(r, n) == NodePending || (IsRoot(c.g, n) && At(r, n) == NodeRunning))
    && (forall n {:trigger r.task[n]} :: n in r.task ==> r.task[n] == Queued)
  }

  lemma LaunchOne(c: Config, r: Rows, roots: seq<Node>)
    requires r.status.Keys == c.g.nodes && Launched(c, r, roots) && roots != [] && IsRoot(c.g, roots[0])
    ensures Launched(c, TryDispatch(r, roots[0]), roots[1..])
  {
    assert forall n :: n in roots <==> n == roots[0] || n in roots[1..];
    var t := TryDispatch(r, roots[0]);
    forall n | n in c.g.nodes
      ensures if IsRoot(c.g, n) && n !in roots[1..] then At(t, n) == NodeRunning
              else At(t, n) == NodePending || (IsRoot(c.g, n) && At(t, n) == NodeRunning)
    {
      assert n != roots[0] ==> At(t, n) == At(r, n);
    }
  }

  lemma {:induction false} LoneLaunches(c: Config, d: seq<State>, k: nat)
    requires Lone(c, d, 0) && k < |d| && Init(c, d[0])
    ensures Safe(c, d[k])
    ensures 0 in d[k].procs ==> d[k].procs[0].Starting? && Launched(c, d[k].rows, d[k].procs[0].roots)
    ensures 0 !in d[k].procs ==> Launched(c, d[k].rows, [])
  {
    if k == 0 {
      InitIsSafe(c, d[0]);
    } else {
      LoneLaunches(c, d, k - 1);
      assert LoneAt(c, d, 0, k);
      StepIsSafe(c, d[k - 1], d[k]);
      var s := d[k - 1];
      assert ProcOk(c, s.rows, s.procs[0]);
      if s.procs[0].roots != [] {
        LaunchOne(c, s.rows, s.procs[0].roots);
      }
    }
  }

  /** The start of a run that acts alone leaves what the constructor of the engine promises. */
  lemma LoneStartIsStart(c: Config, d: seq<State>)
    requires Lone(c, d, 0) && Init(c, d[0]) && 0 !in d[|d| - 1].procs
    ensures var r := d[|d| - 1].rows;
      && RowsOk(c.g, c.policy, r) && r.run == RunRunning
      && (forall n :: n in c.g.nodes ==> At(r, n) == if IsRoot(c.g, n) then NodeRunning else NodePending)
      && (forall n :: n in c.g.nodes && IsRoot(c.g, n) ==> n in r.task && r.task[n] == Queued)
  {
    var r := d[|d| - 1].rows;
    LoneLaunches(c, d, |d| - 1);
    forall n | n in c.g.nodes && IsRoot(c.g, n) ensures n in r.task {
      assert NodeOk(c.g, c.policy, r, n);
    }
  }
}
