/**
 * One workflow run on top of the lease protocol: the engine creates tasks, the workers move them and report
 * them back to the engine.
 */
module Platform {
  import opened Graph
  import opened Options
  import opened Tasks
  import opened TaskRows
  import I = LeaseInvariant
  import L = LeaseProtocol
  import T = LeaseTheorems
  import W = Workflow
  import F = WorkflowProtocol

  /** The workflow, the retries that its nodes allow, and the length of a lease. */
  datatype Config = Config(flow: F.Config, retries: map<Node, nat>, duration: nat)

  function RetriesOf(c: Config, n: Node): nat {
    if n in c.retries then c.retries[n] else 0
  }

  /**
   * The engine's rows and calls, the task table with queue and workers, and which task belongs to which node.
   * `muted` records the tasks whose worker died after its final write and before it called the engine.
   */
  datatype State = State(flow: F.State, lease: L.State, id: map<Node, TaskId>, muted: set<TaskId>)

  /** Every dispatched node has a task of its own in the table, and the engine reads its status there. */
  ghost predicate Linked(s: State) {
    && s.id.Keys == s.flow.rows.task.Keys
    && (forall n {:trigger s.id[n]} :: n in s.id ==>
          s.id[n] in s.lease.rows && s.lease.rows[s.id[n]].status == s.flow.rows.task[n])
    && (forall m, n {:trigger s.id[m], s.id[n]} :: m in s.id && n in s.id && s.id[m] == s.id[n] ==> m == n)
  }

  /** The statuses that the engine would read for its tasks in another state of the table. */
  function Reread(s: State, rows: map<TaskId, Row>): map<Node, TaskStatus> {
    map n | n in s.flow.rows.task :: if n in s.id && s.id[n] in rows then rows[s.id[n]].status else s.flow.rows.task[n]
  }

  /** The tasks that nobody will report because their worker dies now. */
  function Mutes(s: L.State, e: L.Event): set<TaskId>
    requires L.Enabled(s, e)
  {
    if e.Crash? && s.workers[e.w].Reporting? then {s.workers[e.w].t} else {}
  }

  /** The table after an event, and what the engine reads there from now on. */
  function AfterEvent(c: Config, s: State, e: L.Event): State
    requires L.Enabled(s.lease, e)
  {
    var lease := L.Apply(c.duration, s.lease, e);
    s.(lease := lease, muted := s.muted + Mutes(s.lease, e),
       flow := s.flow.(rows := s.flow.rows.(task := Reread(s, lease.rows))))
  }

  /** A worker, a recoverer, a user or another submitter acts, late writes included. */
  ghost predicate LeaseStep(c: Config, s: State, t: State) {
    exists e :: L.Enabled(s.lease, e) && !e.Report? && t == AfterEvent(c, s, e)
  }

  /** The worker was busy with the task of the node, and finds it in a final status. */
  ghost predicate ReportsOn(s: State, w: WorkerId, n: Node) {
    && w in s.lease.workers && s.lease.workers[w].Reporting?
    && n in s.id && s.id[n] == s.lease.workers[w].t && n in s.flow.rows.task && Reportable(s.flow.rows.task[n])
  }

  /** The hook at the end of a message: a worker calls the engine for a final task of the run, and is free again. */
  ghost predicate Reports(c: Config, s: State, t: State, w: WorkerId) {
    && L.Enabled(s.lease, L.Report(w))
    && t == s.(lease := L.Apply(c.duration, s.lease, L.Report(w)), flow := t.flow)
    && (((forall n :: !ReportsOn(s, w, n)) && t.flow == s.flow)
        || exists i, n :: ReportsOn(s, w, n) && F.CallEnters(s.flow, t.flow, i, n))
  }

  ghost predicate ReportStep(c: Config, s: State, t: State) {
    exists w :: Reports(c, s, t, w)
  }

  /** An engine call acts without dispatching, or dies. */
  ghost predicate FlowStep(c: Config, s: State, t: State) {
    && ((exists i :: F.CallSteps(c.flow, s.flow, t.flow, i)) || (exists i :: F.CallDies(c.flow, s.flow, t.flow, i)))
    && t.flow.rows.task == s.flow.rows.task && t == s.(flow := t.flow)
  }

  /** An engine call dispatches a node: the new task row is committed with it. */
  ghost predicate Dispatches(c: Config, s: State, t: State, i: nat, n: Node, u: TaskId) {
    && F.CallSteps(c.flow, s.flow, t.flow, i)
    && n !in s.flow.rows.task && t.flow.rows.task == s.flow.rows.task[n := Queued]
    && L.Enabled(s.lease, L.Create(u, RetriesOf(c, n)))
    && t == s.(flow := t.flow, lease := L.Apply(c.duration, s.lease, L.Create(u, RetriesOf(c, n))), id := s.id[n := u])
  }

  ghost predicate DispatchStep(c: Config, s: State, t: State) {
    exists i, n, u :: Dispatches(c, s, t, i, n, u)
  }

  ghost predicate Next(c: Config, s: State, t: State) {
    LeaseStep(c, s, t) || ReportStep(c, s, t) || FlowStep(c, s, t) || DispatchStep(c, s, t)
  }

  ghost predicate Init(c: Config, s: State) {
    F.Init(c.flow, s.flow) && L.Init(s.lease) && s.id == map[] && s.muted == {}
  }

  /** State number `i` of a run: an initial state, or one step after the state before. */
  ghost predicate StepAt(c: Config, b: seq<State>, i: nat)
    requires i < |b|
  {
    if i == 0 then Init(c, b[0]) else Next(c, b[i - 1], b[i])
  }

  ghost predicate IsRun(c: Config, b: seq<State>) {
    |b| > 0 && forall i {:trigger StepAt(c, b, i)} :: 0 <= i < |b| ==> StepAt(c, b, i)
  }

  /** Nothing is missing: what a call does to the tasks is nothing, or one fresh queued task. */
  lemma CallsTouchOneTask(c: F.Config, s: F.State, t: F.State, i: nat)
    requires F.Safe(c, s) && F.CallSteps(c, s, t, i)
    ensures t.rows.task == s.rows.task || exists n :: n !in s.rows.task && t.rows.task == s.rows.task[n := Queued]
  {
    assert F.ProcOk(c, s.rows, s.procs[i]);
    match s.procs[i]
    case Starting(roots) =>
      if roots != [] {
        assert IsRoot(c.g, roots[0]);
        assert W.NodeOk(c.g, c.policy, s.rows, roots[0]);
      }
    case Acting(m, _, _, _, _) =>
      assert W.NodeOk(c.g, c.policy, s.rows, m);
    case _ =>
  }

  /** The task rows of the run carry the retries of their nodes. */
  ghost predicate Allowed(c: Config, s: State) {
    forall n {:trigger s.id[n]} :: n in s.id ==>
      s.id[n] in s.lease.rows && s.lease.rows[s.id[n]].maxRetries == RetriesOf(c, n)
  }

  ghost predicate Inv(c: Config, s: State) {
    F.Safe(c.flow, s.flow) && I.Inv(c.duration, s.lease) && !s.lease.overrun && Linked(s) && Allowed(c, s)
  }

  /** If the table changed in one row at most, by a legal move, then so did what the engine reads. */
  lemma RereadOneRow(s: State, rows: map<TaskId, Row>, u: Option<TaskId>)
    requires Linked(s)
    requires forall t :: t in s.lease.rows && Some(t) != u ==> t in rows && rows[t] == s.lease.rows[t]
    requires forall t :: t in s.lease.rows ==> t in rows && TaskMove(s.lease.rows[t].status, rows[t].status)
    ensures ReadsOneMove(s, rows)
  {
    var task := Reread(s, rows);
    if n :| n in s.id && Some(s.id[n]) == u {
      forall m | m in s.id && m != n ensures task[m] == s.flow.rows.task[m] {
        assert s.id[m] != s.id[n];
      }
      assert MovesOne(s, task, n);
    } else {
      assert task == s.flow.rows.task;
    }
  }

  ghost predicate MovesOne(s: State, task: map<Node, TaskStatus>, n: Node) {
    && n in s.flow.rows.task && n in task && TaskMove(s.flow.rows.task[n], task[n])
    && task == s.flow.rows.task[n := task[n]]
  }

  /** For the engine the new table amounts to one task move of its environment, or to nothing. */
  ghost predicate ReadsOneMove(s: State, rows: map<TaskId, Row>) {
    var task := Reread(s, rows);
    || task == s.flow.rows.task
    || exists n :: MovesOne(s, task, n)
  }

  ghost predicate KeepsRetries(before: map<TaskId, Row>, after: map<TaskId, Row>) {
    forall t :: t in before ==> t in after && after[t].maxRetries == before[t].maxRetries
  }

  lemma LeaseEventIsTaskMove(c: Config, s: State, e: L.Event)
    requires Linked(s) && L.Enabled(s.lease, e) && L.Clean(s.lease, e)
    ensures ReadsOneMove(s, L.Apply(c.duration, s.lease, e).rows)
    ensures KeepsRetries(s.lease.rows, L.Apply(c.duration, s.lease, e).rows)
  {
    var rows := L.Apply(c.duration, s.lease, e).rows;
    forall t | t in s.lease.rows
      ensures t in rows && rows[t].maxRetries == s.lease.rows[t].maxRetries
      ensures TaskMove(s.lease.rows[t].status, rows[t].status)
      ensures L.Target(s.lease, e) != Some(t) ==> rows[t] == s.lease.rows[t]
    {
      T.StatusFollowsTable(c.duration, s.lease, e, t);
      if L.Target(s.lease, e) != Some(t) {
        L.OtherTasksStay(c.duration, s.lease, e, t);
      }
    }
    RereadOneRow(s, rows, L.Target(s.lease, e));
  }

  lemma FlowStaysSafe(c: F.Config, s: State, t: State)
    requires F.Safe(c, s.flow) && Linked(s) && ReadsOneMove(s, t.lease.rows)
    requires t.flow == s.flow.(rows := s.flow.rows.(task := Reread(s, t.lease.rows)))
    ensures F.Safe(c, t.flow)
  {
    var task := Reread(s, t.lease.rows);
    if task != s.flow.rows.task {
      var n :| MovesOne(s, task, n);
      assert F.TaskMoves(s.flow, t.flow, n, task[n]);
      F.StepIsSafe(c, s.flow, t.flow);
    }
  }

  lemma DispatchIsLinked(c: Config, s: State, t: State, n: Node, u: TaskId)
    requires Linked(s) && Allowed(c, s) && n !in s.flow.rows.task && t.flow.rows.task == s.flow.rows.task[n := Queued]
    requires u !in s.lease.rows && t.id == s.id[n := u]
    requires t.lease.rows == s.lease.rows[u := NewRow(RetriesOf(c, n))]
    ensures Linked(t) && Allowed(c, t)
  {
    forall m | m in t.id && m != n
      ensures t.id[m] != u && t.id[m] in t.lease.rows && t.lease.rows[t.id[m]] == s.lease.rows[s.id[m]]
    {
      assert s.id[m] in s.lease.rows;
    }
  }

  lemma LeaseStepKeepsInv(c: Config, s: State, t: State, e: L.Event)
    requires Inv(c, s) && L.Enabled(s.lease, e) && L.Clean(s.lease, e) && t == AfterEvent(c, s, e)
    ensures Inv(c, t)
  {
    I.StepKeepsInv(c.duration, s.lease, e);
    L.CleanIffNotOverrun(c.duration, s.lease, e);
    LeaseEventIsTaskMove(c, s, e);
    FlowStaysSafe(c.flow, s, t);
    assert t.flow.rows.task.Keys == s.flow.rows.task.Keys;
  }

  lemma ReportIsClean(c: Config, s: L.State, w: WorkerId)
    requires I.Inv(c.duration, s) && !s.overrun && L.Enabled(s, L.Report(w))
    ensures var n := L.Apply(c.duration, s, L.Report(w));
      && I.Inv(c.duration, n) && !n.overrun && n.rows == s.rows && n.tally == s.tally
      && n.workers == s.workers[w := L.Idle]
  {
    I.StepKeepsInv(c.duration, s, L.Report(w));
  }

  lemma ReportKeepsInv(c: Config, s: State, t: State, w: WorkerId)
    requires Inv(c, s) && Reports(c, s, t, w)
    ensures Inv(c, t)
  {
    ReportIsClean(c, s.lease, w);
    if i, n :| ReportsOn(s, w, n) && F.CallEnters(s.flow, t.flow, i, n) {
      F.StepIsSafe(c.flow, s.flow, t.flow);
    }
  }

  lemma CreateIsClean(c: Config, s: L.State, u: TaskId, retries: nat)
    requires I.Inv(c.duration, s) && !s.overrun && L.Enabled(s, L.Create(u, retries))
    ensures var n := L.Apply(c.duration, s, L.Create(u, retries));
      I.Inv(c.duration, n) && !n.overrun && n.rows == s.rows[u := NewRow(retries)] && n.workers == s.workers
  {
    I.StepKeepsInv(c.duration, s, L.Create(u, retries));
  }

  lemma DispatchKeepsInv(c: Config, s: State, t: State, i: nat, n: Node, u: TaskId)
    requires Inv(c, s) && Dispatches(c, s, t, i, n, u)
    ensures Inv(c, t)
  {
    F.StepIsSafe(c.flow, s.flow, t.flow);
    CreateIsClean(c, s.lease, u, RetriesOf(c, n));
    DispatchIsLinked(c, s, t, n, u);
  }

  lemma OverrunStays(c: Config, s: State, t: State)
    requires Next(c, s, t) && s.lease.overrun
    ensures t.lease.overrun
  {
    if e :| L.Enabled(s.lease, e) && !e.Report? && t == AfterEvent(c, s, e) {
      L.CleanIffNotOverrun(c.duration, s.lease, e);
    } else if i, n, u :| Dispatches(c, s, t, i, n, u) {
      L.CleanIffNotOverrun(c.duration, s.lease, L.Create(u, RetriesOf(c, n)));
    } else if w :| Reports(c, s, t, w) {
      L.CleanIffNotOverrun(c.duration, s.lease, L.Report(w));
    }
  }

  lemma StepKeepsInv(c: Config, s: State, t: State)
    requires Inv(c, s) && Next(c, s, t) && !t.lease.overrun
    ensures Inv(c, t)
  {
    if e :| L.Enabled(s.lease, e) && !e.Report? && t == AfterEvent(c, s, e) {
      L.CleanIffNotOverrun(c.duration, s.lease, e);
      LeaseStepKeepsInv(c, s, t, e);
    } else if w :| Reports(c, s, t, w) {
      ReportKeepsInv(c, s, t, w);
    } else if FlowStep(c, s, t) {
      F.StepIsSafe(c.flow, s.flow, t.flow);
    } else {
      var i, n, u :| Dispatches(c, s, t, i, n, u);
      DispatchKeepsInv(c, s, t, i, n, u);
    }
  }

  lemma InvAt(c: Config, b: seq<State>, i: nat)
    requires IsRun(c, b) && 0 < i < |b| && !b[i].lease.overrun
    ensures !b[i - 1].lease.overrun
    ensures Inv(c, b[i - 1]) ==> Inv(c, b[i])
  {
    assert StepAt(c, b, i);
    if b[i - 1].lease.overrun {
      OverrunStays(c, b[i - 1], b[i]);
    }
    if Inv(c, b[i - 1]) {
      StepKeepsInv(c, b[i - 1], b[i]);
    }
  }

  lemma InitIsSound(c: Config, b: seq<State>)
    requires IsRun(c, b)
    ensures Init(c, b[0]) && Inv(c, b[0])
  {
    assert StepAt(c, b, 0);
    F.InitIsSafe(c.flow, b[0].flow);
  }

  /** Every state of every joint run that no late write led to. */
  lemma {:induction false} RunsKeepInv(c: Config, b: seq<State>, k: nat)
    requires IsRun(c, b) && k < |b| && !b[k].lease.overrun
    ensures Inv(c, b[k])
  {
    if k == 0 {
      InitIsSound(c, b);
    } else {
      InvAt(c, b, k);
      RunsKeepInv(c, b, k - 1);
    }
  }
}
