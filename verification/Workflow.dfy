/** The rows of one workflow run, the conditional updates on them, and the engine that drives them. */
module Workflow {
  import opened Graph
  import opened Tasks

  datatype NodeStatus = NodePending | NodeRunning | NodeSuccess | NodeFailed | NodeSkipped

  datatype RunStatus = RunRunning | RunSuccess | RunFailed

  datatype Policy = FailFast | Continue

  /**
   * What the database holds about one run: node statuses, the run status, the status of the task of each
   * dispatched node, and how many tasks were ever created for each node.
   */
  datatype Rows = Rows(status: map<Node, NodeStatus>, run: RunStatus, task: map<Node, TaskStatus>,
                       spawned: multiset<Node>)

  function At(r: Rows, n: Node): NodeStatus {
    if n in r.status then r.status[n] else NodePending
  }

  /** The node was dispatched: it has, or had, a task of its own. */
  predicate Dispatched(s: NodeStatus) {
    s.NodeRunning? || s.NodeSuccess? || s.NodeFailed?
  }

  predicate Settled(s: NodeStatus) {
    s.NodeSuccess? || s.NodeFailed? || s.NodeSkipped?
  }

  predicate Over(s: RunStatus) {
    s.RunSuccess? || s.RunFailed?
  }

  predicate AllSucceeded(g: Dag, r: Rows, n: Node) {
    forall u :: u in Preds(g, n) ==> At(r, u).NodeSuccess?
  }

  /** Some direct dependency failed or was skipped. */
  predicate Blocked(g: Dag, r: Rows, n: Node) {
    exists u :: u in Preds(g, n) && (At(r, u).NodeFailed? || At(r, u).NodeSkipped?)
  }

  predicate AllSettled(g: Dag, r: Rows) {
    forall n :: n in g.nodes ==> Settled(At(r, n))
  }

  predicate AllNodesSucceeded(g: Dag, r: Rows) {
    forall n :: n in g.nodes ==> At(r, n).NodeSuccess?
  }

  predicate AnyFailed(g: Dag, r: Rows) {
    exists n :: n in g.nodes && At(r, n).NodeFailed?
  }

  datatype Decision = Wait | Skip | Dispatch

  /** One look at the dependencies of a pending node; a node without any is left to the start of the run. */
  function Decide(g: Dag, r: Rows, n: Node): Decision {
    if Preds(g, n) == {} then Wait
    else if Blocked(g, r, n) then Skip
    else if AllSucceeded(g, r, n) then Dispatch
    else Wait
  }

  // The writes. Each is one committed transaction.

  /** Conditional on PENDING: RUNNING, with a fresh QUEUED task, in the same commit. */
  function TryDispatch(r: Rows, n: Node): Rows {
    if n in r.status && r.status[n].NodePending? then
      r.(status := r.status[n := NodeRunning], task := r.task[n := Queued], spawned := r.spawned + multiset{n})
    else r
  }

  /** Conditional on PENDING: SKIPPED. */
  function TrySkip(r: Rows, n: Node): Rows {
    if n in r.status && r.status[n].NodePending? then r.(status := r.status[n := NodeSkipped]) else r
  }

  function Act(r: Rows, n: Node, d: Decision): Rows {
    match d
    case Wait => r
    case Skip => TrySkip(r, n)
    case Dispatch => TryDispatch(r, n)
  }

  function Verdictful(t: TaskStatus): NodeStatus {
    if t == TaskStatus.Success then NodeSuccess else NodeFailed
  }

  /** Unconditional: the node takes over the final status of its task. */
  function Conclude(r: Rows, n: Node, t: TaskStatus): Rows {
    r.(status := r.status[n := Verdictful(t)])
  }

  /** The fail-fast transaction: whatever is still pending is skipped and the run fails. */
  function AbortRun(r: Rows): Rows {
    r.(status := map n | n in r.status :: if r.status[n].NodePending? then NodeSkipped else r.status[n],
       run := RunFailed)
  }

  /** The verdict on a run all of whose nodes are settled, with the three branches of the engine. */
  function Verdict(g: Dag, r: Rows): RunStatus {
    if AnyFailed(g, r) then RunFailed
    else if AllNodesSucceeded(g, r) then RunSuccess
    else RunFailed
  }

  // What every reachable state satisfies.

  /** The invariant of one node. */
  ghost predicate NodeOk(g: Dag, policy: Policy, r: Rows, n: Node) {
    var s := At(r, n);
    && (Dispatched(s) ==> AllSucceeded(g, r, n))
    && (n in r.task <==> Dispatched(s))
    && r.spawned[n] == (if Dispatched(s) then 1 else 0)
    && (s.NodeSuccess? ==> r.task[n] == TaskStatus.Success)
    && (s.NodeFailed? ==> Reportable(r.task[n]) && r.task[n] != TaskStatus.Success)
    && (s.NodeSkipped? ==> AnyFailed(g, r))
    && (s.NodeSkipped? && policy == Continue ==> Blocked(g, r, n))
  }

  ghost predicate RunOk(g: Dag, policy: Policy, r: Rows) {
    && (Over(r.run) ==> forall n :: n in g.nodes ==> !At(r, n).NodePending?)
    && (Over(r.run) && policy == Continue ==> AllSettled(g, r))
    && (r.run.RunSuccess? ==> AllNodesSucceeded(g, r))
    && (r.run.RunFailed? ==> AnyFailed(g, r))
  }

  ghost predicate RowsOk(g: Dag, policy: Policy, r: Rows) {
    && WellFormed(g)
    && r.status.Keys == g.nodes && r.task.Keys <= g.nodes
    && (forall n {:trigger r.spawned[n]} :: n in r.spawned ==> n in g.nodes)
    && (forall n {:trigger NodeOk(g, policy, r, n)} :: n in g.nodes ==> NodeOk(g, policy, r, n))
    && RunOk(g, policy, r)
  }

  /** Settled nodes stay as they are. */
  ghost predicate KeepsSettled(g: Dag, r: Rows, t: Rows) {
    forall n {:trigger At(t, n)} :: n in g.nodes && Settled(At(r, n)) ==> At(t, n) == At(r, n)
  }

  /** What never changes back: settled nodes, dispatch, final task statuses, the verdict on a run. */
  ghost predicate Later(g: Dag, r: Rows, t: Rows) {
    && KeepsSettled(g, r, t)
    && (forall n {:trigger At(t, n)} :: n in g.nodes && !At(r, n).NodePending? ==> !At(t, n).NodePending?)
    && (forall n :: n in r.task ==> n in t.task && (Absorbing(r.task[n]) ==> t.task[n] == r.task[n]))
    && (Over(r.run) ==> t.run == r.run)
  }

  lemma LaterTrans(g: Dag, r: Rows, t: Rows, u: Rows)
    requires Later(g, r, t) && Later(g, t, u)
    ensures Later(g, r, u)
  {
    forall n | n in g.nodes && Settled(At(r, n)) ensures At(u, n) == At(r, n) {
      assert At(t, n) == At(r, n);
    }
    forall n | n in g.nodes && !At(r, n).NodePending? ensures !At(u, n).NodePending? {
      assert !At(t, n).NodePending?;
    }
  }

  lemma Monotone(g: Dag, r: Rows, t: Rows, n: Node)
    requires KeepsSettled(g, r, t)
    ensures AllSucceeded(g, r, n) ==> AllSucceeded(g, t, n)
    ensures Blocked(g, r, n) ==> Blocked(g, t, n)
    ensures AnyFailed(g, r) ==> AnyFailed(g, t)
  {
    if AllSucceeded(g, r, n) {
      forall u | u in Preds(g, n) ensures At(t, u).NodeSuccess? {
        assert At(r, u).NodeSuccess?;
      }
    }
    if Blocked(g, r, n) {
      var u :| u in Preds(g, n) && (At(r, u).NodeFailed? || At(r, u).NodeSkipped?);
      assert At(t, u) == At(r, u);
    }
    if AnyFailed(g, r) {
      var u :| u in g.nodes && At(r, u).NodeFailed?;
      assert At(t, u) == At(r, u);
    }
  }

  lemma DispatchKeepsOk(g: Dag, policy: Policy, r: Rows, n: Node)
    requires RowsOk(g, policy, r) && n in g.nodes && AllSucceeded(g, r, n)
    ensures RowsOk(g, policy, TryDispatch(r, n)) && Later(g, r, TryDispatch(r, n))
  {
    var t := TryDispatch(r, n);
    if t != r {
      assert NodeOk(g, policy, r, n);
      forall m | m in g.nodes ensures NodeOk(g, policy, t, m) {
        assert NodeOk(g, policy, r, m);
        Monotone(g, r, t, m);
        Monotone(g, r, t, n);
      }
    }
  }

  lemma SkipKeepsOk(g: Dag, policy: Policy, r: Rows, n: Node)
    requires RowsOk(g, policy, r) && n in g.nodes && Blocked(g, r, n)
    ensures RowsOk(g, policy, TrySkip(r, n)) && Later(g, r, TrySkip(r, n))
  {
    var t := TrySkip(r, n);
    if t != r {
      BlockedMeansFailure(g, policy, r, n);
      assert NodeOk(g, policy, r, n);
      forall m | m in g.nodes ensures NodeOk(g, policy, t, m) {
        assert NodeOk(g, policy, r, m);
        Monotone(g, r, t, m);
        Monotone(g, r, t, n);
      }
    }
  }

  /** A blocked node has a failure somewhere in its run. */
  lemma BlockedMeansFailure(g: Dag, policy: Policy, r: Rows, n: Node)
    requires RowsOk(g, policy, r) && Blocked(g, r, n)
    ensures AnyFailed(g, r)
  {
    var u :| u in Preds(g, n) && (At(r, u).NodeFailed? || At(r, u).NodeSkipped?);
    assert NodeOk(g, policy, r, u);
  }

  lemma ConcludeKeepsOk(g: Dag, policy: Policy, r: Rows, n: Node, x: TaskStatus)
    requires RowsOk(g, policy, r) && n in r.task && r.task[n] == x && Reportable(x)
    ensures RowsOk(g, policy, Conclude(r, n, x)) && Later(g, r, Conclude(r, n, x))
  {
    var t := Conclude(r, n, x);
    assert NodeOk(g, policy, r, n);
    forall m | m in g.nodes ensures NodeOk(g, policy, t, m) {
      assert NodeOk(g, policy, r, m);
      Monotone(g, r, t, m);
    }
    Monotone(g, r, t, n);
  }

  lemma AbortKeepsOk(g: Dag, r: Rows, n: Node)
    requires RowsOk(g, FailFast, r) && n in g.nodes && At(r, n).NodeFailed?
    ensures RowsOk(g, FailFast, AbortRun(r)) && Later(g, r, AbortRun(r))
  {
    var t := AbortRun(r);
    assert At(t, n).NodeFailed?;
    forall m | m in g.nodes ensures NodeOk(g, FailFast, t, m) {
      assert NodeOk(g, FailFast, r, m);
      Monotone(g, r, t, m);
    }
  }

  /** Writing the verdict on a settled run; if the run was concluded before, the verdict is the one it has. */
  lemma FinalizeKeepsOk(g: Dag, policy: Policy, r: Rows)
    requires RowsOk(g, policy, r) && AllSettled(g, r)
    ensures RowsOk(g, policy, r.(run := Verdict(g, r))) && Later(g, r, r.(run := Verdict(g, r)))
  {
    var t := r.(run := Verdict(g, r));
    SettledVerdict(g, policy, r);
    forall m | m in g.nodes ensures NodeOk(g, policy, t, m) {
      assert NodeOk(g, policy, r, m);
      Monotone(g, r, t, m);
    }
    assert forall n :: At(t, n) == At(r, n);
  }

  /**
   * On a settled run the verdict is SUCCESS exactly when every node succeeded and FAILED exactly when some
   * node failed: a skipped node never comes without a failed one, so the third branch is never taken.
   */
  lemma SettledVerdict(g: Dag, policy: Policy, r: Rows)
    requires RowsOk(g, policy, r) && AllSettled(g, r)
    ensures Verdict(g, r).RunSuccess? <==> AllNodesSucceeded(g, r)
    ensures Verdict(g, r).RunFailed? <==> AnyFailed(g, r)
  {
    if !AllNodesSucceeded(g, r) {
      var n :| n in g.nodes && !At(r, n).NodeSuccess?;
      assert NodeOk(g, policy, r, n);
    }
  }

  /** A task that moves on changes nothing but its own status. */
  lemma TaskMoveKeepsOk(g: Dag, policy: Policy, r: Rows, n: Node, x: TaskStatus)
    requires RowsOk(g, policy, r) && n in r.task && TaskMove(r.task[n], x)
    ensures RowsOk(g, policy, r.(task := r.task[n := x])) && Later(g, r, r.(task := r.task[n := x]))
  {
    var t := r.(task := r.task[n := x]);
    forall m | m in g.nodes ensures NodeOk(g, policy, t, m) {
      assert NodeOk(g, policy, r, m);
      Monotone(g, r, t, m);
    }
    assert forall n :: At(t, n) == At(r, n);
  }
}
