/** What a run comes to: dependency safety, verdicts, skipping, and independence of the schedule. */
module WorkflowOutcomes {
  import opened Graph
  import opened Tasks
  import opened Workflow
  import opened WorkflowProtocol

  // Stability along a run.

  /** From any state of a run to any later one: settled nodes, final tasks and the verdict stay as they are. */
  lemma {:induction false} NothingFlips(c: Config, b: seq<State>, i: nat, j: nat)
    requires IsRun(c, b) && i <= j < |b|
    ensures Later(c.g, b[i].rows, b[j].rows)
    decreases j - i
  {
    if i < j {
      RunsAreSafe(c, b, i);
      SafeAt(c, b, i + 1);
      NothingFlips(c, b, i + 1, j);
      LaterTrans(c.g, b[i].rows, b[i + 1].rows, b[j].rows);
    }
  }

  /** Once a run is over no node is dispatched any more, however many calls are still on their way. */
  lemma OverDispatchesNothing(c: Config, b: seq<State>, i: nat, j: nat)
    requires IsRun(c, b) && i <= j < |b| && Over(b[i].rows.run)
    ensures b[j].rows.task.Keys == b[i].rows.task.Keys
    ensures forall n :: n in c.g.nodes ==> b[j].rows.spawned[n] == b[i].rows.spawned[n]
    ensures c.policy == Continue ==> b[j].rows.status == b[i].rows.status
  {
    RunsAreSafe(c, b, i);
    RunsAreSafe(c, b, j);
    NothingFlips(c, b, i, j);
    var r, t := b[i].rows, b[j].rows;
    forall n | n in c.g.nodes
      ensures Dispatched(At(t, n)) <==> Dispatched(At(r, n))
      ensures n in t.task <==> n in r.task
      ensures t.spawned[n] == r.spawned[n]
    {
      assert NodeOk(c.g, c.policy, r, n);
      assert NodeOk(c.g, c.policy, t, n);
    }
    if c.policy == Continue {
      forall n | n in c.g.nodes ensures t.status[n] == r.status[n] {
        assert At(t, n) == At(r, n);
      }
    }
  }

  // Dependency safety.

  lemma {:induction false} PathSucceeded(g: Dag, policy: Policy, r: Rows, p: seq<Node>)
    requires RowsOk(g, policy, r) && IsPath(g, p) && |p| >= 2 && Dispatched(At(r, p[|p| - 1]))
    ensures At(r, p[0]).NodeSuccess?
  {
    var last := |p| - 1;
    assert Edge(p[last - 1], p[last]) in g.edges;
    assert NodeOk(g, policy, r, p[last]);
    assert p[last - 1] in Preds(g, p[last]);
    if |p| > 2 {
      PathSucceeded(g, policy, r, p[..last]);
    }
  }

  /** In every state of every interleaving, a dispatched node has all of its ancestors in SUCCESS. */
  lemma DependencySafety(c: Config, b: seq<State>, k: nat, a: Node, n: Node)
    requires IsRun(c, b) && k < |b| && Reaches(c.g, a, n) && Dispatched(At(b[k].rows, n))
    ensures At(b[k].rows, a).NodeSuccess? && a in b[k].rows.task && b[k].rows.task[a] == TaskStatus.Success
  {
    RunsAreSafe(c, b, k);
    var p :| PathFromTo(c.g, p, a, n);
    PathSucceeded(c.g, c.policy, b[k].rows, p);
    assert NodeOk(c.g, c.policy, b[k].rows, a);
  }

  /** A node has exactly one task once dispatched and none before; its final status is that of its task. */
  lemma OneTaskPerNode(c: Config, b: seq<State>, k: nat, n: Node)
    requires IsRun(c, b) && k < |b| && n in c.g.nodes
    ensures var r := b[k].rows;
      && r.spawned[n] == (if Dispatched(At(r, n)) then 1 else 0)
      && (n in r.task <==> Dispatched(At(r, n)))
      && (At(r, n).NodeSuccess? ==> r.task[n] == TaskStatus.Success)
      && (At(r, n).NodeFailed? ==> Reportable(r.task[n]) && r.task[n] != TaskStatus.Success)
      // A repeated report, by a worker that comes late, writes what is there already.
      && (Dispatched(At(r, n)) && Settled(At(r, n)) ==> Conclude(r, n, r.task[n]) == r)
  {
    RunsAreSafe(c, b, k);
    assert NodeOk(c.g, c.policy, b[k].rows, n);
  }

  /** What the status of a run that is over says about its nodes. */
  lemma VerdictIsSound(c: Config, b: seq<State>, k: nat)
    requires IsRun(c, b) && k < |b| && Over(b[k].rows.run)
    ensures b[k].rows.run.RunSuccess? <==> AllNodesSucceeded(c.g, b[k].rows)
    ensures b[k].rows.run.RunFailed? <==> AnyFailed(c.g, b[k].rows)
    ensures forall n :: n in c.g.nodes ==> !At(b[k].rows, n).NodePending?
    ensures c.policy == Continue ==> AllSettled(c.g, b[k].rows)
  {
    RunsAreSafe(c, b, k);
  }

  // Skipping.

  /** The engine has nothing left to decide: every pending node but the roots still waits. */
  ghost predicate NothingToDecide(g: Dag, r: Rows) {
    forall n {:trigger Decide(g, r, n)} :: n in g.nodes && At(r, n).NodePending? ==> Decide(g, r, n) == Wait
  }

  ghost predicate FailedAncestor(g: Dag, r: Rows, n: Node) {
    exists a :: Reaches(g, a, n) && At(r, a).NodeFailed?
  }

  lemma BlockedIsSkipped(g: Dag, policy: Policy, r: Rows, n: Node, u: Node)
    requires RowsOk(g, policy, r) && NothingToDecide(g, r)
    requires Edge(u, n) in g.edges && (At(r, u).NodeFailed? || At(r, u).NodeSkipped?)
    ensures At(r, n).NodeSkipped?
  {
    assert u in Preds(g, n);
    assert Decide(g, r, n) == Skip;
    assert NodeOk(g, policy, r, n);
  }

  lemma {:induction false} FailureSkipsPath(g: Dag, policy: Policy, r: Rows, p: seq<Node>)
    requires RowsOk(g, policy, r) && NothingToDecide(g, r)
    requires IsPath(g, p) && |p| >= 2 && At(r, p[0]).NodeFailed?
    ensures At(r, p[|p| - 1]).NodeSkipped?
  {
    var last := |p| - 1;
    if |p| > 2 {
      FailureSkipsPath(g, policy, r, p[..last]);
    }
    BlockedIsSkipped(g, policy, r, p[last], p[last - 1]);
  }

  lemma {:induction false} SkippedHasFailedAncestor(g: Dag, r: Rows, rank: map<Node, nat>, n: Node)
    requires RowsOk(g, Continue, r) && Ranked(g, rank) && n in g.nodes && At(r, n).NodeSkipped?
    ensures FailedAncestor(g, r, n)
    decreases rank[n]
  {
    assert NodeOk(g, Continue, r, n);
    var u :| u in Preds(g, n) && (At(r, u).NodeFailed? || At(r, u).NodeSkipped?);
    assert Edge(u, n) in g.edges;
    if At(r, u).NodeFailed? {
      EdgeReaches(g, u, n);
    } else {
      SkippedHasFailedAncestor(g, r, rank, u);
      var a :| Reaches(g, a, u) && At(r, a).NodeFailed?;
      ReachesStep(g, a, u, n);
    }
  }

  /**
   * Under CONTINUE, with nothing left to decide, skipping is exactly reachability from a failure, and a
   * node with dependencies is dispatched exactly when all of them succeeded.
   */
  lemma SkippedIffFailedAncestor(g: Dag, r: Rows, rank: map<Node, nat>, n: Node)
    requires RowsOk(g, Continue, r) && Ranked(g, rank) && NothingToDecide(g, r) && n in g.nodes
    ensures At(r, n).NodeSkipped? <==> FailedAncestor(g, r, n)
    ensures !IsRoot(g, n) ==> (Dispatched(At(r, n)) <==> AllSucceeded(g, r, n))
  {
    assert NodeOk(g, Continue, r, n);
    if At(r, n).NodeSkipped? {
      SkippedHasFailedAncestor(g, r, rank, n);
    } else if FailedAncestor(g, r, n) {
      var a :| Reaches(g, a, n) && At(r, a).NodeFailed?;
      var p :| PathFromTo(g, p, a, n);
      FailureSkipsPath(g, Continue, r, p);
    }
    if At(r, n).NodePending? {
      assert Decide(g, r, n) == Wait;
    }
  }

  /** A CONTINUE run that is over has skipped exactly the descendants of its failed nodes, in any interleaving. */
  lemma FinishedRunSkipsDescendants(g: Dag, rank: map<Node, nat>, b: seq<State>, k: nat, n: Node)
    requires Ranked(g, rank) && IsRun(Config(g, Continue), b) && k < |b| && Over(b[k].rows.run) && n in g.nodes
    ensures At(b[k].rows, n).NodeSkipped? <==> FailedAncestor(g, b[k].rows, n)
    ensures Dispatched(At(b[k].rows, n)) <==> AllSucceeded(g, b[k].rows, n)
  {
    RunsAreSafe(Config(g, Continue), b, k);
    assert NodeOk(g, Continue, b[k].rows, n);
    SkippedIffFailedAncestor(g, b[k].rows, rank, n);
  }

  // Two runs of one workflow.

  /** Wherever both runs brought the task of a node to a final status, it succeeded in both or in neither. */
  ghost predicate SameOutcomes(r: Rows, t: Rows) {
    forall n {:trigger r.task[n]} :: n in r.task && n in t.task && Reportable(r.task[n]) && Reportable(t.task[n]) ==>
      (r.task[n] == TaskStatus.Success <==> t.task[n] == TaskStatus.Success)
  }

  lemma SameOutcomesSameNode(g: Dag, p: Policy, q: Policy, r: Rows, t: Rows, n: Node)
    requires RowsOk(g, p, r) && RowsOk(g, q, t) && SameOutcomes(r, t) && n in g.nodes
    requires Dispatched(At(r, n)) && Settled(At(r, n)) && Dispatched(At(t, n)) && Settled(At(t, n))
    ensures At(r, n) == At(t, n)
  {
    assert NodeOk(g, p, r, n);
    assert NodeOk(g, q, t, n);
  }

  lemma {:induction false} SameNode(g: Dag, rank: map<Node, nat>, r: Rows, t: Rows, n: Node)
    requires Ranked(g, rank) && RowsOk(g, Continue, r) && RowsOk(g, Continue, t) && SameOutcomes(r, t)
    requires AllSettled(g, r) && AllSettled(g, t) && n in g.nodes
    ensures At(r, n) == At(t, n)
    decreases rank[n]
  {
    forall u | u in Preds(g, n) ensures At(r, u) == At(t, u) {
      assert Edge(u, n) in g.edges;
      SameNode(g, rank, r, t, u);
    }
    assert NodeOk(g, Continue, r, n);
    assert NodeOk(g, Continue, t, n);
    assert AllSucceeded(g, r, n) <==> AllSucceeded(g, t, n);
    if Dispatched(At(r, n)) && Dispatched(At(t, n)) {
      SameOutcomesSameNode(g, Continue, Continue, r, t, n);
    }
  }

  /**
   * Under CONTINUE the schedule does not matter: two runs of one workflow that are over, and whose tasks had
   * the same outcomes, agree on the status of every node and on the verdict, whatever the interleavings.
   */
  lemma ScheduleIndependence(g: Dag, rank: map<Node, nat>, b: seq<State>, i: nat, d: seq<State>, j: nat)
    requires Ranked(g, rank)
    requires IsRun(Config(g, Continue), b) && i < |b| && Over(b[i].rows.run)
    requires IsRun(Config(g, Continue), d) && j < |d| && Over(d[j].rows.run)
    requires SameOutcomes(b[i].rows, d[j].rows)
    ensures b[i].rows.status == d[j].rows.status && b[i].rows.run == d[j].rows.run
  {
    var r, t := b[i].rows, d[j].rows;
    RunsAreSafe(Config(g, Continue), b, i);
    RunsAreSafe(Config(g, Continue), d, j);
    forall n | n in g.nodes ensures At(r, n) == At(t, n) {
      SameNode(g, rank, r, t, n);
    }
    assert r.status == t.status;
    assert AllNodesSucceeded(g, r) <==> AllNodesSucceeded(g, t);
    VerdictIsSound(Config(g, Continue), b, i);
    VerdictIsSound(Config(g, Continue), d, j);
  }

  /** What FAIL_FAST dispatches, CONTINUE dispatches as well. */
  lemma {:induction false} DispatchedUnderBoth(g: Dag, rank: map<Node, nat>, r: Rows, t: Rows, n: Node)
    requires Ranked(g, rank) && RowsOk(g, FailFast, r) && RowsOk(g, Continue, t) && SameOutcomes(r, t)
    requires AllSettled(g, t) && n in g.nodes && Dispatched(At(r, n))
    ensures Dispatched(At(t, n))
    decreases rank[n]
  {
    assert NodeOk(g, FailFast, r, n);
    assert NodeOk(g, Continue, t, n);
    forall u | u in Preds(g, n) ensures At(t, u).NodeSuccess? {
      assert Edge(u, n) in g.edges;
      assert At(r, u).NodeSuccess?;
      DispatchedUnderBoth(g, rank, r, t, u);
      SameOutcomesSameNode(g, FailFast, Continue, r, t, u);
    }
  }

  /**
   * The two policies reach the same verdict on the same outcomes, SUCCESS exactly when every node succeeded,
   * and FAIL_FAST dispatches no node that CONTINUE does not dispatch.
   */
  lemma PoliciesAgree(g: Dag, rank: map<Node, nat>, b: seq<State>, i: nat, d: seq<State>, j: nat)
    requires Ranked(g, rank)
    requires IsRun(Config(g, FailFast), b) && i < |b| && Over(b[i].rows.run)
    requires IsRun(Config(g, Continue), d) && j < |d| && Over(d[j].rows.run)
    requires SameOutcomes(b[i].rows, d[j].rows)
    ensures b[i].rows.run == d[j].rows.run
    ensures b[i].rows.task.Keys <= d[j].rows.task.Keys
  {
    var r, t := b[i].rows, d[j].rows;
    RunsAreSafe(Config(g, FailFast), b, i);
    RunsAreSafe(Config(g, Continue), d, j);
    VerdictIsSound(Config(g, FailFast), b, i);
    VerdictIsSound(Config(g, Continue), d, j);
    forall n | n in g.nodes && Dispatched(At(r, n)) ensures Dispatched(At(t, n)) {
      DispatchedUnderBoth(g, rank, r, t, n);
    }
    forall n | n in r.task ensures n in t.task {
      assert NodeOk(g, FailFast, r, n);
      assert NodeOk(g, Continue, t, n);
    }
    SameVerdict(g, r, t);
  }

  lemma SameVerdict(g: Dag, r: Rows, t: Rows)
    requires RowsOk(g, FailFast, r) && RowsOk(g, Continue, t) && SameOutcomes(r, t)
    requires Over(r.run) && Over(t.run)
    requires forall n :: n in g.nodes && Dispatched(At(r, n)) ==> Dispatched(At(t, n))
    ensures r.run == t.run
  {
    if r.run.RunFailed? {
      var n :| n in g.nodes && At(r, n).NodeFailed?;
      SameOutcomesSameNode(g, FailFast, Continue, r, t, n);
    } else {
      forall n | n in g.nodes ensures At(t, n).NodeSuccess? {
        assert At(r, n).NodeSuccess?;
        SameOutcomesSameNode(g, FailFast, Continue, r, t, n);
      }
      assert r.run.RunSuccess?;
      assert !AnyFailed(g, t);
    }
  }
}
