/** The engine itself, one call at a time: start of a run, evaluation loop, completion check, advance. */
module WorkflowEngine {
  import opened Graph
  import opened Tasks
  import opened Workflow
  import opened WorkflowOutcomes

  function PendingNodes(r: Rows): set<Node> {
    set n | n in r.status && r.status[n].NodePending?
  }

  /** What a call may do to the rows besides concluding its own node: dispatch and skip pending nodes. */
  ghost predicate OnlyPendingMoved(g: Dag, r: Rows, t: Rows) {
    && t.run == r.run && t.status.Keys == r.status.Keys
    && (forall n {:trigger At(t, n)} :: n in g.nodes && !At(r, n).NodePending? ==> At(t, n) == At(r, n))
    && (forall n {:trigger At(t, n)} ::
          n in g.nodes && At(r, n).NodePending? ==>
            !Settled(At(t, n)) || (At(t, n).NodeSkipped? && Blocked(g, t, n)))
    && (forall n {:trigger IsRoot(g, n)} :: IsRoot(g, n) ==> At(t, n) == At(r, n))
    && (forall n {:trigger t.task[n]} :: n in t.task ==> t.task[n] == if n in r.task then r.task[n] else Queued)
    && r.task.Keys <= t.task.Keys
    && PendingNodes(t) <= PendingNodes(r)
  }

  lemma ActMovesOnlyPending(g: Dag, policy: Policy, r: Rows, n: Node)
    requires RowsOk(g, policy, r) && n in g.nodes
    ensures OnlyPendingMoved(g, r, Act(r, n, Decide(g, r, n)))
    ensures At(r, n).NodePending? && Decide(g, r, n) != Wait ==> n !in PendingNodes(Act(r, n, Decide(g, r, n)))
  {
    assert NodeOk(g, policy, r, n);
    var t := Act(r, n, Decide(g, r, n));
    assert forall m :: m in g.nodes && m != n ==> At(t, m) == At(r, m);
  }

  lemma OnlyPendingMovedTrans(g: Dag, r: Rows, t: Rows, u: Rows)
    requires OnlyPendingMoved(g, r, t) && OnlyPendingMoved(g, t, u)
    requires KeepsSettled(g, t, u)
    ensures OnlyPendingMoved(g, r, u)
  {
    forall n | n in g.nodes
      ensures !At(r, n).NodePending? ==> At(u, n) == At(r, n)
      ensures At(r, n).NodePending? ==> !Settled(At(u, n)) || (At(u, n).NodeSkipped? && Blocked(g, u, n))
    {
      assert At(t, n) == At(t, n);
      Monotone(g, t, u, n);
    }
    forall n | n in u.task ensures u.task[n] == if n in r.task then r.task[n] else Queued {
      if n in t.task {
        assert t.task[n] == if n in r.task then r.task[n] else Queued;
      }
    }
  }

  ghost predicate Progress(g: Dag, policy: Policy, r: Rows, t: Rows) {
    RowsOk(g, policy, t) && Later(g, r, t) && OnlyPendingMoved(g, r, t)
  }

  lemma ProgressTrans(g: Dag, policy: Policy, r: Rows, t: Rows, u: Rows)
    requires Progress(g, policy, r, t) && Progress(g, policy, t, u)
    ensures Progress(g, policy, r, u)
  {
    LaterTrans(g, r, t, u);
    OnlyPendingMovedTrans(g, r, t, u);
  }

  lemma ProgressRefl(g: Dag, policy: Policy, r: Rows)
    requires RowsOk(g, policy, r)
    ensures Progress(g, policy, r, r)
  {
    forall n | n in g.nodes ensures n in r.task ==> !At(r, n).NodePending? {
      assert NodeOk(g, policy, r, n);
    }
  }

  /** Skipping is exactly reachability from a failure; being dispatched is having all dependencies succeed. */
  ghost predicate CascadeComplete(g: Dag, r: Rows) {
    forall n {:trigger At(r, n)} :: n in g.nodes ==>
      && (At(r, n).NodeSkipped? <==> FailedAncestor(g, r, n))
      && (!IsRoot(g, n) ==> (Dispatched(At(r, n)) <==> AllSucceeded(g, r, n)))
  }

  lemma CascadeIsComplete(g: Dag, r: Rows)
    requires RowsOk(g, Continue, r) && NothingToDecide(g, r) && HasRank(g)
    ensures CascadeComplete(g, r)
  {
    var rank :| Ranked(g, rank);
    forall n | n in g.nodes
      ensures At(r, n).NodeSkipped? <==> FailedAncestor(g, r, n)
      ensures !IsRoot(g, n) ==> (Dispatched(At(r, n)) <==> AllSucceeded(g, r, n))
    {
      SkippedIffFailedAncestor(g, r, rank, n);
    }
  }

  /**
   * What a report of the final status `t` of the task of `n` makes of the rows, if nobody else acts: nothing once
   * the run is over; else the node takes the status over, and either all pending nodes are skipped and the run
   * fails, or what can be decided is decided and the run is concluded exactly if all is settled.
   */
  ghost predicate Advanced(g: Dag, policy: Policy, r: Rows, n: Node, t: TaskStatus, z: Rows) {
    && RowsOk(g, policy, z) && Later(g, r, z)
    && if Over(r.run) then z == r
       else if policy == FailFast && t != TaskStatus.Success then z == AbortRun(Conclude(r, n, t))
       else
         && NothingToDecide(g, z) && (Over(z.run) <==> AllSettled(g, z))
         && OnlyPendingMoved(g, Conclude(r, n, t), z.(run := r.run))
  }

  class WorkflowRun {
    const g: Dag
    const policy: Policy
    var rows: Rows
    /** Node of each task id handed to the publisher so far. */
    var published: seq<Node>

    ghost predicate Valid()
      reads this
    {
      RowsOk(g, policy, rows) && multiset(published) == rows.spawned
    }

    /** The rows of a new run, then every node without dependencies is dispatched. */
    constructor (g: Dag, policy: Policy)
      requires WellFormed(g)
      ensures Valid() && this.g == g && this.policy == policy && rows.run == RunRunning
      ensures forall n :: n in g.nodes ==> At(rows, n) == if IsRoot(g, n) then NodeRunning else NodePending
      ensures forall n :: n in g.nodes && IsRoot(g, n) ==> n in rows.task && rows.task[n] == Queued
    {
      this.g, this.policy := g, policy;
      rows := Rows(map n | n in g.nodes :: NodePending, RunRunning, map[], multiset{});
      published := [];
      new;
      forall n | n in g.nodes ensures NodeOk(g, policy, rows, n) {
        assert At(rows, n).NodePending?;
      }
      DispatchRoots();
    }

    /** Dispatches every node that no edge leads to. */
    method DispatchRoots()
      requires Valid() && rows.task == map[] && rows.run == RunRunning
      requires forall n :: n in g.nodes ==> At(rows, n) == NodePending
      modifies this
      ensures Valid() && rows.run == RunRunning
      ensures forall n :: n in g.nodes ==> At(rows, n) == if IsRoot(g, n) then NodeRunning else NodePending
      ensures forall n :: n in g.nodes && IsRoot(g, n) ==> n in rows.task && rows.task[n] == Queued
    {
      var todo := g.nodes;
      while todo != {}
        invariant Valid() && rows.run == RunRunning && todo <= g.nodes
        invariant forall n :: n in g.nodes ==>
          At(rows, n) == if IsRoot(g, n) && n !in todo then NodeRunning else NodePending
        invariant forall n :: n in rows.task ==> rows.task[n] == Queued
        decreases todo
      {
        var n :| n in todo;
        todo := todo - {n};
        if IsRoot(g, n) {
          var _ := DispatchNode(n);
        }
      }
      forall n | n in g.nodes && IsRoot(g, n) ensures n in rows.task {
        assert NodeOk(g, policy, rows, n);
      }
    }

    /**
     * PENDING to RUNNING with a fresh task, then one push; nothing at all if the node was taken before. It
     * is up to the caller that the dependencies succeeded: then the rows stay sound.
     */
    method DispatchNode(n: Node) returns (claimed: bool)
      requires n in rows.status
      modifies this
      ensures old(Valid() && n in g.nodes && AllSucceeded(g, rows, n)) ==> Valid() && Later(g, old(rows), rows)
      ensures claimed <==> At(old(rows), n).NodePending?
      ensures rows == TryDispatch(old(rows), n)
      ensures published == old(published) + (if claimed then [n] else [])
    {
      if Valid() && n in g.nodes && AllSucceeded(g, rows, n) {
        DispatchKeepsOk(g, policy, rows, n);
      }
      claimed := rows.status[n].NodePending?;
      if claimed {
        rows := TryDispatch(rows, n);
        published := published + [n];
      }
    }

    /** PENDING to SKIPPED, unless the node was taken before. Sound if a dependency failed or was skipped. */
    method SkipNode(n: Node) returns (claimed: bool)
      requires n in rows.status
      modifies this
      ensures old(Valid() && n in g.nodes && Blocked(g, rows, n)) ==> Valid() && Later(g, old(rows), rows)
      ensures claimed <==> At(old(rows), n).NodePending?
      ensures rows == TrySkip(old(rows), n) && published == old(published)
    {
      if Valid() && n in g.nodes && Blocked(g, rows, n) {
        SkipKeepsOk(g, policy, rows, n);
      }
      claimed := rows.status[n].NodePending?;
      rows := TrySkip(rows, n);
    }

    /** One node of a pass: look at its dependencies, then skip it, dispatch it, or leave it. */
    method Visit(n: Node) returns (took: bool)
      requires Valid() && n in g.nodes
      modifies this
      ensures Valid() && Progress(g, policy, old(rows), rows)
      ensures rows == Act(old(rows), n, Decide(g, old(rows), n))
      ensures took <==> At(old(rows), n).NodePending? && Decide(g, old(rows), n) != Wait
      ensures took ==> n in PendingNodes(old(rows)) && n !in PendingNodes(rows)
      ensures !took ==> rows == old(rows) && published == old(published)
    {
      took := false;
      ActMovesOnlyPending(g, policy, rows, n);
      ProgressRefl(g, policy, rows);
      if Preds(g, n) != {} {
        if Blocked(g, rows, n) {
          took := SkipNode(n);
        } else if AllSucceeded(g, rows, n) {
          took := DispatchNode(n);
        }
      }
    }

    /** One pass over the nodes that were pending when it began. */
    method Pass() returns (changed: bool)
      requires Valid()
      modifies this
      ensures Valid() && Progress(g, policy, old(rows), rows)
      ensures changed ==> PendingNodes(rows) < PendingNodes(old(rows))
      ensures !changed ==> rows == old(rows) && published == old(published) && NothingToDecide(g, rows)
    {
      changed := false;
      var todo := PendingNodes(rows);
      ProgressRefl(g, policy, rows);
      while todo != {}
        invariant Valid() && Progress(g, policy, old(rows), rows) && todo <= g.nodes
        invariant changed ==> PendingNodes(rows) < PendingNodes(old(rows))
        invariant !changed ==> rows == old(rows) && published == old(published)
        invariant !changed ==> forall n {:trigger Decide(g, rows, n)} ::
                    n in PendingNodes(rows) && n !in todo ==> Decide(g, rows, n) == Wait
        decreases todo
      {
        var n :| n in todo;
        todo := todo - {n};
        ghost var before := rows;
        var took := Visit(n);
        ProgressTrans(g, policy, old(rows), before, rows);
        changed := changed || took;
      }
    }

    /** Passes until one changes nothing. Each pass that changes something leaves fewer nodes pending. */
    method EvaluatePendingNodes()
      requires Valid()
      modifies this
      ensures Valid() && Progress(g, policy, old(rows), rows) && NothingToDecide(g, rows)
    {
      var changed := true;
      ProgressRefl(g, policy, rows);
      while changed
        invariant Valid() && Progress(g, policy, old(rows), rows)
        invariant !changed ==> NothingToDecide(g, rows)
        decreases PendingNodes(rows), changed
      {
        ghost var before := rows;
        changed := Pass();
        ProgressTrans(g, policy, old(rows), before, rows);
      }
    }

    /** Writes the verdict once every node is settled, and does nothing otherwise. */
    method CheckCompletion()
      requires Valid() && g.nodes != {}
      modifies this
      ensures Valid() && Later(g, old(rows), rows) && published == old(published)
      ensures rows == old(rows).(run := rows.run)
      ensures !Over(old(rows).run) ==> (Over(rows.run) <==> AllSettled(g, rows))
    {
      if !Over(rows.run) && AllSettled(g, rows) {
        FinalizeKeepsOk(g, policy, rows);
        rows := rows.(run := Verdict(g, rows));
      }
    }

    /**
     * A worker reports the final status of the task of `n`. The node takes it over; then either the run is
     * aborted, or everything that can be decided is decided and the run is concluded if all is settled.
     */
    method Advance(n: Node, t: TaskStatus)
      requires Valid() && n in rows.task && rows.task[n] == t && Reportable(t)
      modifies this
      ensures Valid() && Advanced(g, policy, old(rows), n, t, rows)
      ensures Over(old(rows).run) || (policy == FailFast && t != TaskStatus.Success) ==> published == old(published)
      ensures !Over(old(rows).run) ==>
        && At(rows, n) == Verdictful(t)
        && NothingToDecide(g, rows)
        && (policy == Continue && HasRank(g) ==> CascadeComplete(g, rows))
    {
      if Over(rows.run) {
        LaterRefl(g, policy, rows);
        return;
      }
      ConcludeKeepsOk(g, policy, rows, n, t);
      rows := Conclude(rows, n, t);
      ghost var marked := rows;
      if At(rows, n).NodeFailed? && policy == FailFast {
        AbortKeepsOk(g, rows, n);
        rows := AbortRun(rows);
        LaterTrans(g, old(rows), marked, rows);
      } else {
        EvaluatePendingNodes();
        ghost var evaluated := rows;
        CheckCompletion();
        LaterTrans(g, old(rows), marked, evaluated);
        LaterTrans(g, old(rows), evaluated, rows);
        SameStatusSameDecisions(g, evaluated, rows);
        assert At(evaluated, n) == At(marked, n);
        if policy == Continue && HasRank(g) {
          CascadeIsComplete(g, rows);
        }
      }
    }
  }

  lemma LaterRefl(g: Dag, policy: Policy, r: Rows)
    requires RowsOk(g, policy, r)
    ensures Later(g, r, r)
  {
  }

  lemma SameStatusSameDecisions(g: Dag, r: Rows, t: Rows)
    requires NothingToDecide(g, r) && t == r.(run := t.run)
    ensures NothingToDecide(g, t)
  {
    assert forall n :: At(t, n) == At(r, n);
    forall n | n in g.nodes && At(t, n).NodePending? ensures Decide(g, t, n) == Wait {
      assert Decide(g, r, n) == Wait;
      assert Blocked(g, t, n) ==> Blocked(g, r, n);
      assert AllSucceeded(g, t, n) ==> AllSucceeded(g, r, n);
    }
  }

  // There is only one way to do what a call promises.

  lemma {:induction false} SameDecided(g: Dag, policy: Policy, rank: map<Node, nat>, r: Rows, y: Rows, z: Rows, n: Node)
    requires Ranked(g, rank) && RowsOk(g, policy, y) && RowsOk(g, policy, z) && n in g.nodes
    requires NothingToDecide(g, y) && OnlyPendingMoved(g, r, y.(run := r.run))
    requires NothingToDecide(g, z) && OnlyPendingMoved(g, r, z.(run := r.run))
    ensures At(y, n) == At(z, n)
    decreases rank[n]
  {
    forall u | u in Preds(g, n) ensures At(y, u) == At(z, u) {
      assert Edge(u, n) in g.edges;
      SameDecided(g, policy, rank, r, y, z, u);
    }
    DecidedByPreds(g, policy, r, y, n);
    DecidedByPreds(g, policy, r, z, n);
    assert Blocked(g, y, n) <==> Blocked(g, z, n);
    assert AllSucceeded(g, y, n) <==> AllSucceeded(g, z, n);
  }

  /** With nothing left to decide, a node that was pending stands where its dependencies say. */
  lemma DecidedByPreds(g: Dag, policy: Policy, r: Rows, z: Rows, n: Node)
    requires RowsOk(g, policy, z) && NothingToDecide(g, z) && OnlyPendingMoved(g, r, z.(run := r.run)) && n in g.nodes
    ensures At(r, n).NodePending? && !IsRoot(g, n) ==>
      At(z, n) == if Blocked(g, z, n) then NodeSkipped else if AllSucceeded(g, z, n) then NodeRunning else NodePending
    ensures !At(r, n).NodePending? || IsRoot(g, n) ==> At(z, n) == At(r, n)
  {
    var t := z.(run := r.run);
    assert At(t, n) == At(z, n);
    assert Blocked(g, t, n) ==> Blocked(g, z, n);
    assert NodeOk(g, policy, z, n);
    if At(z, n).NodePending? {
      assert Decide(g, z, n) == Wait;
    }
  }

  lemma SameStatusSameRun(g: Dag, policy: Policy, y: Rows, z: Rows)
    requires RowsOk(g, policy, y) && RowsOk(g, policy, z) && forall n :: n in g.nodes ==> At(y, n) == At(z, n)
    requires Over(y.run) <==> AllSettled(g, y)
    requires Over(z.run) <==> AllSettled(g, z)
    ensures y.run == z.run
  {
    assert AnyFailed(g, y) <==> AnyFailed(g, z);
    assert AllNodesSucceeded(g, y) <==> AllNodesSucceeded(g, z);
  }

  lemma SameStatusSameTasks(g: Dag, policy: Policy, r: Rows, y: Rows, z: Rows)
    requires RowsOk(g, policy, y) && RowsOk(g, policy, z) && forall n :: n in g.nodes ==> At(y, n) == At(z, n)
    requires OnlyPendingMoved(g, r, y.(run := r.run)) && OnlyPendingMoved(g, r, z.(run := r.run))
    ensures y.task == z.task && y.spawned == z.spawned && y.status == z.status
  {
    forall n | n in g.nodes
      ensures n in y.task <==> n in z.task
      ensures y.spawned[n] == z.spawned[n] && y.status[n] == z.status[n]
    {
      assert NodeOk(g, policy, y, n);
      assert NodeOk(g, policy, z, n);
      assert At(y, n) == At(z, n);
    }
    forall n | n in y.task ensures y.task[n] == z.task[n] {
      assert y.(run := r.run).task[n] == z.(run := r.run).task[n];
    }
    forall n ensures y.spawned[n] == z.spawned[n] {
      if n !in g.nodes {
        assert n !in y.spawned && n !in z.spawned;
      }
    }
  }

  /** On an acyclic workflow the promise of a report leaves nothing open: it determines all rows. */
  lemma AdvancedIsUnique(g: Dag, policy: Policy, rank: map<Node, nat>, r: Rows, n: Node, t: TaskStatus, y: Rows,
                         z: Rows)
    requires Ranked(g, rank) && Advanced(g, policy, r, n, t, y) && Advanced(g, policy, r, n, t, z)
    ensures y == z
  {
    if !Over(r.run) && (policy == Continue || t == TaskStatus.Success) {
      var marked := Conclude(r, n, t);
      forall m | m in g.nodes ensures At(y, m) == At(z, m) {
        SameDecided(g, policy, rank, marked, y, z, m);
      }
      SameStatusSameTasks(g, policy, marked, y, z);
      SameStatusSameRun(g, policy, y, z);
    }
  }
}
