/** How runs end: a failure aborts a FAIL_FAST run, and what is over stays as it is. */
module WorkflowEndings {
  import opened Graph
  import opened Options
  import opened Tasks
  import opened Workflow
  import opened WorkflowProtocol
  import opened WorkflowOutcomes
  import opened WorkflowProgress
  import opened WorkflowDeaths

  // FAIL_FAST.

  ghost predicate SomeAborts(procs: map<nat, Proc>) {
    exists i :: i in procs && procs[i].FailingFast?
  }

  /** If a node failed under FAIL_FAST, the run is over or a call is about to abort it. */
  ghost predicate AbortAhead(c: Config, s: State) {
    c.policy == FailFast && AnyFailed(c.g, s.rows) ==> Over(s.rows.run) || SomeAborts(s.procs)
  }

  /** A call dies that was about to abort the run. */
  ghost predicate AborterDies(c: Config, s: State, t: State) {
    exists i :: CallDies(c, s, t, i) && s.procs[i].FailingFast?
  }

  /** A node that fails was marked by a call, and that call aborts the run next. */
  lemma FailureIsMarked(c: Config, r: Rows, p: Proc, r': Rows, p': Option<Proc>)
    requires RowsOk(c.g, c.policy, r) && ProcOk(c, r, p) && ProcStep(c, r, p, r', p') && c.policy == FailFast
    ensures AnyFailed(c.g, r') && !AnyFailed(c.g, r) ==> p'.Some? && p'.value.FailingFast?
  {
    if u :| u in c.g.nodes && At(r', u).NodeFailed? && !At(r, u).NodeFailed? {
      match p
      case Starting(_) =>
      case Marking(_, _) =>
      case FailingFast(_) =>
      case Acting(_, _, _, _, _) =>
      case _ =>
    }
  }

  lemma CallKeepsAbortAhead(c: Config, s: State, t: State, i: nat)
    requires Safe(c, s) && AbortAhead(c, s) && CallSteps(c, s, t, i)
    ensures AbortAhead(c, t)
  {
    var p: Option<Proc> :|
      ProcStep(c, s.rows, s.procs[i], t.rows, p) && t == s.(rows := t.rows, procs := Put(s.procs, i, p));
    assert ProcOk(c, s.rows, s.procs[i]);
    StepIsSafe(c, s, t);
    if c.policy == FailFast && AnyFailed(c.g, t.rows) && !Over(t.rows.run) {
      FailureIsMarked(c, s.rows, s.procs[i], t.rows, p);
      if !AnyFailed(c.g, s.rows) {
        assert t.procs[i].FailingFast?;
      } else {
        var j :| j in s.procs && s.procs[j].FailingFast?;
        assert j in t.procs && t.procs[j].FailingFast?;
      }
    }
  }

  lemma StepKeepsAbortAhead(c: Config, s: State, t: State)
    requires Safe(c, s) && AbortAhead(c, s) && Next(c, s, t) && !AborterDies(c, s, t)
    ensures AbortAhead(c, t)
  {
    if i :| CallSteps(c, s, t, i) {
      CallKeepsAbortAhead(c, s, t, i);
    } else {
      assert forall n :: At(t.rows, n) == At(s.rows, n);
      assert AnyFailed(c.g, t.rows) ==> AnyFailed(c.g, s.rows);
      assert SomeAborts(s.procs) ==> SomeAborts(t.procs) by {
        if j :| j in s.procs && s.procs[j].FailingFast? {
          assert j in t.procs && t.procs[j].FailingFast?;
        }
      }
    }
  }

  lemma {:induction false} RunsAbort(c: Config, b: seq<State>, k: nat)
    requires IsRun(c, b) && k < |b| && forall i :: 0 < i <= k ==> !AborterDies(c, b[i - 1], b[i])
    ensures AbortAhead(c, b[k])
  {
    assert StepAt(c, b, k);
    if k == 0 {
      assert forall n :: n in c.g.nodes ==> At(b[0].rows, n).NodePending?;
    } else {
      RunsAbort(c, b, k - 1);
      RunsAreSafe(c, b, k - 1);
      StepKeepsAbortAhead(c, b[k - 1], b[k]);
    }
  }

  /**
   * A FAIL_FAST run fails as soon as one of its nodes does: whenever no call is about to abort it, it has failed
   * exactly if some node has. All deaths of calls are allowed but those of calls that are about to abort the run.
   */
  lemma FailFastAborts(c: Config, b: seq<State>, k: nat)
    requires IsRun(c, b) && k < |b| && c.policy == FailFast && !SomeAborts(b[k].procs)
    requires forall i :: 0 < i <= k ==> !AborterDies(c, b[i - 1], b[i])
    ensures b[k].rows.run.RunFailed? <==> AnyFailed(c.g, b[k].rows)
    ensures AnyFailed(c.g, b[k].rows) ==> forall n :: n in c.g.nodes ==> !At(b[k].rows, n).NodePending?
  {
    RunsAbort(c, b, k);
    RunsAreSafe(c, b, k);
    if AnyFailed(c.g, b[k].rows) {
      VerdictIsSound(c, b, k);
    }
  }

  // What is over.

  /** No call is about to write a node that is still running. */
  ghost predicate NobodyMarks(s: State) {
    forall i {:trigger s.procs[i]} :: i in s.procs && s.procs[i].Marking? ==> !At(s.rows, s.procs[i].n).NodeRunning?
  }

  lemma CallFrozen(c: Config, r: Rows, p: Proc, r': Rows, p': Option<Proc>)
    requires RowsOk(c.g, c.policy, r) && ProcOk(c, r, p) && ProcStep(c, r, p, r', p') && Over(r.run)
    requires p.Marking? ==> !At(r, p.n).NodeRunning?
    ensures r'.status == r.status && r'.run == r.run && r'.task == r.task && (p'.Some? ==> !p'.value.Marking?)
  {
    match p
    case Starting(roots) =>
      if roots != [] {
        assert IsRoot(c.g, roots[0]) && !At(r, roots[0]).NodePending?;
      }
    case Marking(n, t) => assert NodeOk(c.g, c.policy, r, n);
    case FailingFast(n) => AbortKeepsOk(c.g, r, n);
    case Acting(m, _, _, _, _) => assert !At(r, m).NodePending?;
    case Finalizing(_) => FinalizeKeepsOk(c.g, c.policy, r);
    case _ =>
  }

  lemma StepFrozen(c: Config, s: State, t: State)
    requires Safe(c, s) && Over(s.rows.run) && NobodyMarks(s) && Next(c, s, t)
    ensures t.rows.status == s.rows.status && t.rows.run == s.rows.run && NobodyMarks(t)
  {
    if i :| CallSteps(c, s, t, i) {
      var p: Option<Proc> :|
        ProcStep(c, s.rows, s.procs[i], t.rows, p) && t == s.(rows := t.rows, procs := Put(s.procs, i, p));
      assert ProcOk(c, s.rows, s.procs[i]);
      CallFrozen(c, s.rows, s.procs[i], t.rows, p);
      assert forall n :: At(t.rows, n) == At(s.rows, n);
    } else {
      assert forall n :: At(t.rows, n) == At(s.rows, n);
    }
  }

  /**
   * Once a run is over and no call is about to write one of its running nodes, no node changes any more, under
   * either policy: reports that come later return at once.
   */
  lemma {:induction false} OverFreezesNodes(c: Config, b: seq<State>, i: nat, j: nat)
    requires IsRun(c, b) && i <= j < |b| && Over(b[i].rows.run) && NobodyMarks(b[i])
    ensures b[j].rows.status == b[i].rows.status && b[j].rows.run == b[i].rows.run && NobodyMarks(b[j])
    decreases j
  {
    if i < j {
      OverFreezesNodes(c, b, i, j - 1);
      RunsAreSafe(c, b, j - 1);
      assert StepAt(c, b, j);
      StepFrozen(c, b[j - 1], b[j]);
    }
  }

  ghost predicate FrozenFrom(c: Config, s: State) {
    forall z :: Leads(c, s, z) ==> z.rows.status == s.rows.status && z.rows.run == s.rows.run
  }

  lemma {:induction false} FrozenAlong(c: Config, d: seq<State>, k: nat)
    requires Continues(c, d) && k < |d| && Safe(c, d[0]) && Over(d[0].rows.run) && NobodyMarks(d[0])
    ensures Safe(c, d[k]) && NobodyMarks(d[k])
    ensures d[k].rows.status == d[0].rows.status && d[k].rows.run == d[0].rows.run
  {
    if k > 0 {
      FrozenAlong(c, d, k - 1);
      assert AliveAt(c, d, k);
      StepIsSafe(c, d[k - 1], d[k]);
      StepFrozen(c, d[k - 1], d[k]);
    }
  }

  /** The condition is exact: a call that is about to write a running node can do so after the run is over. */
  lemma OverIsFrozenIffNobodyMarks(c: Config, b: seq<State>, k: nat)
    requires IsRun(c, b) && k < |b| && Over(b[k].rows.run)
    ensures FrozenFrom(c, b[k]) <==> NobodyMarks(b[k])
    ensures c.policy == Continue ==> NobodyMarks(b[k])
  {
    var s := b[k];
    RunsAreSafe(c, b, k);
    if NobodyMarks(s) {
      forall z | Leads(c, s, z) ensures z.rows.status == s.rows.status && z.rows.run == s.rows.run {
        var d :| Continues(c, d) && d[0] == s && d[|d| - 1] == z;
        FrozenAlong(c, d, |d| - 1);
      }
    } else {
      var i :| i in s.procs && s.procs[i].Marking? && At(s.rows, s.procs[i].n).NodeRunning?;
      MarkThaws(c, s, i);
    }
  }

  lemma MarkThaws(c: Config, s: State, i: nat)
    requires Safe(c, s) && i in s.procs && s.procs[i].Marking? && At(s.rows, s.procs[i].n).NodeRunning?
    ensures !FrozenFrom(c, s)
  {
    assert ProcOk(c, s.rows, s.procs[i]);
    var r, p := CanStep(c, s.rows, s.procs[i]);
    var t := s.(rows := r, procs := Put(s.procs, i, p));
    assert CallSteps(c, s, t, i);
    Stay(c, t);
    LeadsOn(c, s, t, t);
    assert At(t.rows, s.procs[i].n) != At(s.rows, s.procs[i].n);
  }
}
