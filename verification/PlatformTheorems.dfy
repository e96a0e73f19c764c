/** What one workflow run on the platform comes to, end to end. */
module PlatformTheorems {
  import opened Graph
  import opened Options
  import opened Sequences
  import opened Tasks
  import opened TaskRows
  import opened Platform
  import I = LeaseInvariant
  import L = LeaseProtocol
  import W = Workflow
  import F = WorkflowProtocol
  import D = WorkflowDeaths
  import P = WorkflowProgress
  import O = WorkflowOutcomes

  // Safety.

  /**
   * End to end: while any worker has an attempt of the task of a node in its hands, the task row of every
   * ancestor of the node says SUCCESS, with exactly one accepted result.
   */
  lemma NoHandlerRunsEarly(c: Config, b: seq<State>, k: nat, w: WorkerId, n: Node, a: Node)
    requires IsRun(c, b) && k < |b| && !b[k].lease.overrun && n in b[k].id && Reaches(c.flow.g, a, n)
    requires w in b[k].lease.workers && L.Busy(b[k].lease.workers[w]) && b[k].lease.workers[w].t == b[k].id[n]
    ensures a in b[k].id && b[k].id[a] in b[k].lease.rows && b[k].lease.rows[b[k].id[a]].status == TaskStatus.Success
    ensures L.TallyOf(b[k].lease, b[k].id[a]).successes == 1
  {
    var s := b[k];
    RunsKeepInv(c, b, k);
    assert W.NodeOk(c.flow.g, c.flow.policy, s.flow.rows, n);
    var p :| PathFromTo(c.flow.g, p, a, n);
    O.PathSucceeded(c.flow.g, c.flow.policy, s.flow.rows, p);
    assert W.NodeOk(c.flow.g, c.flow.policy, s.flow.rows, a);
    assert I.RowOk(c.duration, s.lease, s.id[a]);
  }

  /** A node shown as SUCCESS or FAILED stands for a row with that outcome, reached within its allowance of attempts. */
  lemma NodeStatusIsRowStatus(c: Config, b: seq<State>, k: nat, n: Node)
    requires IsRun(c, b) && k < |b| && !b[k].lease.overrun
    requires n in c.flow.g.nodes && W.Dispatched(W.At(b[k].flow.rows, n))
    ensures n in b[k].id && b[k].id[n] in b[k].lease.rows
    ensures var r := b[k].lease.rows[b[k].id[n]];
      && (W.At(b[k].flow.rows, n).NodeSuccess? ==> r.status == TaskStatus.Success)
      && (W.At(b[k].flow.rows, n).NodeFailed? ==> r.status == TaskStatus.Failed)
      && r.attempts <= r.maxRetries + 1 && (n in c.retries ==> r.maxRetries == c.retries[n])
      && (r.status == Queued || r.status == Running || r.status == Cancelled ==> W.At(b[k].flow.rows, n).NodeRunning?)
  {
    var s := b[k];
    RunsKeepInv(c, b, k);
    assert W.NodeOk(c.flow.g, c.flow.policy, s.flow.rows, n);
    assert I.RowOk(c.duration, s.lease, s.id[n]);
  }

  // Attempts.

  /** How often the tasks of the nodes were claimed. */
  function ClaimsOf(s: State, ns: seq<Node>): nat {
    if ns == [] then 0
    else (if ns[0] in s.id then |L.TallyOf(s.lease, s.id[ns[0]]).claimants| else 0) + ClaimsOf(s, ns[1..])
  }

  function AllowanceOf(c: Config, ns: seq<Node>): nat {
    if ns == [] then 0 else RetriesOf(c, ns[0]) + 1 + AllowanceOf(c, ns[1..])
  }

  /** The workers claim the tasks of a run no more often than its nodes allow, whatever fails, crashes or expires. */
  lemma {:induction false} RunClaimsBound(c: Config, b: seq<State>, k: nat, ns: seq<Node>)
    requires IsRun(c, b) && k < |b| && !b[k].lease.overrun
    ensures ClaimsOf(b[k], ns) <= AllowanceOf(c, ns)
  {
    if ns != [] {
      var s := b[k];
      RunsKeepInv(c, b, k);
      if ns[0] in s.id {
        assert I.RowOk(c.duration, s.lease, s.id[ns[0]]);
      }
      RunClaimsBound(c, b, k, ns[1..]);
    }
  }

  // Progress.

  /** A worker wrote the final status. */
  ghost predicate EndedByWorker(s: L.State, u: TaskId) {
    && u in s.rows
    && (s.rows[u].status == TaskStatus.Success
        || (s.rows[u].status == TaskStatus.Failed && L.TallyOf(s, u).expiries == 0))
  }

  /** The end of the task reached the engine, or a worker is about to report it, or the worker died before it could. */
  ghost predicate Accounted(s: State, n: Node) {
    n in s.id && EndedByWorker(s.lease, s.id[n]) ==>
      n in s.flow.reported || s.id[n] in s.muted
      || exists w :: w in s.lease.workers && s.lease.workers[w] == L.Reporting(s.id[n])
  }

  ghost predicate AllAccounted(s: State) {
    forall n {:trigger Accounted(s, n)} :: Accounted(s, n)
  }

  /** Only the final write of a worker ends a task that way, and leaves the worker about to report it. */
  lemma EndsByCommit(duration: nat, s: L.State, e: L.Event, u: TaskId)
    requires L.Enabled(s, e) && L.Clean(s, e) && I.RowOk(duration, s, u) && u in s.rows
    requires EndedByWorker(L.Apply(duration, s, e), u) && !EndedByWorker(s, u)
    ensures e.Commit? && L.Apply(duration, s, e).workers[e.w] == L.Reporting(u)
  {
    if L.Target(s, e) == Some(u) {
      match e
      case Claim(_, _) =>
      case Renew(_, _) =>
      case Commit(_) =>
      case Recover(_, _) =>
      case Cancel(_) =>
    } else {
      L.OtherTasksStay(duration, s, e, u);
    }
  }

  lemma ReporterStaysOrDies(duration: nat, s: L.State, e: L.Event, w: WorkerId, u: TaskId)
    requires L.Enabled(s, e) && !e.Report? && w in s.workers && s.workers[w] == L.Reporting(u)
    ensures var n := L.Apply(duration, s, e);
      (w in n.workers && n.workers[w] == L.Reporting(u)) || u in Mutes(s, e)
  {
    if !L.ActsFor(e, w) {
      L.OtherWorkersStay(duration, s, e, w);
    }
  }

  lemma EventKeepsAccount(c: Config, s: State, t: State, e: L.Event, n: Node)
    requires Inv(c, s) && AllAccounted(s) && L.Enabled(s.lease, e) && !e.Report? && L.Clean(s.lease, e)
    requires t == AfterEvent(c, s, e)
    ensures Accounted(t, n)
  {
    assert Accounted(s, n);
    if n in s.id && EndedByWorker(t.lease, s.id[n]) {
      var u := s.id[n];
      assert I.RowOk(c.duration, s.lease, u);
      if !EndedByWorker(s.lease, u) {
        EndsByCommit(c.duration, s.lease, e, u);
        assert t.lease.workers[e.w] == L.Reporting(u);
      } else if w :| w in s.lease.workers && s.lease.workers[w] == L.Reporting(u) {
        ReporterStaysOrDies(c.duration, s.lease, e, w, u);
      }
    }
  }

  lemma ReporterTellsEngine(c: Config, s: State, t: State, w: WorkerId, n: Node)
    requires Inv(c, s) && Reports(c, s, t, w)
    requires n in s.id && EndedByWorker(s.lease, s.id[n]) && s.lease.workers[w] == L.Reporting(s.id[n])
    ensures n in t.flow.reported
  {
    assert s.lease.rows[s.id[n]].status == s.flow.rows.task[n];
    assert ReportsOn(s, w, n);
    var i, m :| ReportsOn(s, w, m) && F.CallEnters(s.flow, t.flow, i, m);
    assert s.id[m] == s.id[n];
  }

  lemma ReportKeepsAccount(c: Config, s: State, t: State, w: WorkerId, n: Node)
    requires Inv(c, s) && AllAccounted(s) && Reports(c, s, t, w)
    ensures Accounted(t, n)
  {
    assert Accounted(s, n);
    ReportIsClean(c, s.lease, w);
    assert s.flow.reported <= t.flow.reported;
    if n in s.id && EndedByWorker(s.lease, s.id[n]) {
      if v :| v in s.lease.workers && s.lease.workers[v] == L.Reporting(s.id[n]) {
        if v == w {
          ReporterTellsEngine(c, s, t, w, n);
        } else {
          assert t.lease.workers[v] == L.Reporting(s.id[n]);
        }
      }
    }
  }

  lemma DispatchKeepsAccount(c: Config, s: State, t: State, i: nat, m: Node, u: TaskId, n: Node)
    requires Inv(c, s) && AllAccounted(s) && Dispatches(c, s, t, i, m, u)
    ensures Accounted(t, n)
  {
    assert Accounted(s, n);
    CreateIsClean(c, s.lease, u, RetriesOf(c, m));
    if n in s.id {
      var e := L.Create(u, RetriesOf(c, m));
      assert s.id[n] in s.lease.rows && s.id[n] != u;
      assert EndedByWorker(t.lease, t.id[n]) ==> EndedByWorker(s.lease, s.id[n]);
      assert t.flow.reported == s.flow.reported && t.lease.workers == s.lease.workers;
    }
  }

  lemma StepKeepsAccount(c: Config, s: State, t: State, n: Node)
    requires Inv(c, s) && AllAccounted(s) && Next(c, s, t) && !t.lease.overrun
    ensures Accounted(t, n)
  {
    assert Accounted(s, n);
    if LeaseStep(c, s, t) {
      var e :| L.Enabled(s.lease, e) && !e.Report? && t == AfterEvent(c, s, e);
      L.CleanIffNotOverrun(c.duration, s.lease, e);
      EventKeepsAccount(c, s, t, e, n);
    } else if ReportStep(c, s, t) {
      var w :| Reports(c, s, t, w);
      ReportKeepsAccount(c, s, t, w, n);
    } else if DispatchStep(c, s, t) {
      var i, m, u :| Dispatches(c, s, t, i, m, u);
      DispatchKeepsAccount(c, s, t, i, m, u, n);
    }
  }

  /** For the engine a step of the platform is a step of its own, or a change of its tasks. */
  lemma StepIsAttended(c: Config, s: State, t: State)
    requires Inv(c, s) && F.Attended(c.flow, s.flow) && Next(c, s, t) && !t.flow.disturbed
    ensures F.Attended(c.flow, t.flow)
  {
    if LeaseStep(c, s, t) || t.flow == s.flow {
      assert P.OnlyReports(s.flow, t.flow);
      P.MoreCallsAreAttended(c.flow, s.flow, t.flow);
    } else {
      assert F.Next(c.flow, s.flow, t.flow);
      P.StepIsAttended(c.flow, s.flow, t.flow);
    }
  }

  /** No step so far was a late write, or the death of a call that left something unattended. */
  predicate Smooth(s: State) {
    !s.lease.overrun && !s.flow.disturbed
  }

  ghost predicate Progressing(c: Config, s: State) {
    Inv(c, s) && AllAccounted(s) && F.Attended(c.flow, s.flow)
  }

  lemma ProgressingAt(c: Config, b: seq<State>, i: nat)
    requires IsRun(c, b) && 0 < i < |b| && Smooth(b[i])
    ensures Smooth(b[i - 1])
    ensures Progressing(c, b[i - 1]) ==> Progressing(c, b[i])
  {
    InvAt(c, b, i);
    assert StepAt(c, b, i);
    if Progressing(c, b[i - 1]) {
      forall n ensures Accounted(b[i], n) {
        StepKeepsAccount(c, b[i - 1], b[i], n);
      }
      StepIsAttended(c, b[i - 1], b[i]);
    }
  }

  lemma {:induction false} RunsProgress(c: Config, b: seq<State>, k: nat)
    requires IsRun(c, b) && k < |b| && Smooth(b[k])
    ensures Progressing(c, b[k])
  {
    if k == 0 {
      InitIsSound(c, b);
      P.InitIsAttended(c.flow, b[0].flow);
    } else {
      ProgressingAt(c, b, k);
      RunsProgress(c, b, k - 1);
    }
  }

  // Nobody waits for anybody.

  /** A worker that is about to report can always do so; if its task is a final one of the run, the engine is called. */
  lemma ReporterCanReport(c: Config, b: seq<State>, k: nat, w: WorkerId)
    requires IsRun(c, b) && k < |b| && w in b[k].lease.workers && b[k].lease.workers[w].Reporting?
    ensures exists t :: Reports(c, b[k], t, w)
  {
    var s := b[k];
    var lease := L.Apply(c.duration, s.lease, L.Report(w));
    if n :| ReportsOn(s, w, n) {
      var i := FreshNat(s.flow.procs.Keys);
      var flow := s.flow.(procs := s.flow.procs[i := F.Entered(n, s.flow.rows.task[n])],
                          reported := s.flow.reported + {n});
      assert F.CallEnters(s.flow, flow, i, n);
      assert Reports(c, s, s.(lease := lease, flow := flow), w);
    } else {
      assert Reports(c, s, s.(lease := lease), w);
    }
  }

  lemma CallCanDie(c: Config, s: State, i: nat)
    requires i in s.flow.procs
    ensures exists t :: Next(c, s, t) && F.CallDies(c.flow, s.flow, t.flow, i)
  {
    var dead := s.flow.(procs := s.flow.procs - {i});
    var flow := dead.(disturbed := s.flow.disturbed || !F.Attended(c.flow, dead));
    assert F.CallDies(c.flow, s.flow, flow, i);
    assert FlowStep(c, s, s.(flow := flow));
    assert Next(c, s, s.(flow := flow));
  }

  /**
   * A call in flight can always take its next step, with the new task row if the step dispatches a node, and it can
   * die at any point.
   */
  lemma CallCanGoOn(c: Config, b: seq<State>, k: nat, i: nat)
    requires IsRun(c, b) && k < |b| && !b[k].lease.overrun && i in b[k].flow.procs
    ensures exists t :: Next(c, b[k], t) && F.CallSteps(c.flow, b[k].flow, t.flow, i)
    ensures exists t :: Next(c, b[k], t) && F.CallDies(c.flow, b[k].flow, t.flow, i)
  {
    var s := b[k];
    CallCanDie(c, s, i);
    RunsKeepInv(c, b, k);
    assert F.ProcOk(c.flow, s.flow.rows, s.flow.procs[i]);
    var r, p := D.CanStep(c.flow, s.flow.rows, s.flow.procs[i]);
    var flow := s.flow.(rows := r, procs := F.Put(s.flow.procs, i, p));
    assert F.CallSteps(c.flow, s.flow, flow, i);
    CallsTouchOneTask(c.flow, s.flow, flow, i);
    if r.task == s.flow.rows.task {
      assert FlowStep(c, s, s.(flow := flow));
      assert Next(c, s, s.(flow := flow));
    } else {
      var n :| n !in s.flow.rows.task && r.task == s.flow.rows.task[n := Queued];
      var u := FreshNat(s.lease.rows.Keys);
      var e := L.Create(u, RetriesOf(c, n));
      var t := s.(flow := flow, lease := L.Apply(c.duration, s.lease, e), id := s.id[n := u]);
      assert Dispatches(c, s, t, i, n, u);
      assert Next(c, s, t);
    }
  }
}
