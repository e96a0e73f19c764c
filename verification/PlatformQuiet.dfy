/** What a workflow run has come to once nobody on the platform does anything. */
module PlatformQuiet {
  import opened Graph
  import opened Options
  import opened Tasks
  import opened TaskRows
  import opened Platform
  import opened PlatformTheorems
  import D = LeaseDelivery
  import I = LeaseInvariant
  import L = LeaseProtocol
  import T = LeaseTheorems
  import W = Workflow
  import F = WorkflowProtocol
  import P = WorkflowProgress

  /** Nobody does anything: no call in flight, no message on its way, no worker with a task, no task running. */
  ghost predicate Quiet(s: State) {
    && s.flow.procs == map[] && s.lease.queue == [] && s.lease.outbox == multiset{}
    && (forall w :: w in s.lease.workers ==> s.lease.workers[w].Idle?)
    && (forall n :: n in s.id && s.id[n] in s.lease.rows ==> s.lease.rows[s.id[n]].status != Running)
  }

  /**
   * What can keep the report of a running node away: its message is lost, its task was cancelled or failed by
   * recovery, or its worker died before the report. Once everything is quiet, that is final (QuietIsForever).
   */
  ghost predicate CutOff(s: State, n: Node) {
    && n in s.id && s.id[n] in s.lease.rows && W.At(s.flow.rows, n).NodeRunning?
    && var u, r := s.id[n], s.lease.rows[s.id[n]];
       || (r.status == Queued && u in s.lease.lost)
       || r.status == Cancelled
       || (r.status == TaskStatus.Failed && L.TallyOf(s.lease, u).expiries > 0)
       || u in s.muted
  }

  ghost predicate SomeCutOff(s: State) {
    exists n :: CutOff(s, n)
  }

  lemma UnreportedIsCutOff(c: Config, s: State, n: Node)
    requires Progressing(c, s) && Quiet(s)
    requires n in c.flow.g.nodes && W.At(s.flow.rows, n).NodeRunning? && n !in s.flow.reported
    ensures CutOff(s, n)
  {
    assert W.NodeOk(c.flow.g, c.flow.policy, s.flow.rows, n);
    var u := s.id[n];
    assert I.RowOk(c.duration, s.lease, u) && I.NotLost(s.lease, u) && Accounted(s, n);
  }

  /**
   * End to end, no stall: once everything is quiet, the workflow run is over, unless one of its tasks was lost,
   * cancelled, failed by recovery, or ended by a worker that died before it reported.
   */
  lemma QuietRunIsOver(c: Config, rank: map<Node, nat>, b: seq<State>, k: nat)
    requires Ranked(c.flow.g, rank) && IsRun(c, b) && k < |b| && Smooth(b[k]) && Quiet(b[k])
    ensures W.Over(b[k].flow.rows.run) || SomeCutOff(b[k])
  {
    var s := b[k];
    RunsProgress(c, b, k);
    P.QuietMeansWaiting(c.flow, rank, s.flow);
    if n :| F.Unreported(c.flow, s.flow.rows, s.flow.reported, n) {
      UnreportedIsCutOff(c, s, n);
    }
  }

  // Quiet is for good.

  ghost predicate CleanAt(c: Config, d: seq<State>, i: nat)
    requires 0 < i < |d|
  {
    Next(c, d[i - 1], d[i]) && !d[i].lease.overrun
  }

  ghost predicate Continues(c: Config, d: seq<State>) {
    |d| > 0 && forall i {:trigger CleanAt(c, d, i)} :: 0 < i < |d| ==> CleanAt(c, d, i)
  }

  /** Some joint continuation without late writes leads from one state to the other. */
  ghost predicate Leads(c: Config, s: State, z: State) {
    exists d :: Continues(c, d) && d[0] == s && d[|d| - 1] == z
  }

  /** The worker has the task in some stage after the claim. */
  predicate Engaged(ws: L.WorkerState, u: TaskId) {
    (ws.Executing? || ws.Committing? || ws.Republishing? || ws.Reporting?) && ws.t == u
  }

  /** Nobody works on the task, and nobody can come to: it is final, or queued with its message gone. */
  ghost predicate Resting(s: L.State, u: TaskId) {
    && u in s.rows && (Absorbing(s.rows[u].status) || (s.rows[u].status == Queued && !I.Located(s, u)))
    && forall w :: w in s.workers ==> !Engaged(s.workers[w], u)
  }

  lemma NobodyEngages(duration: nat, s: L.State, e: L.Event, u: TaskId, w: WorkerId)
    requires L.Enabled(s, e) && L.Clean(s, e) && Resting(s, u) && w in L.Apply(duration, s, e).workers
    ensures !Engaged(L.Apply(duration, s, e).workers[w], u)
  {
    assert w in s.workers ==> !Engaged(s.workers[w], u);
    if !L.ActsFor(e, w) {
      L.OtherWorkersStay(duration, s, e, w);
    } else if e.Claim? {
      assert s.workers[w].t == u ==> L.InHand(s.workers[w]) == Some(u);
    }
  }

  lemma RestingStays(duration: nat, s: L.State, e: L.Event, u: TaskId)
    requires L.Enabled(s, e) && L.Clean(s, e) && Resting(s, u)
    ensures Resting(L.Apply(duration, s, e), u)
  {
    var n := L.Apply(duration, s, e);
    forall w | w in n.workers ensures !Engaged(n.workers[w], u) {
      NobodyEngages(duration, s, e, u, w);
    }
    if s.rows[u].status == Queued {
      D.StrandedStays(duration, s, e, u, s.rows[u].attempts);
    } else {
      T.FinalRowStays(duration, s, e, u);
    }
  }

  /** The run is as it was in `s`, and none of its tasks is going anywhere. */
  ghost predicate Still(s: State, t: State) {
    && t.flow.procs == map[] && t.flow.rows.status == s.flow.rows.status && t.flow.rows.run == s.flow.rows.run
    && t.id == s.id
    && forall n {:trigger t.id[n]} :: n in t.id ==> Resting(t.lease, t.id[n])
  }

  lemma QuietIsStill(c: Config, s: State)
    requires Inv(c, s) && Quiet(s)
    ensures Still(s, s)
  {
    forall n | n in s.id ensures Resting(s.lease, s.id[n]) {
      assert I.RowOk(c.duration, s.lease, s.id[n]);
    }
  }

  lemma EventIsStill(c: Config, s: State, t: State, u: State, e: L.Event)
    requires Still(s, t) && L.Enabled(t.lease, e) && L.Clean(t.lease, e)
    requires u.lease == L.Apply(c.duration, t.lease, e) && u.id == t.id
    requires u.flow == t.flow || u.flow == t.flow.(rows := t.flow.rows.(task := u.flow.rows.task))
    ensures Still(s, u)
  {
    forall n | n in u.id ensures Resting(u.lease, u.id[n]) {
      assert Resting(t.lease, t.id[n]);
      RestingStays(c.duration, t.lease, e, t.id[n]);
    }
  }

  lemma StepIsStill(c: Config, s: State, t: State, u: State)
    requires Still(s, t) && Next(c, t, u) && !u.lease.overrun
    ensures Still(s, u)
  {
    if e :| L.Enabled(t.lease, e) && !e.Report? && u == AfterEvent(c, t, e) {
      L.CleanIffNotOverrun(c.duration, t.lease, e);
      EventIsStill(c, s, t, u, e);
    } else if w :| Reports(c, t, u, w) {
      forall n ensures !ReportsOn(t, w, n) {
        assert n in t.id ==> Resting(t.lease, t.id[n]);
      }
      L.CleanIffNotOverrun(c.duration, t.lease, L.Report(w));
      EventIsStill(c, s, t, u, L.Report(w));
    }
  }

  lemma {:induction false} StillAlong(c: Config, d: seq<State>, k: nat)
    requires Continues(c, d) && k < |d| && Still(d[0], d[0])
    ensures Still(d[0], d[k])
  {
    if k > 0 {
      StillAlong(c, d, k - 1);
      assert CleanAt(c, d, k);
      StepIsStill(c, d[0], d[k - 1], d[k]);
    }
  }

  /**
   * Once everything is quiet nothing happens to the run any more, under either policy: in every continuation
   * without late writes its nodes and its verdict are what they are now.
   */
  lemma QuietIsForever(c: Config, b: seq<State>, k: nat, z: State)
    requires IsRun(c, b) && k < |b| && !b[k].lease.overrun && Quiet(b[k]) && Leads(c, b[k], z)
    ensures z.flow.rows.status == b[k].flow.rows.status && z.flow.rows.run == b[k].flow.rows.run
    ensures z.flow.procs == map[] && z.id == b[k].id
  {
    RunsKeepInv(c, b, k);
    QuietIsStill(c, b[k]);
    var d :| Continues(c, d) && d[0] == b[k] && d[|d| - 1] == z;
    StillAlong(c, d, |d| - 1);
  }

  /**
   * Under CONTINUE, from a quiet state, the run never gets over in any continuation exactly if some node is cut
   * off; if none is, it is over already.
   */
  lemma OpenForeverIffCutOff(c: Config, rank: map<Node, nat>, b: seq<State>, k: nat)
    requires Ranked(c.flow.g, rank) && c.flow.policy == W.Continue
    requires IsRun(c, b) && k < |b| && Smooth(b[k]) && Quiet(b[k])
    ensures (forall z :: Leads(c, b[k], z) ==> !W.Over(z.flow.rows.run)) <==> SomeCutOff(b[k])
    ensures W.Over(b[k].flow.rows.run) <==> !SomeCutOff(b[k])
  {
    var s := b[k];
    RunsKeepInv(c, b, k);
    if !SomeCutOff(s) {
      QuietRunIsOver(c, rank, b, k);
      assert Continues(c, [s]);
      assert Leads(c, s, s);
    } else {
      var n :| CutOff(s, n);
      assert n in c.flow.g.nodes;
      forall z | Leads(c, s, z) ensures !W.Over(z.flow.rows.run) {
        QuietIsForever(c, b, k, z);
      }
    }
  }

  /**
   * What a node that is cut off still allows under FAIL_FAST: the run is over only if the failure of another node
   * aborted it, and open only if all the nodes that run are cut off.
   */
  lemma CutOffUnderFailFast(c: Config, rank: map<Node, nat>, b: seq<State>, k: nat)
    requires Ranked(c.flow.g, rank) && c.flow.policy == W.FailFast
    requires IsRun(c, b) && k < |b| && Smooth(b[k]) && Quiet(b[k])
    ensures var s := b[k];
      if W.Over(s.flow.rows.run) then
        SomeCutOff(s) ==> s.flow.rows.run == W.RunFailed && W.AnyFailed(c.flow.g, s.flow.rows)
      else
        && SomeCutOff(s)
        && forall n :: n in c.flow.g.nodes && W.At(s.flow.rows, n).NodeRunning? ==> CutOff(s, n)
  {
    var s := b[k];
    RunsProgress(c, b, k);
    if !W.Over(s.flow.rows.run) {
      P.QuietMeansWaiting(c.flow, rank, s.flow);
      forall n | n in c.flow.g.nodes && W.At(s.flow.rows, n).NodeRunning? ensures CutOff(s, n) {
        assert F.Unmarked(c.flow, s.flow.rows, s.flow.reported, n) ==> F.SomeCarries(s.flow.procs, n);
        UnreportedIsCutOff(c, s, n);
      }
      var n :| F.Unreported(c.flow, s.flow.rows, s.flow.reported, n);
    } else if n :| CutOff(s, n) {
      assert W.At(s.flow.rows, n).NodeRunning?;
    }
  }
}
