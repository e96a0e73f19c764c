/** No stall: a run that nobody works on is over, or waits for a task that nobody reported. */
module WorkflowProgress {
  import opened Graph
  import opened Options
  import opened Tasks
  import opened Workflow
  import opened WorkflowProtocol

  // One step of one call: each duty afterwards is its own, or was someone else's before.

  /** Dispatching settles nothing, so it decides nobody's fate. */
  lemma DispatchDecidesNothing(c: Config, r: Rows, m: Node, n: Node)
    requires Owed(c, TryDispatch(r, m), n) && r.status.Keys == c.g.nodes
    ensures Owed(c, r, n)
  {
    var t := TryDispatch(r, m);
    assert forall u :: At(t, u).NodeSuccess? ==> At(r, u).NodeSuccess?;
    if Blocked(c.g, t, n) {
      var u :| u in Preds(c.g, n) && (At(t, u).NodeFailed? || At(t, u).NodeSkipped?);
      assert At(r, u) == At(t, u);
    }
  }

  /** A node whose fate is decided in `base` does not look undecided in any later view. */
  lemma OwedDuringPass(c: Config, r: Rows, p: Proc, r': Rows, p': Option<Proc>, n: Node)
    requires p.Visiting? && ProcStep(c, r, p, r', p') && Owed(c, r', n)
    ensures (p'.Some? && Covers(c, p'.value, n)) || (Owed(c, r, n) && !Covers(c, p, n))
  {
    if p.todo != [] {
      assert n in p.todo <==> n == p.todo[0] || n in p.todo[1..];
      if p'.value.Visiting? && Decide(c.g, p.base, p.todo[0]) != Wait {
        var view :| MayShow(c.g, p.base, r, view) && Decide(c.g, view, p.todo[0]) == Wait;
        Monotone(c.g, p.base, view, p.todo[0]);
      }
    }
  }

  /** Skipping decides the fate of dependents, and the call that skips sees it. */
  lemma OwedAfterSkip(c: Config, r: Rows, base: Rows, m: Node, n: Node)
    requires RowsOk(c.g, c.policy, r) && m in c.g.nodes && Owed(c, TrySkip(r, m), n)
    ensures Owed(c, r, n) || (!IsRoot(c.g, n) && Decide(c.g, WithOwn(base, m, Skip), n) != Wait)
  {
    var t, own := TrySkip(r, m), WithOwn(base, m, Skip);
    if m in Preds(c.g, n) {
      assert At(own, m).NodeSkipped?;
      assert Blocked(c.g, own, n);
    } else {
      assert forall u :: u in Preds(c.g, n) ==> At(t, u) == At(r, u);
      assert Blocked(c.g, t, n) <==> Blocked(c.g, r, n);
      assert AllSucceeded(c.g, t, n) <==> AllSucceeded(c.g, r, n);
    }
  }

  lemma OwedAfterAct(c: Config, r: Rows, p: Proc, r': Rows, p': Option<Proc>, n: Node)
    requires RowsOk(c.g, c.policy, r) && p.Acting? && ProcOk(c, r, p) && ProcStep(c, r, p, r', p') && Owed(c, r', n)
    ensures (p'.Some? && Covers(c, p'.value, n)) || (Owed(c, r, n) && !Covers(c, p, n))
  {
    ActIsSafe(c, r, p.m, p.d, p.base);
    Monotone(c.g, p.base, WithOwn(p.base, p.m, p.d), n);
    if p.d == Dispatch {
      DispatchDecidesNothing(c, r, p.m, n);
    } else {
      OwedAfterSkip(c, r, p.base, p.m, n);
    }
  }

  lemma OwedHandedOn(c: Config, r: Rows, p: Proc, r': Rows, p': Option<Proc>, n: Node)
    requires RowsOk(c.g, c.policy, r) && ProcOk(c, r, p) && ProcStep(c, r, p, r', p') && Owed(c, r', n)
    ensures (p'.Some? && Covers(c, p'.value, n)) || (Owed(c, r, n) && !Covers(c, p, n))
  {
    match p
    case Starting(roots) =>
      if roots != [] {
        DispatchDecidesNothing(c, r, roots[0], n);
        assert n in roots <==> n == roots[0] || n in roots[1..];
      }
    case Marking(m, _) =>
      if p'.value.Scanning? && IsRoot(c.g, n) {
        assert At(r, n) == At(r', n) || n == m;
      }
    case Scanning(_) => assert n in p'.value.todo;
    case Visiting(_, _, _) => OwedDuringPass(c, r, p, r', p', n);
    case Acting(_, _, _, _, _) => OwedAfterAct(c, r, p, r', p', n);
    case _ =>
  }

  lemma VerdictHandedOn(c: Config, r: Rows, p: Proc, r': Rows, p': Option<Proc>)
    requires RowsOk(c.g, c.policy, r) && ProcOk(c, r, p) && ProcStep(c, r, p, r', p') && NeedsVerdict(c, r')
    ensures (p'.Some? && WillConclude(p'.value)) || (NeedsVerdict(c, r) && !WillConclude(p))
  {
    match p
    case Starting(roots) =>
      if roots != [] {
        assert IsRoot(c.g, roots[0]);
      }
    case _ =>
  }

  lemma UnmarkedHandedOn(c: Config, r: Rows, p: Proc, r': Rows, p': Option<Proc>, reported: set<Node>, n: Node)
    requires RowsOk(c.g, c.policy, r) && ProcOk(c, r, p) && ProcStep(c, r, p, r', p')
    requires reported <= r.task.Keys && Unmarked(c, r', reported, n)
    ensures (p'.Some? && Carries(p'.value, n)) || (Unmarked(c, r, reported, n) && !Carries(p, n))
  {
    assert NodeOk(c.g, c.policy, r, n);
    match p
    case Starting(roots) =>
    case Acting(_, _, _, _, _) =>
    case _ =>
  }

  /** A call that has yet to evaluate goes on to do so, and an unreported node stays unreported. */
  lemma MoreToComeHandedOn(c: Config, s: State, t: State, i: nat, p: Option<Proc>)
    requires Safe(c, s) && i in s.procs && ProcStep(c, s.rows, s.procs[i], t.rows, p)
    requires t == s.(rows := t.rows, procs := Put(s.procs, i, p)) && !Over(t.rows.run)
    requires SomeReports(s.procs) || SomeUnreported(c, s.rows, s.reported)
    ensures || SomeReports(t.procs) || SomeUnreported(c, t.rows, t.reported)
            || (s.procs[i].Marking? && p.Some? && (p.value.FailingFast? || p.value == Scanning(t.rows)))
  {
    assert Recorded(s.procs[i], s.reported) && ProcOk(c, s.rows, s.procs[i]);
    if j :| j in s.procs && (s.procs[j].Entered? || s.procs[j].Marking?) {
      if j != i || s.procs[i].Entered? {
        assert j in t.procs && (t.procs[j].Entered? || t.procs[j].Marking?);
      }
    } else {
      var n :| Unreported(c, s.rows, s.reported, n);
      assert Unreported(c, t.rows, t.reported, n);
    }
  }

  lemma OwedStaysSeenTo(c: Config, s: State, t: State, i: nat, p: Option<Proc>, n: Node)
    requires Safe(c, s) && Attended(c, s) && i in s.procs && ProcStep(c, s.rows, s.procs[i], t.rows, p)
    requires t == s.(rows := t.rows, procs := Put(s.procs, i, p)) && Owed(c, t.rows, n) && !Over(t.rows.run)
    ensures SeenTo(c, t, n)
  {
    assert ProcOk(c, s.rows, s.procs[i]);
    OwedHandedOn(c, s.rows, s.procs[i], t.rows, p, n);
    if p.Some? && Covers(c, p.value, n) {
      assert Covers(c, t.procs[i], n);
    } else if j :| j in s.procs && Covers(c, s.procs[j], n) {
      assert Covers(c, t.procs[j], n);
    } else {
      MoreToComeHandedOn(c, s, t, i, p);
    }
  }

  lemma VerdictStaysAttended(c: Config, s: State, t: State, i: nat, p: Option<Proc>)
    requires Safe(c, s) && Attended(c, s) && i in s.procs && ProcStep(c, s.rows, s.procs[i], t.rows, p)
    requires t == s.(rows := t.rows, procs := Put(s.procs, i, p)) && NeedsVerdict(c, t.rows)
    ensures SomeConcludes(t.procs) || SomeReports(t.procs)
  {
    assert ProcOk(c, s.rows, s.procs[i]);
    VerdictHandedOn(c, s.rows, s.procs[i], t.rows, p);
    if p.Some? && WillConclude(p.value) {
      assert WillConclude(t.procs[i]);
    } else if j :| j in s.procs && WillConclude(s.procs[j]) {
      assert WillConclude(t.procs[j]);
    } else {
      MoreToComeHandedOn(c, s, t, i, p);
    }
  }

  lemma MarkStaysAttended(c: Config, s: State, t: State, i: nat, p: Option<Proc>, n: Node)
    requires Safe(c, s) && Attended(c, s) && i in s.procs && ProcStep(c, s.rows, s.procs[i], t.rows, p)
    requires t == s.(rows := t.rows, procs := Put(s.procs, i, p)) && Unmarked(c, t.rows, t.reported, n)
    ensures SomeCarries(t.procs, n)
  {
    assert ProcOk(c, s.rows, s.procs[i]);
    UnmarkedHandedOn(c, s.rows, s.procs[i], t.rows, p, s.reported, n);
    if p.Some? && Carries(p.value, n) {
      assert Carries(t.procs[i], n);
    } else {
      var j :| j in s.procs && Carries(s.procs[j], n);
      assert Carries(t.procs[j], n);
    }
  }

  lemma CallStepIsAttended(c: Config, s: State, t: State, i: nat)
    requires Safe(c, s) && Safe(c, t) && Attended(c, s) && CallSteps(c, s, t, i)
    ensures Attended(c, t)
  {
    var p: Option<Proc> :|
      ProcStep(c, s.rows, s.procs[i], t.rows, p) && t == s.(rows := t.rows, procs := Put(s.procs, i, p));
    forall n | Owed(c, t.rows, n) ensures SeenTo(c, t, n) {
      OwedStaysSeenTo(c, s, t, i, p, n);
    }
    if NeedsVerdict(c, t.rows) {
      VerdictStaysAttended(c, s, t, i, p);
    }
    forall n | Unmarked(c, t.rows, t.reported, n) ensures SomeCarries(t.procs, n) {
      MarkStaysAttended(c, s, t, i, p, n);
    }
  }

  /** The rows of the run stay, and there are as many calls as before, or one that comes with a new report. */
  ghost predicate OnlyReports(s: State, t: State) {
    && t.rows.status == s.rows.status && t.rows.run == s.rows.run && s.reported <= t.reported
    && (forall i :: i in s.procs ==> i in t.procs && t.procs[i] == s.procs[i])
    && (forall n :: n in t.reported && n !in s.reported ==> SomeCarries(t.procs, n))
  }

  lemma StillSeenTo(c: Config, s: State, t: State, n: Node)
    requires Attended(c, s) && OnlyReports(s, t) && Owed(c, t.rows, n)
    ensures SeenTo(c, t, n)
  {
    assert forall u :: At(t.rows, u) == At(s.rows, u);
    assert Blocked(c.g, t.rows, n) ==> Blocked(c.g, s.rows, n);
    assert AllSucceeded(c.g, t.rows, n) ==> AllSucceeded(c.g, s.rows, n);
    assert Owed(c, s.rows, n);
    if j :| j in s.procs && Covers(c, s.procs[j], n) {
      assert Covers(c, t.procs[j], n);
    } else if j :| j in s.procs && (s.procs[j].Entered? || s.procs[j].Marking?) {
      assert t.procs[j] == s.procs[j];
    } else {
      var u :| Unreported(c, s.rows, s.reported, u);
      if u in t.reported {
        var j :| j in t.procs && Carries(t.procs[j], u);
      } else {
        assert Unreported(c, t.rows, t.reported, u);
      }
    }
  }

  /** A step that leaves the rows of the run alone and only adds calls. */
  lemma MoreCallsAreAttended(c: Config, s: State, t: State)
    requires Attended(c, s) && OnlyReports(s, t)
    ensures Attended(c, t)
  {
    assert forall n :: At(t.rows, n) == At(s.rows, n);
    forall n | Owed(c, t.rows, n) ensures SeenTo(c, t, n) {
      StillSeenTo(c, s, t, n);
    }
    if NeedsVerdict(c, t.rows) {
      assert NeedsVerdict(c, s.rows);
      var j :| j in s.procs && (WillConclude(s.procs[j]) || s.procs[j].Entered? || s.procs[j].Marking?);
      assert t.procs[j] == s.procs[j];
    }
    forall n | Unmarked(c, t.rows, t.reported, n) ensures SomeCarries(t.procs, n) {
      if n in s.reported {
        assert Unmarked(c, s.rows, s.reported, n);
        var j :| j in s.procs && Carries(s.procs[j], n);
        assert Carries(t.procs[j], n);
      }
    }
  }

  lemma AliveStepIsAttended(c: Config, s: State, t: State)
    requires Safe(c, s) && Attended(c, s) && AliveStep(c, s, t)
    ensures Attended(c, t)
  {
    StepIsSafe(c, s, t);
    if i :| CallSteps(c, s, t, i) {
      CallStepIsAttended(c, s, t, i);
    } else if i, n :| CallEnters(s, t, i, n) {
      assert Carries(t.procs[i], n);
      MoreCallsAreAttended(c, s, t);
    } else {
      MoreCallsAreAttended(c, s, t);
    }
  }

  lemma StepIsAttended(c: Config, s: State, t: State)
    requires Safe(c, s) && Attended(c, s) && Next(c, s, t) && !t.disturbed
    ensures Attended(c, t)
  {
    if AliveStep(c, s, t) {
      AliveStepIsAttended(c, s, t);
    } else {
      var i :| CallDies(c, s, t, i);
    }
  }

  lemma AttendedAt(c: Config, b: seq<State>, i: nat)
    requires IsRun(c, b) && 0 < i < |b| && !b[i].disturbed
    ensures !b[i - 1].disturbed
    ensures Attended(c, b[i - 1]) ==> Attended(c, b[i])
  {
    assert StepAt(c, b, i);
    RunsAreSafe(c, b, i - 1);
    if Attended(c, b[i - 1]) {
      StepIsAttended(c, b[i - 1], b[i]);
    }
  }

  lemma {:induction false} RunsAreAttended(c: Config, b: seq<State>, k: nat)
    requires IsRun(c, b) && k < |b| && !b[k].disturbed
    ensures Attended(c, b[k])
  {
    if k == 0 {
      assert StepAt(c, b, 0);
      InitIsAttended(c, b[0]);
    } else {
      AttendedAt(c, b, k);
      RunsAreAttended(c, b, k - 1);
    }
  }

  lemma InitIsAttended(c: Config, s: State)
    requires Init(c, s)
    ensures Attended(c, s)
  {
    var n :| n in c.g.nodes;
    assert At(s.rows, n).NodePending?;
    forall m | Owed(c, s.rows, m) ensures SeenTo(c, s, m) {
      assert !Blocked(c.g, s.rows, m);
      assert Preds(c.g, m) != {} ==> !AllSucceeded(c.g, s.rows, m);
      assert Covers(c, s.procs[0], m);
    }
  }

  /**
   * Among pending nodes of an acyclic graph the lowest has all its dependencies settled or running, so if
   * nothing runs the engine owes it a decision.
   */
  lemma LowestPendingIsOwed(c: Config, r: Rows, rank: map<Node, nat>, n: Node) returns (m: Node)
    requires Ranked(c.g, rank) && n in c.g.nodes && At(r, n).NodePending?
    requires forall u :: u in c.g.nodes ==> !At(r, u).NodeRunning?
    ensures Owed(c, r, m)
  {
    var pending := set u | u in c.g.nodes && At(r, u).NodePending?;
    assert n in pending;
    m := SourceOfSet(c.g, rank, pending);
    forall u | u in Preds(c.g, m) ensures Settled(At(r, u)) {
      assert u !in pending;
    }
    if !AllSucceeded(c.g, r, m) {
      var u :| u in Preds(c.g, m) && !At(r, u).NodeSuccess?;
      assert Blocked(c.g, r, m);
    }
  }

  /** An attended state without a call in flight. */
  lemma QuietMeansWaiting(c: Config, rank: map<Node, nat>, s: State)
    requires Ranked(c.g, rank) && Safe(c, s) && Attended(c, s) && s.procs == map[]
    ensures Over(s.rows.run) || SomeUnreported(c, s.rows, s.reported)
  {
    if n :| n in c.g.nodes && At(s.rows, n).NodeRunning? {
      assert Unmarked(c, s.rows, s.reported, n) ==> SomeCarries(s.procs, n);
      assert n !in s.reported ==> Unreported(c, s.rows, s.reported, n);
    } else if n :| n in c.g.nodes && At(s.rows, n).NodePending? {
      var m := LowestPendingIsOwed(c, s.rows, rank, n);
    }
  }

  /**
   * No stall. In any interleaving of any number of calls, with dependencies seen as old as the sessions may
   * show them, and as long as no death of a call left something unattended: when no call is in flight, the run
   * is over or some dispatched node was never reported to the engine.
   */
  lemma NoStall(c: Config, rank: map<Node, nat>, b: seq<State>, k: nat)
    requires Ranked(c.g, rank) && IsRun(c, b) && k < |b|
    requires !b[k].disturbed && b[k].procs == map[]
    ensures Over(b[k].rows.run) || SomeUnreported(c, b[k].rows, b[k].reported)
  {
    RunsAreAttended(c, b, k);
    RunsAreSafe(c, b, k);
    QuietMeansWaiting(c, rank, b[k]);
  }

  /**
   * The premise cannot be dropped: if the only call dies before it writes anything, the run of a single node
   * whose task succeeded and was reported stays open with nobody working on it.
   */
  lemma DeadCallStalls() returns (c: Config, b: seq<State>)
    ensures HasRank(c.g) && IsRun(c, b)
    ensures var s := b[|b| - 1];
      && s.procs == map[] && !Over(s.rows.run)
      && c.g.nodes == {"a"} && s.reported == {"a"} && s.rows.task == map["a" := TaskStatus.Success]
  {
    c := Config(Dag({"a"}, {}), Continue);
    assert Ranked(c.g, map["a" := 0]);
    var r0 := Rows(map["a" := NodePending], RunRunning, map[], multiset{});
    var r1 := TryDispatch(r0, "a");
    var s0 := State(r0, map[0 := Starting(["a"])], {}, false);
    assert IsRoot(c.g, "a");
    assert Init(c, s0) by {
      assert (map n | n in c.g.nodes :: NodePending) == map["a" := NodePending];
    }
    var s1 := State(r1, map[0 := Starting([])], {}, false);
    assert CallSteps(c, s0, s1, 0) by {
      assert ["a"][1..] == [];
      assert ProcStep(c, r0, Starting(["a"]), r1, Some(Starting([])));
      assert s1.procs == Put(s0.procs, 0, Some(Starting([])));
    }
    b := DeadCallTail(c, s0, s1);
  }

  lemma AddStep(c: Config, b: seq<State>, t: State) returns (d: seq<State>)
    requires IsRun(c, b) && Next(c, b[|b| - 1], t)
    ensures IsRun(c, d) && d[|d| - 1] == t
  {
    d := b + [t];
    forall i | 0 <= i < |d| ensures StepAt(c, d, i) {
      if i < |b| {
        assert StepAt(c, b, i);
      }
    }
  }

  /** The start returns, and the task of the only node succeeds. */
  lemma DeadCallTail(c: Config, s0: State, s1: State) returns (b: seq<State>)
    requires Init(c, s0) && Next(c, s0, s1) && c.g.nodes == {"a"}
    requires s1.rows.run == RunRunning && s1.rows.task == map["a" := Queued] && s1.procs == map[0 := Starting([])]
    requires s1.reported == {} && At(s1.rows, "a").NodeRunning?
    ensures IsRun(c, b)
    ensures var s := b[|b| - 1];
      && s.procs == map[] && s.rows.run == RunRunning && s.reported == {"a"}
      && s.rows.task == map["a" := TaskStatus.Success]
  {
    var none: Option<Proc> := None;
    var s2 := s1.(procs := map[]);
    assert CallSteps(c, s1, s2, 0) by {
      assert ProcStep(c, s1.rows, Starting([]), s1.rows, none);
      assert s2.procs == Put(s1.procs, 0, none);
    }
    var s3 := s2.(rows := s2.rows.(task := map["a" := Running]));
    assert TaskMoves(s2, s3, "a", Running);
    var s4 := s3.(rows := s3.rows.(task := map["a" := TaskStatus.Success]));
    assert TaskMoves(s3, s4, "a", TaskStatus.Success);
    assert StepAt(c, [s0], 0);
    b := AddStep(c, [s0], s1);
    b := AddStep(c, b, s2);
    b := AddStep(c, b, s3);
    b := AddStep(c, b, s4);
    b := DeadCall(c, b, s4);
  }

  /** The success is reported, and the call dies before it writes anything. */
  lemma DeadCall(c: Config, b: seq<State>, s: State) returns (d: seq<State>)
    requires IsRun(c, b) && b[|b| - 1] == s && c.g.nodes == {"a"}
    requires s.procs == map[] && s.reported == {} && s.rows.run == RunRunning && At(s.rows, "a").NodeRunning?
    requires s.rows.task == map["a" := TaskStatus.Success]
    ensures IsRun(c, d)
    ensures d[|d| - 1].procs == map[] && d[|d| - 1].rows == s.rows && d[|d| - 1].reported == {"a"}
  {
    var y := s.(procs := map[0 := Entered("a", TaskStatus.Success)], reported := {"a"});
    assert CallEnters(s, y, 0, "a");
    d := AddStep(c, b, y);
    var z := y.(procs := map[], disturbed := true);
    assert CallDies(c, y, z, 0) by {
      assert y.procs - {0} == map[];
      assert Unmarked(c, y.rows, y.reported, "a") && Carries(y.procs[0], "a");
    }
    d := AddStep(c, d, z);
  }
}
