/** Runs of the whole platform in which a promise fails: a run that stays open, and a settled node that flips. */
module PlatformRuns {
  import opened Graph
  import opened Options
  import opened Tasks
  import opened TaskRows
  import opened Platform
  import opened PlatformTheorems
  import opened PlatformQuiet
  import D = LeaseDelivery
  import I = LeaseInvariant
  import L = LeaseProtocol
  import R = LeaseWrites
  import W = Workflow
  import F = WorkflowProtocol

  /** One node with one retry, under CONTINUE, and leases of length 10. */
  function Single(): Config {
    Config(F.Config(Dag({"a"}, {}), W.Continue), map["a" := 1], 10)
  }

  /** The engine in `f`, with the status of task 0 as the table has it. */
  function Joint(f: F.State, l: L.State): State
    requires 0 in l.rows
  {
    State(f.(rows := f.rows.(task := map["a" := l.rows[0].status])), l, map["a" := 0], {})
  }

  lemma AddStep(b: seq<State>, s: State, t: State) returns (d: seq<State>)
    requires IsRun(Single(), b) && b[|b| - 1] == s && Next(Single(), s, t)
    ensures IsRun(Single(), d) && d[|d| - 1] == t && b <= d
  {
    d := b + [t];
    forall i | 0 <= i < |d| ensures StepAt(Single(), d, i) {
      if i < |b| {
        assert StepAt(Single(), b, i);
      }
    }
  }

  /** An event of the lease protocol. */
  lemma AddEvent(b: seq<State>, f: F.State, l: L.State, e: L.Event) returns (d: seq<State>)
    requires 0 in l.rows && IsRun(Single(), b) && b[|b| - 1] == Joint(f, l)
    requires L.Enabled(l, e) && !e.Report? && Mutes(l, e) == {} && 0 in L.Apply(10, l, e).rows
    ensures IsRun(Single(), d) && d[|d| - 1] == Joint(f, L.Apply(10, l, e)) && b <= d
  {
    var s := Joint(f, l);
    JointReread(f, l, L.Apply(10, l, e));
    assert s.muted + {} == s.muted;
    assert LeaseStep(Single(), s, AfterEvent(Single(), s, e));
    d := AddStep(b, s, AfterEvent(Single(), s, e));
  }

  /** What the engine reads from the table is the status of task 0. */
  lemma JointReread(f: F.State, l: L.State, n: L.State)
    requires 0 in l.rows && 0 in n.rows
    ensures var s := Joint(f, l);
      s.(lease := n, flow := s.flow.(rows := s.flow.rows.(task := Reread(s, n.rows)))) == Joint(f, n)
  {
    assert Reread(Joint(f, l), n.rows) == map["a" := n.rows[0].status];
  }

  /** The only node was dispatched, and the start of the run returned. */
  function Started(): F.State {
    F.State(W.Rows(map["a" := W.NodeRunning], W.RunRunning, map["a" := Queued], multiset{"a"}), map[], {}, false)
  }

  /** The start of the run dispatches the node. */
  lemma FirstDispatch() returns (b: seq<State>)
    ensures IsRun(Single(), b)
    ensures b[|b| - 1] == Joint(Started().(procs := map[0 := F.Starting([])]), D.Submitted())
  {
    var c := Single();
    var r := W.Rows(map["a" := W.NodePending], W.RunRunning, map[], multiset{});
    var s := State(F.State(r, map[0 := F.Starting(["a"])], {}, false), D.Fresh(), map[], {});
    assert IsRoot(c.flow.g, "a");
    assert Init(c, s) by {
      assert (map n | n in c.flow.g.nodes :: W.NodePending) == r.status;
    }
    assert StepAt(c, [s], 0);
    var t := Joint(Started().(procs := map[0 := F.Starting([])]), D.Submitted());
    assert Dispatches(c, s, t, 0, "a", 0) by {
      assert ["a"][1..] == [];
      assert F.ProcStep(c.flow, r, F.Starting(["a"]), t.flow.rows, Some(F.Starting([])));
      assert t.flow.procs == F.Put(s.flow.procs, 0, Some(F.Starting([])));
      assert F.CallSteps(c.flow, s.flow, t.flow, 0);
    }
    b := AddStep([s], s, t);
  }

  lemma Start() returns (b: seq<State>)
    ensures IsRun(Single(), b) && b[|b| - 1] == Joint(Started(), D.Submitted())
  {
    b := FirstDispatch();
    var t, u := b[|b| - 1], Joint(Started(), D.Submitted());
    assert FlowStep(Single(), t, u) by {
      var none: Option<F.Proc> := None;
      assert F.ProcStep(Single().flow, t.flow.rows, F.Starting([]), t.flow.rows, none);
      assert u.flow.procs == F.Put(t.flow.procs, 0, none);
      assert F.CallSteps(Single().flow, t.flow, u.flow, 0);
    }
    b := AddStep(b, t, u);
  }

  lemma Deliver(b: seq<State>, f: F.State, l: L.State, w: WorkerId) returns (d: seq<State>)
    requires 0 in l.rows && IsRun(Single(), b) && b[|b| - 1] == Joint(f, l)
    requires l.queue == [] && l.outbox == multiset{0} && w !in l.workers
    ensures IsRun(Single(), d) && b <= d && d[|d| - 1] == Joint(f, R.Delivered(l, w))
  {
    R.DeliverySteps(l, w);
    d := AddEvent(b, f, l, L.Push(0));
    d := AddEvent(d, f, R.Pushed(l), L.Boot(w));
    d := AddEvent(d, f, L.Becomes(R.Pushed(l), w, L.Idle), L.Pop(w));
  }

  // A cancelled task keeps its run open.

  /** Task 0 was cancelled before anybody claimed it. */
  function Withdrawn(): L.State {
    D.Submitted().(rows := map[0 := CancelRow(NewRow(1))], tally := map[0 := L.Tally([], 0, 0, 0, 0, 0, 1)])
  }

  lemma Withdraw() returns (b: seq<State>)
    ensures IsRun(Single(), b) && b[|b| - 1] == Joint(Started(), Withdrawn())
  {
    b := Start();
    b := AddEvent(b, Started(), D.Submitted(), L.CheckCancel(0));
    var l := D.Submitted().(cancelling := multiset{0});
    assert L.Apply(10, D.Submitted(), L.CheckCancel(0)) == l;
    b := AddEvent(b, Started(), l, L.Cancel(0));
    assert L.Apply(10, l, L.Cancel(0)) == Withdrawn() by {
      assert multiset{0} - multiset{0} == multiset{};
    }
  }

  /**
   * A user cancels the task of the only node. The message is popped and dropped, everything is quiet, no write
   * came late and no call died, and the run is open; by QuietIsForever it stays so.
   */
  lemma CancelledTaskKeepsRunOpen() returns (b: seq<State>)
    ensures IsRun(Single(), b)
    ensures var s := b[|b| - 1];
      Smooth(s) && Quiet(s) && !W.Over(s.flow.rows.run) && "a" in s.id && CutOff(s, "a")
  {
    b := Withdraw();
    b := Deliver(b, Started(), Withdrawn(), "w1");
    b := AddEvent(b, Started(), R.Delivered(Withdrawn(), "w1"), L.Claim("w1", 0));
    var s := b[|b| - 1];
    assert s.lease.workers == map["w1" := L.Idle];
  }

  // A late write flips a settled node.

  lemma Repeat() returns (b: seq<State>)
    ensures IsRun(Single(), b) && b[|b| - 1] == Joint(Started(), R.Lapsed())
  {
    b := Start();
    b := Deliver(b, Started(), D.Submitted(), "w1");
    b := AddEvent(b, Started(), R.Held(), L.Claim("w1", 0));
    R.TakeHeld(multiset{});
    assert R.Held().(cancelling := multiset{}) == R.Held() && R.Taken().(cancelling := multiset{}) == R.Taken();
    b := AddEvent(b, Started(), R.Taken(), L.Finish("w1", Succeeded));
    assert L.Apply(10, R.Taken(), L.Finish("w1", Succeeded)) == R.Checked();
    b := AddEvent(b, Started(), R.Checked(), L.Tick(11));
    b := AddEvent(b, Started(), R.Checked().(clock := 11), L.Recover(0, 11));
    R.RecoverLapsed();
  }

  /** The result of w1 for attempt 1 is still to be written, and w2 is about to report that attempt 2 failed. */
  ghost predicate Twofold(l: L.State) {
    && 0 in l.rows && l.rows[0].status == TaskStatus.Failed
    && "w1" in l.workers && l.workers["w1"] == L.Committing(0, 1, EndSuccess, 10)
    && "w2" in l.workers && l.workers["w2"] == L.Reporting(0)
  }

  lemma FailSecond() returns (b: seq<State>, l: L.State)
    ensures Twofold(l) && IsRun(Single(), b) && b[|b| - 1] == Joint(Started(), l)
  {
    b := Repeat();
    b := Deliver(b, Started(), R.Lapsed(), "w2");
    l := R.Delivered(R.Lapsed(), "w2");
    b := AddEvent(b, Started(), l, L.Claim("w2", 11));
    l := L.Apply(10, l, L.Claim("w2", 11));
    assert l.rows[0] == Row(Running, 2, 1, Some("w2"), Some(21), Some(11));
    assert l.workers["w2"] == L.Executing(0, 2) && l.workers["w1"] == L.Committing(0, 1, EndSuccess, 10);
    b, l := EndSecond(b, l);
  }

  lemma EndSecond(b: seq<State>, l0: L.State) returns (d: seq<State>, l: L.State)
    requires 0 in l0.rows && IsRun(Single(), b) && b[|b| - 1] == Joint(Started(), l0) && Owned(l0.rows[0], "w2")
    requires "w2" in l0.workers && l0.workers["w2"] == L.Executing(0, 2)
    requires "w1" in l0.workers && l0.workers["w1"] == L.Committing(0, 1, EndSuccess, 10)
    ensures Twofold(l) && IsRun(Single(), d) && d[|d| - 1] == Joint(Started(), l)
  {
    d := AddEvent(b, Started(), l0, L.Finish("w2", FatalError));
    var m := L.Apply(10, l0, L.Finish("w2", FatalError));
    assert m.workers["w2"].Committing? && m.workers["w2"].e == EndFailed && m.workers["w2"].t == 0;
    d := AddEvent(d, Started(), m, L.Commit("w2"));
    l := L.Apply(10, m, L.Commit("w2"));
  }

  /** Call i came in for the node. */
  function Called(f: F.State, x: TaskStatus, i: nat): F.State {
    f.(procs := f.procs[i := F.Entered("a", x)], reported := f.reported + {"a"})
  }

  /** The worker reports the final status of task 0 with a call i. */
  lemma Report(b: seq<State>, f: F.State, l: L.State, w: WorkerId, i: nat) returns (d: seq<State>)
    requires 0 in l.rows && IsRun(Single(), b) && b[|b| - 1] == Joint(f, l) && Reportable(l.rows[0].status)
    requires w in l.workers && l.workers[w] == L.Reporting(0) && i !in f.procs
    ensures IsRun(Single(), d) && b <= d
    ensures d[|d| - 1] == Joint(Called(f, l.rows[0].status, i), L.Apply(10, l, L.Report(w)))
  {
    var s := Joint(f, l);
    var t := Joint(Called(f, l.rows[0].status, i), L.Apply(10, l, L.Report(w)));
    assert ReportsOn(s, w, "a");
    assert F.CallEnters(s.flow, t.flow, i, "a");
    assert Reports(Single(), s, t, w);
    d := AddStep(b, s, t);
  }

  /** The call finds the run open and marks the node. */
  lemma Mark(b: seq<State>, f: F.State, l: L.State, i: nat) returns (d: seq<State>, g: F.State)
    requires 0 in l.rows && IsRun(Single(), b) && b[|b| - 1] == Joint(f, l) && f.rows.run == W.RunRunning
    requires i in f.procs && f.procs[i] == F.Entered("a", l.rows[0].status)
    ensures IsRun(Single(), d) && b <= d && d[|d| - 1] == Joint(g, l) && g.rows.run == W.RunRunning
    ensures "a" in g.rows.status && g.rows.status["a"] == W.Verdictful(l.rows[0].status)
    ensures g.procs.Keys == f.procs.Keys
  {
    var c, x := Single(), l.rows[0].status;
    var s := Joint(f, l);
    var h := f.(procs := f.procs[i := F.Marking("a", x)]);
    var t := Joint(h, l);
    assert FlowStep(c, s, t) by {
      assert F.ProcStep(c.flow, s.flow.rows, F.Entered("a", x), t.flow.rows, Some(F.Marking("a", x)));
      assert F.CallSteps(c.flow, s.flow, t.flow, i);
    }
    d := AddStep(b, s, t);
    var r := W.Conclude(t.flow.rows, "a", x);
    g := h.(rows := r, procs := h.procs[i := F.Scanning(r)]);
    var u := Joint(g, l);
    assert FlowStep(c, t, u) by {
      assert F.ProcStep(c.flow, t.flow.rows, F.Marking("a", x), u.flow.rows, Some(F.Scanning(r)));
      assert F.CallSteps(c.flow, t.flow, u.flow, i);
    }
    d := AddStep(d, t, u);
  }

  /**
   * Attempt 1 is recovered after its worker checked it, attempt 2 fails and is reported, and the node is marked
   * FAILED. Then the first worker writes its success by primary key and reports it: the settled node turns into
   * SUCCESS, and a dependent that was skipped meanwhile would stay skipped.
   */
  lemma LateWriteFlipsNode() returns (b: seq<State>, k: nat)
    ensures IsRun(Single(), b) && k < |b|
    ensures W.At(b[k].flow.rows, "a") == W.NodeFailed && W.At(b[|b| - 1].flow.rows, "a") == W.NodeSuccess
  {
    var l;
    b, l := FailSecond();
    b := Report(b, Started(), l, "w2", 0);
    l := L.Apply(10, l, L.Report("w2"));
    var g;
    b, g := Mark(b, Called(Started(), TaskStatus.Failed, 0), l, 0);
    k := |b| - 1;
    b := FlipBack(b, g, l);
  }

  lemma CommitLate(l: L.State)
    requires 0 in l.rows && "w1" in l.workers && l.workers["w1"] == L.Committing(0, 1, EndSuccess, 10)
    ensures var m := L.Apply(10, l, L.Commit("w1"));
      && 0 in m.rows && m.rows[0].status == TaskStatus.Success
      && "w1" in m.workers && m.workers["w1"] == L.Reporting(0)
      && 0 in L.Apply(10, m, L.Report("w1")).rows
      && L.Apply(10, m, L.Report("w1")).rows[0] == m.rows[0]
  {
  }

  lemma FlipBack(b: seq<State>, g: F.State, l: L.State) returns (d: seq<State>)
    requires 0 in l.rows && IsRun(Single(), b) && b[|b| - 1] == Joint(g, l)
    requires g.rows.run == W.RunRunning && 1 !in g.procs
    requires "w1" in l.workers && l.workers["w1"] == L.Committing(0, 1, EndSuccess, 10)
    ensures IsRun(Single(), d) && b <= d && W.At(d[|d| - 1].flow.rows, "a") == W.NodeSuccess
  {
    CommitLate(l);
    d := AddEvent(b, g, l, L.Commit("w1"));
    var m := L.Apply(10, l, L.Commit("w1"));
    d := Report(d, g, m, "w1", 1);
    var after;
    d, after := Mark(d, Called(g, TaskStatus.Success, 1), L.Apply(10, m, L.Report("w1")), 1);
  }
}
