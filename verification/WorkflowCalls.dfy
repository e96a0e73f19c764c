/** Calls return: what others do never keeps a call in its loop. */
module WorkflowCalls {
  import opened Graph
  import opened Options
  import opened Sequences
  import opened Workflow
  import opened WorkflowProtocol

  function PendingOf(c: Config, r: Rows): set<Node> {
    set n | n in c.g.nodes && At(r, n).NodePending?
  }

  /** The most that one pass over the pending nodes can take. */
  function PassLength(c: Config): nat {
    2 * |c.g.nodes| + 2
  }

  /**
   * A bound on the steps that a call has before it. A pass that reports a change has claimed a node itself, so
   * there are no more passes to come than nodes pending, and one.
   */
  function Work(c: Config, r: Rows, p: Proc): nat {
    var passes := |PendingOf(c, r)| * PassLength(c);
    match p
    case Starting(roots) => |roots| + 1
    case Entered(_, _) => passes + PassLength(c) + 4
    case Marking(_, _) => passes + PassLength(c) + 3
    case FailingFast(_) => 1
    case Scanning(_) => passes + PassLength(c) + 2
    case Visiting(todo, changed, _) => passes + (if changed then PassLength(c) else 0) + 2 * |todo| + 3
    case Acting(_, _, todo, changed, _) => passes + (if changed then PassLength(c) else 0) + 2 * |todo| + 4
    case Checking => 2
    case Finalizing(_) => 1
  }

  lemma FewerPasses(c: Config, r: Rows, t: Rows)
    requires PendingOf(c, t) <= PendingOf(c, r)
    ensures |PendingOf(c, t)| * PassLength(c) <= |PendingOf(c, r)| * PassLength(c)
  {
    SmallerSet(PendingOf(c, t), PendingOf(c, r));
    Times(|PendingOf(c, t)|, |PendingOf(c, r)|, PassLength(c));
  }

  lemma Times(a: nat, b: nat, k: nat)
    requires a <= b
    ensures a * k <= b * k
  {
  }

  /** What others do only lowers the work of a call. */
  lemma OthersLowerWork(c: Config, r: Rows, t: Rows, p: Proc)
    requires Later(c.g, r, t)
    ensures Work(c, t, p) <= Work(c, r, p)
  {
    assert forall n :: n in PendingOf(c, t) ==> At(t, n) == At(t, n);
    FewerPasses(c, r, t);
  }

  /** A write that takes effect leaves one node less, which pays for the pass it asks for. */
  lemma ClaimPaysForPass(c: Config, r: Rows, m: Node, d: Decision)
    requires r.status.Keys == c.g.nodes && m in PendingOf(c, r) && d != Wait
    ensures |PendingOf(c, Act(r, m, d))| * PassLength(c) + PassLength(c) == |PendingOf(c, r)| * PassLength(c)
  {
    var t := Act(r, m, d);
    assert forall n :: n in c.g.nodes && n != m ==> At(t, n) == At(r, n);
    assert PendingOf(c, r) == PendingOf(c, t) + {m};
    assert m !in PendingOf(c, t);
    var a := |PendingOf(c, t)|;
    assert |PendingOf(c, r)| == a + 1;
    assert (a + 1) * PassLength(c) == a * PassLength(c) + PassLength(c);
  }

  lemma ActLowersWork(c: Config, r: Rows, p: Proc, r': Rows, p': Option<Proc>)
    requires RowsOk(c.g, c.policy, r) && p.Acting? && ProcOk(c, r, p) && ProcStep(c, r, p, r', p')
    ensures p'.Some? && Work(c, r', p'.value) < Work(c, r, p)
  {
    if At(r, p.m).NodePending? {
      ClaimPaysForPass(c, r, p.m, p.d);
    }
  }

  lemma ScanLowersWork(c: Config, r: Rows, p: Proc, r': Rows, p': Option<Proc>)
    requires p.Scanning? && ProcStep(c, r, p, r', p')
    ensures p'.Some? && Work(c, r', p'.value) < Work(c, r, p)
  {
    var todo := p'.value.todo;
    DistinctLength(todo);
    SmallerSet(SetOf(todo), c.g.nodes);
  }

  /** Each step of a call brings it closer to its return. */
  lemma OwnStepLowersWork(c: Config, r: Rows, p: Proc, r': Rows, p': Option<Proc>)
    requires RowsOk(c.g, c.policy, r) && ProcOk(c, r, p) && ProcStep(c, r, p, r', p')
    ensures p'.Some? ==> Work(c, r', p'.value) < Work(c, r, p)
  {
    match p
    case Marking(n, _) =>
      assert NodeOk(c.g, c.policy, r, n);
      assert PendingOf(c, r') == PendingOf(c, r);
    case Scanning(_) => ScanLowersWork(c, r, p, r', p');
    case Acting(_, _, _, _, _) => ActLowersWork(c, r, p, r', p');
    case _ =>
  }

  /** How many of the steps between two states of a run were steps of the call. */
  ghost function OwnSteps(c: Config, b: seq<State>, i: nat, lo: nat, hi: nat): nat
    requires lo <= hi < |b|
    decreases hi
  {
    if lo == hi then 0
    else OwnSteps(c, b, i, lo, hi - 1) + if CallSteps(c, b[hi - 1], b[hi], i) then 1 else 0
  }

  lemma WorkAt(c: Config, b: seq<State>, k: nat, i: nat)
    requires IsRun(c, b) && 0 < k < |b| && i in b[k - 1].procs && i in b[k].procs
    ensures Work(c, b[k].rows, b[k].procs[i]) + (if CallSteps(c, b[k - 1], b[k], i) then 1 else 0)
         <= Work(c, b[k - 1].rows, b[k - 1].procs[i])
  {
    var s, t := b[k - 1], b[k];
    RunsAreSafe(c, b, k - 1);
    assert ProcOk(c, s.rows, s.procs[i]);
    if CallSteps(c, s, t, i) {
      var p: Option<Proc> :|
        ProcStep(c, s.rows, s.procs[i], t.rows, p) && t == s.(rows := t.rows, procs := Put(s.procs, i, p));
      OwnStepLowersWork(c, s.rows, s.procs[i], t.rows, p);
    } else {
      assert StepAt(c, b, k);
      StepIsSafe(c, s, t);
      OthersLowerWork(c, s.rows, t.rows, t.procs[i]);
    }
  }

  lemma {:induction false} WorkAlong(c: Config, b: seq<State>, i: nat, lo: nat, hi: nat)
    requires IsRun(c, b) && lo <= hi < |b| && forall k :: lo <= k <= hi ==> i in b[k].procs
    ensures OwnSteps(c, b, i, lo, hi) + Work(c, b[hi].rows, b[hi].procs[i]) <= Work(c, b[lo].rows, b[lo].procs[i])
    decreases hi
  {
    if lo < hi {
      WorkAlong(c, b, i, lo, hi - 1);
      WorkAt(c, b, hi, i);
    }
  }

  /**
   * A call that entered returns after a number of its own steps that depends on the size of the workflow alone,
   * whatever others do in between.
   */
  lemma CallReturns(c: Config, b: seq<State>, i: nat, lo: nat, hi: nat)
    requires IsRun(c, b) && lo <= hi < |b| && forall k :: lo <= k <= hi ==> i in b[k].procs
    requires b[lo].procs[i].Entered?
    ensures OwnSteps(c, b, i, lo, hi) <= (|c.g.nodes| + 1) * PassLength(c) + 3
  {
    WorkAlong(c, b, i, lo, hi);
    SmallerSet(PendingOf(c, b[lo].rows), c.g.nodes);
    Times(|PendingOf(c, b[lo].rows)|, |c.g.nodes|, PassLength(c));
    var n := |c.g.nodes|;
    assert (n + 1) * PassLength(c) == n * PassLength(c) + PassLength(c);
    assert Work(c, b[hi].rows, b[hi].procs[i]) >= 1;
  }
}
