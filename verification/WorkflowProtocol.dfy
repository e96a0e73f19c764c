/**
 * Any number of engine calls working on one run at once. Every committed statement is one step; between
 * two steps of a call anything may happen.
 */
module WorkflowProtocol {
  import opened Graph
  import opened Options
  import opened Sequences
  import opened Tasks
  import opened Workflow

  /**
   * Where an engine call in flight stands. The session of a call keeps the nodes that it loaded, so a look at
   * a dependency may show it as old as in `base`: the rows when the call began to evaluate, with its own writes.
   */
  datatype Proc =
    | Starting(roots: seq<Node>)                // start of the run: roots still to dispatch
    | Entered(n: Node, t: TaskStatus)           // advance was called for the final status t of n's task
    | Marking(n: Node, t: TaskStatus)           // found the run still open, about to write the node
    | FailingFast(n: Node)                      // about to commit the fail-fast transaction
    | Scanning(base: Rows)                      // about to list the pending nodes
    | Visiting(todo: seq<Node>, changed: bool, base: Rows)         // in a pass over the listed nodes
    | Acting(m: Node, d: Decision, todo: seq<Node>, changed: bool, base: Rows) // decided on m, about to write it
    | Checking                                  // about to read all nodes for the completion check
    | Finalizing(v: RunStatus)                  // about to write the verdict

  datatype Config = Config(g: Dag, policy: Policy)

  /**
   * `reported` holds the nodes for which advance was called. `disturbed` records that a call died and left
   * something unattended: see `Attended`.
   */
  datatype State = State(rows: Rows, procs: map<nat, Proc>, reported: set<Node>, disturbed: bool)

  // What calls are bound to do.

  /** A pending node that the engine has to act on: a root, or one whose dependencies decide its fate. */
  ghost predicate Owed(c: Config, r: Rows, n: Node) {
    n in c.g.nodes && At(r, n).NodePending? && (IsRoot(c.g, n) || Decide(c.g, r, n) != Wait)
  }

  /** The call will come to the node before it returns, and its dependencies look decided even in `base`. */
  ghost predicate Covers(c: Config, p: Proc, n: Node) {
    match p
    case Starting(roots) => n in roots
    case FailingFast(_) => true
    case Scanning(base) => !IsRoot(c.g, n) && Decide(c.g, base, n) != Wait
    case Visiting(todo, changed, base) => !IsRoot(c.g, n) && (changed || n in todo) && Decide(c.g, base, n) != Wait
    case Acting(m, d, todo, changed, base) =>
      !IsRoot(c.g, n) && (n == m || ((changed || n in todo) && Decide(c.g, base, n) != Wait))
    case _ => false
  }

  /** All nodes are settled but the verdict is not written. */
  ghost predicate NeedsVerdict(c: Config, r: Rows) {
    AllSettled(c.g, r) && !Over(r.run)
  }

  /** The call still has the completion check, or the failure of the run, ahead of it. */
  ghost predicate WillConclude(p: Proc) {
    p.FailingFast? || p.Scanning? || p.Visiting? || p.Acting? || p.Checking? || p.Finalizing?
  }

  /** Advance was called for the node, but its final status is not written. */
  ghost predicate Unmarked(c: Config, r: Rows, reported: set<Node>, n: Node) {
    n in c.g.nodes && n in reported && At(r, n).NodeRunning? && !Over(r.run)
  }

  ghost predicate Carries(p: Proc, n: Node) {
    (p.Entered? && p.n == n) || (p.Marking? && p.n == n)
  }

  ghost predicate SomeCovers(c: Config, procs: map<nat, Proc>, n: Node) {
    exists i :: i in procs && Covers(c, procs[i], n)
  }

  ghost predicate SomeConcludes(procs: map<nat, Proc>) {
    exists i :: i in procs && WillConclude(procs[i])
  }

  ghost predicate SomeCarries(procs: map<nat, Proc>, n: Node) {
    exists i :: i in procs && Carries(procs[i], n)
  }

  /** A call has yet to begin its evaluation. */
  ghost predicate SomeReports(procs: map<nat, Proc>) {
    exists i :: i in procs && (procs[i].Entered? || procs[i].Marking?)
  }

  ghost predicate Unreported(c: Config, r: Rows, reported: set<Node>, n: Node) {
    n in c.g.nodes && At(r, n).NodeRunning? && n !in reported
  }

  ghost predicate SomeUnreported(c: Config, r: Rows, reported: set<Node>) {
    exists n :: Unreported(c, r, reported, n)
  }

  /** Somebody sees to the node, now or with a later report. Roots are left to the start of the run. */
  ghost predicate SeenTo(c: Config, s: State, n: Node) {
    || SomeCovers(c, s.procs, n)
    || (!IsRoot(c.g, n) && (SomeReports(s.procs) || SomeUnreported(c, s.rows, s.reported)))
  }

  /** What has to be done is going to be done by some call in flight, or once the next report comes in. */
  ghost predicate Attended(c: Config, s: State) {
    && (forall n {:trigger Owed(c, s.rows, n)} :: Owed(c, s.rows, n) ==> SeenTo(c, s, n))
    && (NeedsVerdict(c, s.rows) ==> SomeConcludes(s.procs) || SomeReports(s.procs))
    && (forall n {:trigger Unmarked(c, s.rows, s.reported, n)} ::
          Unmarked(c, s.rows, s.reported, n) ==> SomeCarries(s.procs, n))
  }

  // Steps.

  /** The pending nodes, each once, in any order. */
  ghost predicate Lists(g: Dag, r: Rows, todo: seq<Node>) {
    Distinct(todo) && forall n :: n in todo <==> n in g.nodes && At(r, n).NodePending?
  }

  /** What a session may show: all that was settled in `base`, and nothing that is not settled by now. */
  ghost predicate MayShow(g: Dag, base: Rows, r: Rows, view: Rows) {
    KeepsSettled(g, base, view) && KeepsSettled(g, view, r)
  }

  /** What the call makes of the node it looks at. */
  ghost predicate Looks(c: Config, r: Rows, p: Proc, d: Decision)
    requires p.Visiting? && p.todo != []
  {
    exists view :: MayShow(c.g, p.base, r, view) && d == Decide(c.g, view, p.todo[0])
  }

  /** The session sees its own writes. */
  function WithOwn(base: Rows, m: Node, d: Decision): Rows {
    if d == Skip then base.(status := base.status[m := NodeSkipped]) else base
  }

  /** One step of one call: new rows, and what becomes of the call (None: it returns). */
  ghost predicate ProcStep(c: Config, r: Rows, p: Proc, r': Rows, p': Option<Proc>) {
    match p
    case Starting(roots) =>
      if roots == [] then r' == r && p' == None
      else r' == TryDispatch(r, roots[0]) && p' == Some(Starting(roots[1..]))
    case Entered(n, t) =>
      r' == r && p' == if Over(r.run) then None else Some(Marking(n, t))
    case Marking(n, t) =>
      && r' == Conclude(r, n, t)
      && p' == Some(if Verdictful(t).NodeFailed? && c.policy == FailFast then FailingFast(n) else Scanning(r'))
    case FailingFast(n) =>
      r' == AbortRun(r) && p' == None
    case Scanning(base) =>
      && r' == r && p'.Some? && p'.value.Visiting? && !p'.value.changed && p'.value.base == base
      && Lists(c.g, r, p'.value.todo)
    case Visiting(todo, changed, base) =>
      && r' == r
      && if todo == [] then p' == Some(if changed then Scanning(base) else Checking)
         else (p' == Some(Visiting(todo[1..], changed, base)) && Looks(c, r, p, Wait))
              || (p'.Some? && p'.value.Acting? && p'.value.d != Wait && Looks(c, r, p, p'.value.d)
                  && p'.value == Acting(todo[0], p'.value.d, todo[1..], changed, base))
    case Acting(m, d, todo, changed, base) =>
      r' == Act(r, m, d) && p' == Some(Visiting(todo, changed || At(r, m).NodePending?, WithOwn(base, m, d)))
    case Checking =>
      // The call may still hold the run row it read on entry, so it may go on even if the run is over.
      && r' == r
      && (|| (Over(r.run) && p' == None)
          || p' == if AllSettled(c.g, r) then Some(Finalizing(Verdict(c.g, r))) else None)
    case Finalizing(v) =>
      r' == r.(run := v) && p' == None
  }

  function Put(procs: map<nat, Proc>, i: nat, p: Option<Proc>): map<nat, Proc> {
    if p.Some? then procs[i := p.value] else procs - {i}
  }

  ghost predicate CallSteps(c: Config, s: State, t: State, i: nat) {
    && i in s.procs
    && exists p: Option<Proc> ::
         ProcStep(c, s.rows, s.procs[i], t.rows, p) && t == s.(rows := t.rows, procs := Put(s.procs, i, p))
  }

  /** A worker, late or not, calls advance for a task in a final status. */
  ghost predicate CallEnters(s: State, t: State, i: nat, n: Node) {
    && i !in s.procs && n in s.rows.task && Reportable(s.rows.task[n])
    && t == s.(procs := s.procs[i := Entered(n, s.rows.task[n])], reported := s.reported + {n})
  }

  /** The worker side: claims, retries, final results and cancellations of the task of a node. */
  ghost predicate TaskMoves(s: State, t: State, n: Node, x: TaskStatus) {
    && n in s.rows.task && TaskMove(s.rows.task[n], x)
    && t == s.(rows := s.rows.(task := s.rows.task[n := x]))
  }

  ghost predicate CallDies(c: Config, s: State, t: State, i: nat) {
    && i in s.procs
    && t == s.(procs := s.procs - {i}, disturbed := s.disturbed || !Attended(c, s.(procs := s.procs - {i})))
  }

  /** A step that is not the death of a call. */
  ghost predicate AliveStep(c: Config, s: State, t: State) {
    || (exists i :: CallSteps(c, s, t, i))
    || (exists i, n :: CallEnters(s, t, i, n))
    || (exists n, x :: TaskMoves(s, t, n, x))
  }

  ghost predicate Next(c: Config, s: State, t: State) {
    AliveStep(c, s, t) || exists i :: CallDies(c, s, t, i)
  }

  ghost predicate Init(c: Config, s: State) {
    && WellFormed(c.g) && c.g.nodes != {}
    && s.rows == Rows(map n | n in c.g.nodes :: NodePending, RunRunning, map[], multiset{})
    && s.procs.Keys == {0} && s.procs[0].Starting?
    && (forall n :: n in s.procs[0].roots <==> IsRoot(c.g, n))
    && s.reported == {} && !s.disturbed
  }

  /** State number `i` of a run: an initial state, or one step after the state before. */
  ghost predicate StepAt(c: Config, b: seq<State>, i: nat)
    requires i < |b|
  {
    if i == 0 then Init(c, b[0]) else Next(c, b[i - 1], b[i])
  }

  ghost predicate IsRun(c: Config, b: seq<State>) {
    |b| > 0 && forall i {:trigger StepAt(c, b, i)} :: 0 <= i < |b| ==> StepAt(c, b, i)
  }

  // Safety.

  ghost predicate ProcOk(c: Config, r: Rows, p: Proc) {
    match p
    case Starting(roots) => forall n :: n in roots ==> IsRoot(c.g, n)
    case Entered(n, t) => n in r.task && r.task[n] == t && Reportable(t)
    case Marking(n, t) => n in r.task && r.task[n] == t && Reportable(t)
    case FailingFast(n) => c.policy == FailFast && n in c.g.nodes && At(r, n).NodeFailed?
    case Scanning(base) => KeepsSettled(c.g, base, r)
    case Visiting(todo, changed, base) => KeepsSettled(c.g, base, r) && forall n :: n in todo ==> n in c.g.nodes
    case Acting(m, d, todo, changed, base) =>
      && KeepsSettled(c.g, base, r)
      && (forall n :: n in todo ==> n in c.g.nodes)
      && m in c.g.nodes && !IsRoot(c.g, m)
      && ((d == Skip && Blocked(c.g, r, m)) || (d == Dispatch && AllSucceeded(c.g, r, m)))
    case Checking => true
    case Finalizing(v) => AllSettled(c.g, r) && v == Verdict(c.g, r)
  }

  /** Whoever is about to mark a node came with its report. */
  ghost predicate Recorded(p: Proc, reported: set<Node>) {
    p.Entered? || p.Marking? ==> p.n in reported
  }

  ghost predicate Safe(c: Config, s: State) {
    && RowsOk(c.g, c.policy, s.rows)
    && (forall i {:trigger ProcOk(c, s.rows, s.procs[i])} :: i in s.procs ==> ProcOk(c, s.rows, s.procs[i]))
    && (forall i {:trigger Recorded(s.procs[i], s.reported)} :: i in s.procs ==> Recorded(s.procs[i], s.reported))
    && s.reported <= s.rows.task.Keys
  }

  lemma KeepsSettledTrans(g: Dag, r: Rows, t: Rows, u: Rows)
    requires KeepsSettled(g, r, t) && KeepsSettled(g, t, u)
    ensures KeepsSettled(g, r, u)
  {
    forall n | n in g.nodes && Settled(At(r, n)) ensures At(u, n) == At(r, n) {
      assert At(t, n) == At(r, n);
    }
  }

  /** What a call relies on is not taken away by anyone else. */
  lemma ProcStaysOk(c: Config, r: Rows, t: Rows, p: Proc)
    requires RowsOk(c.g, c.policy, r) && Later(c.g, r, t) && ProcOk(c, r, p)
    ensures ProcOk(c, t, p)
  {
    match p
    case Scanning(base) => KeepsSettledTrans(c.g, base, r, t);
    case Visiting(_, _, base) => KeepsSettledTrans(c.g, base, r, t);
    case Acting(m, _, _, _, base) =>
      KeepsSettledTrans(c.g, base, r, t);
      Monotone(c.g, r, t, m);
    case Finalizing(v) =>
      assert forall n :: n in c.g.nodes ==> At(t, n) == At(r, n);
      assert AnyFailed(c.g, r) <==> AnyFailed(c.g, t) by {
        if AnyFailed(c.g, t) {
          var u :| u in c.g.nodes && At(t, u).NodeFailed?;
          assert At(r, u).NodeFailed?;
        }
        Monotone(c.g, r, t, "");
      }
      assert AllNodesSucceeded(c.g, r) <==> AllNodesSucceeded(c.g, t);
    case _ =>
  }

  /** A decision to skip or to dispatch holds for the rows as they are, however old the look was. */
  lemma DecisionIsSound(c: Config, r: Rows, p: Proc, d: Decision)
    requires p.Visiting? && p.todo != [] && Looks(c, r, p, d)
    ensures d == Skip ==> Blocked(c.g, r, p.todo[0])
    ensures d == Dispatch ==> AllSucceeded(c.g, r, p.todo[0])
    ensures d != Wait ==> !IsRoot(c.g, p.todo[0])
  {
    var view :| MayShow(c.g, p.base, r, view) && d == Decide(c.g, view, p.todo[0]);
    Monotone(c.g, view, r, p.todo[0]);
  }

  lemma ActIsSafe(c: Config, r: Rows, m: Node, d: Decision, base: Rows)
    requires RowsOk(c.g, c.policy, r) && m in c.g.nodes && KeepsSettled(c.g, base, r)
    requires (d == Skip && Blocked(c.g, r, m)) || (d == Dispatch && AllSucceeded(c.g, r, m))
    ensures RowsOk(c.g, c.policy, Act(r, m, d)) && Later(c.g, r, Act(r, m, d))
    ensures KeepsSettled(c.g, WithOwn(base, m, d), Act(r, m, d)) && KeepsSettled(c.g, base, WithOwn(base, m, d))
  {
    if d == Skip {
      SkipKeepsOk(c.g, c.policy, r, m);
      assert NodeOk(c.g, c.policy, r, m);
    } else {
      DispatchKeepsOk(c.g, c.policy, r, m);
      KeepsSettledTrans(c.g, base, r, Act(r, m, d));
    }
  }

  lemma ProcStepIsSafe(c: Config, r: Rows, p: Proc, r': Rows, p': Option<Proc>)
    requires RowsOk(c.g, c.policy, r) && ProcOk(c, r, p) && ProcStep(c, r, p, r', p')
    ensures RowsOk(c.g, c.policy, r') && Later(c.g, r, r')
    ensures p'.Some? ==> ProcOk(c, r', p'.value)
  {
    match p
    case Starting(roots) =>
      if roots != [] {
        assert IsRoot(c.g, roots[0]);
        DispatchKeepsOk(c.g, c.policy, r, roots[0]);
      }
    case Marking(n, t) => ConcludeKeepsOk(c.g, c.policy, r, n, t);
    case FailingFast(n) => AbortKeepsOk(c.g, r, n);
    case Visiting(todo, changed, base) =>
      if todo != [] && p'.value.Acting? {
        DecisionIsSound(c, r, p, p'.value.d);
      }
    case Acting(m, d, todo, changed, base) => ActIsSafe(c, r, m, d, base);
    case Finalizing(v) => FinalizeKeepsOk(c.g, c.policy, r);
    case _ =>
  }

  lemma SafeAgain(c: Config, s: State, t: State, i: nat, p: Option<Proc>)
    requires Safe(c, s) && RowsOk(c.g, c.policy, t.rows) && Later(c.g, s.rows, t.rows)
    requires p.Some? ==> ProcOk(c, t.rows, p.value) && Recorded(p.value, t.reported)
    requires t.procs == Put(s.procs, i, p) && s.reported <= t.reported <= t.rows.task.Keys
    ensures Safe(c, t)
  {
    forall j | j in t.procs ensures ProcOk(c, t.rows, t.procs[j]) {
      if j != i {
        assert ProcOk(c, s.rows, s.procs[j]);
        ProcStaysOk(c, s.rows, t.rows, s.procs[j]);
      }
    }
    forall j | j in t.procs ensures Recorded(t.procs[j], t.reported) {
      assert j != i ==> Recorded(s.procs[j], s.reported);
    }
  }

  lemma StepIsSafe(c: Config, s: State, t: State)
    requires Safe(c, s) && Next(c, s, t)
    ensures Safe(c, t) && Later(c.g, s.rows, t.rows)
  {
    if i :| CallSteps(c, s, t, i) {
      var p: Option<Proc> :|
        ProcStep(c, s.rows, s.procs[i], t.rows, p) && t == s.(rows := t.rows, procs := Put(s.procs, i, p));
      assert ProcOk(c, s.rows, s.procs[i]) && Recorded(s.procs[i], s.reported);
      ProcStepIsSafe(c, s.rows, s.procs[i], t.rows, p);
      SafeAgain(c, s, t, i, p);
    } else if i, n :| CallEnters(s, t, i, n) {
      SafeAgain(c, s, t, i, Some(t.procs[i]));
    } else if n, x :| TaskMoves(s, t, n, x) {
      TaskMoveKeepsOk(c.g, c.policy, s.rows, n, x);
      forall j | j in t.procs ensures ProcOk(c, t.rows, t.procs[j]) {
        assert ProcOk(c, s.rows, s.procs[j]);
        ProcStaysOk(c, s.rows, t.rows, s.procs[j]);
      }
    } else {
      var i :| CallDies(c, s, t, i);
      SafeAgain(c, s, t, i, None);
    }
  }

  lemma InitIsSafe(c: Config, s: State)
    requires Init(c, s)
    ensures Safe(c, s)
  {
    forall n | n in c.g.nodes ensures NodeOk(c.g, c.policy, s.rows, n) {
      assert At(s.rows, n).NodePending?;
    }
  }

  lemma SafeAt(c: Config, b: seq<State>, i: nat)
    requires IsRun(c, b) && 0 < i < |b| && Safe(c, b[i - 1])
    ensures Safe(c, b[i]) && Later(c.g, b[i - 1].rows, b[i].rows)
  {
    assert StepAt(c, b, i);
    StepIsSafe(c, b[i - 1], b[i]);
  }

  /** Every state of every run, whatever the interleaving, deaths and old views included. */
  lemma {:induction false} RunsAreSafe(c: Config, b: seq<State>, k: nat)
    requires IsRun(c, b) && k < |b|
    ensures Safe(c, b[k])
  {
    if k == 0 {
      assert StepAt(c, b, 0);
      InitIsSafe(c, b[0]);
    } else {
      RunsAreSafe(c, b, k - 1);
      SafeAt(c, b, k);
    }
  }
}
