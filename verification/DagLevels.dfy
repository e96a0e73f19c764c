/** The level loop of the DAG viewer: a queue without a visited check that computes longest paths. */
module DagLevels {
  import opened Graph

  /** The edges of a workflow between nodes it has; others are ignored by the viewer. */
  function ViewedGraph(nodes: seq<Node>, edges: seq<Edge>): Dag {
    var keys := set k | k in nodes;
    Dag(keys, set e | e in edges && e.from in keys && e.to in keys)
  }

  /** The adjacency lists name the successors of each node, as often as the edges do. */
  ghost predicate Adjacency(g: Dag, adj: map<Node, seq<Node>>) {
    && adj.Keys == g.nodes
    && (forall u, v {:trigger v in adj[u]} {:trigger Edge(u, v)} ::
          u in adj ==> (v in adj[u] <==> Edge(u, v) in g.edges))
  }

  // When the loop ends. What is queued depends on the queue alone, never on the levels.

  /** One round: the head leaves, its successors join at the end. */
  function Round(adj: map<Node, seq<Node>>, queue: seq<Node>): seq<Node>
    requires queue != []
  {
    queue[1..] + if queue[0] in adj then adj[queue[0]] else []
  }

  function Rounds(adj: map<Node, seq<Node>>, queue: seq<Node>, k: nat): seq<Node>
    decreases k
  {
    if k == 0 || queue == [] then queue else Rounds(adj, Round(adj, queue), k - 1)
  }

  ghost predicate LoopEnds(adj: map<Node, seq<Node>>, queue: seq<Node>) {
    exists k :: Rounds(adj, queue, k) == []
  }

  ghost predicate StaysIn(g: Dag, c: set<Node>, u: Node) {
    exists v :: v in c && Edge(u, v) in g.edges
  }

  /** Whoever is in the set can go on to someone in the set, so that a walk need never end. */
  ghost predicate Trap(g: Dag, c: set<Node>) {
    forall u {:trigger StaysIn(g, c, u)} :: u in c ==> StaysIn(g, c, u)
  }

  ghost predicate Trapped(g: Dag, n: Node) {
    exists c :: Trap(g, c) && n in c
  }

  lemma {:induction false} TrapKeepsQueueBusy(g: Dag, adj: map<Node, seq<Node>>, queue: seq<Node>, c: set<Node>,
                                              n: Node, k: nat)
    requires WellFormed(g) && Adjacency(g, adj) && Trap(g, c) && n in c && n in queue
    ensures Rounds(adj, queue, k) != []
    decreases k
  {
    if k > 0 {
      var next := Round(adj, queue);
      if n == queue[0] {
        assert StaysIn(g, c, n);
        var v :| v in c && Edge(n, v) in g.edges;
        assert v in adj[n];
        TrapKeepsQueueBusy(g, adj, next, c, v, k - 1);
      } else {
        assert n in queue[1..];
        TrapKeepsQueueBusy(g, adj, next, c, n, k - 1);
      }
    }
  }

  /** Every node on a cycle is trapped. */
  lemma CycleTraps(g: Dag, p: seq<Node>, n: Node)
    requires PathFromTo(g, p, n, n)
    ensures Trapped(g, n)
  {
    var c := set k | k in p;
    forall u | u in c ensures StaysIn(g, c, u) {
      var i :| 0 <= i < |p| && p[i] == u;
      var j := if i + 1 < |p| then i + 1 else 1;
      assert Edge(p[j - 1], p[j]) in g.edges && p[j] in c;
    }
    assert Trap(g, c) && n in c;
  }

  /** Heights that fall along every edge, on a set of nodes that is closed under edges. */
  ghost predicate Heights(g: Dag, h: map<Node, nat>) {
    forall e :: e in g.edges && e.from in h ==> e.to in h && h[e.to] < h[e.from]
  }

  lemma FreeSuccessor(g: Dag, e: Edge)
    requires e in g.edges && !Trapped(g, e.from)
    ensures !Trapped(g, e.to)
  {
    if c :| Trap(g, c) && e.to in c {
      var d := c + {e.from};
      forall u | u in d ensures StaysIn(g, d, u) {
        if u in c {
          assert StaysIn(g, c, u);
          var v :| v in c && Edge(u, v) in g.edges;
          assert v in d;
        } else {
          assert e == Edge(u, e.to) && e.to in d;
        }
      }
      assert Trap(g, d) && e.from in d;
    }
  }

  ghost function Free(g: Dag): set<Node> {
    set n | n in g.nodes && !Trapped(g, n)
  }

  /** The nodes from which every walk ends have heights: one of them always has all its successors done already. */
  lemma {:induction false} FreeNodesHaveHeights(g: Dag, h: map<Node, nat>) returns (full: map<Node, nat>)
    requires WellFormed(g) && Heights(g, h) && h.Keys <= Free(g) && forall n :: n in h ==> h[n] < |h.Keys|
    ensures Heights(g, full) && full.Keys == Free(g)
    decreases Free(g) - h.Keys
  {
    var rest := Free(g) - h.Keys;
    if rest == {} {
      full := h;
    } else {
      var m := LastOf(g, rest);
      AddOnTop(g, h, m);
      full := FreeNodesHaveHeights(g, h[m := |h.Keys|]);
    }
  }

  lemma AddOnTop(g: Dag, h: map<Node, nat>, m: Node)
    requires WellFormed(g) && Heights(g, h) && h.Keys <= Free(g) && forall n :: n in h ==> h[n] < |h.Keys|
    requires m in Free(g) && m !in h && forall v :: v in Free(g) && v !in h ==> Edge(m, v) !in g.edges
    ensures var t := h[m := |h.Keys|];
      Heights(g, t) && t.Keys == h.Keys + {m} && (forall n :: n in t ==> t[n] < |t.Keys|)
  {
    forall e | e in g.edges && e.from == m ensures e.to in h {
      FreeSuccessor(g, e);
      assert e == Edge(m, e.to) && e.to in Free(g);
    }
    assert h[m := |h.Keys|].Keys == h.Keys + {m};
  }

  /** A nonempty set of free nodes has one without successors in the set. */
  lemma LastOf(g: Dag, rest: set<Node>) returns (m: Node)
    requires rest <= Free(g) && rest != {}
    ensures m in rest && forall v :: v in rest ==> Edge(m, v) !in g.edges
  {
    var n :| n in rest;
    assert !Trap(g, rest);
    m :| m in rest && !StaysIn(g, rest, m);
  }

  /** The number of walks that start at a node. */
  ghost function Weight(g: Dag, adj: map<Node, seq<Node>>, h: map<Node, nat>, n: Node): nat
    requires WellFormed(g) && Adjacency(g, adj) && Heights(g, h) && n in h && n in adj
    decreases h[n], 1, 0
  {
    assert forall v :: v in adj[n] ==> Edge(n, v) in g.edges;
    1 + Total(g, adj, h, adj[n], h[n])
  }

  ghost function Total(g: Dag, adj: map<Node, seq<Node>>, h: map<Node, nat>, queue: seq<Node>, bound: nat): nat
    requires WellFormed(g) && Adjacency(g, adj) && Heights(g, h)
    requires forall v :: v in queue ==> v in h && v in adj && h[v] < bound
    decreases bound, 0, |queue|
  {
    if queue == [] then 0 else Weight(g, adj, h, queue[0]) + Total(g, adj, h, queue[1..], bound)
  }

  lemma {:induction false} TotalSplits(g: Dag, adj: map<Node, seq<Node>>, h: map<Node, nat>, s: seq<Node>,
                                       t: seq<Node>, bound: nat)
    requires WellFormed(g) && Adjacency(g, adj) && Heights(g, h)
    requires forall v :: v in s + t ==> v in h && v in adj && h[v] < bound
    ensures forall v :: v in s ==> v in s + t
    ensures forall v :: v in t ==> v in s + t
    ensures Total(g, adj, h, s + t, bound) == Total(g, adj, h, s, bound) + Total(g, adj, h, t, bound)
  {
    assert forall v :: v in s || v in t <==> v in s + t;
    if s == [] {
      assert s + t == t;
    } else {
      assert (s + t)[1..] == s[1..] + t;
      TotalSplits(g, adj, h, s[1..], t, bound);
    }
  }

  lemma {:induction false} TotalIgnoresBound(g: Dag, adj: map<Node, seq<Node>>, h: map<Node, nat>, s: seq<Node>,
                                             a: nat, b: nat)
    requires WellFormed(g) && Adjacency(g, adj) && Heights(g, h)
    requires forall v :: v in s ==> v in h && v in adj && h[v] < a && h[v] < b
    ensures Total(g, adj, h, s, a) == Total(g, adj, h, s, b)
  {
    if s != [] {
      TotalIgnoresBound(g, adj, h, s[1..], a, b);
    }
  }

  ghost predicate Weighable(g: Dag, adj: map<Node, seq<Node>>, h: map<Node, nat>, queue: seq<Node>, bound: nat) {
    && WellFormed(g) && Adjacency(g, adj) && Heights(g, h)
    && forall v :: v in queue ==> v in h && v in adj && h[v] < bound
  }

  /** Each round lowers the total weight of the queue by exactly one. */
  lemma RoundLowersTotal(g: Dag, adj: map<Node, seq<Node>>, h: map<Node, nat>, queue: seq<Node>, bound: nat)
    requires Weighable(g, adj, h, queue, bound) && queue != []
    ensures Weighable(g, adj, h, Round(adj, queue), bound)
    ensures Total(g, adj, h, Round(adj, queue), bound) == Total(g, adj, h, queue, bound) - 1
  {
    var n := queue[0];
    assert n in queue;
    forall v | v in adj[n] ensures v in h && v in adj && h[v] < h[n] {
      assert Edge(n, v) in g.edges;
    }
    TotalSplits(g, adj, h, queue[1..], adj[n], bound);
    TotalIgnoresBound(g, adj, h, adj[n], bound, h[n]);
  }

  lemma {:induction false} WeighableEnds(g: Dag, adj: map<Node, seq<Node>>, h: map<Node, nat>, queue: seq<Node>,
                                         bound: nat)
    requires Weighable(g, adj, h, queue, bound)
    ensures Rounds(adj, queue, Total(g, adj, h, queue, bound)) == []
    decreases Total(g, adj, h, queue, bound)
  {
    if queue != [] {
      RoundLowersTotal(g, adj, h, queue, bound);
      WeighableEnds(g, adj, h, Round(adj, queue), bound);
    }
  }

  lemma {:induction false} AboveAll(h: map<Node, nat>, s: set<Node>) returns (bound: nat)
    requires s <= h.Keys
    ensures forall v :: v in s ==> h[v] < bound
    decreases s
  {
    bound := 0;
    if s != {} {
      var v :| v in s;
      var rest := AboveAll(h, s - {v});
      bound := if h[v] < rest then rest else h[v] + 1;
      assert forall u :: u in s ==> u == v || u in s - {v};
    }
  }

  lemma FreeQueueIsWeighable(g: Dag, adj: map<Node, seq<Node>>, queue: seq<Node>)
    returns (h: map<Node, nat>, bound: nat)
    requires WellFormed(g) && Adjacency(g, adj) && forall v :: v in queue ==> v in g.nodes && !Trapped(g, v)
    ensures Weighable(g, adj, h, queue, bound)
  {
    h := FreeNodesHaveHeights(g, map[]);
    bound := AboveAll(h, h.Keys);
  }

  // Traps and cycles.

  /** Some cycle can be reached from the node, or passes through it. */
  ghost predicate LeadsToCycle(g: Dag, n: Node) {
    exists m :: (m == n || Reaches(g, n, m)) && Reaches(g, m, m)
  }

  lemma {:induction false} ForwardWalk(g: Dag, c: set<Node>, n: Node, length: nat) returns (p: seq<Node>)
    requires Trap(g, c) && n in c
    ensures |p| == length + 1 && IsPath(g, p) && p[0] == n
    ensures forall i :: 0 <= i < |p| ==> p[i] in c
    decreases length
  {
    if length == 0 {
      p := [n];
    } else {
      assert StaysIn(g, c, n);
      var v :| v in c && Edge(n, v) in g.edges;
      var q := ForwardWalk(g, c, v, length - 1);
      p := [n] + q;
    }
  }

  lemma TrappedLeadsToCycle(g: Dag, n: Node)
    requires Trapped(g, n)
    ensures LeadsToCycle(g, n)
  {
    var c :| Trap(g, c) && n in c;
    var p := ForwardWalk(g, c, n, |c|);
    var i, j := Pigeonhole(p, c);
    var cycle := p[i..j + 1];
    forall k | 0 < k < |cycle| ensures Edge(cycle[k - 1], cycle[k]) in g.edges {
      assert cycle[k - 1] == p[i + k - 1] && cycle[k] == p[i + k];
    }
    assert PathFromTo(g, cycle, p[i], p[i]);
    assert Reaches(g, p[i], p[i]);
    if i > 0 {
      assert PathFromTo(g, p[..i + 1], n, p[i]);
      assert Reaches(g, n, p[i]);
    }
  }

  lemma {:induction false} PathToTrapIsTrapped(g: Dag, p: seq<Node>)
    requires IsPath(g, p) && Trapped(g, p[|p| - 1])
    ensures Trapped(g, p[0])
  {
    if |p| > 1 {
      assert Edge(p[0], p[1]) in g.edges;
      var q := p[1..];
      forall k | 0 < k < |q| ensures Edge(q[k - 1], q[k]) in g.edges {
        assert q[k - 1] == p[k] && q[k] == p[k + 1];
      }
      PathToTrapIsTrapped(g, q);
      if !Trapped(g, p[0]) {
        FreeSuccessor(g, Edge(p[0], p[1]));
      }
    }
  }

  lemma TrappedIffLeadsToCycle(g: Dag, n: Node)
    ensures Trapped(g, n) <==> LeadsToCycle(g, n)
  {
    if Trapped(g, n) {
      TrappedLeadsToCycle(g, n);
    } else if LeadsToCycle(g, n) {
      var m :| (m == n || Reaches(g, n, m)) && Reaches(g, m, m);
      var c :| PathFromTo(g, c, m, m);
      CycleTraps(g, c, m);
      if m != n {
        var p :| PathFromTo(g, p, n, m);
        PathToTrapIsTrapped(g, p);
      }
    }
  }

  /** The loop ends exactly when no queued node leads to a cycle; otherwise it runs forever. */
  lemma LoopEndsIffNoCycleAhead(g: Dag, adj: map<Node, seq<Node>>, queue: seq<Node>)
    requires WellFormed(g) && Adjacency(g, adj) && forall v :: v in queue ==> v in g.nodes
    ensures LoopEnds(adj, queue) <==> forall v :: v in queue ==> !LeadsToCycle(g, v)
  {
    forall v ensures Trapped(g, v) <==> LeadsToCycle(g, v) {
      TrappedIffLeadsToCycle(g, v);
    }
    if v :| v in queue && Trapped(g, v) {
      var c :| Trap(g, c) && v in c;
      forall k: nat ensures Rounds(adj, queue, k) != [] {
        TrapKeepsQueueBusy(g, adj, queue, c, v, k);
      }
    } else {
      var h, bound := FreeQueueIsWeighable(g, adj, queue);
      WeighableEnds(g, adj, h, queue, bound);
    }
  }

  /** The smallest graph whose roots start a loop without end: a leads to the cycle of b and c. */
  lemma CycleKeepsLoopGoing()
    ensures var g, adj := Dag({"a", "b", "c"}, {Edge("a", "b"), Edge("b", "c"), Edge("c", "b")}),
                          map["a" := ["b"], "b" := ["c"], "c" := ["b"]];
      WellFormed(g) && Adjacency(g, adj) && IsRoot(g, "a") && !LoopEnds(adj, ["a"])
  {
    var g, adj := Dag({"a", "b", "c"}, {Edge("a", "b"), Edge("b", "c"), Edge("c", "b")}),
                  map["a" := ["b"], "b" := ["c"], "c" := ["b"]];
    var c := {"a", "b", "c"};
    assert StaysIn(g, c, "a") by { assert Edge("a", "b") in g.edges; }
    assert StaysIn(g, c, "b") by { assert Edge("b", "c") in g.edges; }
    assert StaysIn(g, c, "c") by { assert Edge("c", "b") in g.edges; }
    forall k: nat ensures Rounds(adj, ["a"], k) != [] {
      TrapKeepsQueueBusy(g, adj, ["a"], c, "a", k);
    }
  }

  /** A graph that validation accepts has no cycle to lead to. */
  lemma AcceptedLeadsToNoCycle(g: Dag, rank: map<Node, nat>, n: Node)
    requires Ranked(g, rank)
    ensures !LeadsToCycle(g, n)
  {
    RankedIsAcyclic(g, rank);
  }
}
