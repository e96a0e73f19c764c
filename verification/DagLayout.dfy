/** The layout of the DAG viewer: levels, groups, and the coordinates of the cards. */
module DagLayout {
  import opened Graph
  import opened DagLevels

  /** A path that starts at a root. */
  ghost predicate RootPath(g: Dag, p: seq<Node>, n: Node) {
    IsPath(g, p) && IsRoot(g, p[0]) && p[|p| - 1] == n
  }

  ghost predicate AtDepth(g: Dag, n: Node, d: nat) {
    exists p :: RootPath(g, p, n) && |p| == d + 1
  }

  ghost predicate NoDeeper(g: Dag, n: Node, d: nat) {
    forall p :: RootPath(g, p, n) ==> |p| <= d + 1
  }

  /** `d` edges lead to `n` on the longest path from a root, and `d` is 0 if no root leads there. */
  ghost predicate IsLevel(g: Dag, n: Node, d: nat) {
    NoDeeper(g, n, d) && (AtDepth(g, n, d) || (d == 0 && forall p :: !RootPath(g, p, n)))
  }

  lemma DepthGrows(g: Dag, u: Node, v: Node, d: nat)
    requires AtDepth(g, u, d) && Edge(u, v) in g.edges
    ensures AtDepth(g, v, d + 1)
  {
    var p :| RootPath(g, p, u) && |p| == d + 1;
    assert RootPath(g, p + [v], v);
  }

  /** An in-degree that is zero exactly for the roots. */
  ghost predicate CountsRoots(g: Dag, inDegree: map<Node, nat>) {
    && inDegree.Keys == g.nodes
    && forall n {:trigger IsRoot(g, n)} :: n in inDegree ==> (inDegree[n] == 0 <==> IsRoot(g, n))
  }

  method BuildAdjacency(nodes: seq<Node>, edges: seq<Edge>)
    returns (adj: map<Node, seq<Node>>, inDegree: map<Node, nat>)
    ensures Adjacency(ViewedGraph(nodes, edges), adj)
    ensures CountsRoots(ViewedGraph(nodes, edges), inDegree)
  {
    adj, inDegree := map k | k in nodes :: [], map k | k in nodes :: 0;
    for i := 0 to |edges|
      invariant Adjacency(ViewedGraph(nodes, edges[..i]), adj)
      invariant CountsRoots(ViewedGraph(nodes, edges[..i]), inDegree)
    {
      assert edges[..i + 1] == edges[..i] + [edges[i]];
      adj, inDegree := AddEdge(nodes, edges[..i], edges[i], adj, inDegree);
    }
    assert edges[..|edges|] == edges;
  }

  method AddEdge(ghost nodes: seq<Node>, ghost edges: seq<Edge>, e: Edge, adj0: map<Node, seq<Node>>,
                 inDegree0: map<Node, nat>)
    returns (adj: map<Node, seq<Node>>, inDegree: map<Node, nat>)
    requires Adjacency(ViewedGraph(nodes, edges), adj0) && CountsRoots(ViewedGraph(nodes, edges), inDegree0)
    ensures Adjacency(ViewedGraph(nodes, edges + [e]), adj) && CountsRoots(ViewedGraph(nodes, edges + [e]), inDegree)
  {
    ViewOneMore(nodes, edges, e);
    adj, inDegree := adj0, inDegree0;
    if e.from in adj && e.to in inDegree {
      adj := adj[e.from := adj[e.from] + [e.to]];
      inDegree := inDegree[e.to := inDegree[e.to] + 1];
    }
  }

  lemma ViewOneMore(nodes: seq<Node>, edges: seq<Edge>, e: Edge)
    ensures var g, h := ViewedGraph(nodes, edges), ViewedGraph(nodes, edges + [e]);
      && h.nodes == g.nodes
      && h.edges == (if e.from in g.nodes && e.to in g.nodes then g.edges + {e} else g.edges)
      && forall n {:trigger IsRoot(h, n)} :: IsRoot(h, n) <==> IsRoot(g, n) && !(e.from in g.nodes && e.to == n)
  {
    var g, h := ViewedGraph(nodes, edges), ViewedGraph(nodes, edges + [e]);
    forall n | n in g.nodes ensures IsRoot(h, n) <==> IsRoot(g, n) && !(e.from in g.nodes && e.to == n) {
      if e.from in g.nodes && e.to == n {
        assert e.from in Preds(h, n);
      } else {
        assert Preds(h, n) == Preds(g, n);
      }
    }
  }

  /** The edge leads to a level above that of its source. */
  predicate Raised(levels: map<Node, nat>, e: Edge) {
    e.from in levels && e.to in levels && levels[e.from] < levels[e.to]
  }

  /** The invariant of the level loop, `open` being the node whose successors are under way, if any. */
  ghost predicate Levelling(g: Dag, levels: map<Node, nat>, queue: seq<Node>, open: set<Node>) {
    && levels.Keys <= g.nodes
    && (forall n {:trigger AtDepth(g, n, levels[n])} :: n in levels ==> AtDepth(g, n, levels[n]))
    && (forall n :: IsRoot(g, n) ==> n in levels)
    && (forall n :: n in queue ==> n in levels)
    && (forall e {:trigger Raised(levels, e)} ::
          e in g.edges && e.from in levels && e.from !in queue && e.from !in open ==> Raised(levels, e))
  }

  /** Setting the level of a successor and queueing it keeps the invariant. */
  lemma RaiseKeepsLevelling(g: Dag, levels: map<Node, nat>, queue: seq<Node>, u: Node, v: Node, d: nat)
    requires WellFormed(g) && Levelling(g, levels, queue, {u}) && Edge(u, v) in g.edges && u != v
    requires u in levels && d == (if v in levels && levels[v] > levels[u] + 1 then levels[v] else levels[u] + 1)
    ensures Levelling(g, levels[v := d], queue + [v], {u})
  {
    assert AtDepth(g, u, levels[u]);
    DepthGrows(g, u, v, levels[u]);
    if v in levels {
      assert AtDepth(g, v, levels[v]);
    }
    var next := levels[v := d];
    forall n | n in next ensures AtDepth(g, n, next[n]) {
      assert n in levels ==> AtDepth(g, n, levels[n]);
    }
    forall e | e in g.edges && e.from in next && e.from !in queue + [v] && e.from != u ensures Raised(next, e) {
      assert Raised(levels, e);
    }
  }

  /** One round of the loop: every successor of the popped node is lifted above it and queued. */
  method RaiseSuccessors(ghost g: Dag, adj: map<Node, seq<Node>>, levels0: map<Node, nat>, queue0: seq<Node>)
    returns (levels: map<Node, nat>, queue: seq<Node>)
    requires WellFormed(g) && Adjacency(g, adj) && Levelling(g, levels0, queue0, {})
    requires queue0 != [] && Edge(queue0[0], queue0[0]) !in g.edges
    ensures Levelling(g, levels, queue, {}) && queue == Round(adj, queue0)
  {
    var u := queue0[0];
    levels, queue := levels0, queue0[1..];
    assert u in queue0 && forall n :: n in queue0 ==> n == u || n in queue;
    var currentLevel := levels[u];
    var succs := adj[u];
    for i := 0 to |succs|
      invariant Levelling(g, levels, queue, {u})
      invariant u in levels && levels[u] == currentLevel
      invariant forall v :: v in succs[..i] ==> Raised(levels, Edge(u, v))
      invariant queue == queue0[1..] + succs[..i]
    {
      var v := succs[i];
      assert Edge(u, v) in g.edges;
      assert succs[..i + 1] == succs[..i] + [v];
      var d := if v in levels && levels[v] > currentLevel + 1 then levels[v] else currentLevel + 1;
      RaiseKeepsLevelling(g, levels, queue, u, v, d);
      levels := levels[v := d];
      queue := queue + [v];
    }
    assert succs[..|succs|] == succs;
    forall e | e in g.edges && e.from == u ensures Raised(levels, e) {
      assert e == Edge(u, e.to) && e.to in succs;
    }
  }

  /** With the queue empty, a path from a root of k edges lifts its end to level k at least. */
  lemma {:induction false} PathLifts(g: Dag, levels: map<Node, nat>, p: seq<Node>, n: Node)
    requires Levelling(g, levels, [], {}) && RootPath(g, p, n)
    ensures n in levels && |p| <= levels[n] + 1
  {
    if |p| > 1 {
      var m := p[|p| - 2];
      assert Edge(m, n) in g.edges;
      PathLifts(g, levels, p[..|p| - 1], m);
      assert Raised(levels, Edge(m, n));
    }
  }

  lemma LevelsAreLongest(g: Dag, levels: map<Node, nat>, n: Node)
    requires Levelling(g, levels, [], {})
    ensures n in levels ==> IsLevel(g, n, levels[n])
    ensures n !in levels ==> IsLevel(g, n, 0)
  {
    forall p | RootPath(g, p, n) ensures n in levels && |p| <= levels[n] + 1 {
      PathLifts(g, levels, p, n);
    }
    if n in levels {
      assert AtDepth(g, n, levels[n]);
    }
  }

  /** The roots, at level 0, as the queue starts out. */
  method QueueRoots(nodes: seq<Node>, inDegree: map<Node, nat>, ghost g: Dag)
    returns (levels: map<Node, nat>, queue: seq<Node>)
    requires CountsRoots(g, inDegree) && g.nodes == set k | k in nodes
    ensures Levelling(g, levels, queue, {})
    ensures forall n :: n in queue ==> IsRoot(g, n)
  {
    levels, queue := map[], [];
    for i := 0 to |nodes|
      invariant forall n :: n in queue <==> n in nodes[..i] && IsRoot(g, n)
      invariant forall n :: n in levels <==> n in queue
      invariant forall n :: n in levels ==> levels[n] == 0
    {
      assert nodes[..i + 1] == nodes[..i] + [nodes[i]];
      if inDegree[nodes[i]] == 0 {
        levels := levels[nodes[i] := 0];
        queue := queue + [nodes[i]];
      }
    }
    assert nodes[..|nodes|] == nodes;
    forall n | n in levels ensures AtDepth(g, n, levels[n]) {
      assert RootPath(g, [n], n);
    }
    forall n | IsRoot(g, n) ensures n in levels {
      assert n in g.nodes;
    }
  }

  /**
   * The levels of all nodes. It is called with graphs on which its loop ends, which are those where no root
   * leads to a cycle (LoopEndsIffNoCycleAhead); nodes that no root leads to stay at level 0.
   */
  method ComputeLevels(nodes: seq<Node>, edges: seq<Edge>) returns (levels: map<Node, nat>)
    requires forall n :: IsRoot(ViewedGraph(nodes, edges), n) ==> !LeadsToCycle(ViewedGraph(nodes, edges), n)
    ensures levels.Keys == ViewedGraph(nodes, edges).nodes
    ensures forall n :: n in levels ==> IsLevel(ViewedGraph(nodes, edges), n, levels[n])
  {
    ghost var g := ViewedGraph(nodes, edges);
    var adj, inDegree := BuildAdjacency(nodes, edges);
    var queue;
    levels, queue := QueueRoots(nodes, inDegree, g);
    forall v | v in queue ensures !Trapped(g, v) {
      TrappedIffLeadsToCycle(g, v);
    }
    ghost var h, bound := FreeQueueIsWeighable(g, adj, queue);
    while |queue| > 0
      invariant Levelling(g, levels, queue, {})
      invariant Weighable(g, adj, h, queue, bound)
      decreases Total(g, adj, h, queue, bound)
    {
      RoundLowersTotal(g, adj, h, queue, bound);
      assert queue[0] in queue;
      levels, queue := RaiseSuccessors(g, adj, levels, queue);
    }
    forall n ensures n in levels ==> IsLevel(g, n, levels[n]) ensures n !in levels ==> IsLevel(g, n, 0) {
      LevelsAreLongest(g, levels, n);
    }
    levels := map n | n in nodes :: if n in levels then levels[n] else 0;
  }

  // Levels of an acyclic workflow.

  /** Every path of an acyclic graph can be extended backwards to a root. */
  lemma {:induction false} ExtendToRoot(g: Dag, rank: map<Node, nat>, p: seq<Node>) returns (q: seq<Node>)
    requires Ranked(g, rank) && IsPath(g, p) && p[0] in g.nodes
    ensures RootPath(g, q, p[|p| - 1]) && |q| >= |p|
    decreases rank[p[0]]
  {
    if Preds(g, p[0]) == {} {
      q := p;
    } else {
      var u :| u in Preds(g, p[0]);
      assert Edge(u, p[0]) in g.edges;
      q := ExtendToRoot(g, rank, [u] + p);
    }
  }

  /** On an acyclic workflow the level of a node is the length of the longest path of all that end there. */
  lemma LevelIsLongestPath(g: Dag, rank: map<Node, nat>, n: Node, d: nat)
    requires Ranked(g, rank) && n in g.nodes && IsLevel(g, n, d)
    ensures exists p :: IsPath(g, p) && p[|p| - 1] == n && |p| == d + 1
    ensures forall p :: IsPath(g, p) && p[0] in g.nodes && p[|p| - 1] == n ==> |p| <= d + 1
  {
    forall p | IsPath(g, p) && p[0] in g.nodes && p[|p| - 1] == n ensures |p| <= d + 1 {
      var q := ExtendToRoot(g, rank, p);
    }
    var q := ExtendToRoot(g, rank, [n]);
    assert AtDepth(g, n, d);
  }

  /** Every edge of an acyclic workflow goes to a higher level. */
  lemma EdgesGoUp(g: Dag, rank: map<Node, nat>, e: Edge, from: nat, to: nat)
    requires Ranked(g, rank) && e in g.edges && IsLevel(g, e.from, from) && IsLevel(g, e.to, to)
    ensures from < to
  {
    var q := ExtendToRoot(g, rank, [e.from]);
    assert e == Edge(e.from, e.to);
    DepthGrows(g, e.from, e.to, from);
  }
}
