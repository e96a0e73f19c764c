/** Directed graphs of workflow nodes: paths, cycles and topological ranks. */
module Graph {

  type Node = string

  /** `to` depends on `from`. */
  datatype Edge = Edge(from: Node, to: Node)

  /** A workflow definition: its node keys and its dependency edges. */
  datatype Dag = Dag(nodes: set<Node>, edges: set<Edge>)

  predicate WellFormed(g: Dag) {
    forall e :: e in g.edges ==> e.from in g.nodes && e.to in g.nodes
  }

  function Preds(g: Dag, n: Node): set<Node> {
    set u | u in g.nodes && Edge(u, n) in g.edges
  }

  predicate IsRoot(g: Dag, n: Node) {
    n in g.nodes && Preds(g, n) == {}
  }

  /** Every edge goes strictly up in rank. */
  ghost predicate Ranked(g: Dag, rank: map<Node, nat>) {
    && rank.Keys == g.nodes
    && forall e :: e in g.edges ==> e.from in rank && e.to in rank && rank[e.from] < rank[e.to]
  }

  ghost predicate HasRank(g: Dag) {
    exists rank :: Ranked(g, rank)
  }

  /** A nonempty walk along edges. */
  ghost predicate IsPath(g: Dag, p: seq<Node>) {
    && |p| > 0
    && forall i :: 0 < i < |p| ==> Edge(p[i - 1], p[i]) in g.edges
  }

  ghost predicate PathFromTo(g: Dag, p: seq<Node>, a: Node, b: Node) {
    IsPath(g, p) && |p| >= 2 && p[0] == a && p[|p| - 1] == b
  }

  /** `a` is a strict ancestor of `b`: a path with at least one edge leads from one to the other. */
  ghost predicate Reaches(g: Dag, a: Node, b: Node) {
    exists p :: PathFromTo(g, p, a, b)
  }

  ghost predicate Cyclic(g: Dag) {
    exists n :: Reaches(g, n, n)
  }

  lemma EdgeReaches(g: Dag, a: Node, b: Node)
    requires Edge(a, b) in g.edges
    ensures Reaches(g, a, b)
  {
    assert PathFromTo(g, [a, b], a, b);
  }

  lemma ReachesStep(g: Dag, a: Node, b: Node, c: Node)
    requires Reaches(g, a, b) && Edge(b, c) in g.edges
    ensures Reaches(g, a, c)
  {
    var p :| PathFromTo(g, p, a, b);
    assert PathFromTo(g, p + [c], a, c);
  }

  lemma {:induction false} RankGrowsAlongPath(g: Dag, rank: map<Node, nat>, p: seq<Node>)
    requires Ranked(g, rank) && IsPath(g, p) && |p| >= 2
    ensures p[0] in rank && p[|p| - 1] in rank && rank[p[0]] < rank[p[|p| - 1]]
  {
    var last := |p| - 1;
    assert Edge(p[last - 1], p[last]) in g.edges;
    if |p| > 2 {
      RankGrowsAlongPath(g, rank, p[..last]);
    }
  }

  /** A rank rules every cycle out. */
  lemma RankedIsAcyclic(g: Dag, rank: map<Node, nat>)
    requires Ranked(g, rank)
    ensures !Cyclic(g)
  {
    forall n ensures !Reaches(g, n, n) {
      if Reaches(g, n, n) {
        var p :| PathFromTo(g, p, n, n);
        RankGrowsAlongPath(g, rank, p);
      }
    }
  }

  /** Everyone in the set has a predecessor in the set. */
  ghost predicate Stuck(g: Dag, s: set<Node>) {
    forall n {:trigger Preds(g, n)} :: n in s ==> Preds(g, n) * s != {}
  }

  /** From a stuck set one can walk backwards for as long as one likes. */
  lemma {:induction false} BackwardWalk(g: Dag, s: set<Node>, length: nat) returns (p: seq<Node>)
    requires s != {} && Stuck(g, s)
    ensures |p| == length + 1 && IsPath(g, p)
    ensures forall i :: 0 <= i < |p| ==> p[i] in s
    decreases length
  {
    if length == 0 {
      var n :| n in s;
      p := [n];
    } else {
      var q := BackwardWalk(g, s, length - 1);
      var h :| h in Preds(g, q[0]) * s;
      p := [h] + q;
    }
  }

  /** Pigeonhole: more positions than values, so a value repeats. */
  lemma {:induction false} Pigeonhole(p: seq<Node>, s: set<Node>) returns (i: nat, j: nat)
    requires forall k :: 0 <= k < |p| ==> p[k] in s
    requires |p| > |s|
    ensures i < j < |p| && p[i] == p[j]
  {
    var last := |p| - 1;
    if k :| 0 <= k < last && p[k] == p[last] {
      i, j := k, last;
    } else {
      i, j := Pigeonhole(p[..last], s - {p[last]});
    }
  }

  /** A nonempty stuck set contains a cycle. */
  lemma StuckSetHasCycle(g: Dag, s: set<Node>)
    requires s != {} && Stuck(g, s)
    ensures Cyclic(g)
  {
    var p := BackwardWalk(g, s, |s|);
    var i, j := Pigeonhole(p, s);
    var c := p[i..j + 1];
    forall k | 0 < k < |c| ensures Edge(c[k - 1], c[k]) in g.edges {
      assert c[k - 1] == p[i + k - 1] && c[k] == p[i + k];
    }
    assert PathFromTo(g, c, p[i], p[i]);
    assert Reaches(g, p[i], p[i]);
  }

  /** A nonempty set of ranked nodes has a member none of whose predecessors is in the set. */
  lemma {:induction false} SourceOfSet(g: Dag, rank: map<Node, nat>, s: set<Node>) returns (m: Node)
    requires Ranked(g, rank) && s != {} && s <= g.nodes
    ensures m in s && Preds(g, m) !! s
  {
    m := LeastRanked(rank, s);
    forall u | u in Preds(g, m) ensures u !in s {
      assert Edge(u, m) in g.edges;
    }
  }

  lemma {:induction false} LeastRanked(rank: map<Node, nat>, s: set<Node>) returns (m: Node)
    requires s != {} && s <= rank.Keys
    ensures m in s && forall n :: n in s ==> rank[m] <= rank[n]
  {
    m :| m in s;
    var rest := s - {m};
    if rest != {} {
      var q := LeastRanked(rank, rest);
      assert forall n :: n in s ==> n == m || n in rest;
      if rank[q] <= rank[m] {
        m := q;
      }
    } else {
      assert forall n :: n in s ==> n == m || n in rest;
    }
  }
}
