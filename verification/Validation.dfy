/** Workflow validation: structural checks followed by Kahn's algorithm. */
module Validation {
  import opened Graph
  import opened Options
  import opened Sequences

  datatype Error =
    | EmptyWorkflow
    | EmptyKey(index: nat)
    | DuplicateKey(key: Node)
    | IncompleteEdge(index: nat)
    | UnknownSource(key: Node)
    | UnknownTarget(key: Node)
    | SelfLoop(key: Node)
    | DuplicateEdge(edge: Edge)
    | CycleDetected

  /**
   * An edge of a request: its endpoints with surrounding blanks stripped, or None where an endpoint is missing
   * or the empty string. An endpoint that consists of blanks is stripped to the empty string.
   */
  datatype Link = Link(from: Option<Node>, to: Option<Node>)

  predicate Complete(l: Link) {
    l.from.Some? && l.to.Some?
  }

  function EdgeOf(l: Link): Edge
    requires Complete(l)
  {
    Edge(l.from.value, l.to.value)
  }

  /** The edges of the links that name both endpoints. */
  function EdgesOf(links: seq<Link>): set<Edge> {
    set l | l in links && Complete(l) :: EdgeOf(l)
  }

  /** Node keys of a request, stripped: nonempty and pairwise different. */
  ghost predicate GoodKeys(nodes: seq<Node>) {
    "" !in nodes && Distinct(nodes)
  }

  /** An edge between two different known keys. */
  ghost predicate GoodLink(keys: set<Node>, l: Link) {
    Complete(l) && l.from.value in keys && l.to.value in keys && l.from != l.to
  }

  ghost predicate GoodLinks(keys: set<Node>, links: seq<Link>) {
    (forall l :: l in links ==> GoodLink(keys, l)) && Distinct(links)
  }

  ghost predicate Structural(nodes: seq<Node>, links: seq<Link>) {
    |nodes| > 0 && GoodKeys(nodes) && GoodLinks(SetOf(nodes), links)
  }

  /** The graph that a definition is stored as. */
  function GraphOf(nodes: seq<Node>, links: seq<Link>): Dag {
    Dag(SetOf(nodes), EdgesOf(links))
  }

  /** What each complaint about the node keys means. */
  ghost predicate KeyFault(nodes: seq<Node>, error: Error) {
    match error
    case EmptyKey(i) => i < |nodes| && nodes[i] == ""
    case DuplicateKey(k) => k != "" && exists i, j :: 0 <= i < j < |nodes| && nodes[i] == k && nodes[j] == k
    case _ => false
  }

  ghost predicate Twice(links: seq<Link>, x: Link) {
    exists i, j :: 0 <= i < j < |links| && links[i] == links[j] && links[i] == x
  }

  /** What each complaint about the edges means, given the known keys. */
  ghost predicate EdgeFault(keys: set<Node>, links: seq<Link>, error: Error) {
    match error
    case IncompleteEdge(i) => i < |links| && !Complete(links[i])
    case UnknownSource(k) => k !in keys && exists l :: l in links && Complete(l) && l.from == Some(k)
    case UnknownTarget(k) => k !in keys && exists l :: l in links && Complete(l) && l.to == Some(k)
    case SelfLoop(k) => Link(Some(k), Some(k)) in links
    case DuplicateEdge(e) => Twice(links, Link(Some(e.from), Some(e.to)))
    case _ => false
  }

  lemma OneMoreKey(nodes: seq<Node>, key: Node, error: Error)
    ensures KeyFault(nodes + [key], error) <==>
      || KeyFault(nodes, error)
      || (key == "" && error == EmptyKey(|nodes|))
      || (key != "" && key in nodes && error == DuplicateKey(key))
  {
    var more := nodes + [key];
    if error.DuplicateKey? {
      var k := error.key;
      if i, j :| 0 <= i < j < |nodes| && nodes[i] == k && nodes[j] == k {
        assert more[i] == k && more[j] == k;
      }
      if k == key && key in nodes {
        var i :| 0 <= i < |nodes| && nodes[i] == key;
        assert more[i] == k && more[|nodes|] == k;
      }
      if i, j :| 0 <= i < j < |more| && more[i] == k && more[j] == k {
        assert nodes[i] == k;
        assert j < |nodes| ==> nodes[j] == k;
      }
    }
  }

  lemma NoKeyFaultIffGood(nodes: seq<Node>)
    ensures (forall error :: !KeyFault(nodes, error)) <==> GoodKeys(nodes)
  {
    if "" in nodes {
      var i :| 0 <= i < |nodes| && nodes[i] == "";
      assert KeyFault(nodes, EmptyKey(i));
    } else if i, j :| 0 <= i < j < |nodes| && nodes[i] == nodes[j] {
      assert KeyFault(nodes, DuplicateKey(nodes[i]));
    }
  }

  /** Collects the keys; a blank one is reported and left out, a repeated one is reported. */
  method CheckKeys(nodes: seq<Node>) returns (keys: set<Node>, errors: seq<Error>)
    ensures forall error :: error in errors <==> KeyFault(nodes, error)
    ensures keys == SetOf(nodes) - {""}
  {
    keys, errors := {}, [];
    for i := 0 to |nodes|
      invariant keys == SetOf(nodes[..i]) - {""}
      invariant forall error :: error in errors <==> KeyFault(nodes[..i], error)
    {
      var key := nodes[i];
      assert nodes[..i + 1] == nodes[..i] + [key];
      SetOfSnoc(nodes[..i], key);
      forall error {
        OneMoreKey(nodes[..i], key, error);
      }
      if key == "" {
        errors := errors + [EmptyKey(i)];
      } else {
        if key in keys {
          errors := errors + [DuplicateKey(key)];
        }
        keys := keys + {key};
      }
    }
    assert nodes[..|nodes|] == nodes;
  }

  /** The adjacency lists hold exactly the edges of `g`, each once. */
  ghost predicate Lists(g: Dag, adj: map<Node, seq<Node>>) {
    && adj.Keys == g.nodes
    && (forall u, v :: u in adj ==> (v in adj[u] <==> Edge(u, v) in g.edges))
    && (forall u :: u in adj ==> Distinct(adj[u]))
  }

  /** How many predecessors of `v` were not taken off the queue yet. */
  ghost function Waiting(g: Dag, done: set<Node>, v: Node): nat {
    |Preds(g, v) - done|
  }

  /** What the in-degree counters stand at once the nodes of `done` were taken off the queue. */
  ghost predicate Counts(g: Dag, inDegree: map<Node, int>, done: set<Node>) {
    && inDegree.Keys == g.nodes
    && forall v {:trigger Waiting(g, done, v)} :: v in g.nodes ==> inDegree[v] == Waiting(g, done, v)
  }

  lemma WaitingForNobody(g: Dag, done: set<Node>, v: Node)
    ensures Waiting(g, done, v) == 0 <==> Preds(g, v) <= done
  {
    var rest := Preds(g, v) - done;
    if Waiting(g, done, v) == 0 {
      assert forall u :: u in Preds(g, v) && u !in done ==> u in rest;
    } else {
      var u :| u in rest;
    }
  }

  ghost predicate Represents(g: Dag, adj: map<Node, seq<Node>>, inDegree: map<Node, int>) {
    WellFormed(g) && Lists(g, adj) && Counts(g, inDegree, {})
  }

  lemma AddToList(g: Dag, adj: map<Node, seq<Node>>, e: Edge)
    requires Lists(g, adj) && e.from in g.nodes && e !in g.edges
    ensures Lists(Dag(g.nodes, g.edges + {e}), adj[e.from := adj[e.from] + [e.to]])
  {
    SetOfSnoc(adj[e.from], e.to);
  }

  lemma WaitingAfterEdge(g: Dag, e: Edge, v: Node)
    requires e.from in g.nodes && e !in g.edges
    ensures Waiting(Dag(g.nodes, g.edges + {e}), {}, v) == Waiting(g, {}, v) + (if v == e.to then 1 else 0)
  {
    var before, after := Preds(g, v) - {}, Preds(Dag(g.nodes, g.edges + {e}), v) - {};
    if v == e.to {
      assert e.from !in before;
      assert after == before + {e.from};
    } else {
      assert after == before;
    }
  }

  lemma CountAfterEdge(g: Dag, inDegree: map<Node, int>, e: Edge, v: Node)
    requires Counts(g, inDegree, {}) && e.from in g.nodes && e.to in g.nodes && e !in g.edges && v in g.nodes
    ensures inDegree[e.to := inDegree[e.to] + 1][v] == Waiting(Dag(g.nodes, g.edges + {e}), {}, v)
  {
    WaitingAfterEdge(g, e, v);
  }

  lemma AddToCount(g: Dag, inDegree: map<Node, int>, e: Edge)
    requires Counts(g, inDegree, {}) && e.from in g.nodes && e.to in g.nodes && e !in g.edges
    ensures Counts(Dag(g.nodes, g.edges + {e}), inDegree[e.to := inDegree[e.to] + 1], {})
  {
    forall v | v in g.nodes
      ensures inDegree[e.to := inDegree[e.to] + 1][v] == Waiting(Dag(g.nodes, g.edges + {e}), {}, v)
    {
      CountAfterEdge(g, inDegree, e, v);
    }
  }

  /** The edges between known keys among those seen. */
  ghost function Known(keys: set<Node>, seen: set<Edge>): Dag {
    Dag(keys, set e | e in seen && e.from in keys && e.to in keys)
  }

  /** The faults of one more link. */
  ghost predicate NewFault(keys: set<Node>, links: seq<Link>, l: Link, error: Error) {
    if !Complete(l) then error == IncompleteEdge(|links|)
    else
      var e := EdgeOf(l);
      || (e.from !in keys && error == UnknownSource(e.from))
      || (e.to !in keys && error == UnknownTarget(e.to))
      || (e.from == e.to && error == SelfLoop(e.from))
      || (l in links && error == DuplicateEdge(e))
  }

  lemma OneMoreLink(keys: set<Node>, links: seq<Link>, l: Link, error: Error)
    ensures EdgeFault(keys, links + [l], error) <==> EdgeFault(keys, links, error) || NewFault(keys, links, l, error)
  {
    var more := links + [l];
    assert forall x :: x in more <==> x in links || x == l;
    if error.DuplicateEdge? {
      OneMoreDuplicate(links, l, Link(Some(error.edge.from), Some(error.edge.to)));
    }
  }

  lemma OneMoreDuplicate(links: seq<Link>, l: Link, x: Link)
    ensures Twice(links + [l], x) <==> Twice(links, x) || (l == x && x in links)
  {
    var more := links + [l];
    if i, j :| 0 <= i < j < |links| && links[i] == links[j] && links[i] == x {
      assert more[i] == x && more[j] == x;
    } else if l == x && x in links {
      var i :| 0 <= i < |links| && links[i] == x;
      assert more[i] == x && more[|links|] == x;
    }
  }

  lemma NoEdgeFaultIffGood(keys: set<Node>, links: seq<Link>)
    ensures (forall error :: !EdgeFault(keys, links, error)) <==> GoodLinks(keys, links)
  {
    if l :| l in links && !GoodLink(keys, l) {
      BadLinkIsFault(keys, links, l);
    } else if i, j :| 0 <= i < j < |links| && links[i] == links[j] {
      assert GoodLink(keys, links[i]);
      assert EdgeFault(keys, links, DuplicateEdge(EdgeOf(links[i])));
    } else {
      forall error ensures !EdgeFault(keys, links, error) {
        match error
        case IncompleteEdge(i) => assert i < |links| ==> GoodLink(keys, links[i]);
        case SelfLoop(k) => assert Link(Some(k), Some(k)) in links ==> GoodLink(keys, Link(Some(k), Some(k)));
        case _ =>
      }
    }
  }

  lemma BadLinkIsFault(keys: set<Node>, links: seq<Link>, l: Link)
    requires l in links && !GoodLink(keys, l)
    ensures exists error :: EdgeFault(keys, links, error)
  {
    var i :| 0 <= i < |links| && links[i] == l;
    if !Complete(l) {
      assert EdgeFault(keys, links, IncompleteEdge(i));
    } else if l.from.value !in keys {
      assert EdgeFault(keys, links, UnknownSource(l.from.value));
    } else if l.to.value !in keys {
      assert EdgeFault(keys, links, UnknownTarget(l.to.value));
    } else {
      assert l == Link(Some(l.from.value), Some(l.from.value));
      assert EdgeFault(keys, links, SelfLoop(l.from.value));
    }
  }

  lemma OneMoreEdge(links: seq<Link>, l: Link)
    ensures EdgesOf(links + [l]) == EdgesOf(links) + (if Complete(l) then {EdgeOf(l)} else {})
    ensures Complete(l) ==> (EdgeOf(l) in EdgesOf(links) <==> l in links)
  {
    var more := links + [l];
    assert forall x :: x in more <==> x in links || x == l;
    forall e ensures e in EdgesOf(more) <==> e in EdgesOf(links) || (Complete(l) && e == EdgeOf(l)) {
      var x := Link(Some(e.from), Some(e.to));
      assert e == EdgeOf(x);
    }
  }

  lemma GoodLinksAreKnown(keys: set<Node>, links: seq<Link>)
    requires GoodLinks(keys, links)
    ensures Known(keys, EdgesOf(links)) == Dag(keys, EdgesOf(links))
  {
    forall e | e in EdgesOf(links) ensures e.from in keys && e.to in keys {
      var l :| l in links && Complete(l) && e == EdgeOf(l);
      assert GoodLink(keys, l);
    }
  }

  /** The complaints about one link, given the edges of the links before it. */
  method CheckEdge(keys: set<Node>, seen: set<Edge>, l: Link, ghost links: seq<Link>, i: nat)
    returns (errors: seq<Error>)
    requires i == |links| && seen == EdgesOf(links)
    ensures forall error :: error in errors <==> NewFault(keys, links, l, error)
  {
    errors := [];
    if !Complete(l) {
      return [IncompleteEdge(i)];
    }
    OneMoreEdge(links, l);
    var e := EdgeOf(l);
    if e.from !in keys { errors := errors + [UnknownSource(e.from)]; }
    if e.to !in keys { errors := errors + [UnknownTarget(e.to)]; }
    if e.from == e.to { errors := errors + [SelfLoop(e.from)]; }
    if e in seen { errors := errors + [DuplicateEdge(e)]; }
  }

  ghost predicate Complains(keys: set<Node>, links: seq<Link>, errors: seq<Error>) {
    forall error {:trigger error in errors} :: error in errors <==> EdgeFault(keys, links, error)
  }

  /** Reads the links once, reporting every structural fault and building the graph along the way. */
  method BuildGraph(keys: set<Node>, links: seq<Link>)
    returns (adj: map<Node, seq<Node>>, inDegree: map<Node, int>, errors: seq<Error>)
    ensures Complains(keys, links, errors)
    ensures GoodLinks(keys, links) ==> Represents(Dag(keys, EdgesOf(links)), adj, inDegree)
  {
    var seen: set<Edge> := {};
    adj, inDegree, errors := map k | k in keys :: [], map k | k in keys :: 0, [];
    for i := 0 to |links|
      invariant seen == EdgesOf(links[..i])
      invariant Complains(keys, links[..i], errors)
      invariant Represents(Known(keys, seen), adj, inDegree)
    {
      assert links[..i + 1] == links[..i] + [links[i]];
      errors := ReadEdge(keys, seen, links[i], links[..i], i, errors);
      OneMoreEdge(links[..i], links[i]);
      adj, inDegree, seen := Insert(keys, seen, adj, inDegree, links[i]);
    }
    assert links[..|links|] == links;
    if GoodLinks(keys, links) {
      GoodLinksAreKnown(keys, links);
    }
  }

  method ReadEdge(keys: set<Node>, seen: set<Edge>, l: Link, ghost links: seq<Link>, i: nat, errors0: seq<Error>)
    returns (errors: seq<Error>)
    requires i == |links| && seen == EdgesOf(links) && Complains(keys, links, errors0)
    ensures Complains(keys, links + [l], errors)
  {
    var faults := CheckEdge(keys, seen, l, links, i);
    MoreComplaints(keys, links, l, errors0, faults);
    errors := errors0 + faults;
  }

  lemma MoreComplaints(keys: set<Node>, links: seq<Link>, l: Link, errors: seq<Error>, faults: seq<Error>)
    requires Complains(keys, links, errors)
    requires forall error :: error in faults <==> NewFault(keys, links, l, error)
    ensures Complains(keys, links + [l], errors + faults)
  {
    forall error ensures error in errors + faults <==> EdgeFault(keys, links + [l], error) {
      OneMoreLink(keys, links, l, error);
    }
  }

  /** A new edge is noted; between known keys it gets an adjacency entry and raises the counter of its target. */
  method Insert(keys: set<Node>, seen0: set<Edge>, adj0: map<Node, seq<Node>>, inDegree0: map<Node, int>, l: Link)
    returns (adj: map<Node, seq<Node>>, inDegree: map<Node, int>, seen: set<Edge>)
    requires Represents(Known(keys, seen0), adj0, inDegree0)
    ensures seen == seen0 + (if Complete(l) then {EdgeOf(l)} else {})
    ensures Represents(Known(keys, seen), adj, inDegree)
  {
    ghost var g := Known(keys, seen0);
    adj, inDegree, seen := adj0, inDegree0, seen0;
    if !Complete(l) {
      return;
    }
    var e := EdgeOf(l);
    seen := seen + {e};
    if e !in seen0 && e.from in adj && e.to in inDegree {
      assert Known(keys, seen) == Dag(g.nodes, g.edges + {e});
      AddToList(g, adj, e);
      AddToCount(g, inDegree, e);
      adj := adj[e.from := adj[e.from] + [e.to]];
      inDegree := inDegree[e.to := inDegree[e.to] + 1];
    } else {
      assert Known(keys, seen) == g;
    }
  }

  /** Taking `u` off the queue lowers the count of exactly its successors. */
  lemma RemovePred(g: Dag, done: set<Node>, u: Node, v: Node)
    requires u in g.nodes && u !in done
    ensures Waiting(g, done + {u}, v) == Waiting(g, done, v) - (if Edge(u, v) in g.edges then 1 else 0)
  {
    var before, after := Preds(g, v) - done, Preds(g, v) - (done + {u});
    if Edge(u, v) in g.edges {
      assert before == after + {u};
    } else {
      assert before == after;
    }
  }

  /** The nodes ranked so far come after all of their predecessors. */
  ghost predicate RankedSoFar(g: Dag, rank: map<Node, nat>, bound: nat) {
    && (forall v :: v in rank ==> rank[v] < bound)
    && (forall e :: e in g.edges && e.to in rank ==> e.from in rank && rank[e.from] < rank[e.to])
  }

  /** A counter is zero exactly for the nodes that were taken off the queue or wait in it, each of them once. */
  ghost predicate Queued(g: Dag, inDegree: map<Node, int>, done: set<Node>, queue: seq<Node>) {
    && inDegree.Keys == g.nodes
    && Distinct(queue)
    && (forall v :: v in queue ==> v in g.nodes && v !in done)
    && (forall v {:trigger inDegree[v]} :: v in g.nodes ==> (inDegree[v] == 0 <==> v in done || v in queue))
  }

  /** The queue before the loop: the nodes without predecessors. */
  method Roots(keys: seq<Node>, inDegree: map<Node, int>, ghost g: Dag) returns (queue: seq<Node>)
    requires Counts(g, inDegree, {}) && SetOf(keys) == g.nodes && Distinct(keys)
    ensures Queued(g, inDegree, {}, queue)
  {
    queue := [];
    for i := 0 to |keys|
      invariant forall v :: v in queue <==> v in keys[..i] && inDegree[v] == 0
      invariant Distinct(queue)
    {
      assert keys[..i + 1] == keys[..i] + [keys[i]];
      assert keys[i] !in keys[..i];
      if inDegree[keys[i]] == 0 {
        SetOfSnoc(queue, keys[i]);
        queue := queue + [keys[i]];
      }
    }
    assert keys[..|keys|] == keys;
    assert forall v :: v in g.nodes <==> v in SetOf(keys);
  }

  /**
   * Kahn's loop: it visits all nodes exactly if the graph has no cycle. Every visited node gets a rank above
   * all of its predecessors, and a node that is never visited keeps a predecessor that is never visited.
   */
  method Kahn(keys: seq<Node>, adj: map<Node, seq<Node>>, inDegree0: map<Node, int>, ghost g: Dag)
    returns (visited: nat)
    requires Represents(g, adj, inDegree0) && SetOf(keys) == g.nodes && Distinct(keys)
    ensures visited == |g.nodes| <==> !Cyclic(g)
    ensures visited == |g.nodes| ==> HasRank(g)
  {
    var inDegree := inDegree0;
    var queue := Roots(keys, inDegree, g);
    ghost var rank: map<Node, nat> := map[];
    visited := 0;
    while |queue| > 0
      invariant visited == |rank.Keys| && rank.Keys <= g.nodes
      invariant RankedSoFar(g, rank, visited)
      invariant Counts(g, inDegree, rank.Keys)
      invariant Queued(g, inDegree, rank.Keys, queue)
      decreases |g.nodes| - visited
    {
      var curr := queue[0];
      ghost var done := rank.Keys;
      RoomLeft(g.nodes, done, curr);
      RankNext(g, inDegree, rank, visited, curr);
      rank := rank[curr := visited];
      assert rank.Keys == done + {curr};
      visited := visited + 1;
      inDegree, queue := Release(g, adj, inDegree, done, queue);
    }
    NeverVisited(g, inDegree, rank.Keys);
    VisitedAllIffAcyclic(g, rank, visited);
  }

  lemma RoomLeft(all: set<Node>, done: set<Node>, v: Node)
    requires done <= all && v in all && v !in done
    ensures |done + {v}| == |done| + 1 <= |all|
  {
    assert all == (done + {v}) + (all - (done + {v}));
  }

  /** Counter zero means every predecessor is ranked already. */
  lemma RankNext(g: Dag, inDegree: map<Node, int>, rank: map<Node, nat>, visited: nat, curr: Node)
    requires WellFormed(g) && Counts(g, inDegree, rank.Keys) && RankedSoFar(g, rank, visited)
    requires curr in g.nodes && inDegree[curr] == 0 && curr !in rank
    ensures RankedSoFar(g, rank[curr := visited], visited + 1)
  {
    WaitingForNobody(g, rank.Keys, curr);
    forall e | e in g.edges && e.to == curr ensures e.from in rank {
      assert e == Edge(e.from, curr);
      assert e.from in Preds(g, curr);
    }
  }

  lemma NeverVisited(g: Dag, inDegree: map<Node, int>, done: set<Node>)
    requires Counts(g, inDegree, done) && Queued(g, inDegree, done, [])
    ensures Stuck(g, g.nodes - done)
  {
    forall n | n in g.nodes - done ensures Preds(g, n) * (g.nodes - done) != {} {
      WaitingForNobody(g, done, n);
      var u :| u in Preds(g, n) && u !in done;
      assert u in Preds(g, n) * (g.nodes - done);
    }
  }

  /** Half way through the successors of `curr`: the counters of `lowered` already leave `curr` out. */
  ghost predicate Releasing(g: Dag, inDegree: map<Node, int>, done: set<Node>, curr: Node, lowered: set<Node>) {
    && inDegree.Keys == g.nodes
    && forall v {:trigger Waiting(g, done, v)} :: v in g.nodes ==>
         inDegree[v] == Waiting(g, done, v) - (if v in lowered then 1 else 0)
  }

  /** Lowering the counter of one more successor; it joins the queue exactly when the counter hits zero. */
  lemma LowerOne(g: Dag, inDegree: map<Node, int>, done: set<Node>, curr: Node, lowered: set<Node>, nxt: Node)
    requires Releasing(g, inDegree, done, curr, lowered) && curr in g.nodes && curr !in done
    requires nxt in g.nodes && Edge(curr, nxt) in g.edges && nxt !in lowered
    ensures inDegree[nxt] > 0
    ensures Releasing(g, inDegree[nxt := inDegree[nxt] - 1], done, curr, lowered + {nxt})
  {
    RemovePred(g, done, curr, nxt);
  }

  lemma QueueOne(g: Dag, inDegree: map<Node, int>, done: set<Node>, queue: seq<Node>, nxt: Node)
    requires Queued(g, inDegree, done, queue) && nxt in g.nodes && inDegree[nxt] > 0
    ensures Queued(g, inDegree[nxt := inDegree[nxt] - 1], done, if inDegree[nxt] == 1 then queue + [nxt] else queue)
  {
    SetOfSnoc(queue, nxt);
  }

  /** Once all successors of `curr` are lowered, the counters leave `curr` out altogether. */
  lemma AllLowered(g: Dag, inDegree: map<Node, int>, done: set<Node>, curr: Node, succs: seq<Node>)
    requires curr in g.nodes && curr !in done
    requires forall v :: v in succs <==> Edge(curr, v) in g.edges
    requires Releasing(g, inDegree, done, curr, SetOf(succs))
    ensures Counts(g, inDegree, done + {curr})
  {
    forall v | v in g.nodes ensures inDegree[v] == Waiting(g, done + {curr}, v) {
      RemovePred(g, done, curr, v);
      assert v in SetOf(succs) <==> v in succs;
    }
  }

  /** The loop body: takes the head off the queue and lowers the counters of its successors. */
  method Release(ghost g: Dag, adj: map<Node, seq<Node>>, inDegree0: map<Node, int>, ghost done: set<Node>,
                 queue0: seq<Node>)
    returns (inDegree: map<Node, int>, queue: seq<Node>)
    requires WellFormed(g) && Lists(g, adj) && Counts(g, inDegree0, done)
    requires Queued(g, inDegree0, done, queue0) && |queue0| > 0
    ensures Counts(g, inDegree, done + {queue0[0]}) && Queued(g, inDegree, done + {queue0[0]}, queue)
  {
    var curr := queue0[0];
    inDegree, queue := inDegree0, queue0[1..];
    var succs := adj[curr];
    HeadLeaves(g, inDegree, done, queue0);
    for i := 0 to |succs|
      invariant Releasing(g, inDegree, done, curr, SetOf(succs[..i]))
      invariant Queued(g, inDegree, done + {curr}, queue)
    {
      var nxt := succs[i];
      assert succs[..i + 1] == succs[..i] + [nxt];
      assert Edge(curr, nxt) in g.edges;
      SetOfSnoc(succs[..i], nxt);
      LowerOne(g, inDegree, done, curr, SetOf(succs[..i]), nxt);
      QueueOne(g, inDegree, done + {curr}, queue, nxt);
      inDegree := inDegree[nxt := inDegree[nxt] - 1];
      if inDegree[nxt] == 0 {
        queue := queue + [nxt];
      }
    }
    assert succs[..|succs|] == succs;
    AllLowered(g, inDegree, done, curr, succs);
  }

  lemma HeadLeaves(g: Dag, inDegree: map<Node, int>, done: set<Node>, queue: seq<Node>)
    requires Queued(g, inDegree, done, queue) && |queue| > 0
    ensures queue[0] in g.nodes && queue[0] !in done
    ensures Queued(g, inDegree, done + {queue[0]}, queue[1..])
  {
    assert queue == [queue[0]] + queue[1..];
    assert queue[0] !in queue[1..];
  }

  /** Kahn's count decides acyclicity: all nodes visited means a rank exists, fewer means a real cycle exists. */
  lemma VisitedAllIffAcyclic(g: Dag, rank: map<Node, nat>, visited: nat)
    requires WellFormed(g) && visited == |rank.Keys| && rank.Keys <= g.nodes && RankedSoFar(g, rank, visited)
    requires Stuck(g, g.nodes - rank.Keys)
    ensures visited == |g.nodes| ==> Ranked(g, rank)
    ensures visited == |g.nodes| <==> !Cyclic(g)
  {
    var rest := g.nodes - rank.Keys;
    assert g.nodes == rank.Keys + rest;
    assert |g.nodes| == |rank.Keys| + |rest|;
    if rest == {} {
      assert Ranked(g, rank);
      RankedIsAcyclic(g, rank);
    } else {
      StuckSetHasCycle(g, rest);
    }
  }

  /** What each complaint about a definition with at least one node means. */
  ghost predicate Fault(nodes: seq<Node>, links: seq<Link>, error: Error) {
    || KeyFault(nodes, error)
    || EdgeFault(SetOf(nodes) - {""}, links, error)
    || (error == CycleDetected && Structural(nodes, links) && Cyclic(GraphOf(nodes, links)))
  }

  /**
   * Accepts exactly the structurally sound acyclic definitions, which then have a rank. A complaint is raised
   * exactly if it is justified; a cycle is blamed only on sound definitions that have one.
   */
  method ValidateWorkflow(nodes: seq<Node>, links: seq<Link>) returns (errors: seq<Error>)
    ensures errors == [] <==> Structural(nodes, links) && !Cyclic(GraphOf(nodes, links))
    ensures errors == [] ==> HasRank(GraphOf(nodes, links))
    ensures nodes == [] ==> errors == [EmptyWorkflow]
    ensures nodes != [] ==> forall error :: error in errors <==> Fault(nodes, links, error)
  {
    if |nodes| == 0 {
      return [EmptyWorkflow];
    }
    var keys, keyErrors := CheckKeys(nodes);
    var adj, inDegree, edgeErrors := BuildGraph(keys, links);
    errors := keyErrors + edgeErrors;
    SoundIffNoFault(nodes, links, errors);
    if errors == [] {
      assert keys == SetOf(nodes);
      var visited := Kahn(nodes, adj, inDegree, GraphOf(nodes, links));
      if visited != |keys| {
        errors := [CycleDetected];
      }
    }
  }

  lemma SoundIffNoFault(nodes: seq<Node>, links: seq<Link>, errors: seq<Error>)
    requires nodes != []
    requires forall error :: error in errors <==> KeyFault(nodes, error) || EdgeFault(SetOf(nodes) - {""}, links, error)
    ensures errors == [] <==> Structural(nodes, links)
  {
    NoKeyFaultIffGood(nodes);
    NoEdgeFaultIffGood(SetOf(nodes) - {""}, links);
    if "" !in nodes {
      assert SetOf(nodes) - {""} == SetOf(nodes);
    }
    if errors != [] {
      assert errors[0] in errors;
    }
  }
}
