/** The coordinates of the DAG viewer's cards, and the layout as a whole. */
module DagCards {
  import opened Graph
  import opened DagLevels
  import opened DagLayout

  const CARD_WIDTH := 220.0
  const CARD_HEIGHT := 100.0
  const HORIZONTAL_GAP := 100.0
  const VERTICAL_GAP := 40.0

  /** The top left corner of a card. */
  datatype Card = Card(x: real, y: real)

  predicate Apart(a: Card, b: Card) {
    || a.x + CARD_WIDTH < b.x || b.x + CARD_WIDTH < a.x
    || a.y + CARD_HEIGHT < b.y || b.y + CARD_HEIGHT < a.y
  }

  predicate Inside(a: Card, width: real, height: real) {
    0.0 <= a.x && a.x + CARD_WIDTH <= width && 0.0 <= a.y && a.y + CARD_HEIGHT <= height
  }

  /** Nodes grouped by level: the groups hold exactly the nodes seen, each once, under its level. */
  ghost predicate Grouped(levels: map<Node, nat>, seen: set<Node>, groups: map<nat, seq<Node>>) {
    && seen <= levels.Keys
    && (forall l, i :: l in groups && 0 <= i < |groups[l]| ==> groups[l][i] in seen && levels[groups[l][i]] == l)
    && (forall l, i, j :: l in groups && 0 <= i < j < |groups[l]| ==> groups[l][i] != groups[l][j])
    && (forall n :: n in seen ==> levels[n] in groups && n in groups[levels[n]])
  }

  lemma GroupOneMore(levels: map<Node, nat>, seen: set<Node>, groups: map<nat, seq<Node>>, n: Node)
    requires Grouped(levels, seen, groups) && n in levels && n !in seen
    ensures var group := if levels[n] in groups then groups[levels[n]] else [];
      Grouped(levels, seen + {n}, groups[levels[n] := group + [n]])
  {
  }

  /** `m` is the largest key of the groups, 0 if there are none; its group is not empty. */
  ghost predicate HighestLevel(groups: map<nat, seq<Node>>, m: nat) {
    (forall l :: l in groups ==> l <= m) && (m == 0 || (m in groups && groups[m] != []))
  }

  /** `m` is the size of the largest of the groups of `ls`, 0 if there are none. */
  ghost predicate LargestSize(groups: map<nat, seq<Node>>, ls: set<nat>, m: nat) {
    && (forall l :: l in groups && l in ls ==> |groups[l]| <= m)
    && (m == 0 || exists l :: l in groups && l in ls && |groups[l]| == m)
  }

  /** Groups the nodes, visited in any order, and finds the highest level. */
  method GroupByLevel(levels: map<Node, nat>) returns (groups: map<nat, seq<Node>>, maxLevel: nat)
    ensures Grouped(levels, levels.Keys, groups)
    ensures HighestLevel(groups, maxLevel)
  {
    groups, maxLevel := map[], 0;
    var todo := levels.Keys;
    while todo != {}
      invariant todo <= levels.Keys
      invariant Grouped(levels, levels.Keys - todo, groups)
      invariant HighestLevel(groups, maxLevel)
      decreases todo
    {
      var key :| key in todo;
      var lvl := levels[key];
      GroupOneMore(levels, levels.Keys - todo, groups, key);
      assert levels.Keys - (todo - {key}) == (levels.Keys - todo) + {key};
      todo := todo - {key};
      groups := groups[lvl := (if lvl in groups then groups[lvl] else []) + [key]];
      maxLevel := if lvl > maxLevel then lvl else maxLevel;
    }
    assert levels.Keys - todo == levels.Keys;
  }

  method LargestGroup(groups: map<nat, seq<Node>>) returns (maxNodes: nat)
    ensures LargestSize(groups, groups.Keys, maxNodes)
  {
    maxNodes := 0;
    var todo := groups.Keys;
    while todo != {}
      invariant todo <= groups.Keys
      invariant LargestSize(groups, groups.Keys - todo, maxNodes)
      decreases todo
    {
      var l :| l in todo;
      assert groups.Keys - (todo - {l}) == (groups.Keys - todo) + {l};
      todo := todo - {l};
      maxNodes := if |groups[l]| > maxNodes then |groups[l]| else maxNodes;
    }
    assert groups.Keys - todo == groups.Keys;
  }

  /** The left border of the column of a level. */
  function ColumnX(level: nat): real {
    40.0 + level as real * (CARD_WIDTH + HORIZONTAL_GAP)
  }

  function CanvasWidth(maxLevel: nat): real {
    (maxLevel + 1) as real * (CARD_WIDTH + HORIZONTAL_GAP) + 80.0
  }

  function CanvasHeight(maxNodes: nat): real {
    var h := maxNodes as real * (CARD_HEIGHT + VERTICAL_GAP) + 80.0;
    if h > 300.0 then h else 300.0
  }

  /** Card number `i` of the `count` cards of a level, the column centred on the canvas. */
  function CardAt(level: nat, i: nat, count: nat, height: real): Card {
    var levelHeight := count as real * CARD_HEIGHT + (count as real - 1.0) * VERTICAL_GAP;
    Card(ColumnX(level),
         (height - levelHeight) / 2.0 + i as real * (CARD_HEIGHT + VERTICAL_GAP))
  }

  lemma CardIsInside(level: nat, maxLevel: nat, i: nat, count: nat, maxNodes: nat)
    requires level <= maxLevel && i < count <= maxNodes
    ensures Inside(CardAt(level, i, count, CanvasHeight(maxNodes)), CanvasWidth(maxLevel), CanvasHeight(maxNodes))
  {
    var c, k, m := count as real, i as real, maxNodes as real;
    assert k + 1.0 <= c <= m;
  }

  lemma CardsAreApart(l: nat, i: nat, count: nat, m: nat, j: nat, other: nat, height: real)
    requires l != m || (i != j && count == other)
    ensures Apart(CardAt(l, i, count, height), CardAt(m, j, other, height))
  {
    var x, y, a, b := l as real, m as real, i as real, j as real;
    if l < m {
      assert x + 1.0 <= y;
    } else if m < l {
      assert y + 1.0 <= x;
    } else if i < j {
      assert a + 1.0 <= b;
    } else {
      assert b + 1.0 <= a;
    }
  }

  /** Top and bottom margin of a column are equal: cards of a level pair up around the middle of the canvas. */
  lemma ColumnIsCentred(level: nat, i: nat, count: nat, height: real)
    requires i < count
    ensures CardAt(level, i, count, height).y + CardAt(level, count - 1 - i, count, height).y + CARD_HEIGHT == height
  {
    var c, k, j := count as real, i as real, (count - 1 - i) as real;
    assert j == c - 1.0 - k;
  }

  /** The cards of the members of every group of `done`. */
  ghost predicate Placed(groups: map<nat, seq<Node>>, done: set<nat>, cards: map<Node, Card>, height: real) {
    && (forall l, i :: l in groups && l in done && 0 <= i < |groups[l]| ==>
          groups[l][i] in cards && cards[groups[l][i]] == CardAt(l, i, |groups[l]|, height))
    && (forall n :: n in cards ==> exists l :: l in groups && n in groups[l])
  }

  method PlaceGroup(ghost levels: map<Node, nat>, ghost seen: set<Node>, groups: map<nat, seq<Node>>,
                    ghost done: set<nat>,
                    cards0: map<Node, Card>, height: real, l: nat)
    returns (cards: map<Node, Card>)
    requires Grouped(levels, seen, groups) && Placed(groups, done, cards0, height) && l in groups && l !in done
    ensures Placed(groups, done + {l}, cards, height)
  {
    cards := cards0;
    for i := 0 to |groups[l]|
      invariant Placed(groups, done, cards, height)
      invariant forall j :: 0 <= j < i ==>
        groups[l][j] in cards && cards[groups[l][j]] == CardAt(l, j, |groups[l]|, height)
    {
      var key := groups[l][i];
      assert levels[key] == l && key in groups[l];
      cards := cards[key := CardAt(l, i, |groups[l]|, height)];
    }
  }

  /** The card faces one of the same level, equally far from the other border of the canvas. */
  ghost predicate FacesOne(levels: map<Node, nat>, cards: map<Node, Card>, height: real, n: Node)
    requires cards.Keys == levels.Keys && n in levels
  {
    exists m :: m in levels && levels[m] == levels[n] && cards[n].y + cards[m].y + CARD_HEIGHT == height
  }

  ghost predicate Centred(levels: map<Node, nat>, cards: map<Node, Card>, height: real) {
    && cards.Keys == levels.Keys
    && forall n {:trigger FacesOne(levels, cards, height, n)} :: n in levels ==> FacesOne(levels, cards, height, n)
  }

  /**
   * Level 0 begins at the left margin of 40, each level one card and one gap further right, and the canvas ends a
   * gap and a margin of 40 after the cards of the highest level.
   */
  ghost predicate Columns(levels: map<Node, nat>, cards: map<Node, Card>, width: real) {
    && cards.Keys == levels.Keys
    && (forall n :: n in levels && levels[n] == 0 ==> cards[n].x == 40.0)
    && (forall n, m :: n in levels && m in levels ==>
          cards[m].x - cards[n].x == (levels[m] as real - levels[n] as real) * (CARD_WIDTH + HORIZONTAL_GAP))
    && (forall n :: n in levels && (forall m :: m in levels ==> levels[m] <= levels[n]) ==>
          cards[n].x + CARD_WIDTH + HORIZONTAL_GAP + 40.0 == width)
    && (levels == map[] ==> width == 40.0 + CARD_WIDTH + HORIZONTAL_GAP + 40.0)
  }

  /** The card is the topmost of its level, or stands one gap below another one of it. */
  ghost predicate StacksUp(levels: map<Node, nat>, cards: map<Node, Card>, n: Node)
    requires cards.Keys == levels.Keys && n in levels
  {
    || (forall m :: m in levels && levels[m] == levels[n] ==> cards[n].y <= cards[m].y)
    || (exists m :: m in levels && levels[m] == levels[n] && cards[m].y + CARD_HEIGHT + VERTICAL_GAP == cards[n].y)
  }

  ghost predicate Stacked(levels: map<Node, nat>, cards: map<Node, Card>) {
    && cards.Keys == levels.Keys
    && forall n {:trigger StacksUp(levels, cards, n)} :: n in levels ==> StacksUp(levels, cards, n)
  }

  /** The canvas is as low as a height of at least 300 and margins of at least 60 above and below all cards allow. */
  ghost predicate Snug(cards: map<Node, Card>, height: real) {
    && height >= 300.0
    && (forall n :: n in cards ==> 60.0 <= cards[n].y && cards[n].y + CARD_HEIGHT + 60.0 <= height)
    && (height == 300.0 || exists n :: n in cards && cards[n].y == 60.0)
  }

  ghost predicate Contained(cards: map<Node, Card>, width: real, height: real) {
    forall n :: n in cards ==> Inside(cards[n], width, height)
  }

  ghost predicate Scattered(cards: map<Node, Card>) {
    forall n, m :: n in cards && m in cards && n != m ==> Apart(cards[n], cards[m])
  }

  /** No card leaves the canvas, no two touch, and rows, columns and margins are regular. */
  ghost predicate Tidy(levels: map<Node, nat>, cards: map<Node, Card>, width: real, height: real) {
    && cards.Keys == levels.Keys && Contained(cards, width, height) && Scattered(cards)
    && Columns(levels, cards, width) && Stacked(levels, cards) && Centred(levels, cards, height)
    && Snug(cards, height)
  }

  /** The coordinates of all cards and the size of the canvas; the groups are visited in any order. */
  method PlaceCards(levels: map<Node, nat>) returns (cards: map<Node, Card>, width: real, height: real)
    ensures Tidy(levels, cards, width, height)
  {
    var groups, maxLevel := GroupByLevel(levels);
    var maxNodes := LargestGroup(groups);
    width, height := CanvasWidth(maxLevel), CanvasHeight(maxNodes);
    cards := map[];
    var todo := groups.Keys;
    while todo != {}
      invariant todo <= groups.Keys
      invariant Placed(groups, groups.Keys - todo, cards, height)
      decreases todo
    {
      var l :| l in todo;
      cards := PlaceGroup(levels, levels.Keys, groups, groups.Keys - todo, cards, height, l);
      assert groups.Keys - (todo - {l}) == (groups.Keys - todo) + {l};
      todo := todo - {l};
    }
    assert groups.Keys - todo == groups.Keys;
    LayoutIsSound(levels, groups, maxLevel, maxNodes, cards);
  }

  lemma HighestIsTop(levels: map<Node, nat>, groups: map<nat, seq<Node>>, maxLevel: nat)
    requires Grouped(levels, levels.Keys, groups) && HighestLevel(groups, maxLevel)
    ensures forall n :: n in levels && (forall m :: m in levels ==> levels[m] <= levels[n]) ==> levels[n] == maxLevel
  {
    forall n | n in levels && (forall m :: m in levels ==> levels[m] <= levels[n]) ensures levels[n] == maxLevel {
      if maxLevel > 0 {
        var m := groups[maxLevel][0];
        assert m in levels && levels[m] == maxLevel;
      }
    }
  }

  lemma WhereCardIs(levels: map<Node, nat>, groups: map<nat, seq<Node>>, cards: map<Node, Card>, height: real, n: Node)
    returns (i: nat)
    requires Grouped(levels, levels.Keys, groups) && Placed(groups, groups.Keys, cards, height) && n in levels
    ensures levels[n] in groups && i < |groups[levels[n]]| && groups[levels[n]][i] == n
    ensures n in cards && cards[n] == CardAt(levels[n], i, |groups[levels[n]]|, height)
  {
    i :| 0 <= i < |groups[levels[n]]| && groups[levels[n]][i] == n;
  }

  lemma LayoutIsSound(levels: map<Node, nat>, groups: map<nat, seq<Node>>, maxLevel: nat, maxNodes: nat,
                      cards: map<Node, Card>)
    requires Grouped(levels, levels.Keys, groups) && Placed(groups, groups.Keys, cards, CanvasHeight(maxNodes))
    requires HighestLevel(groups, maxLevel) && LargestSize(groups, groups.Keys, maxNodes)
    ensures Tidy(levels, cards, CanvasWidth(maxLevel), CanvasHeight(maxNodes))
  {
    AllInside(levels, groups, maxLevel, maxNodes, cards);
    AllInColumns(levels, groups, maxLevel, maxNodes, cards);
    AllApart(levels, groups, cards, CanvasHeight(maxNodes));
    AllStacked(levels, groups, cards, CanvasHeight(maxNodes));
    AllCentred(levels, groups, cards, CanvasHeight(maxNodes));
    AllSnug(levels, groups, maxNodes, cards);
  }

  lemma AllInColumns(levels: map<Node, nat>, groups: map<nat, seq<Node>>, maxLevel: nat, maxNodes: nat,
                     cards: map<Node, Card>)
    requires Grouped(levels, levels.Keys, groups) && Placed(groups, groups.Keys, cards, CanvasHeight(maxNodes))
    requires HighestLevel(groups, maxLevel) && cards.Keys == levels.Keys
    requires forall n :: n in cards ==> cards[n].x == ColumnX(levels[n])
    ensures Columns(levels, cards, CanvasWidth(maxLevel))
  {
    HighestIsTop(levels, groups, maxLevel);
    assert maxLevel > 0 ==> groups[maxLevel][0] in levels;
  }

  lemma AllStacked(levels: map<Node, nat>, groups: map<nat, seq<Node>>, cards: map<Node, Card>, height: real)
    requires Grouped(levels, levels.Keys, groups) && Placed(groups, groups.Keys, cards, height)
    requires cards.Keys == levels.Keys
    ensures Stacked(levels, cards)
  {
    forall n | n in levels ensures StacksUp(levels, cards, n) {
      var i := WhereCardIs(levels, groups, cards, height, n);
      var l, group := levels[n], groups[levels[n]];
      if i == 0 {
        forall m | m in levels && levels[m] == l ensures cards[n].y <= cards[m].y {
          var j := WhereCardIs(levels, groups, cards, height, m);
        }
      } else {
        var m := group[i - 1];
        assert m in levels && levels[m] == l && cards[m] == CardAt(l, i - 1, |group|, height);
        assert i as real == (i - 1) as real + 1.0;
      }
    }
  }

  /** The topmost card of a column of `count` cards, and what the height leaves above and below the column. */
  lemma ColumnMargins(level: nat, i: nat, count: nat, maxNodes: nat)
    requires i < count <= maxNodes
    ensures var height := CanvasHeight(maxNodes);
      var y := CardAt(level, i, count, height).y;
      && 60.0 <= y && y + CARD_HEIGHT + 60.0 <= height
      && (height > 300.0 && count == maxNodes && i == 0 ==> y == 60.0)
  {
    var c, k, m := count as real, i as real, maxNodes as real;
    assert k + 1.0 <= c <= m;
  }

  lemma AllSnug(levels: map<Node, nat>, groups: map<nat, seq<Node>>, maxNodes: nat, cards: map<Node, Card>)
    requires Grouped(levels, levels.Keys, groups) && Placed(groups, groups.Keys, cards, CanvasHeight(maxNodes))
    requires LargestSize(groups, groups.Keys, maxNodes) && cards.Keys == levels.Keys
    ensures Snug(cards, CanvasHeight(maxNodes))
  {
    var height := CanvasHeight(maxNodes);
    forall n | n in cards ensures 60.0 <= cards[n].y && cards[n].y + CARD_HEIGHT + 60.0 <= height {
      var i := WhereCardIs(levels, groups, cards, height, n);
      ColumnMargins(levels[n], i, |groups[levels[n]]|, maxNodes);
    }
    if height > 300.0 {
      var l :| l in groups && |groups[l]| == maxNodes;
      var n := groups[l][0];
      assert n in cards && cards[n] == CardAt(l, 0, maxNodes, height);
      ColumnMargins(l, 0, maxNodes, maxNodes);
    }
  }

  lemma AllInside(levels: map<Node, nat>, groups: map<nat, seq<Node>>, maxLevel: nat, maxNodes: nat, cards: map<Node,
                  Card>)
    requires Grouped(levels, levels.Keys, groups) && Placed(groups, groups.Keys, cards, CanvasHeight(maxNodes))
    requires HighestLevel(groups, maxLevel) && LargestSize(groups, groups.Keys, maxNodes)
    ensures cards.Keys == levels.Keys && Contained(cards, CanvasWidth(maxLevel), CanvasHeight(maxNodes))
    ensures forall n :: n in cards ==> cards[n].x == ColumnX(levels[n])
  {
    var height := CanvasHeight(maxNodes);
    forall n | n in cards ensures n in levels {
      var l :| l in groups && n in groups[l];
    }
    forall n | n in levels
      ensures n in cards && Inside(cards[n], CanvasWidth(maxLevel), height) && cards[n].x == ColumnX(levels[n])
    {
      var i := WhereCardIs(levels, groups, cards, height, n);
      CardIsInside(levels[n], maxLevel, i, |groups[levels[n]]|, maxNodes);
    }
  }

  lemma AllApart(levels: map<Node, nat>, groups: map<nat, seq<Node>>, cards: map<Node, Card>, height: real)
    requires Grouped(levels, levels.Keys, groups) && Placed(groups, groups.Keys, cards, height)
    requires cards.Keys == levels.Keys
    ensures Scattered(cards)
  {
    forall n, m | n in cards && m in cards && n != m ensures Apart(cards[n], cards[m]) {
      var i := WhereCardIs(levels, groups, cards, height, n);
      var j := WhereCardIs(levels, groups, cards, height, m);
      CardsAreApart(levels[n], i, |groups[levels[n]]|, levels[m], j, |groups[levels[m]]|, height);
    }
  }

  lemma AllCentred(levels: map<Node, nat>, groups: map<nat, seq<Node>>, cards: map<Node, Card>, height: real)
    requires Grouped(levels, levels.Keys, groups) && Placed(groups, groups.Keys, cards, height)
    requires cards.Keys == levels.Keys
    ensures Centred(levels, cards, height)
  {
    forall n | n in levels ensures FacesOne(levels, cards, height, n) {
      var i := WhereCardIs(levels, groups, cards, height, n);
      var l, group := levels[n], groups[levels[n]];
      ColumnIsCentred(l, i, |group|, height);
      var m := group[|group| - 1 - i];
      assert m in levels && levels[m] == l;
      assert cards[m] == CardAt(l, |group| - 1 - i, |group|, height);
    }
  }

  /** Card `b` of the target of an edge begins a full gap after card `a` of its source ends, or further right. */
  lemma EdgesRunRight(g: Dag, rank: map<Node, nat>, e: Edge, from: nat, to: nat, a: Card, b: Card)
    requires Ranked(g, rank) && e in g.edges && IsLevel(g, e.from, from) && IsLevel(g, e.to, to)
    requires b.x - a.x == (to as real - from as real) * (CARD_WIDTH + HORIZONTAL_GAP)
    ensures a.x + CARD_WIDTH + HORIZONTAL_GAP <= b.x
  {
    EdgesGoUp(g, rank, e, from, to);
    assert to as real - from as real >= 1.0;
  }

  /**
   * The whole layout of a workflow on whose graph the level loop ends: one card for each node key, in the
   * column of its longest path from a root. If the workflow is acyclic, every edge drawn runs to the right.
   */
  method LayOut(nodes: seq<Node>, edges: seq<Edge>)
    returns (levels: map<Node, nat>, cards: map<Node, Card>, width: real, height: real)
    requires forall n :: IsRoot(ViewedGraph(nodes, edges), n) ==> !LeadsToCycle(ViewedGraph(nodes, edges), n)
    ensures levels.Keys == ViewedGraph(nodes, edges).nodes
    ensures forall n :: n in levels ==> IsLevel(ViewedGraph(nodes, edges), n, levels[n])
    ensures Tidy(levels, cards, width, height)
    ensures HasRank(ViewedGraph(nodes, edges)) ==>
      forall e :: e in ViewedGraph(nodes, edges).edges ==>
        e.from in cards && e.to in cards && cards[e.from].x + CARD_WIDTH + HORIZONTAL_GAP <= cards[e.to].x
  {
    ghost var g := ViewedGraph(nodes, edges);
    levels := ComputeLevels(nodes, edges);
    cards, width, height := PlaceCards(levels);
    if HasRank(g) {
      ghost var rank :| Ranked(g, rank);
      forall e | e in g.edges
        ensures e.from in cards && e.to in cards && cards[e.from].x + CARD_WIDTH + HORIZONTAL_GAP <= cards[e.to].x
      {
        EdgesRunRight(g, rank, e, levels[e.from], levels[e.to], cards[e.from], cards[e.to]);
      }
    }
  }
}
