/** The complete selection depends on the graph alone, not on the order of its adjacency lists. */
module ImpactDeterminism {
  import opened Sorting
  import opened ImpactGraph

  /** The same nodes and the same edges, in any order and multiplicity. */
  ghost predicate SameGraph(g: Graph, h: Graph) {
    && g.nodes == h.nodes
    && (forall k, e :: e in g.Out(k) <==> e in h.Out(k))
    && (forall k, e :: e in g.In(k) <==> e in h.In(k))
  }

  lemma {:induction false} SameBall(g: Graph, h: Graph, seeds: set<Key>, d: nat)
    requires SameGraph(g, h)
    ensures Ball(g, seeds, d) == Ball(h, seeds, d)
  {
    if d > 0 {
      SameBall(g, h, seeds, d - 1);
      forall a, b ensures Touches(g, a, b) <==> Touches(h, a, b) {
      }
    }
  }

  lemma SameWalks(g: Graph, h: Graph, seeds: set<Key>, maxDepth: nat)
    requires SameGraph(g, h)
    ensures FullWalks(g, seeds, maxDepth) == FullWalks(h, seeds, maxDepth)
  {
    hide Ball;
    forall w ensures FullWalk(g, seeds, maxDepth, w) <==> FullWalk(h, seeds, maxDepth, w) {
      if w.depth >= 1 {
        SameBall(g, h, seeds, w.depth - 1);
        if w.depth >= 2 {
          SameBall(g, h, seeds, w.depth - 2);
        }
      }
    }
  }

  lemma SameReasons(g: Graph, seeds: set<Key>, walks: iset<Walk>, k: Key, r: seq<Reason>, s: seq<Reason>)
    requires k in g.nodes && ReasonsMerged(g, seeds, walks, k, r) && ReasonsMerged(g, seeds, walks, k, s)
    requires SortedBy(ReasonLe, r) && SortedBy(ReasonLe, s)
    ensures r == s
  {
    forall x ensures x in r <==> x in s {
    }
    DistinctPermutation(r, s);
    assert forall x, y :: ReasonLe(x, y) && ReasonLe(y, x) ==> x == y;
    SortedUnique(ReasonLe, r, s);
  }

  lemma SameNode(g: Graph, seeds: set<Key>, walks: iset<Walk>, a: Node, b: Node)
    requires NodeMerged(g, seeds, walks, a.key, a) && NodeMerged(g, seeds, walks, b.key, b) && a.key == b.key
    requires SortedBy(ReasonLe, a.reasons) && SortedBy(ReasonLe, b.reasons)
    requires AtDistance(g, seeds, a.key, a.depth) && AtDistance(g, seeds, b.key, b.depth)
    ensures a == b
  {
    hide Ball, ReasonsMerged, SortedBy, IsStep;
    DistanceBound(g, seeds, a.key, a.depth, b.depth);
    DistanceBound(g, seeds, a.key, b.depth, a.depth);
    SameReasons(g, seeds, walks, a.key, a.reasons, b.reasons);
  }

  lemma NodesSubset(g: Graph, seeds: set<Key>, maxDepth: nat, walks: iset<Walk>, a: seq<Node>, b: seq<Node>)
    requires CompleteNodes(g, seeds, maxDepth, walks, a) && CompleteNodes(g, seeds, maxDepth, walks, b)
    ensures forall n :: n in a ==> n in b
  {
    hide Ball, NodeMerged, AtDistance, SortedBy;
    forall n | n in a ensures n in b {
      assert n.key in Ball(g, seeds, maxDepth);
      var m :| m in b && m.key == n.key;
      SameNode(g, seeds, walks, n, m);
    }
  }

  lemma NodesSeparated(g: Graph, seeds: set<Key>, maxDepth: nat, walks: iset<Walk>, a: seq<Node>)
    requires CompleteNodes(g, seeds, maxDepth, walks, a)
    ensures Distinct(a) && Separates(NodeLe, a) && SortedBy(NodeLe, a)
  {
    hide Ball, NodeMerged, AtDistance, SortedBy;
    StringLeOrder();
    forall x, y | x in a && y in a && NodeLe(x, y) && NodeLe(y, x) ensures x == y {
      var i :| 0 <= i < |a| && a[i] == x;
      var j :| 0 <= j < |a| && a[j] == y;
      assert x.key == y.key;
    }
  }

  lemma NodesUnique(g: Graph, seeds: set<Key>, maxDepth: nat, walks: iset<Walk>, a: seq<Node>, b: seq<Node>)
    requires CompleteNodes(g, seeds, maxDepth, walks, a) && CompleteNodes(g, seeds, maxDepth, walks, b)
    ensures a == b
  {
    hide CompleteNodes, SortedBy, Distinct, Separates;
    NodesSubset(g, seeds, maxDepth, walks, a, b);
    NodesSubset(g, seeds, maxDepth, walks, b, a);
    NodesSeparated(g, seeds, maxDepth, walks, a);
    NodesSeparated(g, seeds, maxDepth, walks, b);
    DistinctPermutation(a, b);
    SortedUnique(NodeLe, a, b);
  }

  /** The reason of a walk gives away the relation of its edge. */
  lemma ReasonFixesRelation(g: Graph, v: Walk, w: Walk)
    requires IsStep(g, v) && IsStep(g, w) && ReasonOf(g, v) == ReasonOf(g, w)
    ensures v.raw.relation == w.raw.relation
  {
  }

  /** The walk an edge was last recorded by. */
  lemma EdgeWitness(g: Graph, walks: iset<Walk>, e: Edge) returns (w: Walk)
    requires EdgeMerged(g, walks, e)
    ensures w in walks && IsStep(g, w) && w.Neighbor() in g.nodes
    ensures e.fromKey == w.raw.from && e.toKey == w.raw.to && e.relation == w.raw.relation
    ensures e.reason == ReasonOf(g, w) && e.depth == w.depth >= 1 && e.score == ImpactScore(e.reason, e.depth)
  {
    hide ImpactScore, ReasonForEdge;
    w :| w in walks && IsStep(g, w) && EdgeOf(g, w) == e;
  }

  lemma EdgeBound(g: Graph, walks: iset<Walk>, e: Edge, w: Walk)
    requires EdgeMerged(g, walks, e) && w in walks && IsStep(g, w)
    requires EdgeKeyOf(g, w) == EdgeKey(e.fromKey, e.toKey, e.reason)
    ensures w.depth <= e.depth
  {
  }

  lemma SameEdge(g: Graph, walks: iset<Walk>, e: Edge, f: Edge)
    requires EdgeMerged(g, walks, e) && EdgeMerged(g, walks, f)
    requires e.fromKey == f.fromKey && e.toKey == f.toKey && e.reason == f.reason
    ensures e == f
  {
    hide EdgeMerged, IsStep, ReasonOf, ImpactScore;
    var v := EdgeWitness(g, walks, e);
    var w := EdgeWitness(g, walks, f);
    ReasonFixesRelation(g, v, w);
    EdgeBound(g, walks, e, w);
    EdgeBound(g, walks, f, v);
  }

  lemma EdgesSubset(g: Graph, walks: iset<Walk>, a: seq<Edge>, b: seq<Edge>)
    requires CompleteEdges(g, walks, a) && CompleteEdges(g, walks, b)
    ensures forall e :: e in a ==> e in b
  {
    hide SortedBy, Distinct, ReasonOf, IsStep, ImpactScore, EdgeMerged;
    forall e | e in a ensures e in b {
      var v := EdgeWitness(g, walks, e);
      var f :| f in b && EdgeKey(f.fromKey, f.toKey, f.reason) == EdgeKeyOf(g, v);
      SameEdge(g, walks, e, f);
    }
  }

  lemma EdgesSeparated(g: Graph, walks: iset<Walk>, a: seq<Edge>)
    requires CompleteEdges(g, walks, a)
    ensures Separates(EdgeLe, a)
  {
    hide SortedBy, Distinct, IsStep, EdgeMerged;
    StringLeOrder();
    forall e, f | e in a && f in a && EdgeLe(e, f) && EdgeLe(f, e) ensures e == f {
      SameEdge(g, walks, e, f);
    }
  }

  lemma EdgesUnique(g: Graph, walks: iset<Walk>, a: seq<Edge>, b: seq<Edge>)
    requires CompleteEdges(g, walks, a) && CompleteEdges(g, walks, b)
    ensures a == b
  {
    hide SortedBy, Distinct, Separates, EdgeMerged, IsStep;
    EdgesSubset(g, walks, a, b);
    EdgesSubset(g, walks, b, a);
    EdgesSeparated(g, walks, a);
    DistinctPermutation(a, b);
    SortedUnique(EdgeLe, a, b);
  }

  lemma CompleteMoves(g: Graph, h: Graph, seeds: set<Key>, maxDepth: nat, walks: iset<Walk>, nodes: seq<Node>, edges: seq<Edge>)
    requires SameGraph(g, h)
    requires CompleteNodes(h, seeds, maxDepth, walks, nodes) && CompleteEdges(h, walks, edges)
    ensures CompleteNodes(g, seeds, maxDepth, walks, nodes) && CompleteEdges(g, walks, edges)
  {
    NodesMove(g, h, seeds, maxDepth, walks, nodes);
    EdgesMove(g, h, walks, edges);
    hide SameGraph, CompleteNodes, CompleteEdges;
  }

  lemma StepIsKnown(g: Graph, w: Walk)
    requires IsStep(g, w)
    ensures w.Neighbor() in g.nodes && w.depth >= 1
  {
  }

  lemma SameStep(g: Graph, h: Graph, w: Walk)
    requires SameGraph(g, h)
    ensures IsStep(g, w) <==> IsStep(h, w)
  {
  }

  lemma NodesMove(g: Graph, h: Graph, seeds: set<Key>, maxDepth: nat, walks: iset<Walk>, nodes: seq<Node>)
    requires SameGraph(g, h) && CompleteNodes(h, seeds, maxDepth, walks, nodes)
    ensures CompleteNodes(g, seeds, maxDepth, walks, nodes)
  {
    hide Ball, SortedBy, Graph.Out, Graph.In, IsStep, NodeMerged;
    SameBall(g, h, seeds, maxDepth);
    forall n | n in nodes ensures NodeMerged(g, seeds, walks, n.key, n) && AtDistance(g, seeds, n.key, n.depth) {
      NodeMoves(g, h, seeds, walks, n);
      SameBall(g, h, seeds, n.depth);
      if n.depth > 0 {
        SameBall(g, h, seeds, n.depth - 1);
      }
    }
  }

  lemma NodeMoves(g: Graph, h: Graph, seeds: set<Key>, walks: iset<Walk>, n: Node)
    requires SameGraph(g, h) && NodeMerged(h, seeds, walks, n.key, n)
    ensures NodeMerged(g, seeds, walks, n.key, n)
  {
    hide IsStep;
    forall w ensures IsStep(g, w) <==> IsStep(h, w) { SameStep(g, h, w); }
    forall w | IsStep(g, w) ensures w.Neighbor() in g.nodes && w.depth >= 1 { StepIsKnown(g, w); }
    hide Graph.Out, Graph.In;
  }

  lemma EdgesMove(g: Graph, h: Graph, walks: iset<Walk>, edges: seq<Edge>)
    requires SameGraph(g, h) && CompleteEdges(h, walks, edges)
    ensures CompleteEdges(g, walks, edges)
  {
    hide IsStep, SortedBy, Distinct, EdgeMerged;
    forall w ensures IsStep(g, w) <==> IsStep(h, w) { SameStep(g, h, w); }
    forall w | IsStep(g, w) ensures w.Neighbor() in g.nodes && w.depth >= 1 { StepIsKnown(g, w); }
    forall e | e in edges ensures EdgeMerged(g, walks, e) {
      EdgeMoves(g, h, walks, e);
    }
  }

  lemma EdgeMoves(g: Graph, h: Graph, walks: iset<Walk>, e: Edge)
    requires SameGraph(g, h) && EdgeMerged(h, walks, e)
    ensures EdgeMerged(g, walks, e)
  {
    hide IsStep;
    forall w ensures IsStep(g, w) <==> IsStep(h, w) { SameStep(g, h, w); }
    forall w | IsStep(g, w) ensures w.Neighbor() in g.nodes && w.depth >= 1 { StepIsKnown(g, w); }
  }

  /**
   * Order independence: whatever order the edges are listed in, the complete selection is one and the same
   * sorted report.
   */
  lemma OrderIndependent(g: Graph, h: Graph, seeds: set<Key>, maxDepth: nat,
                         nodes: seq<Node>, edges: seq<Edge>, nodes': seq<Node>, edges': seq<Edge>)
    requires SameGraph(g, h)
    requires IsImpact(g, seeds, maxDepth, nodes, edges) && IsImpact(h, seeds, maxDepth, nodes', edges')
    ensures nodes == nodes' && edges == edges'
  {
    hide SameGraph, CompleteNodes, CompleteEdges, FullWalks;
    SameWalks(g, h, seeds, maxDepth);
    var walks := FullWalks(g, seeds, maxDepth);
    CompleteMoves(g, h, seeds, maxDepth, walks, nodes', edges');
    NodesUnique(g, seeds, maxDepth, walks, nodes, nodes');
    EdgesUnique(g, walks, edges, edges');
  }

  lemma {:induction false} BallDistance(g: Graph, seeds: set<Key>, k: Key, m: nat) returns (d: nat)
    requires k in Ball(g, seeds, m)
    ensures d <= m && AtDistance(g, seeds, k, d)
    decreases m
  {
    if m > 0 && k in Ball(g, seeds, m - 1) {
      d := BallDistance(g, seeds, k, m - 1);
    } else {
      d := m;
    }
  }

  /**
   * Between known nodes a raw edge is reported exactly when it touches a node that was expanded, that is,
   * one nearer than maxDepth.
   */
  lemma ReportedEdges(g: Graph, seeds: set<Key>, maxDepth: nat, nodes: seq<Node>, edges: seq<Edge>, raw: RawEdge)
    requires g.WellFormed() && maxDepth >= 1 && IsImpact(g, seeds, maxDepth, nodes, edges)
    requires raw in g.Out(raw.from) && raw.from in g.nodes && raw.to in g.nodes
    ensures (exists e :: e in edges && e.fromKey == raw.from && e.toKey == raw.to && e.relation == raw.relation)
            <==> raw.from in Ball(g, seeds, maxDepth - 1) || raw.to in Ball(g, seeds, maxDepth - 1)
  {
    hide Ball, CompleteNodes, CompleteEdges, Graph.Out, Graph.In;
    forall e | e in edges && e.fromKey == raw.from && e.toKey == raw.to
      ensures raw.from in Ball(g, seeds, maxDepth - 1) || raw.to in Ball(g, seeds, maxDepth - 1)
    {
      EdgeTouchesExpanded(g, seeds, maxDepth, edges, e);
    }
    if raw.from in Ball(g, seeds, maxDepth - 1) {
      EndIsWalked(g, seeds, maxDepth, edges, raw, false);
    } else if raw.to in Ball(g, seeds, maxDepth - 1) {
      EndIsWalked(g, seeds, maxDepth, edges, raw, true);
    }
  }

  lemma EndIsWalked(g: Graph, seeds: set<Key>, maxDepth: nat, edges: seq<Edge>, raw: RawEdge, incoming: bool)
    requires g.WellFormed() && maxDepth >= 1 && CompleteEdges(g, FullWalks(g, seeds, maxDepth), edges)
    requires raw in g.Out(raw.from) && raw.from in g.nodes && raw.to in g.nodes
    requires (if incoming then raw.to else raw.from) in Ball(g, seeds, maxDepth - 1)
    ensures exists e :: e in edges && e.fromKey == raw.from && e.toKey == raw.to && e.relation == raw.relation
  {
    hide Ball, CompleteEdges, AtDistance;
    var end := if incoming then raw.to else raw.from;
    var d := BallDistance(g, seeds, end, maxDepth - 1);
    WalkIsReported(g, seeds, maxDepth, edges, Walk(raw, end, incoming, d + 1));
  }

  lemma EdgeTouchesExpanded(g: Graph, seeds: set<Key>, maxDepth: nat, edges: seq<Edge>, e: Edge)
    requires g.WellFormed() && maxDepth >= 1 && e in edges
    requires CompleteEdges(g, FullWalks(g, seeds, maxDepth), edges)
    ensures e.fromKey in Ball(g, seeds, maxDepth - 1) || e.toKey in Ball(g, seeds, maxDepth - 1)
  {
    hide Ball, SortedBy, Distinct, EdgeMerged, ReasonOf, EdgeOf, EdgeKeyOf, ImpactScore;
    var w := EdgeWitness(g, FullWalks(g, seeds, maxDepth), e);
    BallGrows(g, seeds, w.depth - 1, maxDepth - 1);
  }

  lemma WalkIsReported(g: Graph, seeds: set<Key>, maxDepth: nat, edges: seq<Edge>, w: Walk)
    requires CompleteEdges(g, FullWalks(g, seeds, maxDepth), edges) && FullWalk(g, seeds, maxDepth, w)
    ensures exists e :: e in edges && e.fromKey == w.raw.from && e.toKey == w.raw.to && e.relation == w.raw.relation
  {
    hide AtDistance, SortedBy, Distinct, ReasonOf, EdgeMerged, IsStep, ImpactScore;
    var walks := FullWalks(g, seeds, maxDepth);
    StepIsKnown(g, w);
    var e :| e in edges && EdgeKey(e.fromKey, e.toKey, e.reason) == EdgeKeyOf(g, w);
    var v := EdgeWitness(g, walks, e);
    ReasonFixesRelation(g, v, w);
  }
}
