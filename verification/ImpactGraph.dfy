/** The impact graph and what a bounded selection over it means, without any search. */
module ImpactGraph {
  import opened Sorting

  type Key = string

  datatype Relation = Calls | Implements | UsesType

  // Listed in the alphabetical order of their codes.
  datatype Reason = Callee | Caller | DirectChange | ExistingTest | InterfaceImplementation | TypeUsage

  datatype RawEdge = RawEdge(from: Key, to: Key, relation: Relation)

  datatype Symbol = Symbol(name: string, packageName: string, receiver: string, kind: string,
                           startLine: int, endLine: int)

  datatype DirectSymbol = DirectSymbol(filePath: string, symbol: Symbol)

  datatype Node = Node(key: Key, packagePath: string, packageName: string, symbolName: string,
                       receiverName: string, symbolKind: string, filePath: string,
                       startLine: int, endLine: int, directChange: bool, existingTest: bool,
                       depth: nat, score: real, reasons: seq<Reason>)

  datatype Edge = Edge(fromKey: Key, toKey: Key, relation: Relation, reason: Reason,
                       depth: nat, score: real)

  datatype Graph = Graph(nodes: map<Key, Node>, outgoing: map<Key, seq<RawEdge>>,
                         incoming: map<Key, seq<RawEdge>>)
  {
    function Out(k: Key): seq<RawEdge> { if k in outgoing then outgoing[k] else [] }

    function In(k: Key): seq<RawEdge> { if k in incoming then incoming[k] else [] }

    /** What AddNode and AddEdge establish: keys agree, every edge is listed at both of its ends. */
    ghost predicate WellFormed() {
      && (forall k :: k in nodes ==> nodes[k].key == k && Distinct(nodes[k].reasons))
      && (forall k, e :: e in Out(k) ==> e.from == k && e.from != e.to && e in In(e.to))
      && (forall k, e :: e in In(k) ==> e.to == k && e.from != e.to && e in Out(e.from))
    }
  }

  /** The two edge maps as the builders fill them. */
  class GraphData {
    var nodes: map<Key, Node>
    var outgoing: map<Key, seq<RawEdge>>
    var incoming: map<Key, seq<RawEdge>>

    function View(): Graph reads this { Graph(nodes, outgoing, incoming) }

    constructor ()
      ensures View() == Graph(map[], map[], map[]) && View().WellFormed()
    {
      nodes, outgoing, incoming := map[], map[], map[];
    }

    method AddNode(node: Node)
      requires View().WellFormed() && Distinct(node.reasons)
      modifies this`nodes
      ensures View() == old(View()).(nodes := NodeAdded(old(nodes), node))
      ensures View().WellFormed()
    {
      ghost var was := View();
      if node.key in nodes {
        var existing := nodes[node.key];
        existing := existing.(existingTest := existing.existingTest || node.existingTest);
        nodes := nodes[node.key := existing];
      } else {
        nodes := nodes[node.key := node];
      }
      assert View().outgoing == was.outgoing && View().incoming == was.incoming;
      assert forall k :: View().Out(k) == was.Out(k);
      assert forall k :: View().In(k) == was.In(k);
    }

    /** A self-loop or an edge with a missing end is dropped; any other edge is listed at both ends. */
    method AddEdge(from: Key, to: Key, relation: Relation)
      requires View().WellFormed()
      modifies this`outgoing, this`incoming
      ensures View().WellFormed()
      ensures from == "" || to == "" || from == to ==> View() == old(View())
      ensures from != "" && to != "" && from != to ==>
                var e := RawEdge(from, to, relation);
                && View().Out(from) == old(View()).Out(from) + [e]
                && View().In(to) == old(View()).In(to) + [e]
                && (forall k :: k != from ==> View().Out(k) == old(View()).Out(k))
                && (forall k :: k != to ==> View().In(k) == old(View()).In(k))
    {
      hide Graph.WellFormed;
      if from == "" || to == "" || from == to {
        return;
      }
      ghost var was := View();
      var edge := RawEdge(from, to, relation);
      outgoing := outgoing[from := (if from in outgoing then outgoing[from] else []) + [edge]];
      incoming := incoming[to := (if to in incoming then incoming[to] else []) + [edge]];
      EdgeListed(was, View(), edge);
    }
  }

  /** Listing one edge at both of its ends keeps the lists in step. */
  lemma EdgeListed(was: Graph, now: Graph, edge: RawEdge)
    requires was.WellFormed() && now.nodes == was.nodes && edge.from != edge.to
    requires now.Out(edge.from) == was.Out(edge.from) + [edge] && now.In(edge.to) == was.In(edge.to) + [edge]
    requires forall k :: k != edge.from ==> now.Out(k) == was.Out(k)
    requires forall k :: k != edge.to ==> now.In(k) == was.In(k)
    ensures now.WellFormed()
  {
    hide Graph.Out, Graph.In;
    assert forall k, e :: e in now.Out(k) <==> e in was.Out(k) || (k == edge.from && e == edge);
    assert forall k, e :: e in now.In(k) <==> e in was.In(k) || (k == edge.to && e == edge);
  }

  function NodeAdded(nodes: map<Key, Node>, node: Node): map<Key, Node> {
    if node.key in nodes
    then nodes[node.key := nodes[node.key].(existingTest := nodes[node.key].existingTest || node.existingTest)]
    else nodes[node.key := node]
  }

  // ---- reasons and scores ----

  function ReasonForEdge(edge: RawEdge, neighbor: Node, incoming: bool): Reason {
    match edge.relation
    case Implements => InterfaceImplementation
    case UsesType => TypeUsage
    case Calls => if neighbor.existingTest then ExistingTest else if incoming then Caller else Callee
  }

  function BaseScore(reason: Reason): real {
    match reason
    case Caller => 0.88
    case Callee => 0.78
    case InterfaceImplementation => 0.84
    case TypeUsage => 0.74
    case ExistingTest => 0.92
    case DirectChange => 0.0
  }

  function ImpactScore(reason: Reason, depth: nat): real
    requires depth >= 1
  {
    var score := BaseScore(reason) - (depth - 1) as real * 0.12;
    if score < 0.1 then 0.1 else score
  }

  function AddReason(reasons: seq<Reason>, reason: Reason): (r: seq<Reason>)
    ensures Distinct(reasons) ==> Distinct(r)
    ensures forall x :: x in r <==> x in reasons || x == reason
  {
    if reason in reasons then reasons else reasons + [reason]
  }

  // ---- walks: one step of the search, from an expanded node over one raw edge ----

  datatype Walk = Walk(raw: RawEdge, source: Key, incoming: bool, depth: nat)
  {
    function Neighbor(): Key { if incoming then raw.from else raw.to }
  }

  /** The walk crosses an edge listed at its source and ends in a known node. */
  ghost predicate IsStep(g: Graph, w: Walk) {
    && (if w.incoming then w.raw in g.In(w.source) else w.raw in g.Out(w.source))
    && w.Neighbor() in g.nodes
    && w.depth >= 1
  }

  function ReasonOf(g: Graph, w: Walk): Reason
    requires w.Neighbor() in g.nodes
  {
    ReasonForEdge(w.raw, g.nodes[w.Neighbor()], w.incoming)
  }

  function ScoreOf(g: Graph, w: Walk): real
    requires w.Neighbor() in g.nodes && w.depth >= 1
  {
    ImpactScore(ReasonOf(g, w), w.depth)
  }

  // The program joins the three parts with NUL bytes, which no key contains.
  datatype EdgeKey = EdgeKey(from: Key, to: Key, reason: Reason)

  function EdgeKeyOf(g: Graph, w: Walk): EdgeKey
    requires w.Neighbor() in g.nodes
  {
    EdgeKey(w.raw.from, w.raw.to, ReasonOf(g, w))
  }

  function EdgeOf(g: Graph, w: Walk): Edge
    requires w.Neighbor() in g.nodes && w.depth >= 1
  {
    Edge(w.raw.from, w.raw.to, w.raw.relation, ReasonOf(g, w), w.depth, ScoreOf(g, w))
  }

  // ---- distance ----

  /** One undirected step between known nodes. */
  ghost predicate Touches(g: Graph, a: Key, b: Key) {
    && b in g.nodes
    && ((exists e :: e in g.Out(a) && e.to == b) || (exists e :: e in g.In(a) && e.from == b))
  }

  ghost predicate IsPath(g: Graph, seeds: set<Key>, p: seq<Key>, k: Key) {
    && p != [] && p[0] in seeds && p[|p| - 1] == k
    && forall i :: 0 <= i < |p| - 1 ==> Touches(g, p[i], p[i + 1])
  }

  /** d is the length of a shortest undirected path from a seed to k. */
  ghost predicate Shortest(g: Graph, seeds: set<Key>, k: Key, d: nat) {
    && (exists p :: IsPath(g, seeds, p, k) && |p| == d + 1)
    && (forall p :: IsPath(g, seeds, p, k) ==> |p| >= d + 1)
  }

  /** The nodes at most d steps from a seed. */
  ghost function Ball(g: Graph, seeds: set<Key>, d: nat): set<Key> {
    if d == 0 then seeds
    else
      var b := Ball(g, seeds, d - 1);
      b + set n | n in g.nodes && exists c :: c in b && Touches(g, c, n)
  }

  ghost predicate AtDistance(g: Graph, seeds: set<Key>, k: Key, d: nat) {
    k in Ball(g, seeds, d) && (d > 0 ==> k !in Ball(g, seeds, d - 1))
  }

  lemma {:induction false} BallGrows(g: Graph, seeds: set<Key>, d: nat, e: nat)
    requires d <= e
    ensures Ball(g, seeds, d) <= Ball(g, seeds, e)
  {
    if d < e {
      BallGrows(g, seeds, d, e - 1);
    }
  }

  lemma SeedPath(g: Graph, seeds: set<Key>, k: Key)
    requires k in seeds
    ensures IsPath(g, seeds, [k], k)
  {
  }

  lemma LongerPath(g: Graph, seeds: set<Key>, q: seq<Key>, c: Key, k: Key)
    requires IsPath(g, seeds, q, c) && Touches(g, c, k)
    ensures IsPath(g, seeds, q + [k], k)
  {
    hide Touches;
  }

  lemma {:induction false} BallHasPath(g: Graph, seeds: set<Key>, k: Key, d: nat) returns (p: seq<Key>)
    requires k in Ball(g, seeds, d)
    ensures IsPath(g, seeds, p, k) && |p| <= d + 1
    decreases d
  {
    hide IsPath, Touches;
    if k in seeds {
      SeedPath(g, seeds, k);
      p := [k];
    } else if k in Ball(g, seeds, d - 1) {
      p := BallHasPath(g, seeds, k, d - 1);
    } else {
      var c :| c in Ball(g, seeds, d - 1) && Touches(g, c, k);
      var q := BallHasPath(g, seeds, c, d - 1);
      LongerPath(g, seeds, q, c, k);
      p := q + [k];
    }
  }

  lemma {:induction false} PathInBall(g: Graph, seeds: set<Key>, k: Key, p: seq<Key>)
    requires IsPath(g, seeds, p, k)
    ensures k in Ball(g, seeds, |p| - 1)
    decreases |p|
  {
    if |p| > 1 {
      var q := p[..|p| - 1];
      assert IsPath(g, seeds, q, q[|q| - 1]) by {
        forall i | 0 <= i < |q| - 1 ensures Touches(g, q[i], q[i + 1]) {
          assert Touches(g, p[i], p[i + 1]);
        }
      }
      PathInBall(g, seeds, q[|q| - 1], q);
      assert Touches(g, p[|p| - 2], p[|p| - 2 + 1]);
    }
  }

  /** The layered distance is the length of a shortest path. */
  lemma DistanceIsShortestPath(g: Graph, seeds: set<Key>, k: Key, d: nat)
    ensures AtDistance(g, seeds, k, d) <==> Shortest(g, seeds, k, d)
  {
    hide Ball;
    if AtDistance(g, seeds, k, d) {
      var p := BallHasPath(g, seeds, k, d);
      forall q | IsPath(g, seeds, q, k) ensures |q| >= d + 1 {
        PathInBall(g, seeds, k, q);
        if |q| < d + 1 {
          BallGrows(g, seeds, |q| - 1, d - 1);
        }
      }
    }
    if Shortest(g, seeds, k, d) {
      var p :| IsPath(g, seeds, p, k) && |p| == d + 1;
      PathInBall(g, seeds, k, p);
      if d > 0 && k in Ball(g, seeds, d - 1) {
        var q := BallHasPath(g, seeds, k, d - 1);
      }
    }
  }

  lemma DistanceBound(g: Graph, seeds: set<Key>, k: Key, d: nat, m: nat)
    requires AtDistance(g, seeds, k, d) && k in Ball(g, seeds, m)
    ensures d <= m
  {
    hide Ball;
    if m < d {
      BallGrows(g, seeds, m, d - 1);
    }
  }

  // ---- the selection ----

  /** All the walks of a search that expands every node nearer than maxDepth. */
  ghost predicate FullWalk(g: Graph, seeds: set<Key>, maxDepth: nat, w: Walk) {
    IsStep(g, w) && w.depth <= maxDepth && AtDistance(g, seeds, w.source, w.depth - 1)
  }

  ghost function FullWalks(g: Graph, seeds: set<Key>, maxDepth: nat): iset<Walk> {
    iset w | FullWalk(g, seeds, maxDepth, w)
  }

  ghost predicate ReasonsMerged(g: Graph, seeds: set<Key>, walks: iset<Walk>, k: Key, reasons: seq<Reason>)
    requires k in g.nodes
  {
    && Distinct(reasons)
    && (forall r :: r in reasons <==>
          || r in g.nodes[k].reasons
          || (k in seeds && r == DirectChange)
          || (exists w :: w in walks && IsStep(g, w) && w.Neighbor() == k && ReasonOf(g, w) == r))
  }

  /** A direct node scores 1; any other node the best score of the walks that reach it. */
  ghost predicate BestScore(g: Graph, seeds: set<Key>, walks: iset<Walk>, k: Key, score: real) {
    if k in seeds then score == 1.0
    else
      && (exists w :: w in walks && IsStep(g, w) && w.Neighbor() == k && ScoreOf(g, w) == score)
      && (forall w :: w in walks && IsStep(g, w) && w.Neighbor() == k ==> ScoreOf(g, w) <= score)
  }

  /** The node carries its own attributes and what the walks that reach it contribute. */
  ghost predicate NodeMerged(g: Graph, seeds: set<Key>, walks: iset<Walk>, k: Key, n: Node) {
    && k in g.nodes
    && n == g.nodes[k].(directChange := k in seeds || g.nodes[k].directChange,
                        depth := n.depth, score := n.score, reasons := n.reasons)
    && ReasonsMerged(g, seeds, walks, k, n.reasons)
    && BestScore(g, seeds, walks, k, n.score)
  }

  /** The edge is recorded by some walk, at the depth of the deepest walk that records it. */
  ghost predicate EdgeMerged(g: Graph, walks: iset<Walk>, e: Edge) {
    && (exists w :: w in walks && IsStep(g, w) && EdgeOf(g, w) == e)
    && (forall w :: w in walks && IsStep(g, w) && EdgeKeyOf(g, w) == EdgeKey(e.fromKey, e.toKey, e.reason)
                    ==> w.depth <= e.depth)
  }

  predicate NodeLe(a: Node, b: Node) {
    if a.directChange != b.directChange then a.directChange
    else if a.score != b.score then a.score > b.score
    else StringLe(a.key, b.key)
  }

  function ReasonRank(r: Reason): nat {
    match r
    case Callee => 0
    case Caller => 1
    case DirectChange => 2
    case ExistingTest => 3
    case InterfaceImplementation => 4
    case TypeUsage => 5
  }

  predicate ReasonLe(a: Reason, b: Reason) { ReasonRank(a) <= ReasonRank(b) }

  predicate EdgeLe(a: Edge, b: Edge) {
    if a.depth != b.depth then a.depth < b.depth
    else if a.fromKey != b.fromKey then StringLe(a.fromKey, b.fromKey)
    else if a.toKey != b.toKey then StringLe(a.toKey, b.toKey)
    else ReasonLe(a.reason, b.reason)
  }

  /** Exactly the nodes within maxDepth, each merged from all the walks, in the reported order. */
  ghost predicate CompleteNodes(g: Graph, seeds: set<Key>, maxDepth: nat, walks: iset<Walk>, nodes: seq<Node>) {
    && SortedBy(NodeLe, nodes)
    && (forall i, j :: 0 <= i < j < |nodes| ==> nodes[i].key != nodes[j].key)
    && (forall k :: k in Ball(g, seeds, maxDepth) <==> exists n :: n in nodes && n.key == k)
    && (forall n :: n in nodes ==>
          && NodeMerged(g, seeds, walks, n.key, n)
          && SortedBy(ReasonLe, n.reasons)
          && AtDistance(g, seeds, n.key, n.depth))
  }

  /** Exactly the edges the walks record, in the reported order. */
  ghost predicate CompleteEdges(g: Graph, walks: iset<Walk>, edges: seq<Edge>) {
    && SortedBy(EdgeLe, edges) && Distinct(edges)
    && (forall w :: w in walks && IsStep(g, w) ==>
          exists e :: e in edges && EdgeKey(e.fromKey, e.toKey, e.reason) == EdgeKeyOf(g, w))
    && (forall e :: e in edges ==> EdgeMerged(g, walks, e))
  }

  /** The complete selection around the seeds: nodes and edges of a search that nothing cuts short. */
  ghost predicate IsImpact(g: Graph, seeds: set<Key>, maxDepth: nat, nodes: seq<Node>, edges: seq<Edge>) {
    && CompleteNodes(g, seeds, maxDepth, FullWalks(g, seeds, maxDepth), nodes)
    && CompleteEdges(g, FullWalks(g, seeds, maxDepth), edges)
  }
}
