/** What a complete selection says of each node and edge, read off the call, implementation and type edges themselves. */
module ImpactReasons {
  import opened Sorting
  import opened ImpactGraph

  /** A relevance that starts at base next to the change and loses 0.12 for each further step, down to 0.1. */
  function Faded(base: real, distance: nat): real {
    if base - 0.12 * distance as real < 0.1 then 0.1 else base - 0.12 * distance as real
  }

  lemma FadedFalls(base: real, distance: nat)
    requires base >= 0.1
    ensures 0.1 <= Faded(base, distance) <= base && Faded(base, 0) == base
    ensures Faded(base, distance + 1) <= Faded(base, distance)
    ensures Faded(base, distance) > 0.1 ==> Faded(base, distance + 1) < Faded(base, distance)
    ensures base <= 1.0 && distance >= 8 ==> Faded(base, distance) == 0.1
  {
    assert 0.12 * (distance + 1) as real == 0.12 * distance as real + 0.12;
    if distance >= 8 {
      assert 0.12 * distance as real >= 0.12 * 8.0;
    }
  }

  // ---- what touches a node ----

  /** k is the from end of such an edge whose to end lies d steps from the direct nodes. */
  ghost predicate Reaches(g: Graph, seeds: set<Key>, k: Key, relation: Relation, d: nat) {
    exists e :: e in g.Out(k) && e.relation == relation && AtDistance(g, seeds, e.to, d)
  }

  /** k is the to end of such an edge whose from end lies d steps from the direct nodes. */
  ghost predicate Reached(g: Graph, seeds: set<Key>, k: Key, relation: Relation, d: nat) {
    exists e :: e in g.In(k) && e.relation == relation && AtDistance(g, seeds, e.from, d)
  }

  /** Why the node counts as impacted, with d the distance of the node it is impacted through. */
  ghost predicate Because(g: Graph, seeds: set<Key>, k: Key, reason: Reason, d: nat)
    requires k in g.nodes
  {
    match reason
    case Caller => !g.nodes[k].existingTest && Reaches(g, seeds, k, Calls, d)
    case Callee => !g.nodes[k].existingTest && Reached(g, seeds, k, Calls, d)
    case ExistingTest => g.nodes[k].existingTest && (Reaches(g, seeds, k, Calls, d) || Reached(g, seeds, k, Calls, d))
    case InterfaceImplementation => Reaches(g, seeds, k, Implements, d) || Reached(g, seeds, k, Implements, d)
    case TypeUsage => Reaches(g, seeds, k, UsesType, d) || Reached(g, seeds, k, UsesType, d)
    case DirectChange => false
  }

  /** How strongly a reason counts next to the change. */
  predicate Strength(reason: Reason, base: real) {
    match reason
    case ExistingTest => base == 0.92
    case Caller => base == 0.88
    case InterfaceImplementation => base == 0.84
    case Callee => base == 0.78
    case TypeUsage => base == 0.74
    case DirectChange => base == 1.0
  }

  // ---- walks and causes ----

  lemma WalkIsCause(g: Graph, seeds: set<Key>, maxDepth: nat, w: Walk)
    requires g.WellFormed() && FullWalk(g, seeds, maxDepth, w)
    ensures w.Neighbor() in g.nodes && 1 <= w.depth <= maxDepth
    ensures Because(g, seeds, w.Neighbor(), ReasonOf(g, w), w.depth - 1)
    ensures ReasonOf(g, w) != DirectChange
    ensures forall base :: Strength(ReasonOf(g, w), base) ==> ScoreOf(g, w) == Faded(base, w.depth - 1)
  {
    hide AtDistance, Graph.Out, Graph.In;
    var k, d := w.Neighbor(), w.depth - 1;
    if w.incoming {
      assert w.raw in g.Out(k) && AtDistance(g, seeds, w.raw.to, d);
      assert Reaches(g, seeds, k, w.raw.relation, d);
    } else {
      assert w.raw in g.In(k) && AtDistance(g, seeds, w.raw.from, d);
      assert Reached(g, seeds, k, w.raw.relation, d);
    }
  }

  /** Every cause is found by a walk. */
  lemma CauseIsWalk(g: Graph, seeds: set<Key>, maxDepth: nat, k: Key, reason: Reason, d: nat) returns (w: Walk)
    requires g.WellFormed() && k in g.nodes && d < maxDepth && Because(g, seeds, k, reason, d)
    ensures FullWalk(g, seeds, maxDepth, w) && w.Neighbor() == k && w.depth == d + 1 && ReasonOf(g, w) == reason
  {
    hide AtDistance, Graph.Out, Graph.In;
    var relation := match reason case InterfaceImplementation => Implements case TypeUsage => UsesType case _ => Calls;
    if reason != Callee && Reaches(g, seeds, k, relation, d) {
      var e :| e in g.Out(k) && e.relation == relation && AtDistance(g, seeds, e.to, d);
      w := Walk(e, e.to, true, d + 1);
    } else {
      var e :| e in g.In(k) && e.relation == relation && AtDistance(g, seeds, e.from, d);
      w := Walk(e, e.from, false, d + 1);
    }
  }

  // ---- nodes ----

  ghost predicate Caused(g: Graph, seeds: set<Key>, maxDepth: nat, k: Key, reason: Reason)
    requires k in g.nodes
  {
    exists d :: 0 <= d < maxDepth && Because(g, seeds, k, reason, d)
  }

  /** Everything a node says has a cause: each reason, and the score if it is no direct node. */
  ghost predicate NodeExplained(g: Graph, seeds: set<Key>, maxDepth: nat, n: Node) {
    && n.key in g.nodes
    && (forall reason :: reason in n.reasons ==>
          reason in g.nodes[n.key].reasons || (reason == DirectChange && n.key in seeds) || Caused(g, seeds, maxDepth, n.key, reason))
    && (if n.key in seeds then n.score == 1.0
        else exists reason, base, d: nat ::
               d < maxDepth && Because(g, seeds, n.key, reason, d) && Strength(reason, base) && n.score == Faded(base, d))
  }

  /** Of any walks of the search, all of them or not: what is merged from them has a cause. */
  lemma MergedIsExplained(g: Graph, seeds: set<Key>, maxDepth: nat, walks: iset<Walk>, n: Node)
    requires g.WellFormed() && walks <= FullWalks(g, seeds, maxDepth) && NodeMerged(g, seeds, walks, n.key, n)
    ensures NodeExplained(g, seeds, maxDepth, n)
  {
    hide AtDistance, Distinct, Ball, Because, FullWalk, ReasonOf, ScoreOf, Strength, Faded;
    var k := n.key;
    forall reason | reason in n.reasons
      ensures reason in g.nodes[k].reasons || (reason == DirectChange && k in seeds) || Caused(g, seeds, maxDepth, k, reason)
    {
      if reason !in g.nodes[k].reasons && !(reason == DirectChange && k in seeds) {
        var w :| w in walks && IsStep(g, w) && w.Neighbor() == k && ReasonOf(g, w) == reason;
        WalkIsCause(g, seeds, maxDepth, w);
      }
    }
    if k !in seeds {
      var w :| w in walks && IsStep(g, w) && w.Neighbor() == k && ScoreOf(g, w) == n.score;
      WalkIsCause(g, seeds, maxDepth, w);
      var base := HasStrength(ReasonOf(g, w));
      assert Strength(ReasonOf(g, w), base) && Because(g, seeds, k, ReasonOf(g, w), w.depth - 1);
    }
  }

  /** A reported node gives a reason exactly if it had it before, is a direct node, or an edge makes it so. */
  lemma ReasonsExactly(g: Graph, seeds: set<Key>, maxDepth: nat, nodes: seq<Node>, edges: seq<Edge>, n: Node, reason: Reason)
    requires g.WellFormed() && IsImpact(g, seeds, maxDepth, nodes, edges) && n in nodes
    ensures n.key in g.nodes
    ensures reason in n.reasons <==>
              reason in g.nodes[n.key].reasons || (reason == DirectChange && n.key in seeds) ||
              Caused(g, seeds, maxDepth, n.key, reason)
  {
    hide AtDistance, SortedBy, Distinct, Ball, BestScore, CompleteEdges, Because, FullWalk, IsStep, ReasonOf;
    var k, walks := n.key, FullWalks(g, seeds, maxDepth);
    assert NodeMerged(g, seeds, walks, k, n);
    MergedIsExplained(g, seeds, maxDepth, walks, n);
    if Caused(g, seeds, maxDepth, k, reason) {
      var d :| 0 <= d < maxDepth && Because(g, seeds, k, reason, d);
      var w := CauseIsWalk(g, seeds, maxDepth, k, reason, d);
      FullIsStep(g, seeds, maxDepth, w);
    }
  }

  lemma FullIsStep(g: Graph, seeds: set<Key>, maxDepth: nat, w: Walk)
    requires FullWalk(g, seeds, maxDepth, w)
    ensures IsStep(g, w) && w in FullWalks(g, seeds, maxDepth)
  {
  }

  /** A node that is no direct one scores the best of its causes: none is stronger, and one is just as strong. */
  lemma ScoreExactly(g: Graph, seeds: set<Key>, maxDepth: nat, nodes: seq<Node>, edges: seq<Edge>, n: Node)
    requires g.WellFormed() && IsImpact(g, seeds, maxDepth, nodes, edges) && n in nodes
    ensures n.key in g.nodes
    ensures n.key in seeds ==> n.score == 1.0 && n.depth == 0
    ensures n.key !in seeds ==>
              && (forall reason, base, d: nat :: d < maxDepth && Because(g, seeds, n.key, reason, d) && Strength(reason, base) ==>
                    Faded(base, d) <= n.score)
              && (exists reason, base, d: nat :: d < maxDepth && Because(g, seeds, n.key, reason, d) && Strength(reason, base) &&
                    n.score == Faded(base, d))
  {
    hide SortedBy, Distinct, ReasonsMerged, CompleteEdges, Because, FullWalk, IsStep, ReasonOf, ScoreOf, Strength, Faded, AtDistance, Ball;
    var k, walks := n.key, FullWalks(g, seeds, maxDepth);
    assert NodeMerged(g, seeds, walks, k, n);
    MergedIsExplained(g, seeds, maxDepth, walks, n);
    if k in seeds {
      assert AtDistance(g, seeds, k, n.depth);
      SeedAtZero(g, seeds, k, n.depth);
    } else {
      forall reason, base, d: nat | d < maxDepth && Because(g, seeds, k, reason, d) && Strength(reason, base)
        ensures Faded(base, d) <= n.score
      {
        var w := CauseIsWalk(g, seeds, maxDepth, k, reason, d);
        FullIsStep(g, seeds, maxDepth, w);
        WalkIsCause(g, seeds, maxDepth, w);
      }
    }
  }

  lemma HasStrength(reason: Reason) returns (base: real)
    ensures Strength(reason, base)
  {
    base := match reason case ExistingTest => 0.92 case Caller => 0.88 case InterfaceImplementation => 0.84
            case Callee => 0.78 case TypeUsage => 0.74 case DirectChange => 1.0;
  }

  lemma SeedAtZero(g: Graph, seeds: set<Key>, k: Key, d: nat)
    requires k in seeds && AtDistance(g, seeds, k, d)
    ensures d == 0
  {
    if d > 0 {
      BallGrows(g, seeds, 0, d - 1);
    }
  }

  /** A caller of an impacted function: the function lies d steps from the change, the caller is no test. */
  lemma CallersAreImpacted(g: Graph, seeds: set<Key>, maxDepth: nat, nodes: seq<Node>, edges: seq<Edge>, call: RawEdge, d: nat)
    requires g.WellFormed() && IsImpact(g, seeds, maxDepth, nodes, edges)
    requires call.relation == Calls && call in g.Out(call.from) && call.from in g.nodes && d < maxDepth
    requires AtDistance(g, seeds, call.to, d) && !g.nodes[call.from].existingTest
    ensures exists n :: n in nodes && n.key == call.from && Caller in n.reasons && n.depth <= d + 1 &&
                        (call.from !in seeds ==> n.score >= Faded(0.88, d))
  {
    hide AtDistance, CompleteEdges, FullWalks, SortedBy, NodeMerged, Ball, Graph.Out, Graph.In, Faded;
    assert Reaches(g, seeds, call.from, Calls, d);
    var n := ReportedNear(g, seeds, maxDepth, nodes, edges, call.from, Caller, d);
    assert Because(g, seeds, call.from, Caller, d) && Strength(Caller, 0.88);
  }

  /** A function an impacted one calls. */
  lemma CalleesAreImpacted(g: Graph, seeds: set<Key>, maxDepth: nat, nodes: seq<Node>, edges: seq<Edge>, call: RawEdge, d: nat)
    requires g.WellFormed() && IsImpact(g, seeds, maxDepth, nodes, edges)
    requires call.relation == Calls && call in g.In(call.to) && call.to in g.nodes && d < maxDepth
    requires AtDistance(g, seeds, call.from, d) && !g.nodes[call.to].existingTest
    ensures exists n :: n in nodes && n.key == call.to && Callee in n.reasons && n.depth <= d + 1 &&
                        (call.to !in seeds ==> n.score >= Faded(0.78, d))
  {
    hide AtDistance, CompleteEdges, FullWalks, SortedBy, NodeMerged, Ball, Graph.Out, Graph.In, Faded;
    assert Reached(g, seeds, call.to, Calls, d);
    var n := ReportedNear(g, seeds, maxDepth, nodes, edges, call.to, Callee, d);
    assert Because(g, seeds, call.to, Callee, d) && Strength(Callee, 0.78);
  }

  /** A node with a cause is reported, gives the reason, and scores at least as the cause does. */
  lemma ReportedNear(g: Graph, seeds: set<Key>, maxDepth: nat, nodes: seq<Node>, edges: seq<Edge>, k: Key, reason: Reason, d: nat)
    returns (n: Node)
    requires g.WellFormed() && IsImpact(g, seeds, maxDepth, nodes, edges)
    requires k in g.nodes && d < maxDepth && Because(g, seeds, k, reason, d)
    ensures n in nodes && n.key == k && reason in n.reasons && n.depth <= d + 1
    ensures k !in seeds ==> forall base :: Strength(reason, base) ==> Faded(base, d) <= n.score
  {
    hide SortedBy, NodeMerged, Because, Graph.Out, Graph.In, Faded, Strength, CompleteEdges, AtDistance, Ball;
    var w := CauseIsWalk(g, seeds, maxDepth, k, reason, d);
    NeighborInBall(g, seeds, w, d);
    BallGrows(g, seeds, d + 1, maxDepth);
    n :| n in nodes && n.key == k;
    DistanceBound(g, seeds, k, n.depth, d + 1);
    ReasonsExactly(g, seeds, maxDepth, nodes, edges, n, reason);
    ScoreExactly(g, seeds, maxDepth, nodes, edges, n);
  }

  lemma NeighborInBall(g: Graph, seeds: set<Key>, w: Walk, d: nat)
    requires IsStep(g, w) && AtDistance(g, seeds, w.source, d)
    ensures w.Neighbor() in Ball(g, seeds, d + 1)
  {
    assert Touches(g, w.source, w.Neighbor());
  }

  // ---- edges ----

  /** The end of the edge it was reached from. */
  function NearEnd(e: Edge, fromNear: bool): Key {
    if fromNear then e.fromKey else e.toKey
  }

  /** The edge is one of the graph's, and its reason, depth and score are those of the end it was reached from. */
  ghost predicate Lawful(g: Graph, seeds: set<Key>, maxDepth: nat, e: Edge, fromNear: bool) {
    && e.fromKey in g.nodes && e.toKey in g.nodes && 1 <= e.depth <= maxDepth
    && RawEdge(e.fromKey, e.toKey, e.relation) in g.Out(e.fromKey)
    && AtDistance(g, seeds, NearEnd(e, fromNear), e.depth - 1)
    && (e.relation == Implements ==> e.reason == InterfaceImplementation)
    && (e.relation == UsesType ==> e.reason == TypeUsage)
    && (e.relation == Calls && fromNear ==> e.reason == if g.nodes[e.toKey].existingTest then ExistingTest else Callee)
    && (e.relation == Calls && !fromNear ==> e.reason == if g.nodes[e.fromKey].existingTest then ExistingTest else Caller)
    && (forall base :: Strength(e.reason, base) ==> e.score == Faded(base, e.depth - 1))
  }

  ghost predicate EdgeExplained(g: Graph, seeds: set<Key>, maxDepth: nat, e: Edge) {
    Lawful(g, seeds, maxDepth, e, true) || Lawful(g, seeds, maxDepth, e, false)
  }

  lemma WalkIsLawful(g: Graph, seeds: set<Key>, maxDepth: nat, w: Walk)
    requires g.WellFormed() && FullWalk(g, seeds, maxDepth, w) && seeds <= g.nodes.Keys
    ensures w.Neighbor() in g.nodes && w.depth >= 1
    ensures Lawful(g, seeds, maxDepth, EdgeOf(g, w), !w.incoming)
  {
    hide Graph.Out, Graph.In, AtDistance;
    NearIsKnown(g, seeds, w.source, w.depth - 1);
  }

  lemma {:induction false} BallIsKnown(g: Graph, seeds: set<Key>, d: nat)
    requires seeds <= g.nodes.Keys
    ensures Ball(g, seeds, d) <= g.nodes.Keys
  {
    if d > 0 {
      BallIsKnown(g, seeds, d - 1);
    }
  }

  lemma NearIsKnown(g: Graph, seeds: set<Key>, k: Key, d: nat)
    requires seeds <= g.nodes.Keys && AtDistance(g, seeds, k, d)
    ensures k in g.nodes
  {
    hide Ball;
    BallIsKnown(g, seeds, d);
  }

  /** Of any walks of the search: what they record has a cause. */
  lemma RecordedIsExplained(g: Graph, seeds: set<Key>, maxDepth: nat, walks: iset<Walk>, e: Edge)
    requires g.WellFormed() && seeds <= g.nodes.Keys && walks <= FullWalks(g, seeds, maxDepth) && EdgeMerged(g, walks, e)
    ensures EdgeExplained(g, seeds, maxDepth, e)
  {
    hide Lawful, FullWalk, EdgeOf, EdgeKeyOf;
    var w :| w in walks && IsStep(g, w) && EdgeOf(g, w) == e;
    WalkIsLawful(g, seeds, maxDepth, w);
  }

  /** A complete selection reports, for each lawful edge, one at least as deep with the same ends and reason. */
  lemma LawfulIsReported(g: Graph, seeds: set<Key>, maxDepth: nat, nodes: seq<Node>, edges: seq<Edge>, e: Edge, fromNear: bool)
    requires g.WellFormed() && IsImpact(g, seeds, maxDepth, nodes, edges) && Lawful(g, seeds, maxDepth, e, fromNear)
    ensures exists f :: f in edges && f.fromKey == e.fromKey && f.toKey == e.toKey && f.reason == e.reason && f.depth >= e.depth
  {
    hide AtDistance, Graph.Out, Graph.In, CompleteNodes, SortedBy, Distinct, Strength, Faded, EdgeMerged;
    var walks := FullWalks(g, seeds, maxDepth);
    var w := Walk(RawEdge(e.fromKey, e.toKey, e.relation), NearEnd(e, fromNear), !fromNear, e.depth);
    assert FullWalk(g, seeds, maxDepth, w);
    FullIsStep(g, seeds, maxDepth, w);
    assert ReasonOf(g, w) == e.reason;
    var f :| f in edges && EdgeKey(f.fromKey, f.toKey, f.reason) == EdgeKeyOf(g, w);
    DeepestRecorded(g, walks, f, w);
  }

  lemma DeepestRecorded(g: Graph, walks: iset<Walk>, f: Edge, w: Walk)
    requires EdgeMerged(g, walks, f) && w in walks && IsStep(g, w)
    requires EdgeKeyOf(g, w) == EdgeKey(f.fromKey, f.toKey, f.reason)
    ensures w.depth <= f.depth
  {
  }

  // ---- the whole report ----

  /** Whatever the cap has cut off: all that is reported has a cause in the graph. */
  ghost predicate Explained(g: Graph, seeds: set<Key>, maxDepth: nat, nodes: seq<Node>, edges: seq<Edge>) {
    && (forall n :: n in nodes ==> NodeExplained(g, seeds, maxDepth, n))
    && (forall e :: e in edges ==> EdgeExplained(g, seeds, maxDepth, e))
  }

  /** Direct nodes first, better scores first, then by key; edges by depth, ends and code; reason codes in order. */
  ghost predicate Presented(nodes: seq<Node>, edges: seq<Edge>) {
    && (forall i, j :: 0 <= i < j < |nodes| && !nodes[i].directChange ==> !nodes[j].directChange)
    && (forall i, j :: 0 <= i < j < |nodes| && nodes[i].directChange == nodes[j].directChange ==>
          nodes[i].score > nodes[j].score || (nodes[i].score == nodes[j].score && StringLe(nodes[i].key, nodes[j].key)))
    && (forall i, j :: 0 <= i < j < |edges| ==> EdgesInOrder(edges[i], edges[j]))
    && (forall n :: n in nodes ==>
          forall i, j :: 0 <= i < j < |n.reasons| ==> StringLe(Code(n.reasons[i]), Code(n.reasons[j])))
  }

  predicate EdgesInOrder(e: Edge, f: Edge) {
    && e.depth <= f.depth
    && (e.depth == f.depth ==> StringLe(e.fromKey, f.fromKey))
    && (e.depth == f.depth && e.fromKey == f.fromKey ==> StringLe(e.toKey, f.toKey))
    && (e.depth == f.depth && e.fromKey == f.fromKey && e.toKey == f.toKey ==> StringLe(Code(e.reason), Code(f.reason)))
  }

  function Code(reason: Reason): string {
    match reason
    case Callee => "CALLEE"
    case Caller => "CALLER"
    case DirectChange => "DIRECT_CHANGE"
    case ExistingTest => "EXISTING_TEST"
    case InterfaceImplementation => "INTERFACE_IMPLEMENTATION"
    case TypeUsage => "TYPE_USAGE"
  }

  /** Reasons are ordered as their codes are. */
  lemma CodesInOrder(a: Reason, b: Reason)
    ensures ReasonLe(a, b) <==> StringLe(Code(a), Code(b))
  {
    hide StringLe;
    if a == b {
      StringLeTotal(Code(a), Code(a));
    } else if (a == Callee && b == Caller) || (a == Caller && b == Callee) {
      assert Code(a)[..5] == "CALLE" == Code(b)[..5];
      StringLeDecided(Code(a), Code(b), 5);
    } else {
      assert Code(a)[..0] == Code(b)[..0];
      StringLeDecided(Code(a), Code(b), 0);
    }
  }

  lemma OrderedIsPresented(nodes: seq<Node>, edges: seq<Edge>)
    requires SortedBy(NodeLe, nodes) && SortedBy(EdgeLe, edges) && forall n :: n in nodes ==> SortedBy(ReasonLe, n.reasons)
    ensures Presented(nodes, edges)
  {
    hide StringLe, Code, ReasonLe;
    assert forall a, b :: ReasonLe(a, b) ==> StringLe(Code(a), Code(b)) by {
      forall a, b ensures ReasonLe(a, b) ==> StringLe(Code(a), Code(b)) { CodesInOrder(a, b); }
    }
    assert forall a :: StringLe(a, a) by { StringLeOrder(); }
  }
}
