/** The capped breadth-first search that selects the impacted nodes. */
module ImpactSearch {
  import opened ImpactGraph

  /** The zero value a Go map lookup yields for an unknown key. */
  function Missing(k: Key): Node {
    Node("", "", "", "", "", "", "", 0, 0, false, false, 0, 0.0, [])
  }

  datatype QueueItem = QueueItem(key: Key, depth: nat)

  /** The state of a search: what the program keeps, plus the finished nodes and the walks made so far. */
  datatype State = State(g: Graph, seeds: set<Key>, maxDepth: nat, maxNodes: nat,
                         sel: map<Key, Node>, vis: map<Key, nat>, q: seq<QueueItem>, edges: map<EdgeKey, Edge>,
                         done: set<Key>, walks: iset<Walk>)
  {
    /** Selected and visited nodes coincide; every depth is exact; the cap holds. */
    ghost predicate DepthsExact() {
      && vis.Keys == sel.Keys && sel.Keys <= g.nodes.Keys && seeds <= sel.Keys
      && |sel| <= maxNodes
      && forall k :: k in vis ==> vis[k] <= maxDepth && sel[k].depth == vis[k] && AtDistance(g, seeds, k, vis[k])
    }

    /** The queue is monotone and spans at most two layers; what left it is no deeper than the layer. */
    ghost predicate Frontier(pending: set<Key>, layer: nat) {
      && (forall i :: 0 <= i < |q| ==> q[i].key in vis && vis[q[i].key] == q[i].depth && layer <= q[i].depth <= layer + 1)
      && (forall i, j :: 0 <= i < j < |q| ==> q[i].depth <= q[j].depth)
      && done <= vis.Keys && (forall k :: k in done ==> vis[k] <= layer)
      && (forall k :: k in vis ==> k in done || k in pending || exists i :: 0 <= i < |q| && q[i].key == k)
    }

    ghost predicate WalkedFrom(k: Key, depth: nat) {
      forall w :: IsStep(g, w) && w.source == k && w.depth == depth ==> w in walks
    }

    /** As long as the cap is not reached no walk of a finished node was skipped. */
    ghost predicate Saturated() {
      |sel| < maxNodes ==> forall k :: k in done && k in vis && vis[k] < maxDepth ==> WalkedFrom(k, vis[k] + 1)
    }

    /** Every walk made starts at an expanded node and ends in a selected one. */
    ghost predicate WalksSound(from: set<Key>, bound: nat) {
      forall w :: w in walks ==>
        && IsStep(g, w) && w.source in from && w.source in vis && w.depth == vis[w.source] + 1
        && w.depth <= maxDepth && w.depth <= bound && w.Neighbor() in sel
    }

    ghost predicate NodesMerged() {
      forall k :: k in sel ==> NodeMerged(g, seeds, walks, k, sel[k])
    }

    ghost predicate EdgesMerged() {
      && (forall w :: w in walks && IsStep(g, w) ==> EdgeKeyOf(g, w) in edges)
      && (forall x :: x in edges ==>
            && x == EdgeKey(edges[x].fromKey, edges[x].toKey, edges[x].reason)
            && EdgeMerged(g, walks, edges[x]))
    }

    /** Holds between two rounds of the main loop. */
    ghost predicate Valid(layer: nat) {
      && g.WellFormed() && maxDepth >= 1
      && DepthsExact() && Frontier({}, layer) && Saturated() && WalksSound(done, layer + 1)
      && NodesMerged() && EdgesMerged()
    }

    /** Holds while the edges of the node cur are walked. */
    ghost predicate Expanding(cur: QueueItem) {
      && g.WellFormed() && maxDepth >= 1
      && cur.key in vis && vis[cur.key] == cur.depth < maxDepth
      && DepthsExact() && Frontier({cur.key}, cur.depth) && Saturated()
      && WalksSound(done + {cur.key}, cur.depth + 1)
      && NodesMerged() && EdgesMerged()
    }

    /** Nodes still to discover plus nodes still to expand. */
    ghost function Remaining(): nat { |g.nodes.Keys - sel.Keys| + |q| }

    /** What a walk that is not skipped leaves behind. */
    ghost predicate ExtendedBy(w: Walk, after: State) {
      && after.walks == walks + iset{w} && sel.Keys <= after.sel.Keys && |sel| <= |after.sel|
      && after.Remaining() <= Remaining() && after.done == done
    }

    /** The next walk of cur. */
    ghost predicate NextWalk(cur: QueueItem, w: Walk) {
      IsStep(g, w) && w.source == cur.key && w.depth == cur.depth + 1
    }

    /** The node a walk selects when it is the first to reach it. */
    ghost function FirstNode(w: Walk): Node
      requires IsStep(g, w)
    {
      var n := g.nodes[w.Neighbor()];
      n.(depth := w.depth, score := ScoreOf(g, w), reasons := AddReason(n.reasons, ReasonOf(g, w)))
    }

    /** The node after another walk has reached it. */
    ghost function AgainNode(w: Walk): Node
      requires IsStep(g, w) && w.Neighbor() in sel
    {
      var n := sel[w.Neighbor()];
      n.(reasons := AddReason(n.reasons, ReasonOf(g, w)),
         score := if ScoreOf(g, w) > n.score then ScoreOf(g, w) else n.score)
    }

    /** The state after a walk that discovers its neighbour. */
    ghost function Discover(w: Walk): State
      requires IsStep(g, w)
    {
      this.(sel := sel[w.Neighbor() := FirstNode(w)], vis := vis[w.Neighbor() := w.depth],
            q := q + [QueueItem(w.Neighbor(), w.depth)],
            edges := edges[EdgeKeyOf(g, w) := EdgeOf(g, w)], walks := walks + iset{w})
    }

    /** The state after a walk that reaches a selected node once more. */
    ghost function Reach(w: Walk): State
      requires IsStep(g, w) && w.Neighbor() in sel
    {
      this.(sel := sel[w.Neighbor() := AgainNode(w)],
            edges := edges[EdgeKeyOf(g, w) := EdgeOf(g, w)], walks := walks + iset{w})
    }
  }

  // ---- why depths are exact ----

  /** A visited set that is closed under steps from its layers below j contains the ball of radius j. */
  lemma {:induction false} ClosedCovers(g: Graph, seeds: set<Key>, vis: map<Key, nat>, j: nat)
    requires seeds <= vis.Keys
    requires forall k :: k in vis ==> AtDistance(g, seeds, k, vis[k])
    requires forall c, n :: c in vis && vis[c] < j && Touches(g, c, n) ==> n in vis
    ensures Ball(g, seeds, j) <= vis.Keys
  {
    if j > 0 {
      ClosedCovers(g, seeds, vis, j - 1);
      forall n | n in Ball(g, seeds, j) && n !in Ball(g, seeds, j - 1) ensures n in vis {
        var c :| c in Ball(g, seeds, j - 1) && Touches(g, c, n);
        DistanceBound(g, seeds, c, vis[c], j - 1);
      }
    }
  }

  lemma TouchIsWalked(st: State, c: Key, n: Key, depth: nat)
    requires Touches(st.g, c, n) && st.WalkedFrom(c, depth) && depth >= 1
    ensures exists w :: w in st.walks && IsStep(st.g, w) && w.source == c && w.Neighbor() == n
  {
    if e :| e in st.g.Out(c) && e.to == n {
      var w := Walk(e, c, false, depth);
      assert IsStep(st.g, w) && w in st.walks && w.Neighbor() == n;
    } else {
      var e :| e in st.g.In(c) && e.from == n;
      var w := Walk(e, c, true, depth);
      assert IsStep(st.g, w) && w in st.walks && w.Neighbor() == n;
    }
  }

  /** Below the cap, everything no farther than j is visited once the layers below j are finished. */
  lemma LayerCovered(st: State, from: set<Key>, bound: nat, j: nat)
    requires st.DepthsExact() && st.Saturated() && st.WalksSound(from, bound)
    requires forall k :: k in st.vis && st.vis[k] < j ==> k in st.done
    requires |st.sel| < st.maxNodes && j <= st.maxDepth
    ensures Ball(st.g, st.seeds, j) <= st.vis.Keys
  {
    forall c, n | c in st.vis && st.vis[c] < j && Touches(st.g, c, n) ensures n in st.vis {
      TouchIsWalked(st, c, n, st.vis[c] + 1);
    }
    ClosedCovers(st.g, st.seeds, st.vis, j);
  }

  /** A step from distance d leads to distance at most d + 1, so a visited neighbour is never relaxed. */
  lemma StepDistance(g: Graph, seeds: set<Key>, w: Walk, d: nat)
    requires IsStep(g, w) && AtDistance(g, seeds, w.source, d)
    ensures w.Neighbor() in Ball(g, seeds, d + 1)
  {
    assert Touches(g, w.source, w.Neighbor());
  }

  // ---- how one walk updates what is merged ----

  lemma MergeOther(g: Graph, seeds: set<Key>, walks: iset<Walk>, w: Walk, k: Key, n: Node)
    requires NodeMerged(g, seeds, walks, k, n) && w.Neighbor() != k
    ensures NodeMerged(g, seeds, walks + iset{w}, k, n)
  {
    var more := walks + iset{w};
    forall r ensures r in n.reasons <==>
        || r in g.nodes[k].reasons || (k in seeds && r == DirectChange)
        || (exists x :: x in more && IsStep(g, x) && x.Neighbor() == k && ReasonOf(g, x) == r)
    {
      if x :| x in walks && IsStep(g, x) && x.Neighbor() == k && ReasonOf(g, x) == r {
        assert x in more;
      }
    }
    if k !in seeds {
      var x :| x in walks && IsStep(g, x) && x.Neighbor() == k && ScoreOf(g, x) == n.score;
      assert x in more;
    }
  }

  /** A second walk to a selected node adds its reason and raises the score to the maximum. */
  lemma MergeAgain(g: Graph, seeds: set<Key>, walks: iset<Walk>, w: Walk, n: Node)
    requires IsStep(g, w) && NodeMerged(g, seeds, walks, w.Neighbor(), n)
    ensures NodeMerged(g, seeds, walks + iset{w}, w.Neighbor(),
                       n.(reasons := AddReason(n.reasons, ReasonOf(g, w)),
                       score := if ScoreOf(g, w) > n.score then ScoreOf(g, w) else n.score))
  {
    var more, k := walks + iset{w}, w.Neighbor();
    var reasons := AddReason(n.reasons, ReasonOf(g, w));
    forall r ensures r in reasons <==>
        || r in g.nodes[k].reasons || (k in seeds && r == DirectChange)
        || (exists x :: x in more && IsStep(g, x) && x.Neighbor() == k && ReasonOf(g, x) == r)
    {
      if x :| x in walks && IsStep(g, x) && x.Neighbor() == k && ReasonOf(g, x) == r {
        assert x in more;
      }
      if r == ReasonOf(g, w) {
        assert w in more;
      }
    }
    if k !in seeds {
      var x :| x in walks && IsStep(g, x) && x.Neighbor() == k && ScoreOf(g, x) == n.score;
      assert x in more && w in more;
    }
  }

  /** Recording an edge: walks come in order of depth, so the last write is the deepest. */
  lemma RecordEdge(st: State, w: Walk)
    requires IsStep(st.g, w) && st.EdgesMerged()
    requires forall x :: x in st.walks ==> IsStep(st.g, x) && x.depth <= w.depth
    ensures st.(edges := st.edges[EdgeKeyOf(st.g, w) := EdgeOf(st.g, w)], walks := st.walks + iset{w}).EdgesMerged()
  {
    var more, after := st.walks + iset{w}, st.edges[EdgeKeyOf(st.g, w) := EdgeOf(st.g, w)];
    assert w in more;
    forall x | x in after ensures EdgeMerged(st.g, more, after[x]) {
      if x != EdgeKeyOf(st.g, w) {
        var y :| y in st.walks && IsStep(st.g, y) && EdgeOf(st.g, y) == st.edges[x];
        assert y in more;
      }
    }
  }

  // ---- both kinds of walk keep the invariant ----

  lemma DiscoveredIsExact(st: State, cur: QueueItem, w: Walk)
    requires cur.key in st.vis && st.vis[cur.key] == cur.depth < st.maxDepth
    requires st.DepthsExact() && st.Frontier({cur.key}, cur.depth) && st.Saturated()
    requires st.WalksSound(st.done + {cur.key}, cur.depth + 1)
    requires st.NextWalk(cur, w) && w.Neighbor() !in st.vis && |st.sel| < st.maxNodes
    ensures AtDistance(st.g, st.seeds, w.Neighbor(), w.depth)
  {
    hide Ball;
    assert Ball(st.g, st.seeds, cur.depth) <= st.vis.Keys by {
      hide AtDistance;
      hide IsStep;
      LayerCovered(st, st.done + {cur.key}, cur.depth + 1, cur.depth);
    }
    hide State.Frontier, State.Saturated, State.WalksSound;
    StepDistance(st.g, st.seeds, w, cur.depth);
  }

  lemma DiscoverFrontier(st: State, cur: QueueItem, w: Walk)
    requires st.Frontier({cur.key}, cur.depth) && st.NextWalk(cur, w) && w.Neighbor() !in st.vis
    ensures st.Discover(w).Frontier({cur.key}, cur.depth)
  {
    var after, n := st.Discover(w), w.Neighbor();
    assert after.q[|st.q|].key == n;
    forall k | k in after.vis && k !in st.done && k != cur.key
      ensures exists i :: 0 <= i < |after.q| && after.q[i].key == k
    {
      if k != n {
        var i :| 0 <= i < |st.q| && st.q[i].key == k;
        assert after.q[i].key == k;
      }
    }
  }

  lemma OneFewer(all: set<Key>, some: set<Key>, k: Key)
    requires k in all && k !in some
    ensures |all - (some + {k})| == |all - some| - 1
  {
    assert all - (some + {k}) == (all - some) - {k};
  }

  lemma StepEnds(g: Graph, w: Walk)
    requires IsStep(g, w)
    ensures w.Neighbor() in g.nodes && w.depth >= 1
  {
  }

  lemma DiscoverSize(st: State, w: Walk)
    requires IsStep(st.g, w) && w.Neighbor() !in st.sel
    ensures st.Discover(w).sel.Keys == st.sel.Keys + {w.Neighbor()} && |st.Discover(w).sel| == |st.sel| + 1
  {
    var after := st.Discover(w);
    assert after.sel.Keys == st.sel.Keys + {w.Neighbor()};
    assert |after.sel.Keys| == |st.sel.Keys| + 1;
  }

  lemma DiscoverDepths(st: State, w: Walk)
    requires st.DepthsExact() && IsStep(st.g, w) && w.Neighbor() in st.g.nodes
    requires w.Neighbor() !in st.sel && |st.sel| < st.maxNodes
    requires AtDistance(st.g, st.seeds, w.Neighbor(), w.depth) && w.depth <= st.maxDepth
    ensures st.Discover(w).DepthsExact()
  {
    hide AtDistance, IsStep, ScoreOf, ReasonOf;
    DiscoverSize(st, w);
    var after := st.Discover(w);
    assert after.vis.Keys == st.vis.Keys + {w.Neighbor()};
    forall k | k in after.vis
      ensures after.vis[k] <= st.maxDepth && after.sel[k].depth == after.vis[k] && AtDistance(st.g, st.seeds, k, after.vis[k])
    {
      if k != w.Neighbor() {
        assert k in st.vis;
      }
    }
  }

  lemma DiscoverSaturated(st: State, w: Walk)
    requires st.Saturated() && IsStep(st.g, w) && w.Neighbor() !in st.sel
    requires st.done <= st.vis.Keys && st.vis.Keys == st.sel.Keys
    ensures st.Discover(w).Saturated()
  {
    DiscoverSize(st, w);
    hide IsStep, ScoreOf, ReasonOf;
    var after := st.Discover(w);
    forall k | k in st.done && k in after.vis && after.vis[k] < st.maxDepth && |after.sel| < st.maxNodes
      ensures after.WalkedFrom(k, after.vis[k] + 1)
    {
      assert st.WalkedFrom(k, st.vis[k] + 1);
    }
  }

  lemma DiscoverSound(st: State, cur: QueueItem, w: Walk)
    requires st.WalksSound(st.done + {cur.key}, cur.depth + 1)
    requires st.NextWalk(cur, w) && w.Neighbor() !in st.sel && st.vis.Keys == st.sel.Keys
    requires cur.key in st.vis && st.vis[cur.key] == cur.depth < st.maxDepth
    ensures st.Discover(w).WalksSound(st.done + {cur.key}, cur.depth + 1)
  {
    hide IsStep, ScoreOf, ReasonOf;
    DiscoverSize(st, w);
  }

  lemma DiscoverNodes(st: State, from: set<Key>, bound: nat, w: Walk)
    requires st.g.WellFormed() && st.NodesMerged() && st.WalksSound(from, bound) && IsStep(st.g, w)
    requires w.Neighbor() !in st.sel && st.seeds <= st.sel.Keys
    ensures st.Discover(w).NodesMerged()
  {
    assert NodeMerged(st.g, st.seeds, st.walks + iset{w}, w.Neighbor(), st.FirstNode(w)) by {
      hide State.NodesMerged;
    }
    hide State.WalksSound, Graph.WellFormed;
    forall k | k in st.sel ensures NodeMerged(st.g, st.seeds, st.walks + iset{w}, k, st.sel[k]) {
      MergeOther(st.g, st.seeds, st.walks, w, k, st.sel[k]);
    }
    hide NodeMerged;
  }

  lemma DiscoverEdges(st: State, from: set<Key>, w: Walk)
    requires IsStep(st.g, w) && st.EdgesMerged() && st.WalksSound(from, w.depth)
    ensures st.Discover(w).EdgesMerged()
  {
    RecordEdge(st, w);
    hide State.WalksSound, EdgeMerged;
  }

  lemma ReachEdges(st: State, from: set<Key>, w: Walk)
    requires IsStep(st.g, w) && st.EdgesMerged() && st.WalksSound(from, w.depth) && w.Neighbor() in st.sel
    ensures st.Reach(w).EdgesMerged()
  {
    RecordEdge(st, w);
    hide State.WalksSound, EdgeMerged;
  }

  lemma ReachNodes(st: State, w: Walk)
    requires st.NodesMerged() && IsStep(st.g, w) && w.Neighbor() in st.sel
    ensures st.Reach(w).NodesMerged()
  {
    MergeAgain(st.g, st.seeds, st.walks, w, st.sel[w.Neighbor()]);
    forall k | k in st.sel && k != w.Neighbor() ensures NodeMerged(st.g, st.seeds, st.walks + iset{w}, k, st.sel[k]) {
      MergeOther(st.g, st.seeds, st.walks, w, k, st.sel[k]);
    }
    hide NodeMerged;
  }

  lemma ReachSize(st: State, w: Walk)
    requires IsStep(st.g, w) && w.Neighbor() in st.sel
    ensures st.Reach(w).sel.Keys == st.sel.Keys && |st.Reach(w).sel| == |st.sel|
  {
    var after := st.Reach(w);
    assert after.sel.Keys == st.sel.Keys;
    assert |after.sel.Keys| == |st.sel.Keys|;
  }

  lemma ReachDepths(st: State, w: Walk)
    requires st.DepthsExact() && IsStep(st.g, w) && w.Neighbor() in st.sel
    ensures st.Reach(w).DepthsExact()
  {
    hide AtDistance, IsStep, ScoreOf, ReasonOf;
    ReachSize(st, w);
  }

  lemma ReachFrontier(st: State, cur: QueueItem, w: Walk)
    requires st.Frontier({cur.key}, cur.depth) && IsStep(st.g, w) && w.Neighbor() in st.sel
    ensures st.Reach(w).Frontier({cur.key}, cur.depth)
  {
    hide IsStep, ScoreOf, ReasonOf;
  }

  lemma ReachSaturated(st: State, w: Walk)
    requires st.Saturated() && IsStep(st.g, w) && w.Neighbor() in st.sel
    ensures st.Reach(w).Saturated()
  {
    ReachSize(st, w);
    hide IsStep, ScoreOf, ReasonOf;
    var after := st.Reach(w);
    forall k | |st.sel| < st.maxNodes && k in st.done && k in st.vis && st.vis[k] < st.maxDepth
      ensures after.WalkedFrom(k, st.vis[k] + 1)
    {
      assert st.WalkedFrom(k, st.vis[k] + 1);
    }
  }

  lemma ReachSound(st: State, cur: QueueItem, w: Walk)
    requires st.WalksSound(st.done + {cur.key}, cur.depth + 1)
    requires st.NextWalk(cur, w) && w.Neighbor() in st.sel
    requires cur.key in st.vis && st.vis[cur.key] == cur.depth < st.maxDepth
    ensures st.Reach(w).WalksSound(st.done + {cur.key}, cur.depth + 1)
  {
    hide IsStep, ScoreOf, ReasonOf;
    ReachSize(st, w);
  }

  lemma KeysAgree(st: State, cur: QueueItem)
    requires st.DepthsExact() && st.Frontier({cur.key}, cur.depth)
    ensures st.vis.Keys == st.sel.Keys && st.seeds <= st.sel.Keys && st.done <= st.vis.Keys
  {
    hide AtDistance;
  }

  /** Discovering a node keeps the invariant: its depth is exact although the search may be capped later. */
  lemma DiscoverKeeps(st: State, cur: QueueItem, w: Walk)
    requires st.Expanding(cur) && st.NextWalk(cur, w)
    requires w.Neighbor() !in st.vis && |st.sel| < st.maxNodes
    ensures st.Discover(w).Expanding(cur) && st.ExtendedBy(w, st.Discover(w))
  {
    hide State.DepthsExact, State.Frontier, State.Saturated, State.WalksSound, State.NodesMerged, State.EdgesMerged;
    hide Graph.WellFormed, IsStep, AtDistance, ScoreOf, ReasonOf, State.FirstNode, EdgeOf, EdgeKeyOf;
    KeysAgree(st, cur);
    assert w.Neighbor() in st.g.nodes by { StepEnds(st.g, w); }
    DiscoveredIsExact(st, cur, w);
    DiscoverFrontier(st, cur, w);
    DiscoverSize(st, w);
    OneFewer(st.g.nodes.Keys, st.sel.Keys, w.Neighbor());
    DiscoverDepths(st, w);
    DiscoverSaturated(st, w);
    DiscoverSound(st, cur, w);
    DiscoverNodes(st, st.done + {cur.key}, cur.depth + 1, w);
    DiscoverEdges(st, st.done + {cur.key}, w);
  }

  /** Reaching a selected node again keeps the invariant. */
  lemma ReachKeeps(st: State, cur: QueueItem, w: Walk)
    requires st.Expanding(cur) && st.NextWalk(cur, w) && w.Neighbor() in st.sel
    ensures st.Reach(w).Expanding(cur) && st.ExtendedBy(w, st.Reach(w))
  {
    hide State.DepthsExact, State.Frontier, State.Saturated, State.WalksSound, State.NodesMerged, State.EdgesMerged;
    hide Graph.WellFormed, IsStep, ScoreOf, ReasonOf, State.AgainNode, EdgeOf, EdgeKeyOf;
    ReachSize(st, w);
    ReachDepths(st, w);
    ReachFrontier(st, cur, w);
    ReachSaturated(st, w);
    ReachSound(st, cur, w);
    ReachNodes(st, w);
    ReachEdges(st, st.done + {cur.key}, w);
  }

  /** What the direct phase hands to the search: merged nodes of depth 0, all of them queued. */
  ghost predicate Started(g: Graph, maxDepth: nat, maxNodes: nat, sel: map<Key, Node>, q: seq<QueueItem>) {
    && g.WellFormed() && maxDepth >= 1
    && |sel| <= maxNodes && sel.Keys <= g.nodes.Keys
    && (forall k :: k in sel ==> sel[k].depth == 0 && NodeMerged(g, sel.Keys, iset{}, k, sel[k]))
    && (forall i :: 0 <= i < |q| ==> q[i].depth == 0 && q[i].key in sel)
    && (forall k :: k in sel ==> exists i :: 0 <= i < |q| && q[i].key == k)
  }

  lemma StartedIsValid(g: Graph, maxDepth: nat, maxNodes: nat, sel: map<Key, Node>, q: seq<QueueItem>, vis: map<Key, nat>)
    requires Started(g, maxDepth, maxNodes, sel, q)
    requires forall k :: k in vis <==> exists j :: 0 <= j < |q| && q[j].key == k
    requires forall k :: k in vis ==> vis[k] == 0
    ensures State(g, sel.Keys, maxDepth, maxNodes, sel, vis, q, map[], {}, iset{}).Valid(0)
  {
    hide NodeMerged, EdgeMerged, Graph.WellFormed;
    forall k ensures k in sel <==> k in vis {
    }
  }

  // ---- the program ----

  /** The locals of selectImpact that its inner function walk shares and updates. */
  class Search {
    const g: Graph
    const maxDepth: nat
    const maxNodes: nat
    ghost const seeds: set<Key>
    var selected: map<Key, Node>
    var visitedDepth: map<Key, nat>
    var queue: seq<QueueItem>
    var edges: map<EdgeKey, Edge>
    ghost var done: set<Key>
    ghost var walks: iset<Walk>

    constructor (g: Graph, maxDepth: nat, maxNodes: nat, selected: map<Key, Node>, queue: seq<QueueItem>)
      requires Started(g, maxDepth, maxNodes, selected, queue)
      ensures St().Valid(0) && this.g == g && this.maxDepth == maxDepth && this.maxNodes == maxNodes
      ensures seeds == selected.Keys
    {
      hide Started, State.Valid;
      var visited: map<Key, nat> := map[];
      var i := 0;
      while i < |queue|
        invariant 0 <= i <= |queue|
        invariant forall k :: k in visited <==> exists j :: 0 <= j < i && queue[j].key == k
        invariant forall k :: k in visited ==> visited[k] == 0
      {
        visited := visited[queue[i].key := 0];
        i := i + 1;
      }
      StartedIsValid(g, maxDepth, maxNodes, selected, queue, visited);
      this.g, this.maxDepth, this.maxNodes := g, maxDepth, maxNodes;
      this.seeds := selected.Keys;
      this.selected, this.visitedDepth, this.queue, this.edges := selected, visited, queue, map[];
      this.done, this.walks := {}, iset{};
    }

    ghost function St(): State
      reads this
    {
      State(g, seeds, maxDepth, maxNodes, selected, visitedDepth, queue, edges, done, walks)
    }

    /** One edge of the current node: discover the neighbour, or merge into it, and record the edge. */
    method WalkEdge(current: QueueItem, raw: RawEdge, neighbor: Key, incoming: bool)
      requires St().Expanding(current)
      requires if incoming then raw in g.In(current.key) && neighbor == raw.from
               else raw in g.Out(current.key) && neighbor == raw.to
      modifies this`selected, this`visitedDepth, this`queue, this`edges, this`walks
      ensures St().Expanding(current)
      ensures old(walks) <= walks && |old(selected)| <= |selected|
      ensures var w := Walk(raw, current.key, incoming, current.depth + 1);
              IsStep(g, w) && |selected| < maxNodes ==> w in walks
      ensures St().Remaining() <= old(St().Remaining())
    {
      hide State.Expanding, Graph.WellFormed, Graph.Out, Graph.In, ImpactScore, ReasonForEdge, ReasonOf, ScoreOf, IsStep;
      hide AddReason, EdgeOf, EdgeKeyOf, State.Remaining;
      ghost var st, w := St(), Walk(raw, current.key, incoming, current.depth + 1);
      assert w.Neighbor() == neighbor;
      EndsSelected(st, current, w);
      WalkFacts(g, w);
      var reason := ReasonForEdge(raw, if neighbor in g.nodes then g.nodes[neighbor] else Missing(neighbor), incoming);
      var depth := current.depth + 1;
      var score := ImpactScore(reason, depth);
      if neighbor !in visitedDepth || depth < visitedDepth[neighbor] {
        if neighbor !in selected && |selected| >= maxNodes {
          return;
        }
        if neighbor !in g.nodes {
          return;
        }
        DiscoverKeeps(st, current, w);
        Select(w, neighbor, reason, depth, score);
      } else if neighbor in selected {
        ReachKeeps(st, current, w);
        Merge(w, neighbor, reason, score);
      }
      if raw.from in selected && raw.to in selected {
        var key := EdgeKey(raw.from, raw.to, reason);
        edges := edges[key := Edge(raw.from, raw.to, raw.relation, reason, depth, score)];
      }
      walks := walks + iset{w};
      assert St() == if neighbor in st.sel then st.Reach(w) else st.Discover(w);
    }

    /** First arm of walk: the neighbour is new. */
    method Select(ghost w: Walk, neighbor: Key, reason: Reason, depth: nat, score: real)
      requires IsStep(g, w) && neighbor == w.Neighbor() && neighbor in g.nodes && depth == w.depth
      requires reason == ReasonOf(g, w) && score == ScoreOf(g, w)
      modifies this`selected, this`visitedDepth, this`queue
      ensures selected == old(St()).Discover(w).sel && visitedDepth == old(St()).Discover(w).vis
      ensures queue == old(St()).Discover(w).q
    {
      hide IsStep, ReasonOf, ScoreOf, AddReason, EdgeOf, EdgeKeyOf;
      var node := g.nodes[neighbor];
      node := node.(depth := depth, score := score);
      node := node.(reasons := AddReason(node.reasons, reason));
      selected := selected[neighbor := node];
      visitedDepth := visitedDepth[neighbor := depth];
      queue := queue + [QueueItem(neighbor, depth)];
    }

    /** Second arm of walk: the neighbour is selected already. */
    method Merge(ghost w: Walk, neighbor: Key, reason: Reason, score: real)
      requires IsStep(g, w) && neighbor == w.Neighbor() && neighbor in selected
      requires reason == ReasonOf(g, w) && score == ScoreOf(g, w)
      modifies this`selected
      ensures selected == old(St()).Reach(w).sel
    {
      hide IsStep, ReasonOf, ScoreOf, AddReason, EdgeOf, EdgeKeyOf;
      var node := selected[neighbor];
      node := node.(reasons := AddReason(node.reasons, reason));
      if score > node.score {
        node := node.(score := score);
      }
      selected := selected[neighbor := node];
    }

    /** Expands a dequeued node: its outgoing edges, then its incoming ones. */
    method Expand(current: QueueItem)
      requires St().Expanding(current)
      modifies this`selected, this`visitedDepth, this`queue, this`edges, this`walks, this`done
      ensures St().Valid(current.depth)
      ensures St().Remaining() <= old(St().Remaining())
    {
      hide State.Expanding, State.Valid, State.Remaining, Graph.WellFormed;
      var out, inc := g.Out(current.key), g.In(current.key);
      var i := 0;
      while i < |out|
        invariant 0 <= i <= |out| && St().Expanding(current) && St().Remaining() <= old(St().Remaining())
        invariant done == old(done)
        invariant |selected| < maxNodes ==> forall j :: 0 <= j < i ==>
            var w := Walk(out[j], current.key, false, current.depth + 1); IsStep(g, w) ==> w in walks
      {
        WalkEdge(current, out[i], out[i].to, false);
        i := i + 1;
      }
      i := 0;
      while i < |inc|
        invariant 0 <= i <= |inc| && St().Expanding(current) && St().Remaining() <= old(St().Remaining())
        invariant done == old(done)
        invariant |selected| < maxNodes ==> forall j :: 0 <= j < |out| ==>
            var w := Walk(out[j], current.key, false, current.depth + 1); IsStep(g, w) ==> w in walks
        invariant |selected| < maxNodes ==> forall j :: 0 <= j < i ==>
            var w := Walk(inc[j], current.key, true, current.depth + 1); IsStep(g, w) ==> w in walks
      {
        WalkEdge(current, inc[i], inc[i].from, true);
        i := i + 1;
      }
      assert |selected| < maxNodes ==> St().WalkedFrom(current.key, current.depth + 1) by {
        forall w | |selected| < maxNodes && IsStep(g, w) && w.source == current.key && w.depth == current.depth + 1
          ensures w in walks
        {
          var list := if w.incoming then inc else out;
          var j :| 0 <= j < |list| && list[j] == w.raw;
        }
      }
      FinishKeeps(St(), current);
      done := done + {current.key};
    }

    /** The main loop: breadth first, never beyond maxDepth. */
    method Run() returns (ghost layer: nat)
      requires St().Valid(0)
      modifies this
      ensures St().Valid(layer) && queue == []
    {
      hide State.Expanding, State.Valid;
      layer := 0;
      while queue != []
        invariant St().Valid(layer)
        decreases St().Remaining()
      {
        var current := queue[0];
        DequeueKeeps(St(), layer);
        queue := queue[1..];
        if current.depth >= maxDepth {
          done := done + {current.key};
          layer := current.depth;
        } else {
          Expand(current);
          layer := current.depth;
        }
      }
    }
  }

  /** Both ends of a walked edge are the current node and its neighbour; a visited neighbour is never relaxed. */
  lemma EndsSelected(st: State, cur: QueueItem, w: Walk)
    requires st.Expanding(cur) && w.source == cur.key && w.depth == cur.depth + 1
    requires if w.incoming then w.raw in st.g.In(cur.key) else w.raw in st.g.Out(cur.key)
    ensures IsStep(st.g, w) <==> w.Neighbor() in st.g.nodes
    ensures {w.raw.from, w.raw.to} == {cur.key, w.Neighbor()}
    ensures cur.key in st.sel && st.vis.Keys == st.sel.Keys && st.sel.Keys <= st.g.nodes.Keys
    ensures w.Neighbor() in st.vis ==> st.vis[w.Neighbor()] <= w.depth
  {
    hide State.Frontier, State.Saturated, State.WalksSound, State.NodesMerged, State.EdgesMerged, Ball;
    if w.Neighbor() in st.vis {
      StepDistance(st.g, st.seeds, w, cur.depth);
      DistanceBound(st.g, st.seeds, w.Neighbor(), st.vis[w.Neighbor()], w.depth);
    }
  }

  lemma WalkFacts(g: Graph, w: Walk)
    requires w.Neighbor() in g.nodes ==> IsStep(g, w)
    ensures w.Neighbor() in g.nodes ==>
              && ReasonOf(g, w) == ReasonForEdge(w.raw, g.nodes[w.Neighbor()], w.incoming)
              && w.depth >= 1 && ScoreOf(g, w) == ImpactScore(ReasonOf(g, w), w.depth)
              && EdgeOf(g, w) == Edge(w.raw.from, w.raw.to, w.raw.relation, ReasonOf(g, w), w.depth, ScoreOf(g, w))
              && EdgeKeyOf(g, w) == EdgeKey(w.raw.from, w.raw.to, ReasonOf(g, w))
  {
  }

  lemma FinishSaturated(st: State, cur: QueueItem)
    requires st.Saturated() && cur.key in st.vis && st.vis[cur.key] == cur.depth
    requires |st.sel| < st.maxNodes && cur.depth < st.maxDepth ==> st.WalkedFrom(cur.key, cur.depth + 1)
    ensures st.(done := st.done + {cur.key}).Saturated()
  {
    hide IsStep;
    var after := st.(done := st.done + {cur.key});
    forall k | |st.sel| < st.maxNodes && k in after.done && k in st.vis && st.vis[k] < st.maxDepth
      ensures after.WalkedFrom(k, st.vis[k] + 1)
    {
      assert st.WalkedFrom(k, st.vis[k] + 1);
    }
  }

  lemma FinishRest(st: State, cur: QueueItem, from: set<Key>, bound: nat)
    requires st.DepthsExact() && st.NodesMerged() && st.EdgesMerged() && st.WalksSound(from, bound)
    requires from <= st.done + {cur.key} && bound <= cur.depth + 1
    ensures var after := st.(done := st.done + {cur.key});
            && after.DepthsExact() && after.NodesMerged() && after.EdgesMerged()
            && after.WalksSound(after.done, cur.depth + 1)
  {
    hide AtDistance, NodeMerged, EdgeMerged, IsStep;
  }

  lemma FinishFrontier(st: State, cur: QueueItem)
    requires st.Frontier({cur.key}, cur.depth) && cur.key in st.vis && st.vis[cur.key] == cur.depth
    ensures st.(done := st.done + {cur.key}).Frontier({}, cur.depth)
  {
  }

  lemma FinishKeeps(st: State, cur: QueueItem)
    requires st.Expanding(cur)
    requires |st.sel| < st.maxNodes ==> st.WalkedFrom(cur.key, cur.depth + 1)
    ensures var after := st.(done := st.done + {cur.key});
            after.Valid(cur.depth) && after.Remaining() == st.Remaining()
  {
    hide State.DepthsExact, State.Saturated, State.WalksSound, State.NodesMerged, State.EdgesMerged;
    FinishSaturated(st, cur);
    FinishRest(st, cur, st.done + {cur.key}, cur.depth + 1);
  }

  lemma DequeueFrontier(st: State, layer: nat)
    requires st.Frontier({}, layer) && st.q != []
    ensures var cur, after := st.q[0], st.(q := st.q[1..]);
            && cur.key in st.vis && st.vis[cur.key] == cur.depth && layer <= cur.depth
            && after.Frontier({cur.key}, cur.depth)
  {
    var cur, rest := st.q[0], st.q[1..];
    forall i | 0 <= i < |rest|
      ensures rest[i].key in st.vis && st.vis[rest[i].key] == rest[i].depth && cur.depth <= rest[i].depth <= cur.depth + 1
    {
      assert rest[i] == st.q[i + 1];
    }
    forall k | k in st.vis && k !in st.done && k != cur.key ensures exists i :: 0 <= i < |rest| && rest[i].key == k {
      var i :| 0 <= i < |st.q| && st.q[i].key == k;
      assert rest[i - 1] == st.q[i];
    }
  }

  lemma DequeueRest(st: State)
    requires st.DepthsExact() && st.Saturated() && st.NodesMerged() && st.EdgesMerged() && st.q != []
    ensures var after := st.(q := st.q[1..]);
            after.DepthsExact() && after.Saturated() && after.NodesMerged() && after.EdgesMerged()
  {
    hide AtDistance, NodeMerged, EdgeMerged, IsStep;
  }

  lemma DequeueSound(st: State, bound: nat, k: Key, more: nat)
    requires st.WalksSound(st.done, bound) && st.q != [] && bound <= more
    ensures st.(q := st.q[1..]).WalksSound(st.done + {k}, more)
  {
    hide IsStep;
  }

  /** Taking the head of the queue either starts an expansion or finishes a node at the depth limit. */
  lemma DequeueKeeps(st: State, layer: nat)
    requires st.Valid(layer) && st.q != []
    ensures var cur, after := st.q[0], st.(q := st.q[1..]);
            if cur.depth < st.maxDepth then after.Expanding(cur)
            else after.(done := st.done + {cur.key}).Valid(cur.depth)
  {
    hide State.DepthsExact, State.Frontier, State.Saturated, State.WalksSound, State.NodesMerged, State.EdgesMerged;
    var cur, after := st.q[0], st.(q := st.q[1..]);
    DequeueFrontier(st, layer);
    DequeueRest(st);
    DequeueSound(st, layer + 1, cur.key, cur.depth + 1);
    if cur.depth >= st.maxDepth {
      FinishFrontier(after, cur);
      FinishSaturated(after, cur);
      FinishRest(after, cur, st.done + {cur.key}, cur.depth + 1);
    }
  }
}
