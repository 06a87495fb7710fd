/** selectImpact as a whole: direct matches, search, and the sorted result; its result is unique. */
module ImpactEngine {
  import opened Sorting
  import opened ImpactGraph
  import opened ImpactReasons
  import opened ImpactSearch

  // ---- direct matches ----

  /** The symbol a node stands for; an empty receiver on either side matches any receiver. */
  predicate Matches(node: Node, direct: DirectSymbol) {
    && node.symbolName == direct.symbol.name && node.packageName == direct.symbol.packageName
    && (node.receiverName == "" || direct.symbol.receiver == "" || node.receiverName == direct.symbol.receiver)
    && (direct.filePath == "" || node.filePath == direct.filePath)
  }

  function MatchSet(nodes: map<Key, Node>, direct: DirectSymbol): set<Key> {
    set k | k in nodes && Matches(nodes[k], direct)
  }

  /** Collects the matching keys of a map and sorts them. */
  method MatchingNodes(nodes: map<Key, Node>, direct: DirectSymbol) returns (result: seq<Key>)
    ensures SortedBy(StringLe, result) && Distinct(result)
    ensures forall k :: k in result <==> k in MatchSet(nodes, direct)
  {
    var found: seq<Key> := [];
    var todo := nodes.Keys;
    while todo != {}
      invariant todo <= nodes.Keys && Distinct(found)
      invariant forall k :: k in found <==> k in nodes && k !in todo && Matches(nodes[k], direct)
    {
      var k :| k in todo;
      var node := nodes[k];
      todo := todo - {k};
      if node.symbolName != direct.symbol.name || node.packageName != direct.symbol.packageName ||
         (node.receiverName != "" && direct.symbol.receiver != "" && node.receiverName != direct.symbol.receiver) {
        continue;
      }
      if direct.filePath != "" && node.filePath != direct.filePath {
        continue;
      }
      found := found + [k];
    }
    StringLeOrder();
    SortSorts(StringLe, found);
    result := Sort(StringLe, found);
    SortKeepsDistinct(StringLe, found);
  }

  /** The node that stands for a changed symbol the graph does not know. */
  function DirectNode(direct: DirectSymbol): Node {
    var s := direct.symbol;
    Node("direct|" + direct.filePath + "|" + s.receiver + "|" + s.name, "", s.packageName, s.name, s.receiver,
         s.kind, direct.filePath, s.startLine, s.endLine, true, false, 0, 1.0, [DirectChange])
  }

  method MakeDirectNode(direct: DirectSymbol) returns (node: Node)
    ensures node == DirectNode(direct)
  {
    var symbol := direct.symbol;
    var key := "direct|" + direct.filePath + "|" + symbol.receiver + "|" + symbol.name;
    node := Node(key, "", symbol.packageName, symbol.name, symbol.receiver, symbol.kind, direct.filePath,
                 symbol.startLine, symbol.endLine, true, false, 0, 1.0, [DirectChange]);
  }

  predicate DirectLe(a: DirectSymbol, b: DirectSymbol) {
    if a.filePath != b.filePath then StringLe(a.filePath, b.filePath) else StringLe(a.symbol.name, b.symbol.name)
  }

  /** Direct symbols are taken by file and then by name. */
  lemma DirectInOrder(direct: seq<DirectSymbol>)
    ensures var s := Sort(DirectLe, direct);
            && multiset(s) == multiset(direct)
            && forall i, j :: 0 <= i < j < |s| ==>
                 && StringLe(s[i].filePath, s[j].filePath)
                 && (s[i].filePath == s[j].filePath ==> StringLe(s[i].symbol.name, s[j].symbol.name))
  {
    hide Sort, StringLe;
    StringLeOrder();
    assert Total(DirectLe) && Transitive(DirectLe);
    SortSorts(DirectLe, direct);
  }

  function WithDirect(nodes: map<Key, Node>, direct: DirectSymbol): map<Key, Node> {
    if MatchSet(nodes, direct) == {} then NodeAdded(nodes, DirectNode(direct)) else nodes
  }

  function SeedsOf(nodes: map<Key, Node>, direct: DirectSymbol): set<Key> {
    if MatchSet(nodes, direct) == {} then {DirectNode(direct).key} else MatchSet(nodes, direct)
  }

  /** Nodes after all direct symbols are represented, and the keys that represent them. */
  function Represented(nodes: map<Key, Node>, direct: seq<DirectSymbol>): (r: (map<Key, Node>, set<Key>))
    ensures nodes.Keys <= r.0.Keys && r.1 <= r.0.Keys
    decreases |direct|
  {
    if direct == [] then (nodes, {})
    else
      var rest := Represented(WithDirect(nodes, direct[0]), direct[1..]);
      (rest.0, SeedsOf(nodes, direct[0]) + rest.1)
  }

  /** A direct node never overwrites what the graph knows. */
  lemma {:induction false} RepresentedKeeps(nodes: map<Key, Node>, direct: seq<DirectSymbol>)
    ensures forall k :: k in nodes ==> k in Represented(nodes, direct).0 && Represented(nodes, direct).0[k] == nodes[k]
    decreases |direct|
  {
    if direct != [] {
      RepresentedKeeps(WithDirect(nodes, direct[0]), direct[1..]);
    }
  }

  /** Every direct symbol is represented by its matches or, without any, by its own node. */
  lemma {:induction false} RepresentsEvery(nodes: map<Key, Node>, direct: seq<DirectSymbol>, i: nat)
    requires i < |direct|
    ensures exists k :: k in Represented(nodes, direct).1 &&
                        (k == DirectNode(direct[i]).key || Matches(Represented(nodes, direct).0[k], direct[i]))
    decreases |direct|
  {
    var r := Represented(nodes, direct);
    if i == 0 {
      RepresentedKeeps(WithDirect(nodes, direct[0]), direct[1..]);
      var k :| k in SeedsOf(nodes, direct[0]);
      assert k in r.1;
    } else {
      RepresentsEvery(WithDirect(nodes, direct[0]), direct[1..], i - 1);
    }
  }

  /** A selected direct node: depth 0, score 1 and the reason DIRECT_CHANGE. */
  function DirectSelected(n: Node): Node {
    n.(directChange := true, depth := 0, score := 1.0, reasons := AddReason(n.reasons, DirectChange))
  }

  lemma DirectMerged(g: Graph, seeds: set<Key>, k: Key)
    requires g.WellFormed() && k in g.nodes && k in seeds
    ensures NodeMerged(g, seeds, iset{}, k, DirectSelected(g.nodes[k]))
  {
  }

  /** What the direct phase has selected, all of it queued. */
  ghost predicate DirectPart(nodes: map<Key, Node>, maxNodes: nat, selected: map<Key, Node>, queue: seq<QueueItem>) {
    && (forall k :: k in selected ==> k in nodes && selected[k] == DirectSelected(nodes[k]))
    && |selected| <= maxNodes
    && Queued(selected.Keys, queue)
  }

  /** The queue holds exactly the keys, all at depth zero. */
  ghost predicate Queued(keys: set<Key>, queue: seq<QueueItem>) {
    && (forall i :: 0 <= i < |queue| ==> queue[i].depth == 0 && queue[i].key in keys)
    && (forall k :: k in keys ==> exists i :: 0 <= i < |queue| && queue[i].key == k)
  }

  ghost function Elements(s: seq<Key>): set<Key> { set k | k in s }

  /** The first i matches have been added to the keys. */
  ghost predicate Taken(keys: set<Key>, keys0: set<Key>, matches: seq<Key>, i: nat) {
    i <= |matches| && keys == keys0 + Elements(matches[..i])
  }

  lemma TakenOne(selected: map<Key, Node>, node: Node, keys0: set<Key>, matches: seq<Key>, i: nat)
    requires Taken(selected.Keys, keys0, matches, i) && i < |matches|
    ensures Taken(selected[matches[i] := node].Keys, keys0, matches, i + 1)
  {
    assert matches[..i + 1] == matches[..i] + [matches[i]];
  }

  lemma TakenBounds(keys: set<Key>, keys0: set<Key>, matches: seq<Key>, i: nat)
    ensures Taken(keys0, keys0, matches, 0)
    ensures Taken(keys, keys0, matches, i) ==> keys0 <= keys <= keys0 + Elements(matches)
    ensures Taken(keys, keys0, matches, i) && i == |matches| ==> keys == keys0 + Elements(matches)
  {
    assert i == |matches| ==> matches[..i] == matches;
  }

  lemma SelectOne(nodes: map<Key, Node>, maxNodes: nat, selected: map<Key, Node>, queue: seq<QueueItem>, key: Key)
    requires DirectPart(nodes, maxNodes, selected, queue) && key in nodes && |selected| < maxNodes
    ensures DirectPart(nodes, maxNodes, selected[key := DirectSelected(nodes[key])], queue + [QueueItem(key, 0)])
  {
    hide DirectSelected, Queued;
    var sel := selected[key := DirectSelected(nodes[key])];
    Enqueued(selected.Keys, queue, key);
    OneMoreKey(selected, key, DirectSelected(nodes[key]));
    assert sel.Keys == selected.Keys + {key};
  }

  lemma OneMoreKey(selected: map<Key, Node>, key: Key, node: Node)
    ensures |selected[key := node]| <= |selected| + 1
  {
    assert selected[key := node].Keys == selected.Keys + {key};
  }

  lemma Enqueued(keys: set<Key>, queue: seq<QueueItem>, key: Key)
    requires Queued(keys, queue)
    ensures Queued(keys + {key}, queue + [QueueItem(key, 0)])
  {
    var q := queue + [QueueItem(key, 0)];
    assert q[|queue|].key == key;
    forall k | k in keys ensures exists i :: 0 <= i < |q| && q[i].key == k {
      var i :| 0 <= i < |queue| && queue[i].key == k;
      assert q[i].key == k;
    }
  }

  /** Adds the matches of one direct symbol until the cap is reached. */
  method SelectMatches(nodes: map<Key, Node>, matches: seq<Key>, maxNodes: nat,
                       selected0: map<Key, Node>, queue0: seq<QueueItem>)
    returns (selected: map<Key, Node>, queue: seq<QueueItem>)
    requires forall k :: k in matches ==> k in nodes
    requires DirectPart(nodes, maxNodes, selected0, queue0)
    ensures DirectPart(nodes, maxNodes, selected, queue)
    ensures selected0.Keys <= selected.Keys <= selected0.Keys + Elements(matches)
    ensures |selected| < maxNodes ==> selected.Keys == selected0.Keys + Elements(matches)
  {
    hide DirectPart, Elements, Taken;
    selected, queue := selected0, queue0;
    var i := 0;
    TakenBounds(selected.Keys, selected0.Keys, matches, 0);
    while i < |matches|
      invariant 0 <= i <= |matches|
      invariant DirectPart(nodes, maxNodes, selected, queue)
      invariant Taken(selected.Keys, selected0.Keys, matches, i)
    {
      if |selected| >= maxNodes {
        break;
      }
      var key := matches[i];
      var node := nodes[key];
      node := node.(directChange := true, depth := 0, score := 1.0);
      node := node.(reasons := AddReason(node.reasons, DirectChange));
      SelectOne(nodes, maxNodes, selected, queue, key);
      TakenOne(selected, node, selected0.Keys, matches, i);
      selected := selected[key := node];
      queue := queue + [QueueItem(key, 0)];
      i := i + 1;
    }
    TakenBounds(selected.Keys, selected0.Keys, matches, i);
  }

  lemma DirectPartMoves(before: map<Key, Node>, after: map<Key, Node>, maxNodes: nat,
                        selected: map<Key, Node>, queue: seq<QueueItem>)
    requires DirectPart(before, maxNodes, selected, queue)
    requires forall k :: k in before ==> k in after && after[k] == before[k]
    ensures DirectPart(after, maxNodes, selected, queue)
  {
    hide DirectSelected;
  }

  /** Progress of the direct phase: what is selected plus what the remaining symbols contribute. */
  ghost predicate Pending(start: map<Key, Node>, all: seq<DirectSymbol>, nodes: map<Key, Node>, rest: seq<DirectSymbol>,
                          keys: set<Key>, capped: bool)
  {
    && Represented(nodes, rest).0 == Represented(start, all).0
    && keys + Represented(nodes, rest).1 <= Represented(start, all).1
    && (!capped ==> keys + Represented(nodes, rest).1 == Represented(start, all).1)
  }

  lemma PendingStep(start: map<Key, Node>, all: seq<DirectSymbol>, nodes: map<Key, Node>, rest: seq<DirectSymbol>,
                    keys: set<Key>, capped: bool, keys': set<Key>, capped': bool)
    requires Pending(start, all, nodes, rest, keys, capped) && rest != []
    requires keys <= keys' <= keys + SeedsOf(nodes, rest[0])
    requires !capped' ==> !capped && keys' == keys + SeedsOf(nodes, rest[0])
    ensures Pending(start, all, WithDirect(nodes, rest[0]), rest[1..], keys', capped')
  {
    hide WithDirect, SeedsOf;
    assert Represented(nodes, rest) ==
           (Represented(WithDirect(nodes, rest[0]), rest[1..]).0,
            SeedsOf(nodes, rest[0]) + Represented(WithDirect(nodes, rest[0]), rest[1..]).1);
  }

  /** The direct phase: symbol by symbol, in file and name order. */
  method SelectDirect(graph: GraphData, direct: seq<DirectSymbol>, maxNodes: nat)
    returns (selected: map<Key, Node>, queue: seq<QueueItem>)
    requires graph.View().WellFormed()
    modifies graph`nodes
    ensures graph.View() == old(graph.View()).(nodes := Represented(old(graph.nodes), direct).0)
    ensures graph.View().WellFormed()
    ensures DirectPart(graph.nodes, maxNodes, selected, queue)
    ensures selected.Keys <= Represented(old(graph.nodes), direct).1
    ensures |selected| < maxNodes ==> selected.Keys == Represented(old(graph.nodes), direct).1
  {
    hide DirectPart, Pending, Represented, WithDirect, SeedsOf, DirectSelected, Graph.WellFormed;
    selected, queue := map[], [];
    DirectPartEmpty(graph.nodes, maxNodes);
    PendingEnds(graph.nodes, direct, graph.nodes, selected.Keys, |selected| >= maxNodes);
    var i := 0;
    assert direct[0..] == direct;
    while i < |direct|
      invariant 0 <= i <= |direct| && graph.View().WellFormed()
      invariant graph.View() == old(graph.View()).(nodes := graph.nodes)
      invariant DirectPart(graph.nodes, maxNodes, selected, queue)
      invariant Pending(old(graph.nodes), direct, graph.nodes, direct[i..], selected.Keys, |selected| >= maxNodes)
    {
      ghost var before := graph.nodes;
      var matches := MatchingNodes(graph.nodes, direct[i]);
      ghost var found := matches;
      if |matches| == 0 {
        var node := MakeDirectNode(direct[i]);
        graph.AddNode(node);
        matches := [node.key];
      }
      MatchesAreSeeds(before, direct[i], found);
      DirectPartMoves(before, graph.nodes, maxNodes, selected, queue);
      ghost var keys, capped := selected.Keys, |selected| >= maxNodes;
      selected, queue := SelectMatches(graph.nodes, matches, maxNodes, selected, queue);
      SubsetSize(keys, selected.Keys);
      PendingStep(old(graph.nodes), direct, before, direct[i..], keys, capped, selected.Keys, |selected| >= maxNodes);
      assert direct[i..][1..] == direct[i + 1..];
      i := i + 1;
    }
    assert direct[i..] == [];
    PendingEnds(old(graph.nodes), direct, graph.nodes, selected.Keys, |selected| >= maxNodes);
  }

  lemma DirectPartEmpty(nodes: map<Key, Node>, maxNodes: nat)
    ensures DirectPart(nodes, maxNodes, map[], [])
  {
  }

  lemma PendingEnds(start: map<Key, Node>, all: seq<DirectSymbol>, nodes: map<Key, Node>, keys: set<Key>, capped: bool)
    ensures Pending(start, all, nodes, [], keys, capped) ==>
              && nodes == Represented(start, all).0 && keys <= Represented(start, all).1
              && (!capped ==> keys == Represented(start, all).1)
    ensures keys == {} && nodes == start ==> Pending(start, all, start, all, keys, capped)
  {
  }

  lemma MatchesAreSeeds(nodes: map<Key, Node>, direct: DirectSymbol, found: seq<Key>)
    requires forall k :: k in found <==> k in MatchSet(nodes, direct)
    ensures found == [] ==> SeedsOf(nodes, direct) == {DirectNode(direct).key} &&
                            WithDirect(nodes, direct) == NodeAdded(nodes, DirectNode(direct))
    ensures found != [] ==> SeedsOf(nodes, direct) == Elements(found) && WithDirect(nodes, direct) == nodes
  {
    if found != [] {
      assert found[0] in MatchSet(nodes, direct);
    }
  }

  // ---- the result ----

  /** A selected node as it is reported: its reason codes in alphabetical order. */
  function Reported(n: Node): Node {
    n.(reasons := Sort(ReasonLe, n.reasons))
  }

  lemma Orders()
    ensures Total(NodeLe) && Transitive(NodeLe) && Total(EdgeLe) && Transitive(EdgeLe)
    ensures Total(ReasonLe) && Transitive(ReasonLe)
  {
    StringLeOrder();
    forall a, b, c | EdgeLe(a, b) && EdgeLe(b, c) ensures EdgeLe(a, c) {
    }
  }

  /** The values of a map, in whatever order it is walked. */
  method ValuesOf<K(==), V(==)>(m: map<K, V>) returns (values: seq<V>)
    requires forall i, j :: i in m && j in m && i != j ==> m[i] != m[j]
    ensures Distinct(values) && |values| == |m|
    ensures forall v :: v in values <==> exists k :: k in m && m[k] == v
  {
    values := [];
    var todo := m.Keys;
    while todo != {}
      invariant todo <= m.Keys && Distinct(values) && |values| + |todo| == |m|
      invariant forall v :: v in values <==> exists k :: k in m && k !in todo && m[k] == v
    {
      var k :| k in todo;
      assert m[k] !in values;
      DistinctAppend(values, m[k]);
      values := values + [m[k]];
      todo := todo - {k};
    }
  }

  lemma BallSelected(st: State, bound: nat)
    requires st.DepthsExact() && st.Saturated() && st.WalksSound(st.done, bound)
    requires st.done == st.vis.Keys && |st.sel| < st.maxNodes
    ensures st.sel.Keys == Ball(st.g, st.seeds, st.maxDepth)
  {
    hide Ball, IsStep, State.Saturated, State.WalksSound;
    LayerCovered(st, st.done, bound, st.maxDepth);
    forall k | k in st.vis ensures k in Ball(st.g, st.seeds, st.maxDepth) {
      BallGrows(st.g, st.seeds, st.vis[k], st.maxDepth);
    }
  }

  lemma FullWalkMade(st: State, w: Walk)
    requires st.DepthsExact() && st.Saturated()
    requires st.done == st.vis.Keys && |st.sel| < st.maxNodes
    requires st.sel.Keys == Ball(st.g, st.seeds, st.maxDepth)
    requires FullWalk(st.g, st.seeds, st.maxDepth, w)
    ensures w in st.walks
  {
    hide Ball, IsStep;
    StepEnds(st.g, w);
    BallGrows(st.g, st.seeds, w.depth - 1, st.maxDepth);
    DistanceBound(st.g, st.seeds, w.source, st.vis[w.source], w.depth - 1);
    DistanceBound(st.g, st.seeds, w.source, w.depth - 1, st.vis[w.source]);
    assert st.WalkedFrom(w.source, w.depth);
  }

  lemma MadeWalkFull(st: State, bound: nat, w: Walk)
    requires st.DepthsExact() && st.WalksSound(st.done, bound) && w in st.walks
    ensures FullWalk(st.g, st.seeds, st.maxDepth, w)
  {
    hide Ball, IsStep;
  }

  /** Below the cap the search has made every walk and selected the whole ball. */
  lemma SearchComplete(st: State, layer: nat)
    requires st.Valid(layer) && st.q == [] && |st.sel| < st.maxNodes
    ensures st.sel.Keys == Ball(st.g, st.seeds, st.maxDepth)
    ensures st.walks == FullWalks(st.g, st.seeds, st.maxDepth)
  {
    hide Ball, FullWalk, State.DepthsExact, State.Saturated, State.WalksSound, State.NodesMerged, State.EdgesMerged;
    BallSelected(st, layer + 1);
    forall w ensures w in st.walks <==> w in FullWalks(st.g, st.seeds, st.maxDepth) {
      if FullWalk(st.g, st.seeds, st.maxDepth, w) {
        FullWalkMade(st, w);
      }
      if w in st.walks {
        MadeWalkFull(st, layer + 1, w);
      }
    }
  }

  lemma ReportedMerged(g: Graph, seeds: set<Key>, walks: iset<Walk>, k: Key, n: Node)
    requires NodeMerged(g, seeds, walks, k, n)
    ensures NodeMerged(g, seeds, walks, k, Reported(n)) && SortedBy(ReasonLe, Reported(n).reasons)
  {
    hide Sort, Total, Transitive, BestScore, IsStep, SortedBy;
    Orders();
    SortSorts(ReasonLe, n.reasons);
    SortKeepsDistinct(ReasonLe, n.reasons);
  }

  /** The reported nodes: the selected ones, in the reported order. */
  ghost predicate ReportsNodes(sel: map<Key, Node>, nodes: seq<Node>) {
    && SortedBy(NodeLe, nodes) && Distinct(nodes) && |nodes| == |sel|
    && (forall n :: n in nodes <==> exists k :: k in sel && n == Reported(sel[k]))
  }

  ghost predicate ReportsEdges(recorded: map<EdgeKey, Edge>, edges: seq<Edge>) {
    && SortedBy(EdgeLe, edges) && Distinct(edges)
    && (forall e :: e in edges <==> exists x :: x in recorded && e == recorded[x])
  }

  /** Sorting the walked map gives the report. */
  method ReportNodes(sel: map<Key, Node>) returns (nodes: seq<Node>)
    requires forall k :: k in sel ==> sel[k].key == k
    ensures ReportsNodes(sel, nodes)
  {
    hide Sort, Total, Transitive, NodeLe;
    var finished := map k | k in sel :: Reported(sel[k]);
    assert finished.Keys == sel.Keys;
    assert |finished| == |sel| by { assert |finished.Keys| == |sel.Keys|; }
    var values := ValuesOf(finished);
    Orders();
    SortSorts(NodeLe, values);
    SortKeepsDistinct(NodeLe, values);
    nodes := Sort(NodeLe, values);
    forall n ensures n in nodes <==> exists k :: k in sel && n == Reported(sel[k]) {
      assert n in nodes <==> exists k :: k in finished && finished[k] == n;
    }
  }

  method ReportEdges(recorded: map<EdgeKey, Edge>) returns (edges: seq<Edge>)
    requires forall x :: x in recorded ==> x == EdgeKey(recorded[x].fromKey, recorded[x].toKey, recorded[x].reason)
    ensures ReportsEdges(recorded, edges)
  {
    hide Sort, Total, Transitive, EdgeLe;
    var values := ValuesOf(recorded);
    Orders();
    SortSorts(EdgeLe, values);
    SortKeepsDistinct(EdgeLe, values);
    edges := Sort(EdgeLe, values);
  }

  /** Depths are shortest-path distances and both limits hold, whether or not the cap was reached. */
  ghost predicate NodesWithin(g: Graph, seeds: set<Key>, maxDepth: nat, maxNodes: nat, nodes: seq<Node>) {
    && |nodes| <= maxNodes
    && (forall n :: n in nodes ==> n.key in g.nodes && n.depth <= maxDepth && Shortest(g, seeds, n.key, n.depth))
    && Covers(nodes, seeds)
  }

  /** Reported edges join reported nodes. */
  ghost predicate EdgesWithin(maxDepth: nat, nodes: seq<Node>, edges: seq<Edge>) {
    forall e :: e in edges ==>
      && 1 <= e.depth <= maxDepth
      && (exists a :: a in nodes && a.key == e.fromKey) && (exists b :: b in nodes && b.key == e.toKey)
  }

  lemma NodeLimited(st: State, k: Key)
    requires st.DepthsExact() && st.NodesMerged() && k in st.sel
    ensures st.sel[k].key == k || !st.g.WellFormed()
    ensures k in st.g.nodes && st.sel[k].depth <= st.maxDepth && Shortest(st.g, st.seeds, k, st.sel[k].depth)
    ensures st.seeds <= st.sel.Keys && |st.sel| <= st.maxNodes
  {
    hide AtDistance, Shortest, ReasonsMerged, BestScore;
    assert NodeMerged(st.g, st.seeds, st.walks, k, st.sel[k]);
    DistanceIsShortestPath(st.g, st.seeds, k, st.vis[k]);
  }

  lemma NodeFrom(sel: map<Key, Node>, nodes: seq<Node>, n: Node) returns (k: Key)
    requires ReportsNodes(sel, nodes) && n in nodes
    ensures k in sel && n == Reported(sel[k])
  {
    hide SortedBy, Distinct, Reported;
    k :| k in sel && n == Reported(sel[k]);
  }

  ghost predicate Covers(nodes: seq<Node>, keys: set<Key>) {
    forall k :: k in keys ==> exists n :: n in nodes && n.key == k
  }

  lemma NodesCover(sel: map<Key, Node>, nodes: seq<Node>)
    requires ReportsNodes(sel, nodes) && forall k :: k in sel ==> sel[k].key == k
    ensures Covers(nodes, sel.Keys)
  {
    hide SortedBy, Distinct, Sort;
    forall k | k in sel.Keys ensures exists n :: n in nodes && n.key == k {
      assert Reported(sel[k]) in nodes;
      assert Reported(sel[k]).key == k;
    }
  }

  lemma ReportedFields(n: Node)
    ensures Reported(n).key == n.key && Reported(n).depth == n.depth
  {
    hide Sort;
  }

  lemma ReportsLength(sel: map<Key, Node>, nodes: seq<Node>)
    requires ReportsNodes(sel, nodes)
    ensures |nodes| == |sel| && SortedBy(NodeLe, nodes)
  {
  }

  lemma NodesLimited(st: State, nodes: seq<Node>)
    requires st.g.WellFormed() && st.DepthsExact() && st.NodesMerged() && ReportsNodes(st.sel, nodes)
    ensures NodesWithin(st.g, st.seeds, st.maxDepth, st.maxNodes, nodes)
    ensures Covers(nodes, st.sel.Keys)
  {
    hide Shortest, State.DepthsExact, State.NodesMerged, Graph.WellFormed, ReportsNodes, Reported;
    SameKeys(st);
    SizeWithin(st);
    ReportsLength(st.sel, nodes);
    forall n | n in nodes
      ensures n.key in st.g.nodes && n.depth <= st.maxDepth && Shortest(st.g, st.seeds, n.key, n.depth)
    {
      var k := NodeFrom(st.sel, nodes, n);
      NodeLimited(st, k);
      ReportedFields(st.sel[k]);
    }
    forall k | k in st.sel ensures st.sel[k].key == k { NodeLimited(st, k); }
    NodesCover(st.sel, nodes);
  }

  lemma SizeWithin(st: State)
    requires st.DepthsExact()
    ensures |st.sel| <= st.maxNodes
  {
  }

  lemma EdgeEnds(st: State, bound: nat, x: EdgeKey)
    requires st.g.WellFormed() && st.EdgesMerged() && st.WalksSound(st.done, bound) && st.vis.Keys == st.sel.Keys
    requires x in st.edges
    ensures var e := st.edges[x]; 1 <= e.depth <= st.maxDepth && e.fromKey in st.sel && e.toKey in st.sel
  {
    var w :| w in st.walks && IsStep(st.g, w) && EdgeOf(st.g, w) == st.edges[x];
  }

  lemma EdgesLimited(st: State, bound: nat, nodes: seq<Node>, edges: seq<Edge>)
    requires st.g.WellFormed() && st.EdgesMerged() && st.WalksSound(st.done, bound) && st.vis.Keys == st.sel.Keys
    requires ReportsEdges(st.edges, edges)
    requires Covers(nodes, st.sel.Keys)
    ensures EdgesWithin(st.maxDepth, nodes, edges)
  {
    hide Graph.WellFormed, State.EdgesMerged, State.WalksSound, SortedBy, Distinct;
    forall e | e in edges
      ensures 1 <= e.depth <= st.maxDepth
      ensures (exists a :: a in nodes && a.key == e.fromKey) && (exists b :: b in nodes && b.key == e.toKey)
    {
      var x :| x in st.edges && e == st.edges[x];
      EdgeEnds(st, bound, x);
    }
  }

  lemma SameKeys(st: State)
    requires st.DepthsExact()
    ensures st.vis.Keys == st.sel.Keys && st.seeds <= st.sel.Keys
  {
  }

  lemma LimitsHold(st: State, layer: nat, nodes: seq<Node>, edges: seq<Edge>)
    requires st.Valid(layer) && st.q == []
    requires ReportsNodes(st.sel, nodes) && ReportsEdges(st.edges, edges)
    ensures NodesWithin(st.g, st.seeds, st.maxDepth, st.maxNodes, nodes) && EdgesWithin(st.maxDepth, nodes, edges)
  {
    hide State.DepthsExact, State.Frontier, State.Saturated, State.WalksSound, State.NodesMerged, State.EdgesMerged;
    hide Graph.WellFormed, ReportsNodes, ReportsEdges, NodesWithin, EdgesWithin;
    SameKeys(st);
    NodesLimited(st, nodes);
    EdgesLimited(st, layer + 1, nodes, edges);
  }

  lemma NodeReported(st: State, k: Key)
    requires st.g.WellFormed() && st.DepthsExact() && st.NodesMerged() && k in st.sel
    ensures var n := Reported(st.sel[k]);
            && n.key == k && NodeMerged(st.g, st.seeds, st.walks, k, n) && SortedBy(ReasonLe, n.reasons)
            && AtDistance(st.g, st.seeds, k, n.depth)
  {
    hide AtDistance, Sort, ReasonsMerged, BestScore, SortedBy;
    assert NodeMerged(st.g, st.seeds, st.walks, k, st.sel[k]);
    ReportedMerged(st.g, st.seeds, st.walks, k, st.sel[k]);
  }

  lemma KeysTellNodes(sel: map<Key, Node>, nodes: seq<Node>)
    requires ReportsNodes(sel, nodes) && forall k :: k in sel ==> Reported(sel[k]).key == k
    ensures forall i, j :: 0 <= i < j < |nodes| ==> nodes[i].key != nodes[j].key
    ensures forall n :: n in nodes ==> n.key in sel && n == Reported(sel[n.key])
  {
    hide SortedBy, Reported;
    forall n | n in nodes ensures n.key in sel && n == Reported(sel[n.key]) {
      var k :| k in sel && n == Reported(sel[k]);
    }
    forall i, j | 0 <= i < j < |nodes| ensures nodes[i].key != nodes[j].key {
      assert nodes[i] in nodes && nodes[j] in nodes;
    }
  }

  lemma NodesReported(st: State, nodes: seq<Node>)
    requires st.g.WellFormed() && st.DepthsExact() && st.NodesMerged() && ReportsNodes(st.sel, nodes)
    requires st.sel.Keys == Ball(st.g, st.seeds, st.maxDepth)
    ensures CompleteNodes(st.g, st.seeds, st.maxDepth, st.walks, nodes)
  {
    hide AtDistance, SortedBy, Ball, NodeMerged, Reported, ReportsNodes, State.DepthsExact, State.NodesMerged, Graph.WellFormed;
    ReportsLength(st.sel, nodes);
    forall k | k in st.sel ensures Reported(st.sel[k]).key == k { NodeReported(st, k); }
    KeysTellNodes(st.sel, nodes);
    forall k | k in st.sel ensures st.sel[k].key == k { ReportedFields(st.sel[k]); }
    NodesCover(st.sel, nodes);
    forall n | n in nodes
      ensures n.key in st.sel && NodeMerged(st.g, st.seeds, st.walks, n.key, n) && SortedBy(ReasonLe, n.reasons) &&
              AtDistance(st.g, st.seeds, n.key, n.depth)
    {
      NodeReported(st, n.key);
    }
  }

  lemma EdgesReported(st: State, edges: seq<Edge>)
    requires st.EdgesMerged() && ReportsEdges(st.edges, edges)
    ensures CompleteEdges(st.g, st.walks, edges)
  {
    hide EdgeMerged, EdgeLe, SortedBy, Distinct, ReasonOf;
    forall w | w in st.walks && IsStep(st.g, w)
      ensures exists e :: e in edges && EdgeKey(e.fromKey, e.toKey, e.reason) == EdgeKeyOf(st.g, w)
    {
      assert st.edges[EdgeKeyOf(st.g, w)] in edges;
    }
  }

  /** Below the cap the report is the complete selection. */
  lemma ReportIsImpact(st: State, layer: nat, nodes: seq<Node>, edges: seq<Edge>)
    requires st.Valid(layer) && st.q == [] && |st.sel| < st.maxNodes
    requires ReportsNodes(st.sel, nodes) && ReportsEdges(st.edges, edges)
    ensures IsImpact(st.g, st.seeds, st.maxDepth, nodes, edges)
  {
    hide State.DepthsExact, State.Frontier, State.Saturated, State.WalksSound, State.NodesMerged, State.EdgesMerged;
    hide Graph.WellFormed, ReportsNodes, ReportsEdges, CompleteNodes, CompleteEdges, FullWalks, Ball;
    SearchComplete(st, layer);
    NodesReported(st, nodes);
    EdgesReported(st, edges);
  }

  lemma DirectStarts(g: Graph, maxDepth: nat, maxNodes: nat, sel: map<Key, Node>, q: seq<QueueItem>)
    requires g.WellFormed() && maxDepth >= 1 && DirectPart(g.nodes, maxNodes, sel, q)
    ensures Started(g, maxDepth, maxNodes, sel, q)
  {
    hide NodeMerged, Graph.WellFormed;
    forall k | k in sel ensures NodeMerged(g, sel.Keys, iset{}, k, sel[k]) {
      DirectMerged(g, sel.Keys, k);
    }
  }

  lemma KeysOfSelected(st: State, layer: nat)
    requires st.Valid(layer)
    ensures forall k :: k in st.sel ==> st.sel[k].key == k
    ensures forall x :: x in st.edges ==> x == EdgeKey(st.edges[x].fromKey, st.edges[x].toKey, st.edges[x].reason)
  {
    hide State.DepthsExact, State.Frontier, State.Saturated, State.WalksSound, ReasonsMerged, BestScore, EdgeMerged;
    forall k | k in st.sel ensures st.sel[k].key == k {
      assert NodeMerged(st.g, st.seeds, st.walks, k, st.sel[k]);
    }
  }

  lemma WalksAreFull(st: State, layer: nat)
    requires st.Valid(layer) && st.q == []
    ensures st.walks <= FullWalks(st.g, st.seeds, st.maxDepth)
    ensures st.seeds <= st.g.nodes.Keys
  {
    hide FullWalk, State.Frontier, State.Saturated, State.WalksSound, State.NodesMerged, State.EdgesMerged;
    forall w | w in st.walks ensures w in FullWalks(st.g, st.seeds, st.maxDepth) {
      MadeWalkFull(st, layer + 1, w);
    }
  }

  /** Whatever the cap has cut off, everything in the report has a cause in the graph, and its place in the order. */
  lemma ReportIsExplained(st: State, layer: nat, nodes: seq<Node>, edges: seq<Edge>)
    requires st.Valid(layer) && st.q == []
    requires ReportsNodes(st.sel, nodes) && ReportsEdges(st.edges, edges)
    ensures Explained(st.g, st.seeds, st.maxDepth, nodes, edges) && Presented(nodes, edges)
  {
    hide State.Frontier, State.Saturated, State.WalksSound, State.NodesMerged, State.EdgesMerged, AtDistance, FullWalks;
    hide Graph.WellFormed, ReportsNodes, NodeMerged, EdgeMerged, SortedBy, Distinct, NodeExplained, EdgeExplained, Presented;
    hide NodeLe, EdgeLe, ReasonLe;
    WalksAreFull(st, layer);
    ReportsLength(st.sel, nodes);
    forall n | n in nodes ensures NodeExplained(st.g, st.seeds, st.maxDepth, n) && SortedBy(ReasonLe, n.reasons) {
      var k := NodeFrom(st.sel, nodes, n);
      NodeReported(st, k);
      MergedIsExplained(st.g, st.seeds, st.maxDepth, st.walks, n);
    }
    forall e | e in edges ensures EdgeExplained(st.g, st.seeds, st.maxDepth, e) {
      var x :| x in st.edges && e == st.edges[x];
      OneEdgeMerged(st, x);
      RecordedIsExplained(st.g, st.seeds, st.maxDepth, st.walks, e);
    }
    OrderedIsPresented(nodes, edges);
  }

  lemma OneEdgeMerged(st: State, x: EdgeKey)
    requires st.EdgesMerged() && x in st.edges
    ensures EdgeMerged(st.g, st.walks, st.edges[x])
  {
    hide EdgeMerged;
  }

  /**
   * Selects the nodes a change can affect. Whatever the adjacency lists and the node cap, every reported
   * depth is the length of a shortest path from a direct node, and every reason, score and edge has its cause in the
   * graph; below the cap the report is the complete selection around the nodes that represent the direct symbols.
   */
  method SelectImpact(graph: GraphData, direct: seq<DirectSymbol>, maxDepth: nat, maxNodes: nat)
    returns (nodes: seq<Node>, edges: seq<Edge>, ghost seeds: set<Key>)
    requires graph.View().WellFormed() && maxDepth >= 1
    modifies graph`nodes
    ensures var found := Represented(old(graph.nodes), Sort(DirectLe, direct));
            && graph.View() == old(graph.View()).(nodes := found.0)
            && seeds <= found.1
            && (|nodes| < maxNodes ==> seeds == found.1)
    ensures NodesWithin(graph.View(), seeds, maxDepth, maxNodes, nodes) && EdgesWithin(maxDepth, nodes, edges)
    ensures Explained(graph.View(), seeds, maxDepth, nodes, edges) && Presented(nodes, edges)
    ensures |nodes| < maxNodes ==> IsImpact(graph.View(), seeds, maxDepth, nodes, edges)
  {
    hide Graph.WellFormed, Represented, DirectPart, Started, State.Valid, NodesWithin, EdgesWithin, IsImpact, ReportsEdges, Sort, Explained,
         Presented;
    var directSorted := Sort(DirectLe, direct);
    var selected, queue := SelectDirect(graph, directSorted, maxNodes);
    var view := graph.View();
    DirectStarts(view, maxDepth, maxNodes, selected, queue);
    var search := new Search(view, maxDepth, maxNodes, selected, queue);
    seeds := selected.Keys;
    ghost var layer := search.Run();
    KeysOfSelected(search.St(), layer);
    nodes := ReportNodes(search.selected);
    edges := ReportEdges(search.edges);
    LimitsHold(search.St(), layer, nodes, edges);
    ReportIsExplained(search.St(), layer, nodes, edges);
    if |nodes| < maxNodes {
      ReportIsImpact(search.St(), layer, nodes, edges);
      SeedsUncapped(search.St(), layer, seeds, selected);
    }
  }

  lemma SeedsUncapped(st: State, layer: nat, seeds: set<Key>, selected: map<Key, Node>)
    requires st.Valid(layer) && st.seeds == selected.Keys && |st.sel| < st.maxNodes
    ensures |selected| < st.maxNodes
  {
    hide AtDistance, State.Frontier, State.Saturated, State.WalksSound, State.NodesMerged, State.EdgesMerged;
    SubsetSize(selected.Keys, st.sel.Keys);
  }
}
