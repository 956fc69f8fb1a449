/** The execution graph of a turn as the trace viewer draws it (frontend/src/traces/SpanTree.tsx). */
module SpanTree {
  import opened Json
  import opened Sorting
  import S = Spans
  import Forests

  /** What the tree needs of a stored span. */
  datatype Row = Row(id: string, parent: Option<string>, offset: Option<real>)

  function Offset(r: Row): real {
    if r.offset.Some? then r.offset.value else 0.0
  }

  // --- the tree as indices -----------------------------------------------------------------------------

  /** The position a `Map` keyed by id holds for this id: the last one written, or -1. */
  function Find(spans: seq<Row>, id: string): (i: int)
    ensures -1 <= i < |spans| && (i >= 0 ==> spans[i].id == id)
    ensures i == -1 <==> forall j | 0 <= j < |spans| :: spans[j].id != id
  {
    if spans == [] then -1
    else if spans[|spans| - 1].id == id then |spans| - 1
    else Find(spans[..|spans| - 1], id)
  }

  /** The span shown above span `i`, or -1 at the top: no parent, an empty one, or one that is not there. */
  function Parent(spans: seq<Row>, i: nat): (p: int)
    requires i < |spans|
    ensures -1 <= p < |spans|
  {
    var parent := spans[i].parent;
    if parent.Some? && parent.value != "" then Find(spans, parent.value) else -1
  }

  /** Which of the first `n` spans hang under `p`, in order. */
  function Kids(spans: seq<Row>, p: int, n: nat): (kids: seq<int>)
    requires n <= |spans|
    ensures forall j :: j in kids <==> 0 <= j < n && Parent(spans, j) == p
    ensures forall a, b | 0 <= a < b < |kids| :: kids[a] < kids[b]
  {
    if n == 0 then []
    else
      var before := Kids(spans, p, n - 1);
      assert forall a | 0 <= a < |before| :: before[a] in before;
      before + if Parent(spans, n - 1) == p then [n - 1] else []
  }

  predicate Earlier(spans: seq<Row>, i: int, j: int) {
    0 <= i < |spans| && 0 <= j < |spans| ==>
      Offset(spans[Find(spans, spans[i].id)]) <= Offset(spans[Find(spans, spans[j].id)])
  }

  /** The children of a span, or the roots for -1, by offset. */
  function Children(spans: seq<Row>, p: int): (kids: seq<int>) {
    Sort((i, j) => Earlier(spans, i, j), Kids(spans, p, |spans|))
  }

  lemma ChildrenAre(spans: seq<Row>, p: int)
    ensures Distinct(Children(spans, p))
    ensures forall j :: j in Children(spans, p) <==> 0 <= j < |spans| && Parent(spans, j) == p
  {
    var kids := Kids(spans, p, |spans|);
    SortKeepsMembers((i, j) => Earlier(spans, i, j), kids);
    SortKeepsDistinct((i, j) => Earlier(spans, i, j), kids);
  }

  // --- building it ----------------------------------------------------------------------------------------

  class SpanNode {
    const span: Row
    var children: seq<SpanNode>

    constructor (span: Row)
      ensures this.span == span && children == []
    {
      this.span, children := span, [];
    }
  }

  predicate ByOffset(a: SpanNode, b: SpanNode) {
    Offset(a.span) <= Offset(b.span)
  }

  /** `byId`: one node an id, for the last span with that id. */
  ghost predicate NodesFor(spans: seq<Row>, byId: map<string, SpanNode>) {
    && (forall id :: id in byId <==> Find(spans, id) >= 0)
    && (forall id | id in byId :: byId[id].span == spans[Find(spans, id)])
    && (forall x, y | x in byId && y in byId && x != y :: byId[x] != byId[y])
  }

  /** This is the node of span `i`. */
  ghost predicate IsNode(spans: seq<Row>, byId: map<string, SpanNode>, i: int, node: SpanNode) {
    0 <= i < |spans| && spans[i].id in byId && node == byId[spans[i].id]
  }

  ghost predicate AreNodes(spans: seq<Row>, byId: map<string, SpanNode>, kids: seq<int>, nodes: seq<SpanNode>) {
    |kids| == |nodes| && forall k | 0 <= k < |kids| :: IsNode(spans, byId, kids[k], nodes[k])
  }

  /** Sorting the nodes by offset is sorting the spans by offset. */
  lemma SortNodes(spans: seq<Row>, byId: map<string, SpanNode>, p: int, nodes: seq<SpanNode>)
    requires NodesFor(spans, byId) && AreNodes(spans, byId, Kids(spans, p, |spans|), nodes)
    ensures AreNodes(spans, byId, Children(spans, p), Sort(ByOffset, nodes))
  {
    var r := (i, node) => IsNode(spans, byId, i, node);
    SortPaired(r, (i, j) => Earlier(spans, i, j), ByOffset, Kids(spans, p, |spans|), nodes);
  }

  /** The tree as built: the roots and every node's children, each list by offset. */
  ghost predicate Drawn(spans: seq<Row>, byId: map<string, SpanNode>, roots: seq<SpanNode>)
    requires NodesFor(spans, byId)
    reads byId.Values
  {
    && AreNodes(spans, byId, Children(spans, -1), roots)
    && forall id | id in byId :: Lists(spans, byId, id, Children(spans, Find(spans, id)))
  }

  /** The lists after the first `n` spans, still in span order. */
  ghost predicate Pushed(spans: seq<Row>, byId: map<string, SpanNode>, roots: seq<SpanNode>, n: nat)
    reads byId.Values
  {
    && n <= |spans| && NodesFor(spans, byId)
    && AreNodes(spans, byId, Kids(spans, -1, n), roots)
    && forall id | id in byId :: Lists(spans, byId, id, Kids(spans, Find(spans, id), n))
  }

  /** The list of a node: what hangs under span `p` so far, sorted or not. */
  ghost predicate Lists(spans: seq<Row>, byId: map<string, SpanNode>, id: string, kids: seq<int>)
    requires id in byId
    reads byId[id]
  {
    AreNodes(spans, byId, kids, byId[id].children)
  }

  /** The first loop; `keys` are the map's keys in insertion order. */
  method MakeNodes(spans: seq<Row>) returns (nodes: map<string, SpanNode>, keys: seq<string>)
    ensures NodesFor(spans, nodes) && (forall id | id in nodes :: fresh(nodes[id]) && nodes[id].children == [])
    ensures Distinct(keys) && forall id :: id in keys <==> id in nodes
  {
    nodes, keys := map[], [];
    for i := 0 to |spans|
      invariant NodesFor(spans[..i], nodes)
      invariant forall id | id in nodes :: fresh(nodes[id]) && nodes[id].children == []
      invariant Distinct(keys) && forall id :: id in keys <==> id in nodes
    {
      var node := new SpanNode(spans[i]);
      assert spans[..i + 1][..i] == spans[..i];
      if spans[i].id !in nodes {
        keys := keys + [spans[i].id];
      }
      nodes := nodes[spans[i].id := node];
    }
    assert spans[..|spans|] == spans;
  }

  /** `parent.children.push(node)` */
  method PushChild(spans: seq<Row>, nodes: map<string, SpanNode>, i: nat, parent: string)
    requires i < |spans| && NodesFor(spans, nodes) && spans[i].id in nodes
    requires parent in nodes && Parent(spans, i) == Find(spans, parent)
    requires forall id | id in nodes :: Lists(spans, nodes, id, Kids(spans, Find(spans, id), i))
    modifies nodes[parent]
    ensures forall id | id in nodes :: Lists(spans, nodes, id, Kids(spans, Find(spans, id), i + 1))
  {
    var above := nodes[parent];
    assert Lists(spans, nodes, parent, Kids(spans, Find(spans, parent), i));
    above.children := above.children + [nodes[spans[i].id]];
    assert Lists(spans, nodes, parent, Kids(spans, Find(spans, parent), i + 1));
    forall id | id in nodes && id != parent ensures Lists(spans, nodes, id, Kids(spans, Find(spans, id), i + 1)) {
      assert old(Lists(spans, nodes, id, Kids(spans, Find(spans, id), i)));
      assert nodes[id] != above && spans[Find(spans, id)].id == id && spans[Find(spans, parent)].id == parent;
      assert Kids(spans, Find(spans, id), i + 1) == Kids(spans, Find(spans, id), i);
    }
  }

  /** A span at the top leaves every node's list alone. */
  lemma PushRoot(spans: seq<Row>, nodes: map<string, SpanNode>, i: nat)
    requires i < |spans| && NodesFor(spans, nodes) && Parent(spans, i) == -1
    requires forall id | id in nodes :: Lists(spans, nodes, id, Kids(spans, Find(spans, id), i))
    ensures forall id | id in nodes :: Lists(spans, nodes, id, Kids(spans, Find(spans, id), i + 1))
  {
    forall id | id in nodes ensures Lists(spans, nodes, id, Kids(spans, Find(spans, id), i + 1)) {
      assert Kids(spans, Find(spans, id), i + 1) == Kids(spans, Find(spans, id), i);
    }
  }

  /** The test of the second loop: is there a node to push under? */
  lemma TopOrUnder(spans: seq<Row>, nodes: map<string, SpanNode>, i: nat)
    requires i < |spans| && NodesFor(spans, nodes)
    ensures spans[i].id in nodes
    ensures var parent := spans[i].parent;
            if parent.Some? && parent.value != "" && parent.value in nodes
            then Parent(spans, i) == Find(spans, parent.value) >= 0
            else Parent(spans, i) == -1
  {
    assert Find(spans, spans[i].id) >= 0;
  }

  /** The roots after one more span. */
  lemma RootsNext(spans: seq<Row>, nodes: map<string, SpanNode>, roots: seq<SpanNode>, i: nat)
    requires i < |spans| && spans[i].id in nodes && AreNodes(spans, nodes, Kids(spans, -1, i), roots)
    ensures AreNodes(spans, nodes, Kids(spans, -1, i + 1),
                     if Parent(spans, i) == -1 then roots + [nodes[spans[i].id]] else roots)
  {
    hide Find, Parent;
  }

  /** One round of the second loop. */
  method PushSpan(spans: seq<Row>, nodes: map<string, SpanNode>, roots: seq<SpanNode>, i: nat)
    returns (more: seq<SpanNode>)
    requires i < |spans| && Pushed(spans, nodes, roots, i)
    modifies nodes.Values
    ensures Pushed(spans, nodes, more, i + 1)
  {
    TopOrUnder(spans, nodes, i);
    RootsNext(spans, nodes, roots, i);
    var node := nodes[spans[i].id];
    var parent := spans[i].parent;
    if parent.Some? && parent.value != "" && parent.value in nodes {
      PushChild(spans, nodes, i, parent.value);
      more := roots;
    } else {
      PushRoot(spans, nodes, i);
      more := roots + [node];
    }
  }

  /** `node.children.sort` for one node. */
  method SortOne(spans: seq<Row>, nodes: map<string, SpanNode>, id: string)
    requires NodesFor(spans, nodes) && id in nodes && Lists(spans, nodes, id, Kids(spans, Find(spans, id), |spans|))
    modifies nodes[id]
    ensures Lists(spans, nodes, id, Children(spans, Find(spans, id)))
    ensures forall x | x in nodes && x != id :: nodes[x].children == old(nodes[x].children)
  {
    SortNodes(spans, nodes, Find(spans, id), nodes[id].children);
    nodes[id].children := Sort(ByOffset, nodes[id].children);
  }

  lemma DistinctNew(keys: seq<string>, k: nat)
    requires Distinct(keys) && k < |keys|
    ensures keys[k] in keys && keys[k] !in keys[..k]
  {
  }

  /** The last loop: every node's children by offset. */
  method SortChildren(spans: seq<Row>, nodes: map<string, SpanNode>, keys: seq<string>)
    requires NodesFor(spans, nodes) && Distinct(keys) && forall id :: id in keys <==> id in nodes
    requires forall id | id in nodes :: Lists(spans, nodes, id, Kids(spans, Find(spans, id), |spans|))
    modifies nodes.Values
    ensures forall id | id in nodes :: Lists(spans, nodes, id, Children(spans, Find(spans, id)))
  {
    hide Children, Kids, Find, Distinct;
    for k := 0 to |keys|
      invariant forall id | id in nodes && id in keys[..k] :: Lists(spans, nodes, id, Children(spans, Find(spans, id)))
      invariant forall id | id in nodes && id !in keys[..k] ::
                Lists(spans, nodes, id, Kids(spans, Find(spans, id), |spans|))
    {
      assert keys[..k + 1] == keys[..k] + [keys[k]];
      DistinctNew(keys, k);
      SortOne(spans, nodes, keys[k]);
    }
    assert keys[..|keys|] == keys;
  }

  /** `buildTree`: a node an id, pushed under its parent's node or to the roots, every list sorted by offset. */
  method BuildTree(spans: seq<Row>) returns (roots: seq<SpanNode>, ghost byId: map<string, SpanNode>)
    ensures NodesFor(spans, byId) && Drawn(spans, byId, roots)
    ensures forall id | id in byId :: fresh(byId[id])
  {
    var nodes, keys := MakeNodes(spans);
    roots := [];
    for i := 0 to |spans|
      invariant Pushed(spans, nodes, roots, i)
    {
      roots := PushSpan(spans, nodes, roots, i);
    }
    SortNodes(spans, nodes, -1, roots);
    roots := Sort(ByOffset, roots);
    SortChildren(spans, nodes, keys);
    byId := nodes;
  }

  // --- what is drawn ------------------------------------------------------------------------------------------

  predicate DistinctIds(spans: seq<Row>) {
    forall i, j | 0 <= i < j < |spans| :: spans[i].id != spans[j].id
  }

  /** The span that the node of span `i` holds: the last one with its id. */
  function Held(spans: seq<Row>, i: int): (h: int)
    ensures 0 <= i < |spans| ==> 0 <= h < |spans| && spans[h].id == spans[i].id && Find(spans, spans[h].id) == h
  {
    if 0 <= i < |spans| then Find(spans, spans[i].id) else i
  }

  lemma HeldIsLast(spans: seq<Row>, i: int)
    requires 0 <= i < |spans|
    ensures i <= Held(spans, i)
    ensures Held(spans, i) == i <==> forall j | i < j < |spans| :: spans[j].id != spans[i].id
  {
    FindIsLast(spans, spans[i].id);
  }

  lemma {:induction false} FindIsLast(spans: seq<Row>, id: string)
    ensures forall j | Find(spans, id) < j < |spans| :: spans[j].id != id
  {
    if spans != [] && spans[|spans| - 1].id != id {
      FindIsLast(spans[..|spans| - 1], id);
    }
  }

  /** What the nodes under span `p` hold, or the roots for -1. */
  function Nodes(spans: seq<Row>, p: int): (kids: seq<int>)
    ensures |kids| == |Children(spans, p)| && Forests.Within(kids, |spans|)
    ensures forall k | 0 <= k < |kids| :: Children(spans, p)[k] in Children(spans, p)
    ensures forall k | 0 <= k < |kids| :: kids[k] == Held(spans, Children(spans, p)[k])
  {
    ChildrenAre(spans, p);
    var kids := Children(spans, p);
    assert forall k | 0 <= k < |kids| :: kids[k] in kids;
    seq(|kids|, k requires 0 <= k < |kids| => Held(spans, kids[k]))
  }

  function Parents(spans: seq<Row>): (up: seq<int>)
    ensures |up| == |spans| && forall i | 0 <= i < |up| :: up[i] == Parent(spans, i)
  {
    seq(|spans|, i requires 0 <= i < |spans| => Parent(spans, i))
  }

  function Tree(spans: seq<Row>): (tree: seq<seq<int>>)
    ensures |tree| == |spans| && Forests.IsTree(tree) && forall i | 0 <= i < |tree| :: tree[i] == Nodes(spans, i)
  {
    seq(|spans|, i requires 0 <= i < |spans| => Nodes(spans, i))
  }

  /** The rows of the viewer, top to bottom, down to some depth: each root followed by what hangs under it. */
  function Shown(spans: seq<Row>, depth: nat): seq<int> {
    Forests.Forest(Tree(spans), Nodes(spans, -1), depth)
  }

  /** The chain of parents above span `i` reaches the top. */
  ghost predicate Ends(spans: seq<Row>, i: int)
    requires 0 <= i < |spans|
  {
    Forests.Ends(Parents(spans), i)
  }

  lemma DistinctHeld(spans: seq<Row>, p: int)
    requires DistinctIds(spans)
    ensures Nodes(spans, p) == Children(spans, p)
  {
    var kids := Children(spans, p);
    ChildrenAre(spans, p);
    forall k | 0 <= k < |kids| ensures Nodes(spans, p)[k] == kids[k] {
      assert kids[k] in kids;
      HeldIsLast(spans, kids[k]);
    }
  }

  lemma ListsNodes(spans: seq<Row>, p: int)
    requires DistinctIds(spans)
    ensures Forests.Lists(Parents(spans), Nodes(spans, p), p)
  {
    var kids := Children(spans, p);
    DistinctHeld(spans, p);
    ChildrenAre(spans, p);
    forall k | 0 <= k < |kids| ensures 0 <= kids[k] < |spans| && Parents(spans)[kids[k]] == p {
      assert kids[k] in kids;
    }
  }

  lemma TreeShape(spans: seq<Row>)
    requires DistinctIds(spans)
    ensures Forests.Shape(Parents(spans), Tree(spans)) && Forests.Lists(Parents(spans), Nodes(spans, -1), -1)
  {
    var up := Parents(spans);
    ListsNodes(spans, -1);
    forall p | 0 <= p < |spans| ensures Forests.Lists(up, Tree(spans)[p], p) {
      ListsNodes(spans, p);
    }
  }

  /** With distinct ids a span is drawn exactly once when its chain of parents ends, otherwise never. */
  lemma ShownOnce(spans: seq<Row>, depth: nat, i: int)
    requires DistinctIds(spans) && depth >= |spans| && 0 <= i < |spans|
    ensures Forests.Count(Shown(spans, depth), i) == if Ends(spans, i) then 1 else 0
  {
    TreeShape(spans);
    Forests.DrawnOnce(Parents(spans), Tree(spans), Nodes(spans, -1), depth, i);
  }

  /** A span with a later one of the same id is never drawn. */
  lemma {:induction false} ForestHolds(spans: seq<Row>, kids: seq<int>, depth: nat, i: int)
    requires Forests.Within(kids, |spans|) && 0 <= i < |spans| && forall k | k in kids :: Held(spans, k) == k
    requires i in Forests.Forest(Tree(spans), kids, depth)
    ensures Held(spans, i) == i
    decreases depth, |kids|
  {
    hide Held, Tree, Forests.Forest;
    Forests.ForestMember(Tree(spans), kids, depth, i);
    if i != kids[0] {
      if i in Forests.Forest(Tree(spans), Tree(spans)[kids[0]], depth - 1) {
        NodesHold(spans, kids[0]);
        ForestHolds(spans, Tree(spans)[kids[0]], depth - 1, i);
      } else {
        ForestHolds(spans, kids[1..], depth, i);
      }
    }
  }

  lemma NodesHold(spans: seq<Row>, p: int)
    ensures forall k | k in Nodes(spans, p) :: Held(spans, k) == k
  {
  }

  /** For any list: every span is drawn exactly once if and only if ids are distinct and no chain of parents closes. */
  lemma ShownOnceIff(spans: seq<Row>, depth: nat)
    requires depth >= |spans|
    ensures (forall i | 0 <= i < |spans| :: Forests.Count(Shown(spans, depth), i) == 1) <==>
            DistinctIds(spans) && forall i | 0 <= i < |spans| :: Ends(spans, i)
  {
    if DistinctIds(spans) {
      forall i | 0 <= i < |spans| ensures Forests.Count(Shown(spans, depth), i) == if Ends(spans, i) then 1 else 0 {
        ShownOnce(spans, depth, i);
      }
    } else {
      var i, j :| 0 <= i < j < |spans| && spans[i].id == spans[j].id;
      HeldIsLast(spans, i);
      NodesHold(spans, -1);
      if i in Shown(spans, depth) {
        ForestHolds(spans, Nodes(spans, -1), depth, i);
      }
      assert Forests.Count(Shown(spans, depth), i) == 0;
    }
  }

  /** Drawing nodes: a node's span, its children, then the rest; `depth` bounds the nesting. */
  ghost function Walk(nodes: seq<SpanNode>, all: set<SpanNode>, depth: nat): seq<Row>
    reads all
    decreases depth, |nodes|
  {
    if nodes == [] || nodes[0] !in all || depth == 0 then []
    else [nodes[0].span] + Walk(nodes[0].children, all, depth - 1) + Walk(nodes[1..], all, depth)
  }

  /** The spans at these positions. */
  function RowAt(spans: seq<Row>, k: int): seq<Row> {
    if 0 <= k < |spans| then [spans[k]] else []
  }

  function RowsAt(spans: seq<Row>, drawn: seq<int>): seq<Row> {
    if drawn == [] then [] else RowAt(spans, drawn[0]) + RowsAt(spans, drawn[1..])
  }

  lemma {:induction false} RowsAtAppend(spans: seq<Row>, a: seq<int>, b: seq<int>)
    ensures RowsAt(spans, a + b) == RowsAt(spans, a) + RowsAt(spans, b)
  {
    hide RowAt;
    if a == [] {
      assert a + b == b;
    } else {
      RowsAtAppend(spans, a[1..], b);
      assert (a + b)[1..] == a[1..] + b;
    }
  }

  lemma RowsAtUnfold(spans: seq<Row>, tree: seq<seq<int>>, kids: seq<int>, depth: nat)
    requires Forests.IsTree(tree) && |tree| == |spans| && Forests.Within(kids, |tree|) && kids != [] && depth > 0
    ensures RowsAt(spans, Forests.Forest(tree, kids, depth)) == [spans[kids[0]]]
              + RowsAt(spans, Forests.Forest(tree, tree[kids[0]], depth - 1))
              + RowsAt(spans, Forests.Forest(tree, kids[1..], depth))
  {
    var under, rest := Forests.Forest(tree, tree[kids[0]], depth - 1), Forests.Forest(tree, kids[1..], depth);
    assert Forests.Forest(tree, kids, depth) == [kids[0]] + under + rest;
    RowsAtAppend(spans, [kids[0]] + under, rest);
    RowsAtAppend(spans, [kids[0]], under);
    assert RowsAt(spans, [kids[0]]) == [spans[kids[0]]];
  }

  /** The node that holds span `i` has its row and the nodes of its children. */
  ghost predicate FaithfulAt(spans: seq<Row>, byId: map<string, SpanNode>, i: int)
    requires 0 <= i < |spans|
    reads byId.Values
  {
    && spans[i].id in byId && byId[spans[i].id].span == spans[i]
    && AreNodes(spans, byId, Tree(spans)[i], byId[spans[i].id].children)
  }

  ghost predicate Faithful(spans: seq<Row>, byId: map<string, SpanNode>)
    reads byId.Values
  {
    forall i | 0 <= i < |spans| && Held(spans, i) == i :: FaithfulAt(spans, byId, i)
  }

  /** Drawing the nodes draws the forest. */
  lemma {:induction false} WalkIsForest(spans: seq<Row>, byId: map<string, SpanNode>, kids: seq<int>,
                                        nodes: seq<SpanNode>, depth: nat)
    requires Faithful(spans, byId) && forall k | k in kids :: 0 <= k < |spans| && Held(spans, k) == k
    requires Forests.Within(kids, |spans|) && AreNodes(spans, byId, kids, nodes)
    ensures Walk(nodes, byId.Values, depth) == RowsAt(spans, Forests.Forest(Tree(spans), kids, depth))
    decreases depth, |kids|
  {
    hide Held, Tree, Forests.Forest, RowsAt, Walk;
    if kids != [] && depth > 0 {
      assert kids[0] in kids;
      assert IsNode(spans, byId, kids[0], nodes[0]) && FaithfulAt(spans, byId, kids[0]);
      hide FaithfulAt, Faithful;
      WalkUnfold(nodes, byId.Values, depth);
      NodesHold(spans, kids[0]);
      WalkIsForest(spans, byId, Tree(spans)[kids[0]], nodes[0].children, depth - 1);
      WalkIsForest(spans, byId, kids[1..], nodes[1..], depth);
      RowsAtUnfold(spans, Tree(spans), kids, depth);
    } else {
      NothingDrawn(spans, kids, depth);
      NothingWalked(nodes, byId.Values, depth);
    }
  }

  lemma WalkUnfold(nodes: seq<SpanNode>, all: set<SpanNode>, depth: nat)
    requires nodes != [] && nodes[0] in all && depth > 0
    ensures Walk(nodes, all, depth)
         == [nodes[0].span] + Walk(nodes[0].children, all, depth - 1) + Walk(nodes[1..], all, depth)
  {
  }

  lemma NothingWalked(nodes: seq<SpanNode>, all: set<SpanNode>, depth: nat)
    requires nodes == [] || depth == 0
    ensures Walk(nodes, all, depth) == []
  {
  }

  lemma NothingDrawn(spans: seq<Row>, kids: seq<int>, depth: nat)
    requires Forests.Within(kids, |spans|) && (kids == [] || depth == 0)
    ensures RowsAt(spans, Forests.Forest(Tree(spans), kids, depth)) == []
  {
  }

  /** A list of nodes is the list of what they hold. */
  lemma HeldNodes(spans: seq<Row>, byId: map<string, SpanNode>, p: int, nodes: seq<SpanNode>)
    requires AreNodes(spans, byId, Children(spans, p), nodes)
    ensures AreNodes(spans, byId, Nodes(spans, p), nodes)
  {
    var kids, held := Children(spans, p), Nodes(spans, p);
    forall k | 0 <= k < |kids| ensures IsNode(spans, byId, held[k], nodes[k]) {
      assert IsNode(spans, byId, kids[k], nodes[k]);
    }
  }

  /** What the viewer draws from the tree that `BuildTree` made of any list, down to any depth: the rows of `Shown`. */
  lemma TreeDrawsShown(spans: seq<Row>, byId: map<string, SpanNode>, roots: seq<SpanNode>, depth: nat)
    requires NodesFor(spans, byId) && Drawn(spans, byId, roots)
    ensures Walk(roots, byId.Values, depth) == RowsAt(spans, Shown(spans, depth))
  {
    forall i | 0 <= i < |spans| && Held(spans, i) == i ensures FaithfulAt(spans, byId, i) {
      assert spans[i].id in byId;
      assert Lists(spans, byId, spans[i].id, Children(spans, i));
      HeldNodes(spans, byId, i, byId[spans[i].id].children);
    }
    HeldNodes(spans, byId, -1, roots);
    NodesHold(spans, -1);
    WalkIsForest(spans, byId, Nodes(spans, -1), roots, depth);
  }

  /** Distinct ids, and every parent that is there comes earlier in the list. */
  ghost predicate Ordered(spans: seq<Row>) {
    forall i | 0 <= i < |spans| :: Find(spans, spans[i].id) == i && Parent(spans, i) < i
  }

  lemma OrderedDistinct(spans: seq<Row>)
    requires Ordered(spans)
    ensures DistinctIds(spans)
  {
    forall i, j | 0 <= i < j < |spans| ensures spans[i].id != spans[j].id {
      assert Find(spans, spans[i].id) == i && Find(spans, spans[j].id) == j;
    }
  }

  /** With parents first every chain ends. */
  lemma {:induction false} OrderedEnds(spans: seq<Row>, i: int)
    requires Ordered(spans) && 0 <= i < |spans|
    ensures Ends(spans, i)
    decreases i
  {
    var up := Parents(spans);
    hide Forests.Ends, Find;
    if up[i] != -1 {
      OrderedEnds(spans, up[i]);
    }
    Forests.ParentEnds(up, i);
  }

  // --- the spans of a turn ----------------------------------------------------------------------------------------

  /** Ids are written by an injective function that never gives an empty string. */
  ghost predicate Names(name: nat -> string) {
    && (forall i :: name(i) != "")
    && (forall i, j | name(i) == name(j) :: i == j)
  }

  ghost predicate Monotone(round: real -> real) {
    forall x, y | x <= y :: round(x) <= round(y)
  }

  /** `_span_dict`: offsets count from the start of the trace, rounded. */
  function Stored(s: S.State, name: nat -> string, begin: real, round: real -> real): (rows: seq<Row>)
    ensures |rows| == |s.spans|
    ensures forall i | 0 <= i < |rows| :: rows[i] == StoredRow(s.spans[i], name, begin, round)
  {
    seq(|s.spans|, i requires 0 <= i < |s.spans| => StoredRow(s.spans[i], name, begin, round))
  }

  function StoredRow(span: S.Span, name: nat -> string, begin: real, round: real -> real): Row {
    var parent := if span.parent.Some? then Some(name(span.parent.value)) else None;
    Row(name(span.id), parent, Some(round(span.start - begin)))
  }

  lemma {:induction false} FindStored(s: S.State, name: nat -> string, begin: real, round: real -> real, id: nat)
    requires S.Numbered(s) && Names(name) && 1 <= id <= |s.spans|
    ensures Find(Stored(s, name, begin, round), name(id)) == id - 1
  {
    var rows := Stored(s, name, begin, round);
    var i := Find(rows, name(id));
    assert rows[id - 1].id == name(id);
    assert i >= 0 && rows[i].id == name(s.spans[i].id);
  }

  /** A stored turn is in order, whatever the interleaving: `Parent` is the parent span, one before it is the root. */
  lemma StoredOrdered(s: S.State, name: nat -> string, begin: real, round: real -> real)
    requires S.Numbered(s) && Names(name)
    ensures var rows := Stored(s, name, begin, round);
            && Ordered(rows)
            && forall i | 0 <= i < |rows| :: Parent(rows, i) == if i == 0 then -1 else s.spans[i].parent.value - 1
  {
    var rows := Stored(s, name, begin, round);
    forall i | 0 <= i < |rows|
      ensures Find(rows, rows[i].id) == i && Parent(rows, i) == if i == 0 then -1 else s.spans[i].parent.value - 1
    {
      FindStored(s, name, begin, round, i + 1);
      if i > 0 {
        FindStored(s, name, begin, round, s.spans[i].parent.value);
      }
    }
  }

  lemma EarlierStored(s: S.State, name: nat -> string, begin: real, round: real -> real, i: nat, j: nat)
    requires S.Numbered(s) && Names(name) && Monotone(round) && i < j < |s.spans|
    ensures Earlier(Stored(s, name, begin, round), i, j)
  {
    FindStored(s, name, begin, round, i + 1);
    FindStored(s, name, begin, round, j + 1);
    assert s.spans[i].start - begin <= s.spans[j].start - begin;
  }

  /** The clock only goes on, so children stand in the order in which they were opened. */
  lemma ChildrenInOrder(s: S.State, name: nat -> string, begin: real, round: real -> real, p: int)
    requires S.Numbered(s) && Names(name) && Monotone(round)
    ensures var rows := Stored(s, name, begin, round); Children(rows, p) == Kids(rows, p, |rows|)
  {
    var rows := Stored(s, name, begin, round);
    var kids := Kids(rows, p, |rows|);
    forall a, b | 0 <= a < b < |kids| ensures Earlier(rows, kids[a], kids[b]) {
      assert kids[a] in kids && kids[b] in kids && kids[a] < kids[b];
      EarlierStored(s, name, begin, round, kids[a], kids[b]);
    }
    SortSorted((i, j) => Earlier(rows, i, j), kids);
  }

  /** For every interleaving of a turn: one root, the turn itself, and every span drawn exactly once below it. */
  lemma TurnDrawn(acts: seq<S.Action>, name: nat -> string, begin: real, round: real -> real, depth: nat, i: int)
    requires Names(name) && Monotone(round)
    ensures var rows := Stored(S.Run(acts), name, begin, round);
            && Ordered(rows)
            && (depth >= |rows| && 0 <= i < |rows| ==> Forests.Count(Shown(rows, depth), i) == 1)
            && (rows != [] ==> Children(rows, -1) == [0] && S.Run(acts).spans[0].kind == S.Agent)
  {
    var s := S.Run(acts);
    var rows := Stored(s, name, begin, round);
    S.TreeAlways(acts);
    StoredOrdered(s, name, begin, round);
    if depth >= |rows| && 0 <= i < |rows| {
      OrderedDistinct(rows);
      OrderedEnds(rows, i);
      ShownOnce(rows, depth, i);
    }
    if rows != [] {
      assert S.Nested(s, 0);
      ChildrenInOrder(s, name, begin, round, -1);
      OneRoot(rows, |rows|);
    }
  }

  lemma {:induction false} OneRoot(rows: seq<Row>, n: nat)
    requires 0 < n <= |rows| && forall i | 0 <= i < |rows| :: Parent(rows, i) == -1 <==> i == 0
    ensures Kids(rows, -1, n) == [0]
  {
    if n > 1 {
      OneRoot(rows, n - 1);
    } else {
      assert Kids(rows, -1, 0) == [];
    }
  }
}
