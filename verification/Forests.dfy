/**
 Trees given by parents, drawn depth first down to some depth. Nodes are 0 … n-1 and -1 stands for the top; parents
 may stand anywhere and may close a circle.
 */
module Forests {
  import opened Sorting

  predicate Within(kids: seq<int>, n: nat) {
    forall k | 0 <= k < |kids| :: 0 <= kids[k] < n
  }

  /** `tree[p]` lists what hangs under node `p`. */
  predicate IsTree(tree: seq<seq<int>>) {
    forall p | 0 <= p < |tree| :: Within(tree[p], |tree|)
  }

  /** What is drawn for a list of nodes: each node, what hangs under it, then the rest. */
  function Forest(tree: seq<seq<int>>, kids: seq<int>, depth: nat): seq<int>
    requires IsTree(tree) && Within(kids, |tree|)
    decreases depth, |kids|
  {
    if kids == [] || depth == 0 then []
    else [kids[0]] + Forest(tree, tree[kids[0]], depth - 1) + Forest(tree, kids[1..], depth)
  }

  lemma ForestMember(tree: seq<seq<int>>, kids: seq<int>, depth: nat, i: int)
    requires IsTree(tree) && Within(kids, |tree|) && i in Forest(tree, kids, depth)
    ensures kids != [] && depth > 0 && Within(tree[kids[0]], |tree|) && Within(kids[1..], |tree|)
    ensures i == kids[0] || i in Forest(tree, tree[kids[0]], depth - 1) || i in Forest(tree, kids[1..], depth)
  {
  }

  // --- how often a node is drawn -----------------------------------------------------------------------

  function Count(drawn: seq<int>, i: int): int {
    multiset(drawn)[i]
  }

  function Sum(w: seq<int>, kids: seq<int>): int
    requires Within(kids, |w|)
  {
    if kids == [] then 0 else w[kids[0]] + Sum(w, kids[1..])
  }

  lemma ForestUnfold(tree: seq<seq<int>>, kids: seq<int>, depth: nat, i: int)
    requires IsTree(tree) && Within(kids, |tree|) && kids != [] && depth > 0
    ensures Within(tree[kids[0]], |tree|) && Within(kids[1..], |tree|)
    ensures Count(Forest(tree, kids, depth), i) == (if kids[0] == i then 1 else 0)
              + Count(Forest(tree, tree[kids[0]], depth - 1), i) + Count(Forest(tree, kids[1..], depth), i)
  {
    var under, rest := Forest(tree, tree[kids[0]], depth - 1), Forest(tree, kids[1..], depth);
    assert Forest(tree, kids, depth) == [kids[0]] + under + rest;
  }

  /** A weight that says for each node how often `i` is drawn with it says so for a list. */
  lemma {:induction false} ForestCounts(tree: seq<seq<int>>, kids: seq<int>, depth: nat, i: int, w: seq<int>)
    requires IsTree(tree) && Within(kids, |tree|) && depth > 0 && |w| == |tree|
    requires forall k | 0 <= k < |tree| ::
               w[k] == (if k == i then 1 else 0) + Count(Forest(tree, tree[k], depth - 1), i)
    ensures Count(Forest(tree, kids, depth), i) == Sum(w, kids)
    decreases |kids|
  {
    if kids != [] {
      ForestUnfold(tree, kids, depth, i);
      hide Forest, Count;
      ForestCounts(tree, kids[1..], depth, i, w);
    }
  }

  // --- chains of parents ------------------------------------------------------------------------------------------

  predicate Linked(up: seq<int>) {
    forall i | 0 <= i < |up| :: -1 <= up[i] < |up|
  }

  /** The `m`-th above `i`: its parent, the parent of that, …, and -1 from the top on. */
  function Chain(up: seq<int>, i: int, m: nat): (c: int)
    requires Linked(up) && -1 <= i < |up|
    ensures -1 <= c < |up|
  {
    if m == 0 then i
    else
      var c := Chain(up, i, m - 1);
      if c == -1 then -1 else up[c]
  }

  /** The chain above `i` reaches the top: it does not close a circle. */
  ghost predicate Ends(up: seq<int>, i: int)
    requires Linked(up) && -1 <= i < |up|
  {
    exists m: nat :: Chain(up, i, m) == -1
  }

  lemma {:induction false} ChainOn(up: seq<int>, i: int, m: nat, more: nat)
    requires Linked(up) && -1 <= i < |up|
    ensures Chain(up, i, m + more) == Chain(up, Chain(up, i, m), more)
    decreases more
  {
    if more > 0 {
      ChainOn(up, i, m, more - 1);
    }
  }

  lemma ParentEnds(up: seq<int>, i: int)
    requires Linked(up) && 0 <= i < |up| && (up[i] == -1 || Ends(up, up[i]))
    ensures Ends(up, i)
  {
    assert Chain(up, i, 1) == up[i];
    if up[i] != -1 {
      var m: nat :| Chain(up, up[i], m) == -1;
      ChainOn(up, i, 1, m);
    }
  }

  /** The top is reached after `h` steps. */
  predicate EndsAt(up: seq<int>, i: int, h: nat)
    requires Linked(up) && -1 <= i < |up|
  {
    Chain(up, i, h) == -1 && forall m | 0 <= m < h :: Chain(up, i, m) >= 0
  }

  lemma FirstEnd(up: seq<int>, i: int, m: nat) returns (h: nat)
    requires Linked(up) && 0 <= i < |up| && Chain(up, i, m) == -1
    ensures 1 <= h <= m && EndsAt(up, i, h)
  {
    h := 0;
    while Chain(up, i, h) != -1
      invariant h <= m && forall k | 0 <= k < h :: Chain(up, i, k) >= 0
      decreases m - h
    {
      h := h + 1;
    }
  }

  /** A chain that ends meets no node twice. */
  lemma ChainDistinct(up: seq<int>, i: int, h: nat, a: nat, b: nat)
    requires Linked(up) && -1 <= i < |up| && EndsAt(up, i, h) && a < b <= h
    ensures Chain(up, i, a) != Chain(up, i, b)
  {
    ChainOn(up, i, a, h - b);
    ChainOn(up, i, b, h - b);
  }

  lemma ChainStays(up: seq<int>, i: int, h: nat, m: nat)
    requires Linked(up) && -1 <= i < |up| && Chain(up, i, h) == -1 && h <= m
    ensures Chain(up, i, m) == -1
    decreases m
  {
    if h < m {
      ChainStays(up, i, h, m - 1);
    }
  }

  lemma SomeWithin(s: seq<int>, n: nat)
    requires Within(s, n) && s != []
    ensures n > 0
  {
    assert 0 <= s[0] < n;
  }

  /** Different numbers below `n` are at most `n`. */
  lemma {:induction false} DistinctWithin(s: seq<int>, n: nat)
    requires Distinct(s) && Within(s, n)
    ensures |s| <= n
    decreases n
  {
    if s != [] {
      SomeWithin(s, n);
      if n - 1 in s {
        var j :| 0 <= j < |s| && s[j] == n - 1;
        DistinctWithin(s[..j] + s[j + 1..], n - 1);
      } else {
        DistinctWithin(s, n - 1);
      }
    }
  }

  /** So it ends after at most as many steps as there are nodes. */
  lemma HeightBound(up: seq<int>, i: int, h: nat)
    requires Linked(up) && -1 <= i < |up| && EndsAt(up, i, h)
    ensures h <= |up|
  {
    var s := seq(h, m requires 0 <= m < h => Chain(up, i, m));
    forall a, b | 0 <= a < b < |s| ensures s[a] != s[b] {
      ChainDistinct(up, i, h, a, b);
    }
    DistinctWithin(s, |up|);
  }

  // --- every node once ----------------------------------------------------------------------------------------

  /** `kids` lists each node whose parent is `p` once, in some order. */
  predicate Lists(up: seq<int>, kids: seq<int>, p: int) {
    && Distinct(kids)
    && (forall k | 0 <= k < |kids| :: 0 <= kids[k] < |up| && up[kids[k]] == p)
    && (forall j | 0 <= j < |up| && up[j] == p :: j in kids)
  }

  predicate Shape(up: seq<int>, tree: seq<seq<int>>) {
    Linked(up) && IsTree(tree) && |tree| == |up| && forall p | 0 <= p < |tree| :: Lists(up, tree[p], p)
  }

  lemma {:induction false} SumOfOne(w: seq<int>, kids: seq<int>, b: int)
    requires Within(kids, |w|) && Distinct(kids)
    requires forall k | k in kids :: w[k] == if k == b then 1 else 0
    ensures Sum(w, kids) == if b in kids then 1 else 0
  {
    if kids != [] {
      SumOfOne(w, kids[1..], b);
      assert kids == [kids[0]] + kids[1..];
    }
  }

  /** `p` is among the first `depth` above `i`. */
  ghost predicate Reached(up: seq<int>, i: int, p: int, depth: nat)
    requires Linked(up) && -1 <= i < |up|
  {
    exists m: nat :: 1 <= m <= depth && Chain(up, i, m) == p
  }

  /** `k` is `i` or among the first above it. */
  ghost predicate Seen(up: seq<int>, i: int, k: int, depth: nat)
    requires Linked(up) && -1 <= i < |up|
  {
    exists m: nat :: 0 <= m < depth && Chain(up, i, m) == k
  }

  lemma SeenIs(up: seq<int>, i: int, h: nat, k: int, depth: nat)
    requires Linked(up) && 0 <= i < |up| && EndsAt(up, i, h) && 0 <= k && depth > 0
    ensures Seen(up, i, k, depth) <==> k == i || Reached(up, i, k, depth - 1)
    ensures !(k == i && Reached(up, i, k, depth - 1))
  {
    if k == i {
      assert Chain(up, i, 0) == k;
      if Reached(up, i, k, depth - 1) {
        var m: nat :| 1 <= m <= depth - 1 && Chain(up, i, m) == k;
        if h <= m {
          ChainStays(up, i, h, m);
        } else {
          ChainDistinct(up, i, h, 0, m);
        }
      }
    }
    if Seen(up, i, k, depth) && k != i {
      var m: nat :| 0 <= m < depth && Chain(up, i, m) == k;
      assert m != 0;
    }
    if Reached(up, i, k, depth - 1) {
      var m: nat :| 1 <= m <= depth - 1 && Chain(up, i, m) == k;
    }
  }

  /** The steps up to `p`, at most as many as it takes to the top. */
  lemma StepsTo(up: seq<int>, i: int, h: nat, p: int, depth: nat) returns (n: nat)
    requires Linked(up) && 0 <= i < |up| && EndsAt(up, i, h) && Reached(up, i, p, depth)
    ensures 1 <= n <= depth && n <= h && Chain(up, i, n) == p
  {
    n :| 1 <= n <= depth && Chain(up, i, n) == p;
    if h < n {
      ChainStays(up, i, h, n);
      n := h;
    }
  }

  /** The steps up to a node that leads down, and one more to its parent. */
  lemma StepsOver(up: seq<int>, i: int, h: nat, k: int, depth: nat) returns (n: nat)
    requires Linked(up) && 0 <= i < |up| && EndsAt(up, i, h) && 0 <= k < |up| && Seen(up, i, k, depth)
    ensures 1 <= n <= depth && n <= h && Chain(up, i, n) == up[k] && Chain(up, i, n - 1) == k
  {
    var m: nat :| m < depth && Chain(up, i, m) == k;
    if h <= m {
      ChainStays(up, i, h, m);
    }
    n := m + 1;
  }

  lemma SameSteps(up: seq<int>, i: int, h: nat, a: nat, b: nat)
    requires Linked(up) && -1 <= i < |up| && EndsAt(up, i, h) && a <= h && b <= h && Chain(up, i, a) == Chain(up, i, b)
    ensures a == b
  {
    if a < b {
      ChainDistinct(up, i, h, a, b);
    } else if b < a {
      ChainDistinct(up, i, h, b, a);
    }
  }

  /** Of what hangs under `p` one node at most leads down to `i`, and one exactly when `p` is near enough above it. */
  lemma OneLeadsDown(up: seq<int>, i: int, h: nat, kids: seq<int>, p: int, depth: nat) returns (b: int)
    requires Linked(up) && 0 <= i < |up| && EndsAt(up, i, h) && Lists(up, kids, p) && depth > 0 && -1 <= p
    ensures forall k | k in kids :: Seen(up, i, k, depth) <==> k == b
    ensures b in kids <==> Reached(up, i, p, depth)
  {
    hide EndsAt, Chain;
    b := -1;
    if Reached(up, i, p, depth) {
      var n := StepsTo(up, i, h, p, depth);
      b := Chain(up, i, n - 1);
      ChainUp(up, i, h, n);
      forall k | k in kids && Seen(up, i, k, depth) ensures k == b {
        var m := StepsOver(up, i, h, k, depth);
        SameSteps(up, i, h, m, n);
      }
    } else {
      forall k | k in kids ensures !Seen(up, i, k, depth) {
        if Seen(up, i, k, depth) {
          var m := StepsOver(up, i, h, k, depth);
        }
      }
    }
  }

  lemma ChainUp(up: seq<int>, i: int, h: nat, n: nat)
    requires Linked(up) && -1 <= i < |up| && EndsAt(up, i, h) && 1 <= n <= h
    ensures Chain(up, i, n - 1) >= 0 && Chain(up, i, n) == up[Chain(up, i, n - 1)]
  {
  }

  /** How often `i` is drawn with node `k`. */
  function Above(tree: seq<seq<int>>, i: int, depth: nat, k: int): int
    requires IsTree(tree) && 0 <= k < |tree|
  {
    (if k == i then 1 else 0) + Count(Forest(tree, tree[k], depth), i)
  }

  /** How often `i` is drawn under `p`: once when `p` is near enough above it, otherwise not at all. */
  lemma {:induction false} DrawnUnder(up: seq<int>, tree: seq<seq<int>>, kids: seq<int>, p: int, depth: nat, i: int,
                                      h: nat)
    requires Shape(up, tree) && Lists(up, kids, p) && Within(kids, |tree|) && -1 <= p
    requires 0 <= i < |up| && EndsAt(up, i, h)
    ensures Count(Forest(tree, kids, depth), i) == if Reached(up, i, p, depth) then 1 else 0
    decreases depth
  {
    hide Forest, Count, Seen, Reached, EndsAt, Lists;
    if depth == 0 {
      NothingSeen(up, tree, kids, p, i);
    } else {
      var n := |up|;
      var w := seq(n, k requires 0 <= k < n => Above(tree, i, depth - 1, k));
      forall k | 0 <= k < n ensures w[k] == if Seen(up, i, k, depth) then 1 else 0 {
        assert Lists(up, tree[k], k);
        DrawnUnder(up, tree, tree[k], k, depth - 1, i, h);
        SeenIs(up, i, h, k, depth);
      }
      ForestCounts(tree, kids, depth, i, w);
      var b := OneLeadsDown(up, i, h, kids, p, depth);
      ListsDistinct(up, kids, p);
      SumOfOne(w, kids, b);
    }
  }

  lemma ListsDistinct(up: seq<int>, kids: seq<int>, p: int)
    requires Lists(up, kids, p)
    ensures Distinct(kids)
  {
  }

  lemma NothingSeen(up: seq<int>, tree: seq<seq<int>>, kids: seq<int>, p: int, i: int)
    requires Linked(up) && IsTree(tree) && Within(kids, |tree|) && 0 <= i < |up|
    ensures Count(Forest(tree, kids, 0), i) == 0 && !Reached(up, i, p, 0)
  {
  }

  /** What is drawn under `p` has `p` above it. */
  lemma {:induction false} DrawnIsBelow(up: seq<int>, tree: seq<seq<int>>, kids: seq<int>, p: int, depth: nat, i: int)
    requires Shape(up, tree) && Within(kids, |tree|) && forall k | k in kids :: up[k] == p
    requires 0 <= i < |up| && i in Forest(tree, kids, depth)
    ensures exists m: nat :: Chain(up, i, m) == p
    decreases depth, |kids|
  {
    ForestMember(tree, kids, depth, i);
    if i == kids[0] {
      assert Chain(up, i, 1) == p;
    } else if i in Forest(tree, tree[kids[0]], depth - 1) {
      assert Lists(up, tree[kids[0]], kids[0]);
      DrawnIsBelow(up, tree, tree[kids[0]], kids[0], depth - 1, i);
      var m: nat :| Chain(up, i, m) == kids[0];
      assert Chain(up, i, m + 1) == p;
    } else {
      DrawnIsBelow(up, tree, kids[1..], p, depth, i);
    }
  }

  /** A node is drawn exactly once when its chain of parents ends, otherwise never. */
  lemma DrawnOnce(up: seq<int>, tree: seq<seq<int>>, roots: seq<int>, depth: nat, i: int)
    requires Shape(up, tree) && Lists(up, roots, -1) && Within(roots, |tree|) && depth >= |up| && 0 <= i < |up|
    ensures Count(Forest(tree, roots, depth), i) == if Ends(up, i) then 1 else 0
  {
    if Ends(up, i) {
      var m: nat :| Chain(up, i, m) == -1;
      var h := FirstEnd(up, i, m);
      HeightBound(up, i, h);
      assert Reached(up, i, -1, depth);
      DrawnUnder(up, tree, roots, -1, depth, i, h);
    } else if i in Forest(tree, roots, depth) {
      DrawnIsBelow(up, tree, roots, -1, depth, i);
    }
  }
}
