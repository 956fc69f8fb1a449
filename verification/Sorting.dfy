/** Sorting by a total preorder: the contract that Python's `sorted` and JavaScript's `sort` share. */
module Sorting {

  ghost predicate TotalPreorder<T(!new)>(le: (T, T) -> bool) {
    && (forall x, y :: le(x, y) || le(y, x))
    && (forall x, y, z :: le(x, y) && le(y, z) ==> le(x, z))
  }

  ghost predicate SortedBy<T>(le: (T, T) -> bool, s: seq<T>) {
    forall i, j :: 0 <= i < j < |s| ==> le(s[i], s[j])
  }

  function Insert<T>(le: (T, T) -> bool, x: T, s: seq<T>): (r: seq<T>)
    ensures multiset(r) == multiset{x} + multiset(s)
  {
    if s == [] then [x]
    else if le(x, s[0]) then [x] + s
    else
      assert s == [s[0]] + s[1..];
      [s[0]] + Insert(le, x, s[1..])
  }

  /** A stable sort: an element goes in front of its equals that come later in the input. */
  function Sort<T>(le: (T, T) -> bool, s: seq<T>): (r: seq<T>)
    ensures multiset(r) == multiset(s)
    ensures |r| == |s|
  {
    if s == [] then []
    else
      assert s == [s[0]] + s[1..];
      var r := Insert(le, s[0], Sort(le, s[1..]));
      assert |multiset(r)| == |multiset(s)|;
      r
  }

  lemma {:induction false} InsertSorted<T(!new)>(le: (T, T) -> bool, x: T, s: seq<T>)
    requires TotalPreorder(le) && SortedBy(le, s)
    ensures SortedBy(le, Insert(le, x, s))
  {
    if s != [] && !le(x, s[0]) {
      InsertSorted(le, x, s[1..]);
      var rest := Insert(le, x, s[1..]);
      forall i | 0 <= i < |rest| ensures le(s[0], rest[i]) {
        assert rest[i] in multiset(rest);
        assert rest[i] == x || rest[i] in s[1..];
      }
    }
  }

  lemma {:induction false} SortSorts<T(!new)>(le: (T, T) -> bool, s: seq<T>)
    requires TotalPreorder(le)
    ensures SortedBy(le, Sort(le, s))
  {
    if s != [] {
      SortSorts(le, s[1..]);
      InsertSorted(le, s[0], Sort(le, s[1..]));
    }
  }

  /** Members of a sequence and of its sorted form are the same. */
  lemma SortKeepsMembers<T>(le: (T, T) -> bool, s: seq<T>)
    ensures forall x :: x in s <==> x in Sort(le, s)
  {
    forall x ensures x in s <==> x in Sort(le, s) {
      assert x in s <==> x in multiset(s);
      assert x in Sort(le, s) <==> x in multiset(Sort(le, s));
    }
  }

  function Where<T>(p: T -> bool, s: seq<T>): seq<T> {
    if s == [] then [] else if p(s[0]) then [s[0]] + Where(p, s[1..]) else Where(p, s[1..])
  }

  lemma WhereCons<T>(p: T -> bool, x: T, s: seq<T>)
    ensures Where(p, [x] + s) == if p(x) then [x] + Where(p, s) else Where(p, s)
  {
  }

  lemma {:induction false} InsertStable<T>(le: (T, T) -> bool, x: T, s: seq<T>, p: T -> bool)
    requires p(x) ==> forall i | 0 <= i < |s| && p(s[i]) :: le(x, s[i])
    ensures Where(p, Insert(le, x, s)) == if p(x) then [x] + Where(p, s) else Where(p, s)
  {
    if s == [] || le(x, s[0]) {
      WhereCons(p, x, s);
    } else {
      var rest := Insert(le, x, s[1..]);
      assert Where(p, rest) == (if p(x) then [x] + Where(p, s[1..]) else Where(p, s[1..])) by {
        InsertStable(le, x, s[1..], p);
      }
      assert Insert(le, x, s) == [s[0]] + rest;
      WhereCons(p, s[0], rest);
      assert !(p(x) && p(s[0]));
    }
  }

  /** Elements that sort the same keep their order. */
  lemma {:induction false} SortStable<T(!new)>(le: (T, T) -> bool, s: seq<T>, p: T -> bool)
    requires forall y, z :: p(y) && p(z) ==> le(y, z)
    ensures Where(p, Sort(le, s)) == Where(p, s)
  {
    if s != [] {
      SortStable(le, s[1..], p);
      InsertStable(le, s[0], Sort(le, s[1..]), p);
    }
  }

  /** Sorting leaves a sorted sequence alone. */
  lemma {:induction false} SortSorted<T>(le: (T, T) -> bool, s: seq<T>)
    requires SortedBy(le, s)
    ensures Sort(le, s) == s
  {
    if s != [] {
      SortSorted(le, s[1..]);
      assert |s| > 1 ==> le(s[0], s[1]);
      assert s == [s[0]] + s[1..];
    }
  }

  /** Two sequences whose elements are related, place by place. */
  predicate Paired<T, U>(r: (T, U) -> bool, a: seq<T>, b: seq<U>) {
    |a| == |b| && forall i | 0 <= i < |a| :: r(a[i], b[i])
  }

  lemma PairedCons<T, U>(r: (T, U) -> bool, x: T, u: U, a: seq<T>, b: seq<U>)
    requires Paired(r, a, b) && r(x, u)
    ensures Paired(r, [x] + a, [u] + b)
  {
  }

  /** The two orders agree on related elements. */
  ghost predicate SameOrder<T(!new), U>(r: (T, U) -> bool, le: (T, T) -> bool, le': (U, U) -> bool, a: seq<T>,
                              b: seq<U>)
  {
    forall x, y, u, v | x in a && y in a && u in b && v in b && r(x, u) && r(y, v) :: le(x, y) <==> le'(u, v)
  }

  /** `x` compares with every element of `a` as `u` with its pair in `b`. */
  predicate SamePlace<T, U>(le: (T, T) -> bool, le': (U, U) -> bool, x: T, u: U, a: seq<T>, b: seq<U>) {
    |a| == |b| && forall i | 0 <= i < |a| :: le(x, a[i]) <==> le'(u, b[i])
  }

  lemma {:induction false} InsertPaired<T, U>(r: (T, U) -> bool, le: (T, T) -> bool, le': (U, U) -> bool, x: T, u: U,
                                              a: seq<T>, b: seq<U>)
    requires Paired(r, a, b) && r(x, u) && SamePlace(le, le', x, u, a, b)
    ensures Paired(r, Insert(le, x, a), Insert(le', u, b))
  {
    if a == [] || le(x, a[0]) {
      PairedCons(r, x, u, a, b);
    } else {
      var ra, rb := Insert(le, x, a[1..]), Insert(le', u, b[1..]);
      assert Paired(r, ra, rb) by {
        InsertPaired(r, le, le', x, u, a[1..], b[1..]);
      }
      PairedCons(r, a[0], b[0], ra, rb);
    }
  }

  /** Sorting related sequences by orders that agree gives related sequences. */
  lemma {:induction false} SortPaired<T(!new), U>(r: (T, U) -> bool, le: (T, T) -> bool, le': (U, U) -> bool,
                                        a: seq<T>, b: seq<U>)
    requires Paired(r, a, b) && SameOrder(r, le, le', a, b)
    ensures Paired(r, Sort(le, a), Sort(le', b))
  {
    if a != [] {
      var sa, sb := Sort(le, a[1..]), Sort(le', b[1..]);
      assert Paired(r, sa, sb) by {
        SortPaired(r, le, le', a[1..], b[1..]);
      }
      assert SamePlace(le, le', a[0], b[0], sa, sb) by {
        SortedPlaces(r, le, le', a, b, sa, sb);
      }
      InsertPaired(r, le, le', a[0], b[0], sa, sb);
    }
  }

  lemma SortedPlaces<T(!new), U>(r: (T, U) -> bool, le: (T, T) -> bool, le': (U, U) -> bool, a: seq<T>, b: seq<U>,
                       sa: seq<T>, sb: seq<U>)
    requires a != [] && Paired(r, a, b) && SameOrder(r, le, le', a, b)
    requires sa == Sort(le, a[1..]) && sb == Sort(le', b[1..]) && Paired(r, sa, sb)
    ensures SamePlace(le, le', a[0], b[0], sa, sb)
  {
    hide Sort;
    SortKeepsMembers(le, a[1..]);
    SortKeepsMembers(le', b[1..]);
    forall i | 0 <= i < |sa| ensures le(a[0], sa[i]) <==> le'(b[0], sb[i]) {
      assert sa[i] in a[1..] && sb[i] in b[1..];
      assert r(a[0], b[0]) && r(sa[i], sb[i]);
    }
  }

  predicate Distinct<T(==)>(s: seq<T>) {
    forall i, j | 0 <= i < j < |s| :: s[i] != s[j]
  }

  /** Distinct means that no element is counted twice. */
  lemma {:induction false} DistinctCounts<T>(s: seq<T>)
    ensures Distinct(s) <==> forall x :: multiset(s)[x] <= 1
  {
    if s != [] {
      var t, last := s[..|s| - 1], s[|s| - 1];
      assert s == t + [last];
      DistinctCounts(t);
      assert Distinct(s) <==> Distinct(t) && last !in t;
      assert last !in t <==> multiset(t)[last] == 0;
      assert forall x :: multiset(s)[x] == multiset(t)[x] + if x == last then 1 else 0;
    }
  }

  lemma SortKeepsDistinct<T>(le: (T, T) -> bool, s: seq<T>)
    requires Distinct(s)
    ensures Distinct(Sort(le, s))
  {
    DistinctCounts(s);
    DistinctCounts(Sort(le, s));
  }

  /** `le` separates the elements of a sequence. */
  ghost predicate Separates<T(!new)>(le: (T, T) -> bool, s: seq<T>) {
    forall x, y | x in s && y in s && le(x, y) && le(y, x) :: x == y
  }

  lemma HeadIsLeast<T(!new)>(le: (T, T) -> bool, s: seq<T>, x: T)
    requires TotalPreorder(le) && SortedBy(le, s) && x in s
    ensures le(s[0], x)
  {
    assert le(x, x);
  }

  lemma HeadAndTail<T>(s: seq<T>)
    requires s != []
    ensures multiset(s) == multiset{s[0]} + multiset(s[1..])
  {
    assert s == [s[0]] + s[1..];
  }

  lemma SameMembers<T>(a: seq<T>, b: seq<T>)
    requires multiset(a) == multiset(b)
    ensures forall x :: x in a <==> x in b
  {
    forall x ensures x in a <==> x in b {
      assert x in a <==> x in multiset(a);
      assert x in b <==> x in multiset(b);
    }
  }

  lemma SortedHeads<T(!new)>(le: (T, T) -> bool, a: seq<T>, b: seq<T>)
    requires TotalPreorder(le) && SortedBy(le, a) && SortedBy(le, b) && Separates(le, a)
    requires multiset(a) == multiset(b) && a != []
    ensures b != [] && a[0] == b[0]
    ensures multiset(a[1..]) == multiset(b[1..])
  {
    SameMembers(a, b);
    assert a[0] in b;
    HeadIsLeast(le, a, b[0]);
    HeadIsLeast(le, b, a[0]);
    HeadAndTail(a);
    HeadAndTail(b);
    assert multiset(a[1..]) == multiset(a) - multiset{a[0]};
  }

  /** Where `le` separates the elements, a sorted arrangement of a multiset is unique. */
  lemma {:induction false} SortedUnique<T(!new)>(le: (T, T) -> bool, a: seq<T>, b: seq<T>)
    requires TotalPreorder(le) && SortedBy(le, a) && SortedBy(le, b) && Separates(le, a)
    requires multiset(a) == multiset(b)
    ensures a == b
  {
    if a == [] {
      assert |multiset(b)| == 0;
    } else {
      SortedHeads(le, a, b);
      SortedUnique(le, a[1..], b[1..]);
      assert a == [a[0]] + a[1..] && b == [b[0]] + b[1..];
    }
  }
}
