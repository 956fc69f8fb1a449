/**
 JSON values as the backend handles them. A dict keeps its insertion order, because the
 bytes sent to the model and to the database depend on it, so it is a sequence of
 key/value pairs. `Dumped(doc)` is the string that serialising `doc` gives; `Str` is any
 other string, so parsing succeeds on exactly the `Dumped` ones.
 */
module Json {
  import opened Sorting

  datatype Option<+T> = None | Some(value: T)

  type Dict = seq<(string, Json)>

  datatype Json =
    | Null
    | Bool(b: bool)
    | Int(n: int)
    | Real(r: real)
    | Str(s: string)
    | Dumped(doc: Json)
    | Arr(items: seq<Json>)
    | Obj(fields: Dict)

  /** A Python dict holds each key once, at every depth. */
  predicate WellFormed(j: Json) {
    match j
    case Arr(items) => forall i | 0 <= i < |items| :: WellFormed(items[i])
    case Obj(fields) => DistinctKeys(fields) && forall i | 0 <= i < |fields| :: WellFormed(fields[i].1)
    case _ => true
  }

  predicate DistinctKeys(d: Dict) {
    forall i, j | 0 <= i < j < |d| :: d[i].0 != d[j].0
  }

  predicate WellFormedDict(d: Dict) {
    WellFormed(Obj(d))
  }

  /** `dict.get`, with Null for a missing key. */
  function Get(d: Dict, key: string): Json {
    if d == [] then Null
    else if d[0].0 == key then d[0].1
    else Get(d[1..], key)
  }

  function Keys(d: Dict): set<string> {
    set i | 0 <= i < |d| :: d[i].0
  }

  lemma {:induction false} GetIs(d: Dict, i: nat)
    requires DistinctKeys(d) && i < |d|
    ensures Get(d, d[i].0) == d[i].1
  {
    if i > 0 {
      GetIs(d[1..], i - 1);
    }
  }

  lemma {:induction false} GetMissing(d: Dict, key: string)
    requires key !in Keys(d)
    ensures Get(d, key) == Null
  {
    if d != [] {
      assert d[0].0 in Keys(d);
      assert forall i | 0 <= i < |d[1..]| :: d[1..][i].0 == d[i + 1].0 && d[i + 1].0 in Keys(d);
      GetMissing(d[1..], key);
    }
  }

  // --- the key order of strings --------------------------------------------------

  /** Python's `<=` on strings: lexicographic by code point. */
  predicate StringLe(a: string, b: string) {
    a == [] || (b != [] && (a[0] < b[0] || (a[0] == b[0] && StringLe(a[1..], b[1..]))))
  }

  lemma {:induction false} StringLeTotal(a: string, b: string)
    ensures StringLe(a, b) || StringLe(b, a)
    ensures StringLe(a, b) && StringLe(b, a) ==> a == b
  {
    if a != [] && b != [] {
      StringLeTotal(a[1..], b[1..]);
      assert a == [a[0]] + a[1..] && b == [b[0]] + b[1..];
    }
  }

  lemma {:induction false} StringLeTransitive(a: string, b: string, c: string)
    requires StringLe(a, b) && StringLe(b, c)
    ensures StringLe(a, c)
  {
    if a != [] && a[0] == b[0] == c[0] {
      StringLeTransitive(a[1..], b[1..], c[1..]);
    }
  }

  predicate KeyLe(p: (string, Json), q: (string, Json)) {
    StringLe(p.0, q.0)
  }

  lemma KeyLePreorder()
    ensures TotalPreorder(KeyLe)
  {
    forall p, q ensures KeyLe(p, q) || KeyLe(q, p) {
      StringLeTotal(p.0, q.0);
    }
    forall p, q, r | KeyLe(p, q) && KeyLe(q, r) ensures KeyLe(p, r) {
      StringLeTransitive(p.0, q.0, r.0);
    }
  }

  // --- canonical form ----------------------------------------------------------------

  /** `_canonical`: every dict, at every depth, with its keys in sorted order. */
  function Canonical(j: Json): Json {
    match j
    case Arr(items) =>
      Arr(seq(|items|, i requires 0 <= i < |items| => Canonical(items[i])))
    case Obj(fields) =>
      Obj(Sort(KeyLe, seq(|fields|, i requires 0 <= i < |fields| => (fields[i].0, Canonical(fields[i].1)))))
    case _ => j
  }

  function CanonicalDict(d: Dict): Dict {
    Canonical(Obj(d)).fields
  }

  /** The same data up to the order of dict keys, at any depth: what a jsonb round trip keeps. */
  ghost predicate SameData(a: Json, b: Json) {
    match (a, b)
    case (Arr(x), Arr(y)) => |x| == |y| && forall i | 0 <= i < |x| :: SameData(x[i], y[i])
    case (Obj(f), Obj(g)) => Keys(f) == Keys(g) && forall i | 0 <= i < |f| :: SameData(f[i].1, Get(g, f[i].0))
    case _ => a == b
  }

  ghost predicate SameLookups(d: Dict, e: Dict) {
    Keys(d) == Keys(e) && forall k | k in Keys(d) :: Get(d, k) == Get(e, k)
  }

  lemma SamePairsSameLookups(d: Dict, e: Dict)
    requires DistinctKeys(d) && multiset(d) == multiset(e)
    ensures DistinctKeys(e) && SameLookups(d, e)
  {
    forall i, j | 0 <= i < j < |e| ensures e[i].0 != e[j].0 {
      if e[i].0 == e[j].0 {
        var a := Position(d, e, i);
        var b := Position(d, e, j);
        assert a == b;
        TwiceInMultiset(e, i, j);
        OnceInMultiset(d, a);
        assert false;
      }
    }
    forall k ensures k in Keys(d) <==> k in Keys(e) {
      if k in Keys(d) {
        var i :| 0 <= i < |d| && d[i].0 == k;
        var j := Position(e, d, i);
      }
      if k in Keys(e) {
        var j :| 0 <= j < |e| && e[j].0 == k;
        var i := Position(d, e, j);
      }
    }
    forall k | k in Keys(d) ensures Get(d, k) == Get(e, k) {
      var i :| 0 <= i < |d| && d[i].0 == k;
      var j := Position(e, d, i);
      GetIs(d, i);
      GetIs(e, j);
    }
  }

  lemma Position(d: Dict, e: Dict, j: nat) returns (i: nat)
    requires multiset(d) == multiset(e) && j < |e|
    ensures i < |d| && d[i] == e[j]
  {
    assert e[j] in multiset(d);
    i :| i < |d| && d[i] == e[j];
  }

  lemma TwiceInMultiset(s: Dict, i: nat, j: nat)
    requires i < j < |s| && s[i] == s[j]
    ensures multiset(s)[s[i]] >= 2
  {
    assert s == s[..i] + [s[i]] + s[i+1..j] + [s[j]] + s[j+1..];
  }

  lemma OnceInMultiset(s: Dict, i: nat)
    requires DistinctKeys(s) && i < |s|
    ensures multiset(s)[s[i]] == 1
  {
    assert s == s[..i] + [s[i]] + s[i+1..];
    assert s[i] !in s[..i] && s[i] !in s[i+1..];
  }

  /** Strictly sorted dicts that answer every lookup alike are the same sequence of pairs. */
  lemma {:induction false} SortedDictUnique(a: Dict, b: Dict)
    requires DistinctKeys(a) && SortedBy(KeyLe, a) && DistinctKeys(b) && SortedBy(KeyLe, b)
    requires SameLookups(a, b)
    ensures a == b
  {
    if a != [] && b != [] {
      FirstKeyEqual(a, b);
      assert a[0].0 in Keys(a);
      assert a[0] == b[0];
      DropFirstKey(a);
      DropFirstKey(b);
      SortedDictUnique(a[1..], b[1..]);
      assert a == [a[0]] + a[1..] && b == [b[0]] + b[1..];
    } else {
      assert a != [] ==> a[0].0 in Keys(b);
      assert b != [] ==> b[0].0 in Keys(a);
    }
  }

  lemma FirstKeyEqual(a: Dict, b: Dict)
    requires a != [] && b != [] && Keys(a) == Keys(b) && SortedBy(KeyLe, a) && SortedBy(KeyLe, b)
    ensures a[0].0 == b[0].0
  {
    assert a[0].0 in Keys(b) && b[0].0 in Keys(a);
    var i :| 0 <= i < |b| && b[i].0 == a[0].0;
    var j :| 0 <= j < |a| && a[j].0 == b[0].0;
    StringLeTotal(a[0].0, b[0].0);
    assert i == 0 || KeyLe(b[0], b[i]);
    assert j == 0 || KeyLe(a[0], a[j]);
  }

  lemma DropFirstKey(a: Dict)
    requires a != [] && DistinctKeys(a)
    ensures Keys(a[1..]) == Keys(a) - {a[0].0}
    ensures forall k | k in Keys(a[1..]) :: Get(a[1..], k) == Get(a, k)
  {
    forall k ensures k in Keys(a[1..]) <==> k in Keys(a) - {a[0].0} {
      if k in Keys(a) - {a[0].0} {
        var i :| 0 <= i < |a| && a[i].0 == k;
        assert a[1..][i - 1].0 == k;
      }
    }
  }

  /** What `_canonical` does to one dict: keys sorted, every lookup the canonical form of the old one. */
  lemma CanonicalDictFacts(d: Dict)
    requires DistinctKeys(d)
    ensures DistinctKeys(CanonicalDict(d)) && SortedBy(KeyLe, CanonicalDict(d))
    ensures Keys(CanonicalDict(d)) == Keys(d)
    ensures forall k :: Get(CanonicalDict(d), k) == Canonical(Get(d, k))
  {
    var f := CanonicalValues(d);
    CanonicalLookupsOf(d, f);
    KeyLePreorder();
    SortSorts(KeyLe, f);
    assert CanonicalDict(d) == Sort(KeyLe, f);
    hide Sort, SortedBy, CanonicalValues, Get;
    SamePairsSameLookups(f, CanonicalDict(d));
    forall k ensures Get(CanonicalDict(d), k) == Canonical(Get(d, k)) {
      if k !in Keys(d) {
        GetMissing(d, k);
        GetMissing(CanonicalDict(d), k);
      }
    }
  }

  /** The dict with its values canonical, before its keys are sorted. */
  function CanonicalValues(d: Dict): Dict {
    seq(|d|, i requires 0 <= i < |d| => (d[i].0, Canonical(d[i].1)))
  }

  lemma CanonicalLookupsOf(d: Dict, f: Dict)
    requires DistinctKeys(d) && f == CanonicalValues(d)
    ensures DistinctKeys(f) && Keys(f) == Keys(d)
    ensures forall k | k in Keys(d) :: Get(f, k) == Canonical(Get(d, k))
  {
    forall k ensures k in Keys(d) <==> k in Keys(f) {
      if k in Keys(d) {
        var i :| 0 <= i < |d| && d[i].0 == k;
        assert f[i].0 == k;
      }
    }
    forall k | k in Keys(d) ensures Get(f, k) == Canonical(Get(d, k)) {
      var i :| 0 <= i < |d| && d[i].0 == k;
      GetIs(d, i);
      GetIs(f, i);
    }
  }

  /** Two dicts have the same canonical form if and only if they hold the same keys, and the same data under each. */
  lemma DictsIff(f: Dict, g: Dict)
    requires DistinctKeys(f) && DistinctKeys(g)
    requires forall i | 0 <= i < |f| && f[i].0 in Keys(g) ::
               && Get(f, f[i].0) == f[i].1
               && (Canonical(f[i].1) == Canonical(Get(g, f[i].0)) <==> SameData(f[i].1, Get(g, f[i].0)))
    ensures Canonical(Obj(f)) == Canonical(Obj(g)) <==> SameData(Obj(f), Obj(g))
  {
    assert Canonical(Obj(f)) == Obj(CanonicalDict(f)) && Canonical(Obj(g)) == Obj(CanonicalDict(g));
    if SameData(Obj(f), Obj(g)) {
      SameFieldsSameForm(f, g);
    }
    if CanonicalDict(f) == CanonicalDict(g) {
      SameFormSameFields(f, g);
    }
  }

  lemma SameFormSameFields(f: Dict, g: Dict)
    requires DistinctKeys(f) && DistinctKeys(g) && CanonicalDict(f) == CanonicalDict(g)
    requires forall i | 0 <= i < |f| && f[i].0 in Keys(g) ::
               && Get(f, f[i].0) == f[i].1
               && (Canonical(f[i].1) == Canonical(Get(g, f[i].0)) ==> SameData(f[i].1, Get(g, f[i].0)))
    ensures SameData(Obj(f), Obj(g))
  {
    CanonicalDictFacts(f);
    CanonicalDictFacts(g);
    hide Get, Canonical, CanonicalDict, DistinctKeys, SortedBy;
    forall i | 0 <= i < |f| ensures f[i].0 in Keys(g) && SameData(f[i].1, Get(g, f[i].0)) {
      assert f[i].0 in Keys(f);
      assert Get(CanonicalDict(f), f[i].0) == Get(CanonicalDict(g), f[i].0);
    }
  }

  lemma SameFieldsSameForm(f: Dict, g: Dict)
    requires DistinctKeys(f) && DistinctKeys(g) && Keys(f) == Keys(g)
    requires forall i | 0 <= i < |f| :: Get(f, f[i].0) == f[i].1 && Canonical(f[i].1) == Canonical(Get(g, f[i].0))
    ensures CanonicalDict(f) == CanonicalDict(g)
  {
    CanonicalDictFacts(f);
    CanonicalDictFacts(g);
    hide Get, Canonical, CanonicalDict, DistinctKeys, SortedBy;
    forall k | k in Keys(f) ensures Get(CanonicalDict(f), k) == Get(CanonicalDict(g), k) {
      var i :| 0 <= i < |f| && f[i].0 == k;
    }
    SortedDictUnique(CanonicalDict(f), CanonicalDict(g));
  }

  lemma ListsIff(x: seq<Json>, y: seq<Json>)
    requires forall i | 0 <= i < |x| == |y| :: Canonical(x[i]) == Canonical(y[i]) <==> SameData(x[i], y[i])
    ensures Canonical(Arr(x)) == Canonical(Arr(y)) <==> SameData(Arr(x), Arr(y))
  {
    var p, q := Canonical(Arr(x)).items, Canonical(Arr(y)).items;
    assert |p| == |x| && |q| == |y|;
    if |x| == |y| {
      assert forall i | 0 <= i < |x| :: p[i] == Canonical(x[i]) && q[i] == Canonical(y[i]);
    }
  }

  /** Canonical form is blind to key order at every depth, and to nothing else. */
  lemma {:induction false} CanonicalIffSameData(a: Json, b: Json)
    requires WellFormed(a) && WellFormed(b)
    ensures Canonical(a) == Canonical(b) <==> SameData(a, b)
    decreases a
  {
    match (a, b) {
      case (Arr(x), Arr(y)) =>
        forall i | 0 <= i < |x| == |y| ensures Canonical(x[i]) == Canonical(y[i]) <==> SameData(x[i], y[i]) {
          CanonicalIffSameData(x[i], y[i]);
        }
        ListsIff(x, y);
      case (Obj(f), Obj(g)) =>
        forall i | 0 <= i < |f| && f[i].0 in Keys(g)
          ensures Canonical(f[i].1) == Canonical(Get(g, f[i].0)) <==> SameData(f[i].1, Get(g, f[i].0))
          ensures Get(f, f[i].0) == f[i].1
        {
          var j :| 0 <= j < |g| && g[j].0 == f[i].0;
          GetIs(f, i);
          GetIs(g, j);
          CanonicalIffSameData(f[i].1, g[j].1);
        }
        DictsIff(f, g);
      case _ =>
    }
  }

  /** Canonicalising only reorders, so the result is a well-formed value with the same data. */
  lemma {:induction false} CanonicalKeepsData(a: Json)
    requires WellFormed(a)
    ensures WellFormed(Canonical(a)) && SameData(a, Canonical(a))
  {
    match a {
      case Arr(x) =>
        forall i | 0 <= i < |x| ensures WellFormed(Canonical(x[i])) && SameData(x[i], Canonical(x[i])) {
          CanonicalKeepsData(x[i]);
        }
      case Obj(f) =>
        CanonicalDictFacts(f);
        var g := CanonicalDict(f);
        forall i | 0 <= i < |f|
          ensures WellFormed(Canonical(f[i].1)) && SameData(f[i].1, Get(g, f[i].0))
        {
          CanonicalKeepsData(f[i].1);
          GetIs(f, i);
        }
        forall j | 0 <= j < |g| ensures WellFormed(g[j].1) {
          assert g[j].0 in Keys(f);
          var i :| 0 <= i < |f| && f[i].0 == g[j].0;
          GetIs(f, i);
          GetIs(g, j);
        }
      case _ =>
    }
  }

  /** Canonicalising twice is canonicalising once. */
  lemma CanonicalIdempotent(a: Json)
    requires WellFormed(a)
    ensures Canonical(Canonical(a)) == Canonical(a)
  {
    CanonicalKeepsData(a);
    CanonicalIffSameData(a, Canonical(a));
  }

  /** Any reordering that a jsonb column makes of a stored value is undone by canonicalising on read. */
  lemma ReorderedThenCanonical(stored: Json, read: Json)
    requires WellFormed(stored) && WellFormed(read)
    requires SameData(Canonical(stored), read)
    ensures Canonical(read) == Canonical(stored)
  {
    CanonicalKeepsData(stored);
    CanonicalIffSameData(Canonical(stored), read);
    CanonicalIdempotent(stored);
  }
}
