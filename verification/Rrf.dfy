/** Reciprocal rank fusion of the search legs (backend/app/kb/search.py). Scores are real numbers. */
module Rrf {
  import opened Json
  import opened Sorting

  const RRF_K: nat := 60

  datatype Row = Row(id: int, topic: string, section: string, question: string, answer: string, tat: Option<string>)

  datatype Hit = Hit(row: Row, score: real)

  // --- what the fusion means ---------------------------------------------------------------------------

  /** What one leg gives a chunk: 1/(k + rank) for every rank at which the leg holds it. */
  function Gain(k: nat, leg: seq<Row>, id: int): (g: real)
    ensures g >= 0.0
  {
    if leg == [] then 0.0
    else Gain(k, leg[..|leg| - 1], id) + if leg[|leg| - 1].id == id then 1.0 / (k + |leg|) as real else 0.0
  }

  function Score(k: nat, legs: seq<seq<Row>>, id: int): real {
    if legs == [] then 0.0
    else Score(k, legs[..|legs| - 1], id) + Gain(k, legs[|legs| - 1], id)
  }

  ghost predicate Holds(leg: seq<Row>, id: int) {
    exists p :: 0 <= p < |leg| && leg[p].id == id
  }

  ghost predicate Found(legs: seq<seq<Row>>, id: int) {
    exists i :: 0 <= i < |legs| && Holds(legs[i], id)
  }

  /** The order of the answer: best score first, the smaller id on a tie. */
  predicate Above(score: int -> real, x: int, y: int) {
    score(x) > score(y) || (score(x) == score(y) && x <= y)
  }

  /** An answer: the chunks found, each once, best first. */
  ghost predicate Ranked(score: int -> real, legs: seq<seq<Row>>, ids: seq<int>) {
    && (forall id :: id in ids <==> Found(legs, id))
    && Distinct(ids)
    && (forall i, j | 0 <= i < j < |ids| :: Above(score, ids[i], ids[j]))
  }

  function Ids(hits: seq<Hit>): seq<int> {
    seq(|hits|, i requires 0 <= i < |hits| => hits[i].row.id)
  }

  /** A hit shows the first row met for its chunk, with the rounded score. */
  ghost predicate HitOk(k: nat, legs: seq<seq<Row>>, round: real -> real, h: Hit) {
    && h.score == round(Score(k, legs, h.row.id))
    && exists row :: IsFirst(legs, row) && h.row == Shown(row)
  }

  ghost predicate Fused(k: nat, legs: seq<seq<Row>>, round: real -> real, hits: seq<Hit>) {
    && Ranked(id => Score(k, legs, id), legs, Ids(hits))
    && forall h | h in hits :: HitOk(k, legs, round, h)
  }

  /** The row a chunk is shown with: the first one met. */
  ghost predicate IsFirst(legs: seq<seq<Row>>, row: Row) {
    exists n, p :: 0 <= n < |legs| && 0 <= p < |legs[n]| && FirstAt(legs, n, p, row)
  }

  ghost predicate FirstAt(legs: seq<seq<Row>>, n: int, p: int, row: Row)
    requires 0 <= n < |legs| && 0 <= p < |legs[n]|
  {
    && legs[n][p] == row
    && (forall m | 0 <= m < n :: !Holds(legs[m], row.id))
    && (forall q | 0 <= q < p :: legs[n][q].id != row.id)
  }

  // --- the loops ---------------------------------------------------------------------------------------

  /** `scores` after the rows seen so far. */
  ghost predicate ScoresOf(k: nat, seen: seq<seq<Row>>, scores: map<int, real>) {
    && (forall id :: id in scores <==> Found(seen, id))
    && (forall id :: Get(scores, id) == Score(k, seen, id))
  }

  /** `rows` after the rows seen so far. */
  ghost predicate RowsOf(seen: seq<seq<Row>>, rows: map<int, Row>) {
    && (forall id :: id in rows <==> Found(seen, id))
    && (forall id | id in rows :: rows[id].id == id && IsFirst(seen, rows[id]))
  }

  /** The keys of both dicts, in the order in which they were added. */
  ghost predicate KeysOf(seen: seq<seq<Row>>, keys: seq<int>) {
    && (forall id :: id in keys <==> Found(seen, id))
    && Distinct(keys)
  }

  ghost predicate Gathered(k: nat, seen: seq<seq<Row>>, scores: map<int, real>, rows: map<int, Row>, keys: seq<int>) {
    ScoresOf(k, seen, scores) && RowsOf(seen, rows) && KeysOf(seen, keys)
  }

  /** `scores.get(id, 0.0)` */
  function Get(scores: map<int, real>, id: int): real {
    if id in scores then scores[id] else 0.0
  }

  /**
   `rrf_fuse`. The chunks found, each once, best score first. The scores shown are rounded after the
   ordering; `round` is that last step.
   */
  method RrfFuse(legs: seq<seq<Row>>, k: nat, round: real -> real) returns (hits: seq<Hit>)
    ensures Fused(k, legs, round, hits)
  {
    var scores: map<int, real> := map[];
    var rows: map<int, Row> := map[];
    var keys: seq<int> := [];
    for n := 0 to |legs|
      invariant Gathered(k, legs[..n], scores, rows, keys)
    {
      scores, rows, keys := FuseLeg(k, legs[..n], legs[n], scores, rows, keys);
      assert legs[..n] + [legs[n]] == legs[..n + 1];
    }
    assert legs[..|legs|] == legs;
    var score := id => Get(scores, id);
    var ordered := Sort((x, y) => Above(score, x, y), keys);
    SortedKeys(k, legs, scores, keys, score, ordered);
    hits := Render(k, legs, scores, rows, ordered, round);
  }

  /** One round of the outer loop. */
  method FuseLeg(k: nat, ghost done: seq<seq<Row>>, leg: seq<Row>, scores0: map<int, real>, rows0: map<int, Row>,
                 keys0: seq<int>)
    returns (scores: map<int, real>, rows: map<int, Row>, keys: seq<int>)
    requires Gathered(k, done, scores0, rows0, keys0)
    ensures Gathered(k, done + [leg], scores, rows, keys)
  {
    scores, rows, keys := scores0, rows0, keys0;
    NewLeg(k, done, scores, rows, keys);
    assert leg[..0] == [];
    for rank := 0 to |leg|
      invariant Gathered(k, done + [leg[..rank]], scores, rows, keys)
    {
      var row := leg[rank];
      ghost var s, r, ks := scores, rows, keys;
      keys := if row.id in scores then keys else keys + [row.id];
      scores := scores[row.id := Get(scores, row.id) + 1.0 / (k + rank + 1) as real];
      rows := if row.id in rows then rows else rows[row.id := row];
      NewRow(k, done, leg, rank, s, r, ks, scores, rows, keys);
    }
    assert leg[..|leg|] == leg;
  }

  /** The list handed out. */
  method Render(k: nat, ghost legs: seq<seq<Row>>, scores: map<int, real>, rows: map<int, Row>, ordered: seq<int>,
                round: real -> real)
    returns (hits: seq<Hit>)
    requires ScoresOf(k, legs, scores) && RowsOf(legs, rows)
    requires Ranked(id => Score(k, legs, id), legs, ordered)
    ensures Fused(k, legs, round, hits)
  {
    hits := [];
    for i := 0 to |ordered|
      invariant Ids(hits) == ordered[..i]
      invariant forall h | h in hits :: HitOk(k, legs, round, h)
    {
      var id := ordered[i];
      assert id in rows && id in scores && Get(scores, id) == scores[id];
      var hit := Hit(Shown(rows[id]), round(scores[id]));
      assert Ids(hits + [hit]) == Ids(hits) + [id];
      hits := hits + [hit];
    }
    assert ordered[..|ordered|] == ordered;
  }

  /** The fields handed out; an empty `tat` becomes none. */
  function Shown(row: Row): (shown: Row)
    ensures shown.id == row.id && shown.topic == row.topic && shown.section == row.section
    ensures shown.question == row.question && shown.answer == row.answer
    ensures shown.tat.Some? <==> row.tat.Some? && row.tat.value != ""
    ensures shown.tat.Some? ==> shown.tat == row.tat
  {
    if row.tat == Some("") then row.(tat := None) else row
  }

  lemma FoundSnoc(done: seq<seq<Row>>, part: seq<Row>, id: int)
    ensures Found(done + [part], id) <==> Found(done, id) || Holds(part, id)
  {
    var all := done + [part];
    assert all[|done|] == part;
    assert forall i | 0 <= i < |done| :: all[i] == done[i];
  }

  lemma HoldsSnoc(part: seq<Row>, row: Row, id: int)
    ensures Holds(part + [row], id) <==> Holds(part, id) || id == row.id
  {
    var all := part + [row];
    assert all[|part|] == row;
    assert forall i | 0 <= i < |part| :: all[i] == part[i];
  }

  lemma ScoreSnoc(k: nat, done: seq<seq<Row>>, part: seq<Row>, id: int)
    ensures Score(k, done + [part], id) == Score(k, done, id) + Gain(k, part, id)
  {
    assert (done + [part])[..|done|] == done;
  }

  lemma GainSnoc(k: nat, part: seq<Row>, row: Row, id: int)
    ensures Gain(k, part + [row], id)
            == Gain(k, part, id) + if row.id == id then 1.0 / (k + |part| + 1) as real else 0.0
  {
    assert (part + [row])[..|part|] == part;
  }

  lemma {:induction false} NoGain(k: nat, leg: seq<Row>, id: int)
    requires !Holds(leg, id)
    ensures Gain(k, leg, id) == 0.0
  {
    if leg != [] {
      var n := |leg| - 1;
      assert leg == leg[..n] + [leg[n]];
      HoldsSnoc(leg[..n], leg[n], id);
      NoGain(k, leg[..n], id);
    }
  }

  /** A first row stays first when rows are added behind it. */
  lemma FirstStays(before: seq<seq<Row>>, now: seq<seq<Row>>, row: Row)
    requires IsFirst(before, row) && |before| <= |now|
    requires forall i | 0 <= i < |before| :: before[i] <= now[i] && (i < |before| - 1 ==> before[i] == now[i])
    ensures IsFirst(now, row)
  {
    var n, p :| 0 <= n < |before| && 0 <= p < |before[n]| && FirstAt(before, n, p, row);
    assert now[n][p] == row;
    assert FirstAt(now, n, p, row);
  }

  /** A new leg changes nothing before its first row. */
  lemma NewLeg(k: nat, done: seq<seq<Row>>, scores: map<int, real>, rows: map<int, Row>, keys: seq<int>)
    requires Gathered(k, done, scores, rows, keys)
    ensures Gathered(k, done + [[]], scores, rows, keys)
  {
    forall id ensures Found(done + [[]], id) <==> Found(done, id) {
      FoundSnoc(done, [], id);
    }
    forall id ensures Score(k, done + [[]], id) == Score(k, done, id) {
      ScoreSnoc(k, done, [], id);
    }
    forall id | id in rows ensures IsFirst(done + [[]], rows[id]) {
      FirstStays(done, done + [[]], rows[id]);
    }
  }

  lemma FoundOneMore(done: seq<seq<Row>>, part: seq<Row>, row: Row, id: int)
    ensures Found(done + [part + [row]], id) <==> Found(done + [part], id) || id == row.id
  {
    FoundSnoc(done, part, id);
    FoundSnoc(done, part + [row], id);
    HoldsSnoc(part, row, id);
  }

  lemma ScoreOneMore(k: nat, done: seq<seq<Row>>, part: seq<Row>, row: Row, id: int)
    ensures Score(k, done + [part + [row]], id) ==
            Score(k, done + [part], id) + if row.id == id then 1.0 / (k + |part| + 1) as real else 0.0
  {
    ScoreSnoc(k, done, part, id);
    ScoreSnoc(k, done, part + [row], id);
    GainSnoc(k, part, row, id);
  }

  lemma FirstOneMore(done: seq<seq<Row>>, part: seq<Row>, row: Row)
    requires !Found(done + [part], row.id)
    ensures IsFirst(done + [part + [row]], row)
  {
    var now := done + [part + [row]];
    forall m | 0 <= m < |done| ensures !Holds(now[m], row.id) {
      assert now[m] == (done + [part])[m];
    }
    assert !Holds(part, row.id) by {
      assert (done + [part])[|done|] == part;
    }
    assert now[|done|][|part|] == row;
    assert FirstAt(now, |done|, |part|, row);
  }

  /** One row of a leg. */
  lemma NewRow(k: nat, done: seq<seq<Row>>, leg: seq<Row>, rank: nat, scores: map<int, real>, rows: map<int, Row>,
               keys: seq<int>,
               scores': map<int, real>, rows': map<int, Row>, keys': seq<int>)
    requires rank < |leg| && Gathered(k, done + [leg[..rank]], scores, rows, keys)
    requires scores' == scores[leg[rank].id := Get(scores, leg[rank].id) + 1.0 / (k + rank + 1) as real]
    requires rows' == if leg[rank].id in rows then rows else rows[leg[rank].id := leg[rank]]
    requires keys' == if leg[rank].id in scores then keys else keys + [leg[rank].id]
    ensures Gathered(k, done + [leg[..rank + 1]], scores', rows', keys')
  {
    var seen := done + [leg[..rank + 1]];
    assert leg[..rank + 1] == leg[..rank] + [leg[rank]];
    assert ScoresOf(k, seen, scores') by {
      NewScore(k, done, leg[..rank], leg[rank], scores, scores');
    }
    assert RowsOf(seen, rows') by {
      NewShown(done, leg[..rank], leg[rank], rows);
    }
    assert KeysOf(seen, keys') by {
      NewKey(done, leg[..rank], leg[rank], keys);
    }
  }

  lemma NewScore(k: nat, done: seq<seq<Row>>, part: seq<Row>, row: Row, scores: map<int, real>, scores': map<int, real>)
    requires ScoresOf(k, done + [part], scores)
    requires scores' == scores[row.id := Get(scores, row.id) + 1.0 / (k + |part| + 1) as real]
    ensures ScoresOf(k, done + [part + [row]], scores')
  {
    var before, now := done + [part], done + [part + [row]];
    forall id ensures (id in scores' <==> Found(now, id)) && Get(scores', id) == Score(k, now, id) {
      FoundOneMore(done, part, row, id);
      ScoreOneMore(k, done, part, row, id);
      assert id in scores <==> Found(before, id);
      assert Get(scores, id) == Score(k, before, id);
    }
  }

  lemma NewShown(done: seq<seq<Row>>, part: seq<Row>, row: Row, rows: map<int, Row>)
    requires RowsOf(done + [part], rows)
    ensures RowsOf(done + [part + [row]], if row.id in rows then rows else rows[row.id := row])
  {
    var before, now := done + [part], done + [part + [row]];
    forall id ensures Found(now, id) <==> Found(before, id) || id == row.id {
      FoundOneMore(done, part, row, id);
    }
    forall id | id in rows ensures IsFirst(now, rows[id]) {
      FirstStays(before, now, rows[id]);
    }
    if row.id !in rows {
      FirstOneMore(done, part, row);
    }
  }

  lemma NewKey(done: seq<seq<Row>>, part: seq<Row>, row: Row, keys: seq<int>)
    requires KeysOf(done + [part], keys)
    ensures KeysOf(done + [part + [row]], if Found(done + [part], row.id) then keys else keys + [row.id])
  {
    forall id ensures Found(done + [part + [row]], id) <==> Found(done + [part], id) || id == row.id {
      FoundOneMore(done, part, row, id);
    }
  }

  lemma AboveIsTotal(score: int -> real)
    ensures TotalPreorder((x, y) => Above(score, x, y))
  {
  }

  /** Sorting the keys by score and id ranks the chunks. */
  lemma SortedKeys(k: nat, legs: seq<seq<Row>>, scores: map<int, real>, keys: seq<int>, score: int -> real,
                   ordered: seq<int>)
    requires ScoresOf(k, legs, scores) && KeysOf(legs, keys)
    requires score == (id => Get(scores, id))
    requires ordered == Sort((x, y) => Above(score, x, y), keys)
    ensures Ranked(id => Score(k, legs, id), legs, ordered)
  {
    var le := (x, y) => Above(score, x, y);
    AboveIsTotal(score);
    SortSorts(le, keys);
    SortKeepsMembers(le, keys);
    SortKeepsDistinct(le, keys);
    forall i, j | 0 <= i < j < |ordered| ensures Above(id => Score(k, legs, id), ordered[i], ordered[j]) {
      assert le(ordered[i], ordered[j]);
      assert score(ordered[i]) == Score(k, legs, ordered[i]) && score(ordered[j]) == Score(k, legs, ordered[j]);
    }
  }

  // --- what the fusion guarantees ----------------------------------------------------------------------------

  predicate DistinctIds(leg: seq<Row>) {
    forall i, j | 0 <= i < j < |leg| :: leg[i].id != leg[j].id
  }

  /** In a leg without repeats a chunk gains from its one rank. */
  lemma {:induction false} GainAt(k: nat, leg: seq<Row>, p: nat)
    requires DistinctIds(leg) && p < |leg|
    ensures Gain(k, leg, leg[p].id) == 1.0 / (k + p + 1) as real
  {
    var n := |leg| - 1;
    if p == n {
      NoGain(k, leg[..n], leg[p].id);
    } else {
      GainAt(k, leg[..n], p);
    }
  }

  /** Scores fix the answer: two rankings of the same chunks by the same scores are the same list. */
  lemma RankingUnique(score: int -> real, legs: seq<seq<Row>>, score': int -> real, legs': seq<seq<Row>>, a: seq<int>,
                      b: seq<int>)
    requires Ranked(score, legs, a) && Ranked(score', legs', b)
    requires forall id :: score(id) == score'(id)
    requires forall id :: Found(legs, id) <==> Found(legs', id)
    ensures a == b
  {
    var le := (x, y) => Above(score, x, y);
    AboveIsTotal(score);
    forall i, j | 0 <= i < j < |b| ensures le(b[i], b[j]) {
      assert Above(score', b[i], b[j]);
    }
    SameIds(a, b);
    SortedUnique(le, a, b);
  }

  lemma SameIds(a: seq<int>, b: seq<int>)
    requires Distinct(a) && Distinct(b) && forall x :: x in a <==> x in b
    ensures multiset(a) == multiset(b)
  {
    DistinctCounts(a);
    DistinctCounts(b);
    forall x ensures multiset(a)[x] == multiset(b)[x] {
      assert x in a <==> x in multiset(a);
      assert x in b <==> x in multiset(b);
    }
  }

  /** Swapping the legs changes neither the order nor the scores. */
  lemma SwapLegs(k: nat, a: seq<Row>, b: seq<Row>, round: real -> real, one: seq<Hit>, two: seq<Hit>)
    requires Fused(k, [a, b], round, one) && Fused(k, [b, a], round, two)
    ensures Ids(one) == Ids(two)
    ensures forall i | 0 <= i < |one| :: i < |two| && one[i].score == two[i].score
  {
    forall id ensures Score(k, [a, b], id) == Score(k, [b, a], id) {
      TwoLegs(k, a, b, id);
      TwoLegs(k, b, a, id);
    }
    forall id ensures Found([a, b], id) <==> Found([b, a], id) {
      assert [a, b][0] == a && [a, b][1] == b && [b, a][0] == b && [b, a][1] == a;
    }
    RankingUnique(id => Score(k, [a, b], id), [a, b], id => Score(k, [b, a], id), [b, a], Ids(one), Ids(two));
    forall i | 0 <= i < |one| ensures i < |two| && one[i].score == two[i].score {
      assert i < |Ids(one)| && one[i].row.id == Ids(one)[i] == Ids(two)[i] == two[i].row.id;
      assert HitOk(k, [a, b], round, one[i]) && HitOk(k, [b, a], round, two[i]);
    }
  }

  lemma TwoLegs(k: nat, a: seq<Row>, b: seq<Row>, id: int)
    ensures Score(k, [a, b], id) == Gain(k, a, id) + Gain(k, b, id)
  {
    assert [a, b] == [a] + [b] && [a] == [] + [a];
    ScoreSnoc(k, [a], b, id);
    ScoreSnoc(k, [], a, id);
  }

  /** Without the vector leg the answer keeps the order of the text search. */
  lemma OneLegKeepsOrder(k: nat, leg: seq<Row>, round: real -> real, hits: seq<Hit>)
    requires DistinctIds(leg) && Fused(k, [leg], round, hits)
    ensures Ids(hits) == seq(|leg|, i requires 0 <= i < |leg| => leg[i].id)
  {
    var ids := seq(|leg|, i requires 0 <= i < |leg| => leg[i].id);
    var score := id => Score(k, [leg], id);
    forall p | 0 <= p < |leg| ensures score(leg[p].id) == 1.0 / (k + p + 1) as real {
      assert [leg] == [] + [leg];
      ScoreSnoc(k, [], leg, leg[p].id);
      GainAt(k, leg, p);
    }
    forall i, j | 0 <= i < j < |ids| ensures Above(score, ids[i], ids[j]) {
      Reciprocal(k + i + 1, k + j + 1);
    }
    forall id ensures id in ids <==> Found([leg], id) {
      assert [leg][0] == leg;
      if Holds(leg, id) {
        var p :| 0 <= p < |leg| && leg[p].id == id;
        assert ids[p] == id;
      }
    }
    RankingUnique(score, [leg], score, [leg], Ids(hits), ids);
  }

  lemma Reciprocal(m: nat, n: nat)
    requires 0 < m < n
    ensures 1.0 / m as real > 1.0 / n as real
  {
  }

  /** A chunk that both legs return within depth `d`, against one that a single leg returns. */
  ghost predicate Contest(a: seq<Row>, b: seq<Row>, d: nat, both: int, single: int) {
    && DistinctIds(a) && DistinctIds(b) && |a| <= d && |b| <= d
    && Holds(a, both) && Holds(b, both)
    && (Holds(a, single) != Holds(b, single))
  }

  ghost predicate AgreementWins(k: nat, d: nat) {
    forall a, b, both, single | Contest(a, b, d, both, single) ::
      Score(k, [a, b], both) > Score(k, [a, b], single)
  }

  lemma BothScore(k: nat, leg: seq<Row>, d: nat, id: int)
    requires DistinctIds(leg) && |leg| <= d && Holds(leg, id)
    ensures 1.0 / (k + d) as real <= Gain(k, leg, id) <= 1.0 / (k + 1) as real
  {
    var p :| 0 <= p < |leg| && leg[p].id == id;
    GainAt(k, leg, p);
    if p + 1 < d {
      Reciprocal(k + p + 1, k + d);
    }
    if p > 0 {
      Reciprocal(k + 1, k + p + 1);
    }
  }

  lemma CompareFractions(p: real, x: real, q: real, y: real)
    requires x > 0.0 && y > 0.0
    ensures p / x > q / y <==> p * y > q * x
  {
    var u, v, z := p / x, q / y, x * y;
    assert u * z == p * y && v * z == q * x;
    assert z > 0.0;
    MulSign(u - v, z);
    assert (u - v) * z == u * z - v * z;
  }

  lemma MulSign(w: real, z: real)
    requires z > 0.0
    ensures w > 0.0 <==> w * z > 0.0
  {
  }

  /** 2/(k+d) against 1/(k+1). */
  lemma Halves(k: nat, d: nat)
    requires d > 0
    ensures 1.0 / (k + d) as real + 1.0 / (k + d) as real > 1.0 / (k + 1) as real <==> d < k + 2
  {
    var x, y := (k + d) as real, (k + 1) as real;
    CompareFractions(2.0, x, 1.0, y);
    assert 2.0 / x == 1.0 / x + 1.0 / x;
  }

  /** Agreement between the legs beats any single hit exactly up to depth k + 1. */
  lemma AgreementWinsIff(k: nat, d: nat)
    requires d >= 2
    ensures AgreementWins(k, d) <==> d < k + 2
  {
    if d < k + 2 {
      forall a, b, both, single | Contest(a, b, d, both, single)
        ensures Score(k, [a, b], both) > Score(k, [a, b], single)
      {
        BothBeatsOne(k, a, b, d, both, single);
      }
    } else {
      TooDeep(k, d);
    }
  }

  lemma BothBeatsOne(k: nat, a: seq<Row>, b: seq<Row>, d: nat, both: int, single: int)
    requires d < k + 2 && Contest(a, b, d, both, single)
    ensures Score(k, [a, b], both) > Score(k, [a, b], single)
  {
    TwoLegs(k, a, b, both);
    TwoLegs(k, a, b, single);
    BothScore(k, a, d, both);
    BothScore(k, b, d, both);
    Halves(k, d);
    if Holds(a, single) {
      BothScore(k, a, d, single);
      NoGain(k, b, single);
    } else {
      BothScore(k, b, d, single);
      NoGain(k, a, single);
    }
  }

  function Plain(id: int): Row {
    Row(id, "", "", "", "", None)
  }

  /** Ids 0 to d - 1; the other leg has only d - 1 in common with it, at the same rank. */
  function FirstLeg(d: nat): (leg: seq<Row>)
    ensures |leg| == d && forall i | 0 <= i < d :: leg[i].id == i
  {
    seq(d, i requires 0 <= i < d => Plain(i))
  }

  function SecondLeg(d: nat): (leg: seq<Row>)
    requires d > 0
    ensures |leg| == d && leg[d - 1].id == d - 1 && forall i | 0 <= i < d - 1 :: leg[i].id == d + i
  {
    var apart := seq(d - 1, i requires 0 <= i < d - 1 => Plain(d + i));
    assert forall i | 0 <= i < d - 1 :: apart[i] == Plain(d + i);
    apart + [Plain(d - 1)]
  }

  lemma LastAgainstFirst(d: nat)
    requires d >= 2
    ensures Contest(FirstLeg(d), SecondLeg(d), d, d - 1, 0)
    ensures !Holds(SecondLeg(d), 0)
  {
    var a, b := FirstLeg(d), SecondLeg(d);
    assert a[0].id == 0;
    assert a[d - 1].id == d - 1;
    assert b[d - 1].id == d - 1;
    assert DistinctIds(a) && DistinctIds(b);
  }

  /** The family of counterexamples: the shared chunk last in both legs, the single one first. */
  lemma TooDeep(k: nat, d: nat)
    requires d >= 2 && d >= k + 2
    ensures !AgreementWins(k, d)
  {
    var a, b := FirstLeg(d), SecondLeg(d);
    LastAgainstFirst(d);
    TwoLegs(k, a, b, d - 1);
    TwoLegs(k, a, b, 0);
    GainAt(k, a, d - 1);
    GainAt(k, b, d - 1);
    GainAt(k, a, 0);
    NoGain(k, b, 0);
    Halves(k, d);
  }

  // --- the search ------------------------------------------------------------------------------------------------

  function Depth(topK: nat): nat {
    if 20 > topK * 2 then 20 else topK * 2
  }

  /** The first `topK` hits of the fusion. */
  ghost predicate Answer(legs: seq<seq<Row>>, topK: nat, round: real -> real, hits: seq<Hit>) {
    exists all :: Fused(RRF_K, legs, round, all) && hits == if |all| <= topK then all else all[..topK]
  }

  /** `hybrid_search`: the two queries are the environment; without an embedding only the first is made. */
  method HybridSearch(fts: nat -> seq<Row>, vector: Option<nat -> seq<Row>>, topK: nat, round: real -> real)
    returns (hits: seq<Hit>)
    ensures var legs := if vector.None? then [fts(Depth(topK))] else [fts(Depth(topK)), vector.value(Depth(topK))];
            Answer(legs, topK, round, hits)
  {
    var depth := if 20 > topK * 2 then 20 else topK * 2;
    var legs := if vector.None? then [fts(depth)] else [fts(depth), vector.value(depth)];
    hits := RrfFuse(legs, RRF_K, round);
    if |hits| > topK {
      hits := hits[..topK];
    }
  }

  /** `LIMIT`: the first rows of a ranking. */
  function Limited(ranking: seq<Row>, depth: nat): seq<Row> {
    if depth < |ranking| then ranking[..depth] else ranking
  }

  /** The ranking holds the chunk among its first 20 rows, or among the first two for every hit asked for. */
  ghost predicate InReach(ranking: seq<Row>, topK: nat, id: int) {
    exists i :: 0 <= i < |ranking| && ranking[i].id == id && (i < 20 || i < 2 * topK)
  }

  lemma HeldInReach(ranking: seq<Row>, topK: nat, id: int)
    ensures Holds(Limited(ranking, Depth(topK)), id) <==> InReach(ranking, topK, id)
  {
    var leg := Limited(ranking, Depth(topK));
    if Holds(leg, id) {
      var p :| 0 <= p < |leg| && leg[p].id == id;
      assert ranking[p].id == id;
    }
    if InReach(ranking, topK, id) {
      var i :| 0 <= i < |ranking| && ranking[i].id == id && (i < 20 || i < 2 * topK);
      assert leg[i].id == id;
    }
  }

  /** How deep the legs are read: a chunk takes part in the fusion exactly when a ranking holds it within reach. */
  lemma FusedIffInReach(fts: seq<Row>, vector: Option<seq<Row>>, topK: nat, round: real -> real, all: seq<Hit>, id: int)
    requires Fused(RRF_K, [Limited(fts, Depth(topK))] +
                          (if vector.None? then [] else [Limited(vector.value, Depth(topK))]), round, all)
    ensures id in Ids(all) <==> InReach(fts, topK, id) || (vector.Some? && InReach(vector.value, topK, id))
  {
    var legs := [Limited(fts, Depth(topK))] + if vector.None? then [] else [Limited(vector.value, Depth(topK))];
    HeldInReach(fts, topK, id);
    if vector.Some? {
      HeldInReach(vector.value, topK, id);
    }
    assert Found(legs, id) <==> Holds(legs[0], id) || (vector.Some? && Holds(legs[1], id)) by {
      assert vector.Some? ==> |legs| == 2;
    }
  }

  /** For every `top_k` the route accepts, a chunk found by both legs comes before every chunk found by one. */
  lemma BothLegsFirst(a: seq<Row>, b: seq<Row>, topK: nat, round: real -> real, all: seq<Hit>, i: nat, j: nat)
    requires 1 <= topK <= 20
    requires DistinctIds(a) && DistinctIds(b) && |a| <= Depth(topK) && |b| <= Depth(topK)
    requires Fused(RRF_K, [a, b], round, all) && i < |all| && j < |all|
    requires Holds(a, all[i].row.id) && Holds(b, all[i].row.id)
    requires Holds(a, all[j].row.id) != Holds(b, all[j].row.id)
    ensures i < j
  {
    var both, single := all[i].row.id, all[j].row.id;
    AgreementWinsIff(RRF_K, Depth(topK));
    assert Contest(a, b, Depth(topK), both, single);
    var score := id => Score(RRF_K, [a, b], id);
    assert score(both) > score(single);
    BetterFirst(score, [a, b], Ids(all), i, j);
  }

  lemma BetterFirst(score: int -> real, legs: seq<seq<Row>>, ids: seq<int>, i: nat, j: nat)
    requires Ranked(score, legs, ids) && i < |ids| && j < |ids| && score(ids[i]) > score(ids[j])
    ensures i < j
  {
    assert forall a, b | 0 <= a < b < |ids| :: Above(score, ids[a], ids[b]);
  }
}
