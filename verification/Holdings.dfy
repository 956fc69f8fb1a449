/** The holdings card (backend/app/data/holdings.py), in exact decimal arithmetic. */
module Holdings {
  import opened Json
  import opened Sorting
  import opened Text

  // --- rounding to two places ----------------------------------------------------------------------------

  predicate IsCents(x: real) {
    (x * 100.0).Floor as real == x * 100.0
  }

  /** `round(x, 2)`: to the nearest hundredth, to the even one from half way. */
  function Round2(x: real): (r: real)
    ensures IsCents(r)
    ensures x - 0.005 <= r <= x + 0.005
    ensures IsCents(x) ==> r == x
  {
    var f := (x * 100.0).Floor;
    var rest := x * 100.0 - f as real;
    var n := if rest < 0.5 || (rest == 0.5 && f % 2 == 0) then f else f + 1;
    assert n as real / 100.0 * 100.0 == n as real;
    n as real / 100.0
  }

  lemma WholeIsCents(x: real, n: int)
    requires x * 100.0 == n as real
    ensures IsCents(x)
  {
    assert (n as real).Floor == n;
  }

  lemma CentsAdd(x: real, y: real)
    requires IsCents(x) && IsCents(y)
    ensures IsCents(x + y) && IsCents(x - y)
  {
    var a, b := (x * 100.0).Floor, (y * 100.0).Floor;
    Distribute(x, y);
    WholeIsCents(x + y, a + b);
    WholeIsCents(x - y, a - b);
  }

  lemma Distribute(x: real, y: real)
    ensures (x + y) * 100.0 == x * 100.0 + y * 100.0 && (x - y) * 100.0 == x * 100.0 - y * 100.0
  {
  }

  lemma RoundMonotone(x: real, y: real)
    requires x <= y
    ensures Round2(x) <= Round2(y)
  {
    var a, b := (x * 100.0).Floor, (y * 100.0).Floor;
    assert a <= b;
  }

  // --- rows -------------------------------------------------------------------------------------------------

  /** A JSON value as this flow sees it; a key that is missing reads as `Other`. */
  datatype Value = Number(n: real) | Characters(s: string) | Other

  datatype Scrip = Scrip(fields: map<string, Value>) | NotADict

  function Field(raw: Scrip, key: string): Value {
    if raw.Scrip? && key in raw.fields then raw.fields[key] else Other
  }

  datatype Row = Row(sym: string, name: string, qty: real, abp: real, ltp: real, current: real, invested: real,
                     pnl: real, pnlPct: real, day: real, dayPct: real, alloc: real)

  function WithoutSuffix(s: string, suffix: string): string {
    if |suffix| <= |s| && s[|s| - |suffix|..] == suffix then s[..|s| - |suffix|] else s
  }

  function Percent(part: real, whole: real): real {
    if whole == 0.0 then 0.0 else Round2(part / whole * 100.0)
  }

  /** A usable scrip gives a row and, when it has a readable date, its stamp. */
  type Built = Option<(Row, Option<int>)>

  /** `_build_row`: none for a scrip with a missing or malformed number, or without a symbol. */
  function BuildRow(raw: Scrip, stamp: Value -> Option<int>): Built {
    var sym, qty, abp, ltp, cp :=
      Field(raw, "Sym"), Field(raw, "Q"), Field(raw, "ABP"), Field(raw, "LTP"), Field(raw, "CP");
    if !sym.Characters? || Trim(sym.s, IsPythonSpace) == "" then None
    else if !(qty.Number? && abp.Number? && ltp.Number? && cp.Number?) then None
    else
      var name := Field(raw, "Name");
      var title := Trim(sym.s, IsPythonSpace);
      Some((Priced(WithoutSuffix(title, "-EQ"), if name.Characters? then name.s else title,
                   qty.n, abp.n, Round2(ltp.n / 100.0), Round2(cp.n / 100.0)),
            stamp(Field(raw, "LUT"))))
  }

  function Priced(sym: string, name: string, qty: real, abp: real, ltp: real, cp: real): Row {
    var current, invested := Round2(qty * ltp), Round2(qty * abp);
    var pnl := Round2(current - invested);
    Row(sym, name, qty, abp, ltp, current, invested, pnl, Percent(pnl, invested),
        Round2(qty * (ltp - cp)), Percent(ltp - cp, cp), 0.0)
  }

  /** The rows of the usable scrips, in the order they came. */
  function Usable(build: Scrip -> Built, scrips: seq<Scrip>): seq<Row> {
    if scrips == [] then []
    else
      var last := build(scrips[|scrips| - 1]);
      Usable(build, scrips[..|scrips| - 1]) + if last.Some? then [last.value.0] else []
  }

  /** The latest stamp of the usable scrips. */
  function Latest(build: Scrip -> Built, scrips: seq<Scrip>): Option<int> {
    if scrips == [] then None
    else
      var before, last := Latest(build, scrips[..|scrips| - 1]), build(scrips[|scrips| - 1]);
      if last.None? || last.value.1.None? || (before.Some? && last.value.1.value <= before.value) then before
      else last.value.1
  }

  // --- totals ----------------------------------------------------------------------------------------------

  function Sum(f: Row -> real, rows: seq<Row>): real {
    if rows == [] then 0.0 else Sum(f, rows[..|rows| - 1]) + f(rows[|rows| - 1])
  }

  const CURRENT := (r: Row) => r.current
  const INVESTED := (r: Row) => r.invested
  const PNL := (r: Row) => r.pnl
  const DAY := (r: Row) => r.day
  const ALLOC := (r: Row) => r.alloc

  datatype Totals = Totals(current: real, invested: real, pnl: real, pnlPct: real, day: real, dayPct: real, count: nat)

  /** `_totals` */
  function TotalsOf(rows: seq<Row>): Totals {
    var current, invested, day := Sum(CURRENT, rows), Sum(INVESTED, rows), Sum(DAY, rows);
    var pnl := Round2(current - invested);
    Totals(Round2(current), Round2(invested), pnl, Percent(pnl, invested), Round2(day), Percent(day, current - day),
      |rows|)
  }

  datatype Card = Empty | Holdings(asOf: Option<int>, rows: seq<Row>, totals: Totals)

  predicate Bigger(a: Row, b: Row) {
    a.current >= b.current
  }

  function Allocated(rows: seq<Row>, total: real): (r: seq<Row>)
    ensures |r| == |rows| && forall i | 0 <= i < |r| :: r[i] == rows[i].(alloc := Percent(rows[i].current, total))
  {
    seq(|rows|, i requires 0 <= i < |rows| => rows[i].(alloc := Percent(rows[i].current, total)))
  }

  /** `_build_card`; `build` is `_build_row`. */
  method BuildCard(scrips: seq<Scrip>, build: Scrip -> Built) returns (card: Card)
    ensures card == CardOf(Sort(Bigger, Usable(build, scrips)), Latest(build, scrips))
  {
    var rows, maxLut := CollectRows(scrips, build);
    if rows == [] {
      return Empty;
    }
    rows := Sort(Bigger, rows);
    ghost var sorted := rows;
    var total := Sum(CURRENT, rows);
    for i := 0 to |rows|
      invariant |rows| == |sorted|
      invariant forall k | 0 <= k < i :: rows[k] == sorted[k].(alloc := Percent(sorted[k].current, total))
      invariant forall k | i <= k < |rows| :: rows[k] == sorted[k]
    {
      rows := rows[i := rows[i].(alloc := Percent(rows[i].current, total))];
    }
    assert rows == Allocated(sorted, total);
    AllocKeepsTotals(sorted, total);
    card := Holdings(maxLut, rows, TotalsOf(rows));
  }

  /** The first loop of `_build_card`. */
  method CollectRows(scrips: seq<Scrip>, build: Scrip -> Built) returns (rows: seq<Row>, maxLut: Option<int>)
    ensures rows == Usable(build, scrips) && maxLut == Latest(build, scrips)
  {
    rows, maxLut := [], None;
    for i := 0 to |scrips|
      invariant rows == Usable(build, scrips[..i]) && maxLut == Latest(build, scrips[..i])
    {
      assert scrips[..i + 1][..i] == scrips[..i];
      var built := build(scrips[i]);
      if built.None? {
        continue;
      }
      rows := rows + [built.value.0];
      var lut := built.value.1;
      if lut.Some? && (maxLut.None? || lut.value > maxLut.value) {
        maxLut := lut;
      }
    }
    assert scrips[..|scrips|] == scrips;
  }

  /** The card for rows already in order. */
  function CardOf(sorted: seq<Row>, asOf: Option<int>): Card {
    if sorted == [] then Empty
    else Holdings(asOf, Allocated(sorted, Sum(CURRENT, sorted)), TotalsOf(sorted))
  }

  /** Writing the allocations leaves every other sum alone. */
  lemma {:induction false} AllocKeepsSum(f: Row -> real, rows: seq<Row>, total: real)
    requires forall r: Row, x: real :: f(r.(alloc := x)) == f(r)
    ensures Sum(f, Allocated(rows, total)) == Sum(f, rows)
  {
    if rows != [] {
      var n := |rows| - 1;
      assert Allocated(rows, total)[..n] == Allocated(rows[..n], total);
      AllocKeepsSum(f, rows[..n], total);
    }
  }

  lemma AllocKeepsTotals(rows: seq<Row>, total: real)
    ensures TotalsOf(Allocated(rows, total)) == TotalsOf(rows)
  {
    hide Round2, Percent, Sum, Allocated;
    AllocKeepsSum(CURRENT, rows, total);
    AllocKeepsSum(INVESTED, rows, total);
    AllocKeepsSum(DAY, rows, total);
  }

  // --- reconciliation -----------------------------------------------------------------------------------------

  predicate Reconciled(r: Row) {
    IsCents(r.current) && IsCents(r.invested) && IsCents(r.day) && r.pnl == r.current - r.invested
  }

  lemma PricedReconciles(sym: string, name: string, qty: real, abp: real, ltp: real, cp: real)
    ensures Reconciled(Priced(sym, name, qty, abp, ltp, cp))
  {
    CentsAdd(Round2(qty * ltp), Round2(qty * abp));
  }

  predicate Near(x: real, y: real) {
    y - 0.005 <= x <= y + 0.005
  }

  /** So many at such a price, to within half a hundredth. */
  predicate NearProduct(x: real, qty: real, price: real) {
    Near(x, qty * price)
  }

  /** A percentage gives the part of the whole back, within half a hundredth of a percent of the whole. */
  predicate GivesBack(percent: real, part: real, whole: real) {
    if whole == 0.0 then percent == 0.0
    else Near(percent, part / whole * 100.0)
  }

  lemma RoundSign(x: real)
    ensures (x >= 0.0 ==> Round2(x) >= 0.0) && (x <= 0.0 ==> Round2(x) <= 0.0)
  {
    assert Round2(0.0) == 0.0 by { WholeIsCents(0.0, 0); }
    if x >= 0.0 {
      RoundMonotone(0.0, x);
    } else {
      RoundMonotone(x, 0.0);
    }
  }

  lemma ProductSign(q: real, x: real)
    requires q >= 0.0
    ensures (x >= 0.0 ==> q * x >= 0.0) && (x <= 0.0 ==> q * x <= 0.0)
  {
  }

  lemma QuotientSign(x: real, whole: real)
    requires whole > 0.0
    ensures (x >= 0.0 ==> x / whole * 100.0 >= 0.0) && (x <= 0.0 ==> x / whole * 100.0 <= 0.0)
  {
  }

  lemma ShareSign(part: real, whole: real)
    requires whole > 0.0
    ensures (part >= 0.0 ==> Percent(part, whole) >= 0.0) && (part <= 0.0 ==> Percent(part, whole) <= 0.0)
  {
    hide Round2;
    QuotientSign(part, whole);
    RoundSign(part / whole * 100.0);
  }

  lemma TimesMonotone(q: real, x: real, y: real)
    requires q >= 0.0 && x <= y
    ensures q * x <= q * y
  {
  }

  /** A price above cost never shows a loss, nor one below it a profit. */
  predicate SignsAgree(r: Row, ltp: real, cp: real) {
    && (r.abp <= ltp ==> r.pnl >= 0.0) && (r.abp >= ltp ==> r.pnl <= 0.0)
    && (r.abp <= ltp && r.invested > 0.0 ==> r.pnlPct >= 0.0)
    && (cp <= ltp ==> r.day >= 0.0) && (cp >= ltp ==> r.day <= 0.0)
    && (cp > 0.0 ==> (cp <= ltp ==> r.dayPct >= 0.0) && (cp >= ltp ==> r.dayPct <= 0.0))
  }

  lemma ProfitSigns(qty: real, abp: real, ltp: real)
    requires qty >= 0.0
    ensures abp <= ltp ==> Round2(qty * abp) <= Round2(qty * ltp)
    ensures abp >= ltp ==> Round2(qty * abp) >= Round2(qty * ltp)
  {
    hide Round2;
    if abp <= ltp {
      TimesMonotone(qty, abp, ltp);
      RoundMonotone(qty * abp, qty * ltp);
    }
    if abp >= ltp {
      TimesMonotone(qty, ltp, abp);
      RoundMonotone(qty * ltp, qty * abp);
    }
  }

  lemma MoveSign(x: real, qty: real, move: real)
    requires qty >= 0.0 && IsCents(x) && NearProduct(x, qty, move)
    ensures (move >= 0.0 ==> x >= 0.0) && (move <= 0.0 ==> x <= 0.0)
  {
    ProductSign(qty, move);
    assert x * 100.0 == (x * 100.0).Floor as real;
  }

  lemma PricedSigns(r: Row, qty: real, abp: real, ltp: real, cp: real)
    requires qty >= 0.0 && r == Priced(r.sym, r.name, qty, abp, ltp, cp)
    ensures SignsAgree(r, ltp, cp)
  {
    PricedReconciles(r.sym, r.name, qty, abp, ltp, cp);
    PricedDay(r, qty, abp, ltp, cp);
    hide Round2, IsCents, Percent, NearProduct;
    ProfitSigns(qty, abp, ltp);
    if r.invested > 0.0 {
      ShareSign(r.pnl, r.invested);
    }
    MoveSign(r.day, qty, ltp - cp);
    if cp > 0.0 {
      ShareSign(ltp - cp, cp);
    }
  }

  lemma PricedDay(r: Row, qty: real, abp: real, ltp: real, cp: real)
    requires r == Priced(r.sym, r.name, qty, abp, ltp, cp)
    ensures NearProduct(r.current, qty, ltp) && NearProduct(r.invested, qty, abp)
    ensures NearProduct(r.day, qty, ltp - cp)
  {
    hide Percent, IsCents;
  }

  predicate EndsIn(s: string, suffix: string) {
    |suffix| <= |s| && s[|s| - |suffix|..] == suffix
  }

  /** A scrip is usable when it has a symbol that is not blank and its four numbers. */
  predicate HasRow(raw: Scrip) {
    && Field(raw, "Sym").Characters? && !(forall c | c in Field(raw, "Sym").s :: IsPythonSpace(c))
    && Field(raw, "Q").Number? && Field(raw, "ABP").Number? && Field(raw, "LTP").Number? && Field(raw, "CP").Number?
  }

  function NameOr(raw: Scrip, title: string): string {
    if Field(raw, "Name").Characters? then Field(raw, "Name").s else title
  }

  /** The row against the numbers that came: prices are in paise, the cost is not. */
  predicate RowShows(raw: Scrip, r: Row, cp: real)
    requires HasRow(raw)
  {
    && r.qty == Field(raw, "Q").n && r.abp == Field(raw, "ABP").n
    && Near(r.ltp, Field(raw, "LTP").n / 100.0) && Near(cp, Field(raw, "CP").n / 100.0)
    && NearProduct(r.current, r.qty, r.ltp) && NearProduct(r.invested, r.qty, r.abp)
    && NearProduct(r.day, r.qty, r.ltp - cp)
    && GivesBack(r.pnlPct, r.pnl, r.invested) && GivesBack(r.dayPct, r.ltp - cp, cp)
    && (r.qty >= 0.0 ==> SignsAgree(r, r.ltp, cp))
    && var title := Trim(Field(raw, "Sym").s, IsPythonSpace);
       && (if EndsIn(title, "-EQ") then r.sym + "-EQ" == title else r.sym == title)
       && r.name == NameOr(raw, title)
  }

  lemma TrimBlankIff(s: string)
    ensures Trim(s, IsPythonSpace) == "" <==> forall c | c in s :: IsPythonSpace(c)
  {
    assert (forall i | 0 <= i < |s| :: IsPythonSpace(s[i])) <==> forall c | c in s :: IsPythonSpace(c);
  }

  lemma SuffixGone(s: string)
    ensures if EndsIn(s, "-EQ") then WithoutSuffix(s, "-EQ") + "-EQ" == s else WithoutSuffix(s, "-EQ") == s
  {
  }

  lemma BuiltIff(raw: Scrip, stamp: Value -> Option<int>)
    ensures BuildRow(raw, stamp).Some? <==> HasRow(raw)
  {
    if Field(raw, "Sym").Characters? {
      TrimBlankIff(Field(raw, "Sym").s);
    }
    hide IsPythonSpace, Trim, Round2, Field, WithoutSuffix, Priced;
  }

  lemma BuiltIs(raw: Scrip, stamp: Value -> Option<int>)
    requires BuildRow(raw, stamp).Some? && HasRow(raw)
    ensures var (r, lut) := BuildRow(raw, stamp).value;
            var title := Trim(Field(raw, "Sym").s, IsPythonSpace);
            && r == Priced(r.sym, r.name, Field(raw, "Q").n, Field(raw, "ABP").n,
                           Round2(Field(raw, "LTP").n / 100.0), Round2(Field(raw, "CP").n / 100.0))
            && r.sym == WithoutSuffix(title, "-EQ")
            && r.name == NameOr(raw, title)
            && lut == stamp(Field(raw, "LUT"))
  {
    hide IsPythonSpace, Trim, Round2, Field, WithoutSuffix, Percent;
  }

  lemma PricedShows(r: Row, qty: real, abp: real, ltp: real, cp: real)
    requires r == Priced(r.sym, r.name, qty, abp, ltp, cp)
    ensures NearProduct(r.current, qty, ltp) && NearProduct(r.invested, qty, abp) && NearProduct(r.day, qty, ltp - cp)
    ensures GivesBack(r.pnlPct, r.pnl, r.invested) && GivesBack(r.dayPct, ltp - cp, cp)
    ensures qty >= 0.0 ==> SignsAgree(r, ltp, cp)
    ensures r.qty == qty && r.abp == abp && r.ltp == ltp
  {
    PricedDay(r, qty, abp, ltp, cp);
    hide IsCents, SignsAgree, Percent, GivesBack, NearProduct;
    if qty >= 0.0 {
      PricedSigns(r, qty, abp, ltp, cp);
    }
    PercentGives(r.pnl, r.invested);
    PercentGives(ltp - cp, cp);
  }

  lemma RoundNear(x: real)
    ensures Near(Round2(x), x)
  {
  }

  lemma RowIsShown(raw: Scrip, r: Row, cp: real, title: string)
    requires HasRow(raw) && title == Trim(Field(raw, "Sym").s, IsPythonSpace)
    requires r.qty == Field(raw, "Q").n && r.abp == Field(raw, "ABP").n
    requires Near(r.ltp, Field(raw, "LTP").n / 100.0) && Near(cp, Field(raw, "CP").n / 100.0)
    requires NearProduct(r.current, r.qty, r.ltp) && NearProduct(r.invested, r.qty, r.abp)
    requires NearProduct(r.day, r.qty, r.ltp - cp)
    requires GivesBack(r.pnlPct, r.pnl, r.invested) && GivesBack(r.dayPct, r.ltp - cp, cp)
    requires r.qty >= 0.0 ==> SignsAgree(r, r.ltp, cp)
    requires r.sym == WithoutSuffix(title, "-EQ")
    requires r.name == NameOr(raw, title)
    ensures RowShows(raw, r, cp)
  {
    hide HasRow, Field, SignsAgree, GivesBack, Trim, EndsIn, WithoutSuffix, Near, NearProduct;
    SuffixGone(title);
  }

  /** What a row says of its scrip. */
  lemma BuildRowShows(raw: Scrip, stamp: Value -> Option<int>)
    ensures BuildRow(raw, stamp).Some? <==> HasRow(raw)
    ensures HasRow(raw) ==>
              var (r, lut) := BuildRow(raw, stamp).value;
              RowShows(raw, r, Round2(Field(raw, "CP").n / 100.0)) && lut == stamp(Field(raw, "LUT"))
  {
    hide *;
    BuiltIff(raw, stamp);
    if HasRow(raw) {
      BuiltIs(raw, stamp);
      var r := BuildRow(raw, stamp).value.0;
      NumbersThere(raw);
      var ltp, cp := Round2(Field(raw, "LTP").n / 100.0), Round2(Field(raw, "CP").n / 100.0);
      RoundNear(Field(raw, "LTP").n / 100.0);
      RoundNear(Field(raw, "CP").n / 100.0);
      PricedShows(r, Field(raw, "Q").n, Field(raw, "ABP").n, ltp, cp);
      RowIsShown(raw, r, cp, Trim(Field(raw, "Sym").s, IsPythonSpace));
    }
  }

  lemma NumbersThere(raw: Scrip)
    requires HasRow(raw)
    ensures Field(raw, "Q").Number? && Field(raw, "ABP").Number?
    ensures Field(raw, "LTP").Number? && Field(raw, "CP").Number? && Field(raw, "Sym").Characters?
  {
  }

  lemma PercentGives(part: real, whole: real)
    ensures GivesBack(Percent(part, whole), part, whole)
  {
  }

  /** Each usable scrip gives its row, in the order they came. */
  lemma {:induction false} UsableInOrder(build: Scrip -> Built, a: seq<Scrip>, raw: Scrip, b: seq<Scrip>)
    ensures Usable(build, a + [raw] + b) ==
            Usable(build, a) + (if build(raw).Some? then [build(raw).value.0] else []) + Usable(build, b)
    decreases |b|
  {
    if b == [] {
      assert a + [raw] + b == a + [raw] && (a + [raw])[..|a|] == a;
    } else {
      var init, all := b[..|b| - 1], a + [raw] + b;
      UsableInOrder(build, a, raw, init);
      assert all[..|all| - 1] == a + [raw] + init && all[|all| - 1] == b[|b| - 1];
    }
  }

  function StampOf(b: Built): Option<int> {
    if b.Some? then b.value.1 else None
  }

  /** The stamp of the card is the latest one of its rows. */
  lemma {:induction false} LatestIsLargest(build: Scrip -> Built, scrips: seq<Scrip>)
    ensures match Latest(build, scrips)
            case None => forall s | s in scrips :: StampOf(build(s)).None?
            case Some(t) =>
              && (exists s :: s in scrips && StampOf(build(s)) == Some(t))
              && (forall s | s in scrips && StampOf(build(s)).Some? :: StampOf(build(s)).value <= t)
  {
    if scrips != [] {
      LatestIsLargest(build, scrips[..|scrips| - 1]);
      var last := scrips[|scrips| - 1];
      assert scrips == scrips[..|scrips| - 1] + [last] && last in scrips;
    }
  }

  ghost predicate BuildsReconciled(build: Scrip -> Built) {
    forall raw :: build(raw).Some? ==> Reconciled(build(raw).value.0)
  }

  lemma BuildRowReconciles(stamp: Value -> Option<int>)
    ensures BuildsReconciled(raw => BuildRow(raw, stamp))
  {
    forall raw | BuildRow(raw, stamp).Some? ensures Reconciled(BuildRow(raw, stamp).value.0) {
      var r := BuildRow(raw, stamp).value.0;
      PricedReconciles(r.sym, r.name, r.qty, r.abp, r.ltp, Round2(Field(raw, "CP").n / 100.0));
    }
  }

  lemma {:induction false} UsableReconcile(build: Scrip -> Built, scrips: seq<Scrip>)
    requires BuildsReconciled(build)
    ensures forall r | r in Usable(build, scrips) :: Reconciled(r)
  {
    if scrips != [] {
      UsableReconcile(build, scrips[..|scrips| - 1]);
    }
  }

  lemma {:induction false} SumCents(f: Row -> real, rows: seq<Row>)
    requires forall r | r in rows :: IsCents(f(r))
    ensures IsCents(Sum(f, rows))
  {
    if rows != [] {
      SumCents(f, rows[..|rows| - 1]);
      CentsAdd(Sum(f, rows[..|rows| - 1]), f(rows[|rows| - 1]));
    }
  }

  lemma {:induction false} SumDifference(rows: seq<Row>)
    requires forall r | r in rows :: Reconciled(r)
    ensures Sum(PNL, rows) == Sum(CURRENT, rows) - Sum(INVESTED, rows)
  {
    if rows != [] {
      assert Reconciled(rows[|rows| - 1]);
      SumDifference(rows[..|rows| - 1]);
    }
  }

  /** The totals are the exact sums of the rows, and the profit is value minus cost on both levels. */
  lemma TotalsReconcile(rows: seq<Row>)
    requires forall r | r in rows :: Reconciled(r)
    ensures TotalsMatch(TotalsOf(rows), rows)
  {
    SumCents(CURRENT, rows);
    SumCents(INVESTED, rows);
    SumCents(DAY, rows);
    CentsAdd(Sum(CURRENT, rows), Sum(INVESTED, rows));
    SumDifference(rows);
  }

  lemma ShareAdds(x: real, y: real, total: real)
    requires total != 0.0
    ensures (x + y) / total * 100.0 == x / total * 100.0 + y / total * 100.0
  {
  }

  /** Rounded shares add up to the exact share, give or take half a hundredth each. */
  lemma {:induction false} AllocSum(rows: seq<Row>, total: real, n: real)
    requires total != 0.0 && n == |rows| as real
    ensures var exact := Sum(CURRENT, rows) / total * 100.0;
            exact - n * 0.005 <= Sum(ALLOC, Allocated(rows, total)) <= exact + n * 0.005
  {
    if rows != [] {
      var k := |rows| - 1;
      var before, c := rows[..k], rows[k].current;
      assert Allocated(rows, total)[..k] == Allocated(before, total);
      AllocSum(before, total, n - 1.0);
      ShareAdds(Sum(CURRENT, before), c, total);
      ShareNear(c, total);
    }
  }

  lemma ShareNear(c: real, total: real)
    requires total != 0.0
    ensures c / total * 100.0 - 0.005 <= Percent(c, total) <= c / total * 100.0 + 0.005
  {
  }

  /** What the card promises: exact totals, and allocations within half a hundredth a row of 100. */
  lemma CardReconciles(build: Scrip -> Built, scrips: seq<Scrip>, sorted: seq<Row>, card: Card)
    requires BuildsReconciled(build)
    requires sorted == Sort(Bigger, Usable(build, scrips)) && card == CardOf(sorted, Latest(build, scrips))
    ensures card.Empty? <==> Usable(build, scrips) == []
    ensures card.Holdings? ==> TotalsMatch(card.totals, card.rows) && AllocationsMatch(card.rows, card.totals.current)
  {
    UsableReconcile(build, scrips);
    SortKeepsMembers(Bigger, Usable(build, scrips));
    TotalsReconcile(sorted);
    if card.Holdings? {
      var total := Sum(CURRENT, sorted);
      AllocKeepsSum(PNL, sorted, total);
      AllocKeepsSum(DAY, sorted, total);
      AllocKeepsSum(CURRENT, sorted, total);
      AllocKeepsSum(INVESTED, sorted, total);
      AllocationsReconcile(sorted, total);
    }
  }

  predicate TotalsMatch(t: Totals, rows: seq<Row>) {
    && t.current == Sum(CURRENT, rows) && t.invested == Sum(INVESTED, rows) && t.day == Sum(DAY, rows)
    && t.pnl == Sum(PNL, rows) && t.pnl == t.current - t.invested && t.count == |rows|
    && GivesBack(t.pnlPct, t.pnl, t.invested) && GivesBack(t.dayPct, t.day, t.current - t.day)
  }

  predicate AllocationsMatch(rows: seq<Row>, total: real) {
    if total == 0.0 then forall i | 0 <= i < |rows| :: rows[i].alloc == 0.0
    else 100.0 - |rows| as real * 0.005 <= Sum(ALLOC, rows) <= 100.0 + |rows| as real * 0.005
  }

  lemma WholeShare(total: real)
    requires total != 0.0
    ensures total / total * 100.0 == 100.0
  {
  }

  lemma AllocationsReconcile(sorted: seq<Row>, total: real)
    requires total == Sum(CURRENT, sorted)
    ensures AllocationsMatch(Allocated(sorted, total), total)
  {
    if total != 0.0 {
      AllocSum(sorted, total, |sorted| as real);
      WholeShare(total);
    }
  }

  /** Rows run from the biggest value down, equals in the order they came, each usable scrip once. */
  lemma CardOrder(usable: seq<Row>, value: real)
    ensures SortedBy(Bigger, Sort(Bigger, usable)) && multiset(Sort(Bigger, usable)) == multiset(usable)
    ensures Where((r: Row) => r.current == value, Sort(Bigger, usable)) == Where((r: Row) => r.current == value, usable)
  {
    SortSorts(Bigger, usable);
    SortStable(Bigger, usable, (r: Row) => r.current == value);
  }

  /** With a positive total the allocations run down with the values. */
  lemma AllocationsDescend(rows: seq<Row>, total: real)
    requires SortedBy(Bigger, rows) && total > 0.0
    ensures var a := Allocated(rows, total); forall i, j | 0 <= i < j < |a| :: a[i].alloc >= a[j].alloc
  {
    var a := Allocated(rows, total);
    forall i, j | 0 <= i < j < |a| ensures a[i].alloc >= a[j].alloc {
      assert Bigger(rows[i], rows[j]);
      ShareMonotone(rows[j].current, rows[i].current, total);
      RoundMonotone(rows[j].current / total * 100.0, rows[i].current / total * 100.0);
    }
  }

  lemma ShareMonotone(x: real, y: real, total: real)
    requires x <= y && total > 0.0
    ensures x / total * 100.0 <= y / total * 100.0
  {
  }
}
