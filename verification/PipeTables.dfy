/** Splitting streamed text into plain text and pipe tables (frontend/src/chat/pipeTable.ts). */
module PipeTables {
  import opened Json
  import opened Text

  /**
   How lines are read: does this line open a table given the next one, does it continue one, is this
   text white space only, and what are the cells of a line. `Gfm` below is the instance in the source.
   */
  datatype Rules = Rules(
    opens: (string, Option<string>) -> bool,
    continues: string -> bool,
    blank: string -> bool,
    cells: string -> seq<string>)

  /** A text without one mark at its start and one at its end. */
  function Unwrap(s: string, mark: char): string {
    var s := if s != "" && s[0] == mark then s[1..] else s;
    if s != "" && s[|s| - 1] == mark then s[..|s| - 1] else s
  }

  /** The cells of a line between marks, without the outer ones. */
  function CellsBy(line: string, trim: string -> string, mark: char): seq<string> {
    Each(trim, SplitChar(Unwrap(trim(line), mark), mark))
  }

  function Each(trim: string -> string, cells: seq<string>): (r: seq<string>)
    ensures |r| == |cells| && forall i | 0 <= i < |cells| :: r[i] == trim(cells[i])
  {
    seq(|cells|, i requires 0 <= i < |cells| => trim(cells[i]))
  }

  function ScriptTrim(s: string): string {
    Trim(s, IsScriptSpace)
  }

  /** `splitCells` */
  function SplitCells(line: string): seq<string> {
    CellsBy(line, ScriptTrim, '|')
  }

  /** `DELIMITER_CELL`: dashes, with a colon allowed at each end. */
  predicate IsDelimiterCell(cell: string) {
    var s := Unwrap(cell, ':');
    s != "" && forall i | 0 <= i < |s| :: s[i] == '-'
  }

  predicate IsDelimiterRow(line: Option<string>, width: nat) {
    && line.Some? && '|' in line.value
    && var cells := SplitCells(line.value);
       |cells| == width && forall i | 0 <= i < |cells| :: IsDelimiterCell(cells[i])
  }

  const Gfm := Rules(
    (line, next) => '|' in line && IsDelimiterRow(next, |SplitCells(line)|),
    line => ScriptTrim(line) != "" && '|' in line,
    text => ScriptTrim(text) == "",
    SplitCells)

  datatype Segment = TextSegment(text: string) | TableSegment(header: seq<string>, rows: seq<seq<string>>)

  predicate OpensAt(r: Rules, lines: seq<string>, i: nat)
    requires i < |lines|
  {
    r.opens(lines[i], if i + 1 < |lines| then Some(lines[i + 1]) else None)
  }

  /** A row against its header: short rows are padded, long ones cut. */
  function Fit(header: seq<string>, cells: seq<string>): (row: seq<string>)
    ensures |row| == |header|
  {
    seq(|header|, c requires 0 <= c < |header| => if c < |cells| then cells[c] else "")
  }

  // --- what a correct splitting is -------------------------------------------------------------------------------

  /** A stretch of lines: plain text, or a table with its delimiter. */
  datatype Piece = Run(lo: nat, hi: nat) | Table(lo: nat, hi: nat)

  predicate PieceOk(r: Rules, lines: seq<string>, p: Piece) {
    && p.lo < p.hi <= |lines|
    && match p
       case Run(lo, hi) => forall k | lo <= k < hi :: !OpensAt(r, lines, k)
       case Table(lo, hi) =>
         && OpensAt(r, lines, lo) && lo + 2 <= hi
         && (forall k | lo + 2 <= k < hi :: r.continues(lines[k]))
         && (hi == |lines| || !r.continues(lines[hi]))
  }

  /** The pieces take lines `0..n` in order, each line once, and runs are as long as they can be. */
  predicate Covers(r: Rules, lines: seq<string>, pieces: seq<Piece>, n: nat) {
    && (forall i | 0 <= i < |pieces| :: PieceOk(r, lines, pieces[i]))
    && (pieces == [] ==> n == 0)
    && (pieces != [] ==> pieces[0].lo == 0 && pieces[|pieces| - 1].hi == n)
    && (forall i | 0 <= i < |pieces| - 1 :: pieces[i].hi == pieces[i + 1].lo && !(pieces[i].Run? && pieces[i + 1].Run?))
  }

  function Rows(r: Rules, lines: seq<string>, header: seq<string>, lo: nat, hi: nat): (rows: seq<seq<string>>)
    requires lo <= hi <= |lines|
    ensures |rows| == hi - lo
    ensures forall i | 0 <= i < |rows| :: rows[i] == Fit(header, r.cells(lines[lo + i]))
  {
    seq(hi - lo, i requires 0 <= i < hi - lo => Fit(header, r.cells(lines[lo + i])))
  }

  /** The segment of a piece; a white-space-only run gives none. */
  function SegmentOf(r: Rules, lines: seq<string>, p: Piece): seq<Segment>
    requires p.lo < p.hi <= |lines| && (p.Table? ==> p.lo + 2 <= p.hi)
  {
    match p
    case Run(lo, hi) => if r.blank(Join(lines[lo..hi], "\n")) then [] else [TextSegment(Join(lines[lo..hi], "\n"))]
    case Table(lo, hi) => [TableSegment(r.cells(lines[lo]), Rows(r, lines, r.cells(lines[lo]), lo + 2, hi))]
  }

  function SegmentsOf(r: Rules, lines: seq<string>, pieces: seq<Piece>): seq<Segment>
    requires forall i | 0 <= i < |pieces| :: PieceOk(r, lines, pieces[i])
  {
    if pieces == [] then []
    else
      assert PieceOk(r, lines, pieces[|pieces| - 1]);
      SegmentsOf(r, lines, pieces[..|pieces| - 1]) + SegmentOf(r, lines, pieces[|pieces| - 1])
  }

  predicate NoTable(r: Rules, text: string) {
    var lines := SplitChar(text, '\n');
    forall i | 0 <= i < |lines| :: !OpensAt(r, lines, i)
  }

  /** A delimiter row is needed, so a last line never opens a table. */
  ghost predicate NeedsDelimiter(r: Rules) {
    forall h :: !r.opens(h, None)
  }

  // --- the loop --------------------------------------------------------------------------------------------------

  /** The lines not yet given to a piece: the last ones before `i`, none of which opens a table. */
  predicate Waiting(r: Rules, lines: seq<string>, pending: seq<string>, i: nat) {
    && |pending| <= i <= |lines|
    && pending == lines[i - |pending|..i]
    && forall k | i - |pending| <= k < i :: !OpensAt(r, lines, k)
  }

  lemma Wait(r: Rules, lines: seq<string>, pending: seq<string>, i: nat)
    requires Waiting(r, lines, pending, i) && i < |lines| && !OpensAt(r, lines, i)
    ensures Waiting(r, lines, pending + [lines[i]], i + 1)
  {
  }

  predicate SplitUpTo(r: Rules, lines: seq<string>, pieces: seq<Piece>, segments: seq<Segment>, n: nat) {
    Covers(r, lines, pieces, n) && segments == SegmentsOf(r, lines, pieces)
  }

  predicate EndsInTable(pieces: seq<Piece>) {
    pieces == [] || pieces[|pieces| - 1].Table?
  }

  /**
   `splitPipeTables`. Without a table the text comes back as it is. Otherwise every line goes, in order,
   to exactly one piece, and the segments are those of the pieces.
   */
  method SplitPipeTables(r: Rules, text: string) returns (segments: seq<Segment>, ghost pieces: seq<Piece>)
    requires NeedsDelimiter(r)
    ensures NoTable(r, text) ==> segments == [TextSegment(text)]
    ensures !NoTable(r, text) ==> SplitUpTo(r, SplitChar(text, '\n'), pieces, segments, |SplitChar(text, '\n')|)
  {
    var lines := SplitChar(text, '\n');
    var found := AnyOpens(r, lines);
    if found {
      segments, pieces := SplitLines(r, lines);
    } else {
      segments, pieces := [TextSegment(text)], [];
    }
  }

  /** The loop over the lines. */
  method SplitLines(r: Rules, lines: seq<string>) returns (segments: seq<Segment>, ghost pieces: seq<Piece>)
    requires NeedsDelimiter(r)
    ensures SplitUpTo(r, lines, pieces, segments, |lines|)
  {
    segments, pieces := [], [];
    var pending: seq<string> := [];
    var i := 0;
    while i < |lines|
      invariant Waiting(r, lines, pending, i)
      invariant SplitUpTo(r, lines, pieces, segments, i - |pending|) && EndsInTable(pieces)
      decreases |lines| - i
    {
      if !OpensAt(r, lines, i) {
        Wait(r, lines, pending, i);
        pending, i := pending + [lines[i]], i + 1;
        continue;
      }
      i, segments, pieces := TakeTable(r, lines, pending, i, segments, pieces);
      pending := [];
    }
    segments, pieces := FlushText(r, lines, pending, i, segments, pieces);
  }

  /** The rest of the loop body: the table, after the text before it. */
  method TakeTable(r: Rules, lines: seq<string>, pending: seq<string>, i: nat, segments: seq<Segment>,
                   ghost pieces: seq<Piece>)
    returns (j: nat, longer: seq<Segment>, ghost more: seq<Piece>)
    requires NeedsDelimiter(r) && i < |lines| && OpensAt(r, lines, i) && Waiting(r, lines, pending, i)
    requires SplitUpTo(r, lines, pieces, segments, i - |pending|) && EndsInTable(pieces)
    ensures i < j && Waiting(r, lines, [], j) && SplitUpTo(r, lines, more, longer, j) && EndsInTable(more)
  {
    var table;
    j, table := ReadTable(r, lines, i);
    longer, more := FlushText(r, lines, pending, i, segments, pieces);
    longer, more := PushPiece(r, lines, Table(i, j), [table], longer, more);
  }

  /** `lines.some((_, i) => opensTable(lines, i))`. */
  method AnyOpens(r: Rules, lines: seq<string>) returns (found: bool)
    ensures found <==> exists k :: 0 <= k < |lines| && OpensAt(r, lines, k)
  {
    for i := 0 to |lines|
      invariant forall k | 0 <= k < i :: !OpensAt(r, lines, k)
    {
      if OpensAt(r, lines, i) {
        return true;
      }
    }
    found := false;
  }

  /** A table runs from its header to the first line that does not continue it. */
  method ReadTable(r: Rules, lines: seq<string>, i: nat) returns (j: nat, table: Segment)
    requires i < |lines| && OpensAt(r, lines, i) && NeedsDelimiter(r)
    ensures PieceOk(r, lines, Table(i, j)) && [table] == SegmentOf(r, lines, Table(i, j))
  {
    var header := r.cells(lines[i]);
    var rows: seq<seq<string>> := [];
    j := i + 2;
    while j < |lines| && r.continues(lines[j])
      invariant i + 2 <= j <= |lines|
      invariant forall k | i + 2 <= k < j :: r.continues(lines[k])
      invariant rows == Rows(r, lines, header, i + 2, j)
    {
      rows := rows + [Fit(header, r.cells(lines[j]))];
      j := j + 1;
    }
    table := TableSegment(header, rows);
  }

  /** `flushText`: the pending lines become a text segment unless they are white space only. */
  method FlushText(r: Rules, lines: seq<string>, pending: seq<string>, i: nat, segments: seq<Segment>,
                   ghost pieces: seq<Piece>)
    returns (flushed: seq<Segment>, ghost more: seq<Piece>)
    requires Waiting(r, lines, pending, i)
    requires SplitUpTo(r, lines, pieces, segments, i - |pending|) && EndsInTable(pieces)
    ensures SplitUpTo(r, lines, more, flushed, i)
  {
    flushed, more := segments, pieces;
    if pending != [] {
      var text := if r.blank(Join(pending, "\n")) then [] else [TextSegment(Join(pending, "\n"))];
      flushed, more := PushPiece(r, lines, Run(i - |pending|, i), text, segments, pieces);
    }
  }

  /** `segments.push` */
  method PushPiece(r: Rules, lines: seq<string>, ghost p: Piece, segment: seq<Segment>, segments: seq<Segment>,
                   ghost pieces: seq<Piece>)
    returns (longer: seq<Segment>, ghost more: seq<Piece>)
    requires PieceOk(r, lines, p) && segment == SegmentOf(r, lines, p)
    requires SplitUpTo(r, lines, pieces, segments, p.lo) && (p.Run? ==> EndsInTable(pieces))
    ensures more == pieces + [p] && SplitUpTo(r, lines, more, longer, p.hi)
  {
    longer, more := segments + segment, pieces + [p];
    assert more[..|pieces|] == pieces;
  }

  // --- what a splitting guarantees -------------------------------------------------------------------------------

  predicate TableFits(g: Segment) {
    g.TableSegment? ==> forall i | 0 <= i < |g.rows| :: |g.rows[i]| == |g.header|
  }

  lemma TablesFit(r: Rules, lines: seq<string>, p: Piece)
    requires PieceOk(r, lines, p)
    ensures forall i | 0 <= i < |SegmentOf(r, lines, p)| :: TableFits(SegmentOf(r, lines, p)[i])
  {
    if p.Table? {
      var header := r.cells(lines[p.lo]);
      var rows := Rows(r, lines, header, p.lo + 2, p.hi);
      assert forall i | 0 <= i < |rows| :: rows[i] == Fit(header, r.cells(lines[p.lo + 2 + i]));
    }
  }

  /** Every row is as wide as its header, and no two text segments stand side by side. */
  lemma {:induction false} SegmentsWellFormed(r: Rules, lines: seq<string>, pieces: seq<Piece>, n: nat)
    requires Covers(r, lines, pieces, n)
    ensures var gs := SegmentsOf(r, lines, pieces);
            && (forall i | 0 <= i < |gs| :: TableFits(gs[i]))
            && (forall i | 0 <= i < |gs| - 1 :: !(gs[i].TextSegment? && gs[i + 1].TextSegment?))
            && (gs != [] && gs[|gs| - 1].TextSegment? ==> pieces[|pieces| - 1].Run?)
    decreases |pieces|
  {
    if pieces != [] {
      var last := |pieces| - 1;
      var before := SegmentsOf(r, lines, pieces[..last]);
      assert PieceOk(r, lines, pieces[last]);
      TablesFit(r, lines, pieces[last]);
      if last == 0 {
        assert before == [];
      } else {
        assert forall i | 0 <= i < last :: pieces[..last][i] == pieces[i];
        SegmentsWellFormed(r, lines, pieces[..last], pieces[last - 1].hi);
      }
      var here, gs := SegmentOf(r, lines, pieces[last]), SegmentsOf(r, lines, pieces);
      assert gs == before + here;
      hide TableFits;
      forall i | 0 <= i < |gs| ensures TableFits(gs[i]) {
        assert i >= |before| ==> gs[i] == here[i - |before|];
      }
    }
  }

  /** Splitting a produced text segment again gives that very segment: no line of a run opens a table on its own. */
  lemma RunHasNoTable(r: Rules, lines: seq<string>, p: Piece)
    requires NeedsDelimiter(r) && PieceOk(r, lines, p) && p.Run?
    requires forall i | 0 <= i < |lines| :: '\n' !in lines[i]
    ensures NoTable(r, Join(lines[p.lo..p.hi], "\n"))
  {
    var part := lines[p.lo..p.hi];
    SplitJoin(part, '\n');
    forall i | 0 <= i < |part| ensures !OpensAt(r, part, i) {
      assert !OpensAt(r, lines, p.lo + i);
    }
  }

  lemma {:induction false} TextSegmentsAreStable(r: Rules, lines: seq<string>, pieces: seq<Piece>, n: nat, g: Segment)
    requires NeedsDelimiter(r) && Covers(r, lines, pieces, n) && (forall i | 0 <= i < |lines| :: '\n' !in lines[i])
    requires g in SegmentsOf(r, lines, pieces) && g.TextSegment?
    ensures NoTable(r, g.text)
    decreases |pieces|
  {
    var last := |pieces| - 1;
    assert PieceOk(r, lines, pieces[last]);
    if g in SegmentOf(r, lines, pieces[last]) {
      RunHasNoTable(r, lines, pieces[last]);
    } else {
      assert forall i | 0 <= i < last :: pieces[..last][i] == pieces[i];
      assert last > 0;
      TextSegmentsAreStable(r, lines, pieces[..last], pieces[last - 1].hi, g);
    }
  }

  function LinesOf(lines: seq<string>, pieces: seq<Piece>): seq<string>
    requires forall i | 0 <= i < |pieces| :: pieces[i].lo <= pieces[i].hi <= |lines|
  {
    if pieces == [] then []
    else
      var last := pieces[|pieces| - 1];
      LinesOf(lines, pieces[..|pieces| - 1]) + lines[last.lo..last.hi]
  }

  /** No line is lost, doubled or moved: put together again, the pieces give the lines covered. */
  lemma {:induction false} LinesConserved(r: Rules, lines: seq<string>, pieces: seq<Piece>, n: nat)
    requires Covers(r, lines, pieces, n)
    ensures forall i | 0 <= i < |pieces| :: pieces[i].lo <= pieces[i].hi <= |lines|
    ensures n <= |lines| && LinesOf(lines, pieces) == lines[..n]
    decreases |pieces|
  {
    assert forall i | 0 <= i < |pieces| :: PieceOk(r, lines, pieces[i]);
    if pieces != [] {
      var last := |pieces| - 1;
      if last == 0 {
        assert LinesOf(lines, pieces[..0]) == [];
      } else {
        LinesConserved(r, lines, pieces[..last], pieces[last].lo);
      }
      assert lines[..n] == lines[..pieces[last].lo] + lines[pieces[last].lo..n];
    }
  }

  /** Where the k-th piece starts. */
  function StartOf(pieces: seq<Piece>, k: nat): nat
    requires k <= |pieces|
  {
    if k == 0 then 0 else pieces[k - 1].hi
  }

  /** A piece goes on for as long as it can. */
  predicate Stops(r: Rules, lines: seq<string>, p: Piece) {
    p.hi < |lines| ==> if p.Run? then OpensAt(r, lines, p.hi) else !r.continues(lines[p.hi])
  }

  lemma PiecesStop(r: Rules, lines: seq<string>, pieces: seq<Piece>, k: nat)
    requires Covers(r, lines, pieces, |lines|) && k < |pieces|
    ensures Stops(r, lines, pieces[k])
  {
    assert PieceOk(r, lines, pieces[k]);
    if k + 1 < |pieces| {
      assert PieceOk(r, lines, pieces[k + 1]);
    }
  }

  lemma StartsInOrder(r: Rules, lines: seq<string>, pieces: seq<Piece>, k: nat)
    requires Covers(r, lines, pieces, |lines|) && k <= |pieces|
    ensures k < |pieces| <==> StartOf(pieces, k) < |lines|
    ensures k < |pieces| ==> pieces[k].lo == StartOf(pieces, k)
  {
    assert k < |pieces| ==> PieceOk(r, lines, pieces[k]);
  }

  /** From the same line on, two pieces that go on for as long as they can are the same. */
  lemma SamePiece(r: Rules, lines: seq<string>, p: Piece, q: Piece)
    requires PieceOk(r, lines, p) && PieceOk(r, lines, q) && p.lo == q.lo
    requires Stops(r, lines, p) && Stops(r, lines, q)
    ensures p == q
  {
    assert p.Run? ==> !OpensAt(r, lines, p.lo);
    assert q.Run? ==> !OpensAt(r, lines, q.lo);
  }

  /** The splitting is the only one: any two ways of covering the lines are the same. */
  lemma {:induction false} CoverUnique(r: Rules, lines: seq<string>, a: seq<Piece>, b: seq<Piece>, k: nat)
    requires Covers(r, lines, a, |lines|) && Covers(r, lines, b, |lines|)
    requires k <= |a| && k <= |b| && a[..k] == b[..k]
    ensures a == b
    decreases |a| - k
  {
    assert StartOf(a, k) == StartOf(b, k) by {
      assert k > 0 ==> a[k - 1] == a[..k][k - 1] == b[..k][k - 1] == b[k - 1];
    }
    StartsInOrder(r, lines, a, k);
    StartsInOrder(r, lines, b, k);
    if k < |a| {
      PiecesStop(r, lines, a, k);
      PiecesStop(r, lines, b, k);
      SamePiece(r, lines, a[k], b[k]);
      assert a[..k + 1] == a[..k] + [a[k]] && b[..k + 1] == b[..k] + [b[k]];
      CoverUnique(r, lines, a, b, k + 1);
    } else {
      assert a == a[..k] && b == b[..k];
    }
  }

  // --- the rules of the source -----------------------------------------------------------------------------------

  lemma GfmNeedsDelimiter()
    ensures NeedsDelimiter(Gfm)
  {
  }

  /** No text segment holds a table, every row is as wide as its header, and no two text segments stand side by side. */
  predicate WellSplit(r: Rules, segments: seq<Segment>) {
    && (forall g | g in segments :: TableFits(g) && (g.TextSegment? ==> NoTable(r, g.text)))
    && (forall i | 0 <= i < |segments| - 1 :: !(segments[i].TextSegment? && segments[i + 1].TextSegment?))
  }

  lemma PiecesSplitWell(r: Rules, text: string, lines: seq<string>, pieces: seq<Piece>, segments: seq<Segment>)
    requires lines == SplitChar(text, '\n')
    requires NeedsDelimiter(r) && SplitUpTo(r, lines, pieces, segments, |lines|)
    ensures WellSplit(r, segments)
    ensures forall i | 0 <= i < |pieces| :: pieces[i].lo <= pieces[i].hi <= |lines|
    ensures Join(LinesOf(lines, pieces), "\n") == text
  {
    JoinSplit(text, '\n');
    LinesConserved(r, lines, pieces, |lines|);
    SegmentsWellFormed(r, lines, pieces, |lines|);
    assert lines[..|lines|] == lines;
    hide NoTable, SplitChar, Join, LinesOf, TableFits, Covers, SegmentsOf, NeedsDelimiter;
    assert segments == SegmentsOf(r, lines, pieces);
    forall g | g in SegmentsOf(r, lines, pieces) ensures TableFits(g) && (g.TextSegment? ==> NoTable(r, g.text)) {
      if g.TextSegment? {
        TextSegmentsAreStable(r, lines, pieces, |lines|, g);
      }
    }
  }

  // --- documents: how tables and the text around them are written ------------------------------------------------

  /** White space within a line. */
  predicate Spaces(s: string) {
    forall i | 0 <= i < |s| :: IsScriptSpace(s[i]) && s[i] != '\n'
  }

  /** No white space at either end. */
  predicate Trimmed(s: string) {
    s == "" || (!IsScriptSpace(s[0]) && !IsScriptSpace(s[|s| - 1]))
  }

  /** A cell with the white space written around its text. */
  datatype Cell = Cell(before: string, text: string, after: string)

  predicate CellOk(c: Cell) {
    Spaces(c.before) && Spaces(c.after) && Trimmed(c.text) && '|' !in c.text && '\n' !in c.text
  }

  /** A line of a table. An outer pipe may be left out when the cell next to it is not empty. */
  datatype Row = Row(indent: string, left: bool, cells: seq<Cell>, right: bool, trail: string)

  predicate RowOk(row: Row) {
    && Spaces(row.indent) && Spaces(row.trail)
    && row.cells != [] && (forall i | 0 <= i < |row.cells| :: CellOk(row.cells[i]))
    && (row.left || row.cells[0].text != "")
    && (row.right || row.cells[|row.cells| - 1].text != "")
    && (row.left || row.right || |row.cells| > 1)
  }

  function Written(cells: seq<Cell>): (r: seq<string>)
    ensures |r| == |cells|
  {
    seq(|cells|, i requires 0 <= i < |cells| => cells[i].before + cells[i].text + cells[i].after)
  }

  function Texts(row: Row): (r: seq<string>)
    ensures |r| == |row.cells|
  {
    seq(|row.cells|, i requires 0 <= i < |row.cells| => row.cells[i].text)
  }

  function Pipe(present: bool): string {
    if present then "|" else ""
  }

  function RowText(row: Row): string {
    row.indent + (Pipe(row.left) + Join(Written(row.cells), "|") + Pipe(row.right)) + row.trail
  }

  /** What a delimiter cell says: at least one dash, and a colon at the ends where one is wanted. */
  datatype Rule = Rule(left: bool, more: nat, right: bool)

  function Colon(present: bool): string {
    if present then ":" else ""
  }

  function RuleText(rule: Rule): string {
    Colon(rule.left) + Dashes(rule.more + 1) + Colon(rule.right)
  }

  function Dashes(n: nat): (s: string)
    ensures |s| == n && forall i | 0 <= i < n :: s[i] == '-'
  {
    if n == 0 then "" else "-" + Dashes(n - 1)
  }

  ghost predicate ReadsAsRule(cell: string) {
    exists rule: Rule :: cell == RuleText(rule)
  }

  /** A stretch of a document: lines without pipes, or a table. */
  datatype Block = Prose(lines: seq<string>) | Grid(header: Row, delimiter: Row, rows: seq<Row>)

  ghost predicate BlockOk(b: Block) {
    match b
    case Prose(lines) => lines != [] && forall i | 0 <= i < |lines| :: '|' !in lines[i] && '\n' !in lines[i]
    case Grid(header, delimiter, rows) =>
      && RowOk(header) && RowOk(delimiter) && |delimiter.cells| == |header.cells|
      && (forall i | 0 <= i < |delimiter.cells| :: ReadsAsRule(delimiter.cells[i].text))
      && (forall i | 0 <= i < |rows| :: RowOk(rows[i]))
  }

  /** At least one block, and never two of one kind side by side. */
  ghost predicate Document(blocks: seq<Block>) {
    && blocks != []
    && (forall i | 0 <= i < |blocks| :: BlockOk(blocks[i]))
    && (forall i | 0 <= i < |blocks| - 1 :: blocks[i].Prose? != blocks[i + 1].Prose?)
  }

  function RowTexts(rows: seq<Row>): (r: seq<string>)
    ensures |r| == |rows|
  {
    seq(|rows|, i requires 0 <= i < |rows| => RowText(rows[i]))
  }

  function BlockLines(b: Block): seq<string> {
    match b
    case Prose(lines) => lines
    case Grid(header, delimiter, rows) => [RowText(header), RowText(delimiter)] + RowTexts(rows)
  }

  function DocumentLines(blocks: seq<Block>): seq<string> {
    if blocks == [] then []
    else DocumentLines(blocks[..|blocks| - 1]) + BlockLines(blocks[|blocks| - 1])
  }

  function DocumentText(blocks: seq<Block>): string {
    Join(DocumentLines(blocks), "\n")
  }

  /** The cells of a row under a header: a row that is too short ends in empty cells, one that is too long is cut. */
  function Shown(row: Row, width: nat): seq<string> {
    if width <= |row.cells| then Texts(row)[..width]
    else Texts(row) + seq(width - |row.cells|, _ => "")
  }

  /** What a reader sees of a block. */
  function BlockShown(b: Block): seq<Segment> {
    match b
    case Prose(lines) =>
      if forall i | 0 <= i < |Join(lines, "\n")| :: IsScriptSpace(Join(lines, "\n")[i]) then []
      else [TextSegment(Join(lines, "\n"))]
    case Grid(header, _, rows) =>
      [TableSegment(Texts(header),
                    seq(|rows|, i requires 0 <= i < |rows| => Shown(rows[i], |header.cells|)))]
  }

  function DocumentShown(blocks: seq<Block>): seq<Segment> {
    if blocks == [] then []
    else DocumentShown(blocks[..|blocks| - 1]) + BlockShown(blocks[|blocks| - 1])
  }

  // --- reading one line ------------------------------------------------------------------------------------------

  lemma {:induction false} TrimStartCore(a: string, m: string)
    requires (forall i | 0 <= i < |a| :: IsScriptSpace(a[i])) && (m == "" || !IsScriptSpace(m[0]))
    ensures TrimStart(a + m, IsScriptSpace) == m
  {
    if a == "" {
      assert a + m == m;
    } else {
      assert (a + m)[1..] == a[1..] + m;
      TrimStartCore(a[1..], m);
    }
  }

  lemma {:induction false} TrimEndCore(m: string, b: string)
    requires (forall i | 0 <= i < |b| :: IsScriptSpace(b[i])) && (m == "" || !IsScriptSpace(m[|m| - 1]))
    ensures TrimEnd(m + b, IsScriptSpace) == m
  {
    if b == "" {
      assert m + b == m;
    } else {
      assert (m + b)[..|m + b| - 1] == m + b[..|b| - 1];
      TrimEndCore(m, b[..|b| - 1]);
    }
  }

  lemma BlankTrims(a: string, b: string)
    requires Spaces(a) && Spaces(b)
    ensures ScriptTrim(a + "" + b) == ""
  {
    hide IsScriptSpace;
    var s := a + "" + b;
    assert forall i | 0 <= i < |s| :: IsScriptSpace(s[i]);
    assert TrimStart(s, IsScriptSpace) == "";
  }

  /** Trimming takes away white space around a trimmed text. */
  lemma TrimCore(a: string, m: string, b: string)
    requires Spaces(a) && Spaces(b) && Trimmed(m)
    ensures ScriptTrim(a + m + b) == m
  {
    hide IsScriptSpace;
    if m == "" {
      BlankTrims(a, b);
    } else {
      TrimStartCore(a, m + b);
      TrimEndCore(m, b);
      assert a + m + b == a + (m + b);
    }
  }

  /** The cells without the white space at the start of the line. */
  function FromLeft(row: Row): (r: seq<Cell>)
    requires RowOk(row)
    ensures |r| == |row.cells|
  {
    if row.left then row.cells else [row.cells[0].(before := "")] + row.cells[1..]
  }

  /** The cells without the white space that ends up at the end of the line. */
  function Core(row: Row): (r: seq<Cell>)
    requires RowOk(row)
    ensures |r| == |row.cells| && forall i | 0 <= i < |r| :: CellOk(r[i]) && r[i].text == row.cells[i].text
  {
    var cells, last := FromLeft(row), |row.cells| - 1;
    if row.right then cells else cells[..last] + [cells[last].(after := "")]
  }

  lemma JoinFirst(a: string, s: string, rest: seq<string>)
    ensures Join([a + s] + rest, "|") == a + Join([s] + rest, "|")
  {
    assert ([a + s] + rest)[1..] == rest == ([s] + rest)[1..];
    if rest != [] {
      assert a + s + "|" + Join(rest, "|") == a + (s + "|" + Join(rest, "|"));
    }
  }

  lemma {:induction false} JoinLast(rest: seq<string>, s: string, b: string)
    ensures Join(rest + [s + b], "|") == Join(rest + [s], "|") + b
  {
    if rest != [] {
      JoinLast(rest[1..], s, b);
      assert (rest + [s + b])[1..] == rest[1..] + [s + b] && (rest + [s])[1..] == rest[1..] + [s];
      var j := Join(rest[1..] + [s], "|");
      assert rest[0] + "|" + (j + b) == rest[0] + "|" + j + b;
    }
  }

  function Lead(row: Row): string
    requires RowOk(row)
  {
    if row.left then "" else row.cells[0].before
  }

  function Tail(row: Row): string
    requires RowOk(row)
  {
    if row.right then "" else row.cells[|row.cells| - 1].after
  }

  lemma JoinFromLeft(row: Row)
    requires RowOk(row)
    ensures Join(Written(row.cells), "|") == Lead(row) + Join(Written(FromLeft(row)), "|")
  {
    hide Join, CellOk;
    if row.left {
      assert Lead(row) + Join(Written(row.cells), "|") == Join(Written(row.cells), "|");
    } else {
      var c, rest := row.cells[0], Written(row.cells)[1..];
      var s := "" + c.text + c.after;
      JoinFirst(c.before, s, rest);
      assert c.before + s == c.before + c.text + c.after;
      assert Written(row.cells) == [c.before + s] + rest;
      assert Written(FromLeft(row)) == [s] + rest;
    }
  }

  lemma JoinFromRight(row: Row)
    requires RowOk(row)
    ensures Join(Written(FromLeft(row)), "|") == Join(Written(Core(row)), "|") + Tail(row)
  {
    hide Join, CellOk;
    var cells, last := FromLeft(row), |row.cells| - 1;
    if row.right {
      assert Join(Written(cells), "|") == Join(Written(cells), "|") + Tail(row);
    } else {
      var c, front := cells[last], Written(cells)[..last];
      var s := c.before + c.text + "";
      JoinLast(front, s, c.after);
      assert s + c.after == c.before + c.text + c.after;
      assert Written(cells) == front + [s + c.after];
      assert Written(Core(row)) == front + [s];
    }
  }

  lemma CoreWritten(row: Row)
    requires RowOk(row)
    ensures Join(Written(row.cells), "|") == Lead(row) + Join(Written(Core(row)), "|") + Tail(row)
  {
    hide *;
    JoinFromLeft(row);
    JoinFromRight(row);
  }

  lemma {:induction false} JoinEnds(ls: seq<string>)
    requires ls != []
    ensures ls[0] != "" ==> Join(ls, "|") != "" && Join(ls, "|")[0] == ls[0][0]
    ensures var z := ls[|ls| - 1]; z != "" ==> Join(ls, "|") != "" && Join(ls, "|")[|Join(ls, "|")| - 1] == z[|z| - 1]
  {
    if |ls| > 1 {
      JoinEnds(ls[1..]);
    }
  }

  /** What stands between the white space at the ends of the line. */
  function Kernel(row: Row): string
    requires RowOk(row)
  {
    Pipe(row.left) + Join(Written(Core(row)), "|") + Pipe(row.right)
  }

  /** Where the outer pipe is left out, the line begins or ends with the text of a cell. */
  lemma CoreEnds(row: Row)
    requires RowOk(row)
    ensures var j := Join(Written(Core(row)), "|");
            && (!row.left ==> j != "" && j[0] != '|' && !IsScriptSpace(j[0]))
            && (!row.right ==> j != "" && j[|j| - 1] != '|' && !IsScriptSpace(j[|j| - 1]))
  {
    hide Join, IsScriptSpace;
    var core := Core(row);
    var z := |core| - 1;
    JoinEnds(Written(core));
    if !row.left {
      assert Written(core)[0] == "" + core[0].text + core[0].after;
    }
    if !row.right {
      assert Written(core)[z] == core[z].before + core[z].text + "";
    }
  }

  lemma UnwrapKernel(j: string, left: bool, right: bool)
    requires !left ==> j != "" && j[0] != '|' && !IsScriptSpace(j[0])
    requires !right ==> j != "" && j[|j| - 1] != '|' && !IsScriptSpace(j[|j| - 1])
    ensures var k := Pipe(left) + j + Pipe(right); Trimmed(k) && Unwrap(k, '|') == j
  {
    var k := Pipe(left) + j + Pipe(right);
    var s := if k != "" && k[0] == '|' then k[1..] else k;
    assert s == j + Pipe(right);
  }

  lemma KernelEnds(row: Row)
    requires RowOk(row)
    ensures Trimmed(Kernel(row)) && Unwrap(Kernel(row), '|') == Join(Written(Core(row)), "|")
  {
    hide Join, Written, Core, Trimmed, Unwrap, RowOk, IsScriptSpace, Pipe;
    CoreEnds(row);
    UnwrapKernel(Join(Written(Core(row)), "|"), row.left, row.right);
  }

  lemma MarginsAreSpaces(row: Row)
    requires RowOk(row)
    ensures Spaces(row.indent + Lead(row)) && Spaces(Tail(row) + row.trail)
  {
    hide IsScriptSpace;
    assert CellOk(row.cells[0]) && CellOk(row.cells[|row.cells| - 1]);
  }

  lemma RowTextIs(row: Row, j: string)
    requires RowOk(row) && j == Join(Written(Core(row)), "|")
    requires Join(Written(row.cells), "|") == Lead(row) + (j + Tail(row))
    ensures RowText(row) == row.indent + Lead(row) + Kernel(row) + (Tail(row) + row.trail)
  {
    hide Join, Written, Core, RowOk;
  }

  lemma KernelTrim(row: Row)
    requires RowOk(row)
    ensures ScriptTrim(RowText(row)) == Kernel(row)
  {
    hide *;
    CoreWritten(row);
    KernelEnds(row);
    MarginsAreSpaces(row);
    TrimCore(row.indent + Lead(row), Kernel(row), Tail(row) + row.trail);
    RowTextIs(row, Join(Written(Core(row)), "|"));
  }

  lemma CoreCells(row: Row)
    requires RowOk(row)
    ensures var ws := Written(Core(row));
            && ws != [] && |ws| == |Texts(row)|
            && forall i | 0 <= i < |ws| :: '|' !in ws[i] && ScriptTrim(ws[i]) == Texts(row)[i]
  {
    hide ScriptTrim;
    var core := Core(row);
    forall i | 0 <= i < |core|
      ensures '|' !in Written(core)[i] && ScriptTrim(Written(core)[i]) == row.cells[i].text
    {
      TrimCore(core[i].before, core[i].text, core[i].after);
    }
  }

  lemma EachIs(line: string, ws: seq<string>, texts: seq<string>)
    requires SplitChar(Unwrap(ScriptTrim(line), '|'), '|') == ws && |ws| == |texts|
    requires forall i | 0 <= i < |ws| :: ScriptTrim(ws[i]) == texts[i]
    ensures SplitCells(line) == texts
  {
    hide ScriptTrim, SplitChar, Unwrap;
  }

  /** A line of a table, however it is padded, reads back as the texts of its cells. */
  lemma CellsRoundTrip(row: Row)
    requires RowOk(row)
    ensures SplitCells(RowText(row)) == Texts(row)
  {
    hide *;
    KernelTrim(row);
    KernelEnds(row);
    CoreCells(row);
    SplitJoin(Written(Core(row)), '|');
    EachIs(RowText(row), Written(Core(row)), Texts(row));
  }

  lemma {:induction false} JoinHolds(ls: seq<string>, c: char)
    requires ls != []
    ensures c in Join(ls, "|") <==> (exists i :: 0 <= i < |ls| && c in ls[i]) || (c == '|' && |ls| > 1)
  {
    if |ls| > 1 {
      JoinHolds(ls[1..], c);
      assert (exists i :: 0 <= i < |ls| && c in ls[i]) <==>
        c in ls[0] || exists i :: 0 <= i < |ls[1..]| && c in ls[1..][i];
    }
  }

  lemma RowIsOneLine(row: Row)
    requires RowOk(row)
    ensures '\n' !in RowText(row) && '|' in RowText(row)
  {
    var ls := Written(row.cells);
    JoinHolds(ls, '\n');
    JoinHolds(ls, '|');
    assert forall i | 0 <= i < |ls| :: '\n' !in ls[i];
    var m := Pipe(row.left) + Join(ls, "|") + Pipe(row.right);
    assert '\n' !in m && '|' in m;
  }

  lemma UnwrapRule(rule: Rule)
    ensures Unwrap(RuleText(rule), ':') == Dashes(rule.more + 1)
  {
    var d, t := Dashes(rule.more + 1), RuleText(rule);
    var rest := if t[0] == ':' then t[1..] else t;
    hide Dashes;
    assert t[0] == if rule.left then ':' else '-';
    assert rest == d + Colon(rule.right);
    assert rest[|rest| - 1] == if rule.right then ':' else '-';
    assert (d + ":")[..|d|] == d;
  }

  lemma {:induction false} OnlyDashes(s: string)
    requires s != "" && forall i | 0 <= i < |s| :: s[i] == '-'
    ensures s == Dashes(|s| - 1 + 1)
  {
  }

  lemma DelimiterReads(cell: string)
    requires IsDelimiterCell(cell)
    ensures ReadsAsRule(cell)
  {
    var s := Unwrap(cell, ':');
    var left := cell[0] == ':';
    var rest := if left then cell[1..] else cell;
    var right := rest[|rest| - 1] == ':';
    OnlyDashes(s);
    hide Dashes;
    assert rest == s + Colon(right);
    assert cell == Colon(left) + s + Colon(right);
    assert cell == RuleText(Rule(left, |s| - 1, right));
  }

  /** A delimiter cell is one or more dashes with a colon allowed at each end, and nothing else. */
  lemma DelimiterCellIff(cell: string)
    ensures IsDelimiterCell(cell) <==> ReadsAsRule(cell)
  {
    hide Dashes, RuleText;
    if IsDelimiterCell(cell) {
      DelimiterReads(cell);
    }
    if ReadsAsRule(cell) {
      var rule: Rule :| cell == RuleText(rule);
      UnwrapRule(rule);
    }
  }

  /** A line goes on a table exactly when it holds a pipe: a blank line holds none. */
  lemma ContinuesIff(line: string)
    ensures Gfm.continues(line) <==> '|' in line
    ensures Gfm.blank(line) <==> forall i | 0 <= i < |line| :: IsScriptSpace(line[i])
  {
    if '|' in line {
      var i :| 0 <= i < |line| && line[i] == '|';
      assert !IsScriptSpace(line[i]);
    }
  }

  /** A header and its delimiter row, as many rules as there are header cells. */
  ghost predicate StartsTable(lines: seq<string>, i: nat)
    requires i < |lines|
  {
    && '|' in lines[i] && i + 1 < |lines| && '|' in lines[i + 1]
    && var rules := SplitCells(lines[i + 1]);
       |rules| == |SplitCells(lines[i])| && forall c | 0 <= c < |rules| :: ReadsAsRule(rules[c])
  }

  lemma OpensIff(lines: seq<string>, i: nat)
    requires i < |lines|
    ensures OpensAt(Gfm, lines, i) <==> StartsTable(lines, i)
  {
    if i + 1 < |lines| {
      var rules := SplitCells(lines[i + 1]);
      hide SplitCells, IsDelimiterCell, ReadsAsRule;
      forall c | 0 <= c < |rules| ensures IsDelimiterCell(rules[c]) <==> ReadsAsRule(rules[c]) {
        DelimiterCellIff(rules[c]);
      }
    }
  }

  /** A table goes on to the first line that holds no pipe, and text to the first line that starts a table. */
  ghost predicate Reads(lines: seq<string>, p: Piece) {
    && p.lo < p.hi <= |lines|
    && match p
       case Run(lo, hi) =>
         (forall k | lo <= k < hi :: !StartsTable(lines, k)) && (hi < |lines| ==> StartsTable(lines, hi))
       case Table(lo, hi) =>
         && lo + 2 <= hi && StartsTable(lines, lo)
         && (forall k | lo + 2 <= k < hi :: '|' in lines[k]) && (hi < |lines| ==> '|' !in lines[hi])
  }

  lemma PieceReads(lines: seq<string>, pieces: seq<Piece>, k: nat)
    requires Covers(Gfm, lines, pieces, |lines|) && k < |pieces|
    ensures Reads(lines, pieces[k])
  {
    hide Gfm, StartsTable;
    var p := pieces[k];
    PiecesStop(Gfm, lines, pieces, k);
    assert PieceOk(Gfm, lines, p);
    forall i | 0 <= i < |lines| ensures OpensAt(Gfm, lines, i) <==> StartsTable(lines, i) {
      OpensIff(lines, i);
    }
    forall i | 0 <= i < |lines| ensures Gfm.continues(lines[i]) <==> '|' in lines[i] {
      ContinuesIff(lines[i]);
    }
  }

  // --- reading a document ----------------------------------------------------------------------------------------

  function PieceOf(b: Block, lo: nat): Piece {
    if b.Prose? then Run(lo, lo + |BlockLines(b)|) else Table(lo, lo + |BlockLines(b)|)
  }

  function PiecesOf(blocks: seq<Block>): seq<Piece> {
    if blocks == [] then []
    else
      var before := blocks[..|blocks| - 1];
      PiecesOf(before) + [PieceOf(blocks[|blocks| - 1], |DocumentLines(before)|)]
  }

  /** The lines of the block stand at `lo`, and the line behind a table holds no pipe. */
  predicate StandsAt(b: Block, lines: seq<string>, lo: nat) {
    && lo + |BlockLines(b)| <= |lines| && lines[lo..lo + |BlockLines(b)|] == BlockLines(b)
    && (b.Grid? && lo + |BlockLines(b)| < |lines| ==> '|' !in lines[lo + |BlockLines(b)|])
  }

  lemma ProseReads(b: Block, lines: seq<string>, lo: nat)
    requires BlockOk(b) && b.Prose? && StandsAt(b, lines, lo)
    ensures PieceOk(Gfm, lines, PieceOf(b, lo)) && SegmentOf(Gfm, lines, PieceOf(b, lo)) == BlockShown(b)
  {
    hide SplitCells, IsScriptSpace, ScriptTrim;
    var hi := lo + |b.lines|;
    forall k | lo <= k < hi ensures !OpensAt(Gfm, lines, k) {
      assert lines[k] == b.lines[k - lo];
      OpensIff(lines, k);
    }
    ContinuesIff(Join(b.lines, "\n"));
  }

  lemma GridOpens(b: Block, lines: seq<string>, lo: nat)
    requires BlockOk(b) && b.Grid? && StandsAt(b, lines, lo)
    ensures OpensAt(Gfm, lines, lo) && SplitCells(lines[lo]) == Texts(b.header)
  {
    hide Gfm, SplitCells, RowText, RowOk, ReadsAsRule;
    assert lines[lo] == BlockLines(b)[0] && lines[lo + 1] == BlockLines(b)[1];
    CellsRoundTrip(b.header);
    CellsRoundTrip(b.delimiter);
    RowIsOneLine(b.header);
    RowIsOneLine(b.delimiter);
    OpensIff(lines, lo);
  }

  lemma GridRow(b: Block, lines: seq<string>, lo: nat, k: nat)
    requires BlockOk(b) && b.Grid? && StandsAt(b, lines, lo) && k < |b.rows|
    ensures '|' in lines[lo + 2 + k] && SplitCells(lines[lo + 2 + k]) == Texts(b.rows[k])
  {
    hide SplitCells, RowText, RowOk;
    assert lines[lo + 2 + k] == BlockLines(b)[2 + k] == RowText(b.rows[k]);
    CellsRoundTrip(b.rows[k]);
    RowIsOneLine(b.rows[k]);
  }

  lemma FitIsShown(header: seq<string>, row: Row)
    ensures Fit(header, Texts(row)) == Shown(row, |header|)
  {
  }

  lemma GridRows(b: Block, lines: seq<string>, lo: nat)
    requires BlockOk(b) && b.Grid? && StandsAt(b, lines, lo)
    ensures |BlockLines(b)| == 2 + |b.rows|
    ensures forall k | lo + 2 <= k < lo + 2 + |b.rows| ::
              '|' in lines[k] && SplitCells(lines[k]) == Texts(b.rows[k - lo - 2])
  {
    hide SplitCells, RowText, BlockOk;
    forall k | lo + 2 <= k < lo + 2 + |b.rows|
      ensures '|' in lines[k] && SplitCells(lines[k]) == Texts(b.rows[k - lo - 2])
    {
      GridRow(b, lines, lo, k - lo - 2);
    }
  }

  lemma TableStands(lines: seq<string>, lo: nat, hi: nat)
    requires lo + 2 <= hi <= |lines| && OpensAt(Gfm, lines, lo)
    requires forall k | lo + 2 <= k < hi :: '|' in lines[k]
    requires hi < |lines| ==> '|' !in lines[hi]
    ensures PieceOk(Gfm, lines, Table(lo, hi))
  {
    hide Gfm;
    forall k | 0 <= k < |lines| ensures Gfm.continues(lines[k]) <==> '|' in lines[k] {
      ContinuesIff(lines[k]);
    }
  }

  /** The rows of a table are shown against its header. */
  lemma TableShown(b: Block, lines: seq<string>, lo: nat)
    requires b.Grid? && lo + 2 + |b.rows| <= |lines| && SplitCells(lines[lo]) == Texts(b.header)
    requires forall k | lo + 2 <= k < lo + 2 + |b.rows| :: SplitCells(lines[k]) == Texts(b.rows[k - lo - 2])
    ensures SegmentOf(Gfm, lines, Table(lo, lo + 2 + |b.rows|)) == BlockShown(b)
  {
    hide SplitCells, Fit, Shown;
    var header, hi := Texts(b.header), lo + 2 + |b.rows|;
    var rows := Rows(Gfm, lines, header, lo + 2, hi);
    forall k | 0 <= k < |b.rows| ensures rows[k] == Shown(b.rows[k], |b.header.cells|) {
      assert SplitCells(lines[lo + 2 + k]) == Texts(b.rows[k]);
      FitIsShown(header, b.rows[k]);
    }
    var shown := BlockShown(b)[0].rows;
    assert rows == shown;
  }

  lemma GridReads(b: Block, lines: seq<string>, lo: nat)
    requires BlockOk(b) && b.Grid? && StandsAt(b, lines, lo)
    ensures PieceOk(Gfm, lines, PieceOf(b, lo)) && SegmentOf(Gfm, lines, PieceOf(b, lo)) == BlockShown(b)
  {
    hide Gfm, SplitCells, BlockOk, PieceOk, SegmentOf, BlockShown, OpensAt, Texts, BlockLines;
    GridOpens(b, lines, lo);
    GridRows(b, lines, lo);
    TableStands(lines, lo, lo + 2 + |b.rows|);
    TableShown(b, lines, lo);
  }

  lemma BlockReads(b: Block, lines: seq<string>, lo: nat)
    requires BlockOk(b) && StandsAt(b, lines, lo)
    ensures PieceOk(Gfm, lines, PieceOf(b, lo)) && SegmentOf(Gfm, lines, PieceOf(b, lo)) == BlockShown(b)
  {
    hide *;
    if b.Prose? {
      ProseReads(b, lines, lo);
    } else {
      GridReads(b, lines, lo);
    }
  }

  predicate EndsInGrid(blocks: seq<Block>) {
    blocks != [] && blocks[|blocks| - 1].Grid?
  }

  /** The first blocks of a document and the line behind them. */
  ghost predicate Front(blocks: seq<Block>, lines: seq<string>) {
    && (blocks != [] ==> Document(blocks))
    && |DocumentLines(blocks)| <= |lines| && lines[..|DocumentLines(blocks)|] == DocumentLines(blocks)
    && (EndsInGrid(blocks) && |DocumentLines(blocks)| < |lines| ==> '|' !in lines[|DocumentLines(blocks)|])
  }

  lemma DocumentShrinks(blocks: seq<Block>)
    requires Document(blocks)
    ensures var before, b := blocks[..|blocks| - 1], blocks[|blocks| - 1];
            && (before != [] ==> Document(before)) && BlockOk(b)
            && (b.Prose? ==> before == [] || EndsInGrid(before))
            && (b.Grid? ==> !EndsInGrid(before))
  {
    hide BlockOk;
    if |blocks| > 1 {
      assert blocks[|blocks| - 2].Prose? != blocks[|blocks| - 1].Prose?;
    }
  }

  lemma LinesShrink(lines: seq<string>, x: seq<string>, y: seq<string>)
    requires |x + y| <= |lines| && lines[..|x + y|] == x + y
    ensures lines[..|x|] == x && lines[|x|..|x| + |y|] == y
  {
    assert lines[..|x|] == lines[..|x + y|][..|x|] && lines[|x|..|x| + |y|] == lines[..|x + y|][|x|..];
  }

  lemma ProseHasNoPipe(b: Block, lines: seq<string>, lo: nat)
    requires BlockOk(b) && b.Prose? && lo + |BlockLines(b)| <= |lines|
    requires lines[lo..lo + |BlockLines(b)|] == BlockLines(b)
    ensures lo < |lines| && '|' !in lines[lo]
  {
    assert lines[lo] == lines[lo..lo + |b.lines|][0] == b.lines[0];
  }

  /** The lines of a document are those before its last block and those of that block. */
  lemma FrontParts(blocks: seq<Block>, lines: seq<string>, before: seq<Block>, b: Block)
    requires Front(blocks, lines) && blocks != [] && before == blocks[..|blocks| - 1] && b == blocks[|blocks| - 1]
    ensures Document(blocks)
    ensures var all := DocumentLines(before) + BlockLines(b);
            && |all| <= |lines| && lines[..|all|] == all
            && (b.Grid? && |all| < |lines| ==> '|' !in lines[|all|])
  {
    hide Document, BlockLines;
  }

  lemma StandsBehind(b: Block, lines: seq<string>, x: seq<string>)
    requires |x + BlockLines(b)| <= |lines| && lines[..|x + BlockLines(b)|] == x + BlockLines(b)
    requires b.Grid? && |x + BlockLines(b)| < |lines| ==> '|' !in lines[|x + BlockLines(b)|]
    ensures StandsAt(b, lines, |x|) && lines[..|x|] == x
    ensures BlockOk(b) && b.Prose? ==> |x| < |lines| && '|' !in lines[|x|]
  {
    hide BlockLines;
    LinesShrink(lines, x, BlockLines(b));
    if BlockOk(b) && b.Prose? {
      ProseHasNoPipe(b, lines, |x|);
    }
  }

  lemma FrontShrinks(blocks: seq<Block>, lines: seq<string>)
    requires Front(blocks, lines) && blocks != []
    ensures var before, b := blocks[..|blocks| - 1], blocks[|blocks| - 1];
            && Front(before, lines) && BlockOk(b) && StandsAt(b, lines, |DocumentLines(before)|)
            && (b.Prose? ==> before == [] || EndsInGrid(before))
  {
    hide *;
    var before, b := blocks[..|blocks| - 1], blocks[|blocks| - 1];
    FrontParts(blocks, lines, before, b);
    DocumentShrinks(blocks);
    StandsBehind(b, lines, DocumentLines(before));
    IsFront(before, lines);
  }

  lemma IsFront(blocks: seq<Block>, lines: seq<string>)
    requires blocks != [] ==> Document(blocks)
    requires |DocumentLines(blocks)| <= |lines| && lines[..|DocumentLines(blocks)|] == DocumentLines(blocks)
    requires EndsInGrid(blocks) && |DocumentLines(blocks)| < |lines| ==> '|' !in lines[|DocumentLines(blocks)|]
    ensures Front(blocks, lines)
  {
    hide Document, DocumentLines, EndsInGrid;
  }

  lemma Unfold(blocks: seq<Block>, lines: seq<string>)
    requires blocks != []
    ensures var before, b := blocks[..|blocks| - 1], blocks[|blocks| - 1];
            var p := PieceOf(b, |DocumentLines(before)|);
            && PiecesOf(blocks) == PiecesOf(before) + [p] && p.lo == |DocumentLines(before)|
            && DocumentShown(blocks) == DocumentShown(before) + BlockShown(b)
            && p.hi == |DocumentLines(blocks)| && (p.Run? <==> b.Prose?)
  {
    hide BlockShown, BlockLines;
  }

  lemma {:induction false} DocumentReads(blocks: seq<Block>, lines: seq<string>)
    requires Front(blocks, lines)
    ensures SplitUpTo(Gfm, lines, PiecesOf(blocks), DocumentShown(blocks), |DocumentLines(blocks)|)
    ensures EndsInTable(PiecesOf(blocks)) <==> blocks == [] || EndsInGrid(blocks)
  {
    if blocks == [] {
    } else {
      hide *;
      var before, b := blocks[..|blocks| - 1], blocks[|blocks| - 1];
      Unfold(blocks, lines);
      FrontShrinks(blocks, lines);
      DocumentReads(before, lines);
      BlockReads(b, lines, |DocumentLines(before)|);
      Push(Gfm, lines, PiecesOf(before), DocumentShown(before), PieceOf(b, |DocumentLines(before)|));
      LastGrid(blocks);
    }
  }

  lemma LastGrid(blocks: seq<Block>)
    requires blocks != []
    ensures EndsInGrid(blocks) <==> !blocks[|blocks| - 1].Prose?
  {
  }

  lemma PushCovers(r: Rules, lines: seq<string>, pieces: seq<Piece>, p: Piece)
    requires Covers(r, lines, pieces, p.lo) && (p.Run? ==> EndsInTable(pieces)) && PieceOk(r, lines, p)
    ensures Covers(r, lines, pieces + [p], p.hi)
  {
    hide PieceOk;
  }

  /** One more piece at the end of a splitting. */
  lemma Push(r: Rules, lines: seq<string>, pieces: seq<Piece>, segments: seq<Segment>, p: Piece)
    requires SplitUpTo(r, lines, pieces, segments, p.lo) && (p.Run? ==> EndsInTable(pieces)) && PieceOk(r, lines, p)
    ensures SplitUpTo(r, lines, pieces + [p], segments + SegmentOf(r, lines, p), p.hi)
    ensures EndsInTable(pieces + [p]) <==> p.Table?
  {
    PushCovers(r, lines, pieces, p);
    assert Covers(r, lines, pieces, p.lo) && Covers(r, lines, pieces + [p], p.hi);
    hide Covers, SegmentOf;
    assert (pieces + [p])[..|pieces|] == pieces;
  }

  lemma BlockIsLines(b: Block)
    requires BlockOk(b)
    ensures BlockLines(b) != [] && forall i | 0 <= i < |BlockLines(b)| :: '\n' !in BlockLines(b)[i]
  {
    hide RowOk, RowText, ReadsAsRule;
    if b.Grid? {
      RowIsOneLine(b.header);
      RowIsOneLine(b.delimiter);
      forall i | 0 <= i < |b.rows| ensures '\n' !in RowText(b.rows[i]) {
        RowIsOneLine(b.rows[i]);
      }
    }
  }

  lemma {:induction false} DocumentIsLines(blocks: seq<Block>)
    requires blocks != [] && forall i | 0 <= i < |blocks| :: BlockOk(blocks[i])
    ensures DocumentLines(blocks) != []
    ensures forall i | 0 <= i < |DocumentLines(blocks)| :: '\n' !in DocumentLines(blocks)[i]
  {
    hide BlockOk, BlockLines;
    BlockIsLines(blocks[|blocks| - 1]);
    if |blocks| > 1 {
      DocumentIsLines(blocks[..|blocks| - 1]);
    }
  }

  lemma WholeIsFront(blocks: seq<Block>)
    requires Document(blocks)
    ensures Front(blocks, DocumentLines(blocks)) && SplitChar(DocumentText(blocks), '\n') == DocumentLines(blocks)
  {
    hide BlockOk, SplitChar, Join;
    DocumentIsLines(blocks);
    SplitJoin(DocumentLines(blocks), '\n');
  }

  lemma GridIsTable(blocks: seq<Block>, lines: seq<string>)
    requires Front(blocks, lines) && EndsInGrid(blocks)
    ensures exists k :: 0 <= k < |lines| && OpensAt(Gfm, lines, k)
  {
    DocumentReads(blocks, lines);
    hide Gfm, Front, DocumentLines, DocumentShown, PiecesOf, SegmentsOf, OpensAt, Document;
    var pieces := PiecesOf(blocks);
    assert pieces != [] by {
      Unfold(blocks, lines);
    }
    assert PieceOk(Gfm, lines, pieces[|pieces| - 1]);
    assert OpensAt(Gfm, lines, pieces[|pieces| - 1].lo);
  }

  predicate JustProse(blocks: seq<Block>) {
    |blocks| == 1 && blocks[0].Prose?
  }

  lemma ProseIsNoTable(blocks: seq<Block>)
    requires Document(blocks) && JustProse(blocks)
    ensures NoTable(Gfm, DocumentText(blocks))
  {
    WholeIsFront(blocks);
    var lines := DocumentLines(blocks);
    assert BlockOk(blocks[0]) && lines == blocks[0].lines;
    hide SplitChar, SplitCells, Front;
    forall k | 0 <= k < |lines| ensures !OpensAt(Gfm, lines, k) {
      OpensIff(lines, k);
    }
  }

  lemma DocumentHoldsTable(blocks: seq<Block>)
    requires Document(blocks) && !JustProse(blocks)
    ensures !NoTable(Gfm, DocumentText(blocks))
  {
    hide Gfm, BlockOk, Front, SplitChar, OpensAt, DocumentText, DocumentLines, BlockLines;
    var before, lines := blocks[..|blocks| - 1], DocumentLines(blocks);
    WholeIsFront(blocks);
    if EndsInGrid(blocks) {
      GridIsTable(blocks, lines);
    } else {
      FrontShrinks(blocks, lines);
      GridIsTable(before, lines);
    }
  }

  /** A printed document is read back: its text blocks as text, its tables as tables with their headers and rows. */
  lemma DocumentRoundTrip(blocks: seq<Block>, segments: seq<Segment>, pieces: seq<Piece>)
    requires Document(blocks)
    requires var text := DocumentText(blocks);
             && (NoTable(Gfm, text) ==> segments == [TextSegment(text)])
             && (!NoTable(Gfm, text) ==>
                 SplitUpTo(Gfm, SplitChar(text, '\n'), pieces, segments, |SplitChar(text, '\n')|))
    ensures segments == if JustProse(blocks) then [TextSegment(DocumentText(blocks))] else DocumentShown(blocks)
  {
    hide *;
    if JustProse(blocks) {
      ProseIsNoTable(blocks);
    } else {
      var lines := DocumentLines(blocks);
      DocumentHoldsTable(blocks);
      WholeIsFront(blocks);
      DocumentReads(blocks, lines);
      SameSplit(lines, pieces, segments, PiecesOf(blocks), DocumentShown(blocks));
    }
  }

  lemma SameSplit(lines: seq<string>, a: seq<Piece>, shown: seq<Segment>, b: seq<Piece>, expected: seq<Segment>)
    requires SplitUpTo(Gfm, lines, a, shown, |lines|) && SplitUpTo(Gfm, lines, b, expected, |lines|)
    ensures shown == expected
  {
    hide Gfm, Covers, SegmentsOf;
    CoverUnique(Gfm, lines, a, b, 0);
  }

  /** What a reader sees of a document; without a table that is its text as it stands. */
  ghost predicate ReadsAs(text: string, segments: seq<Segment>, blocks: seq<Block>) {
    Document(blocks) && DocumentText(blocks) == text ==>
      segments == if JustProse(blocks) then [TextSegment(text)] else DocumentShown(blocks)
  }

  lemma DocumentReadsAs(text: string, segments: seq<Segment>, pieces: seq<Piece>, blocks: seq<Block>)
    requires NoTable(Gfm, text) ==> segments == [TextSegment(text)]
    requires !NoTable(Gfm, text) ==>
               SplitUpTo(Gfm, SplitChar(text, '\n'), pieces, segments, |SplitChar(text, '\n')|)
    ensures ReadsAs(text, segments, blocks)
  {
    hide Gfm, NoTable, SplitUpTo, SplitChar, DocumentText, DocumentShown, Document;
    if Document(blocks) && DocumentText(blocks) == text {
      DocumentRoundTrip(blocks, segments, pieces);
    }
  }

  lemma AllRead(lines: seq<string>, pieces: seq<Piece>, segments: seq<Segment>)
    requires SplitUpTo(Gfm, lines, pieces, segments, |lines|)
    ensures forall i | 0 <= i < |pieces| :: Reads(lines, pieces[i])
  {
    hide Gfm, Covers, Reads, SegmentsOf;
    forall i | 0 <= i < |pieces| ensures Reads(lines, pieces[i]) {
      PieceReads(lines, pieces, i);
    }
  }

  lemma WholeSplitsWell(text: string)
    requires NoTable(Gfm, text)
    ensures WellSplit(Gfm, [TextSegment(text)])
  {
    hide Gfm, NoTable;
  }

  /**
   Any text under the source's own rules. What comes back is split well, and it is either the text itself, when that
   holds no table, or the segments of pieces whose lines put together are the text; a table goes on to the first line
   without a pipe. A document comes back as the text and the tables it was printed from.
   */
  method SplitGfm(text: string) returns (segments: seq<Segment>, ghost pieces: seq<Piece>)
    ensures WellSplit(Gfm, segments)
    ensures NoTable(Gfm, text) ==> segments == [TextSegment(text)]
    ensures !NoTable(Gfm, text) ==>
              var lines := SplitChar(text, '\n');
              && SplitUpTo(Gfm, lines, pieces, segments, |lines|)
              && (forall i | 0 <= i < |pieces| :: Reads(lines, pieces[i]))
              && Join(LinesOf(lines, pieces), "\n") == text
    ensures forall blocks :: ReadsAs(text, segments, blocks)
  {
    GfmNeedsDelimiter();
    hide *;
    segments, pieces := SplitPipeTables(Gfm, text);
    if NoTable(Gfm, text) {
      WholeSplitsWell(text);
    } else {
      PiecesSplitWell(Gfm, text, SplitChar(text, '\n'), pieces, segments);
      AllRead(SplitChar(text, '\n'), pieces, segments);
    }
    forall blocks ensures ReadsAs(text, segments, blocks) {
      DocumentReadsAs(text, segments, pieces, blocks);
    }
  }
}
