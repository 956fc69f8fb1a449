/**
 The eval harness's own reader of the stream, `_parse_sse` (backend/evals/harness.py). `loads` is `json.loads`;
 None stands for the `HarnessError` that data without JSON raises.
 */
module Harness {
  import opened Json
  import opened Text
  import opened Sse

  datatype Parsed = Parsed(event: Option<string>, data: Option<Json>)

  const EVENT_PREFIX := "event: "
  const DATA_PREFIX := "data: "

  /** `text.split("\n\n")`, with the part of the current piece already read. */
  function SplitBlank(piece: string, s: string): (r: seq<string>)
    ensures r != []
    decreases s
  {
    if s == "" then [piece]
    else if |s| > 1 && s[0] == '\n' && s[1] == '\n' then [piece] + SplitBlank("", s[2..])
    else SplitBlank(piece + [s[0]], s[1..])
  }

  /** A line that the reader parses as JSON. */
  predicate IsData(line: string) {
    !(EVENT_PREFIX <= line) && DATA_PREFIX <= line
  }

  function DataOf(line: string): string
    requires IsData(line)
  {
    line[|DATA_PREFIX|..]
  }

  /** None is a `HarnessError`: data that `json.loads` refuses. */
  function ParseLine(loads: string -> Option<Json>, p: Parsed, line: string): Option<Parsed> {
    if EVENT_PREFIX <= line then Some(p.(event := Some(line[|EVENT_PREFIX|..])))
    else if IsData(line) then
      match loads(DataOf(line))
      case Some(j) => Some(p.(data := Some(j)))
      case None => None
    else Some(p)
  }

  function ParseLines(loads: string -> Option<Json>, p: Parsed, lines: seq<string>): Option<Parsed> {
    if lines == [] then Some(p)
    else
      match ParseLines(loads, p, lines[..|lines| - 1])
      case Some(q) => ParseLine(loads, q, lines[|lines| - 1])
      case None => None
  }

  const NOTHING := Parsed(None, None)

  function ParsePiece(loads: string -> Option<Json>, piece: string): Option<Parsed> {
    ParseLines(loads, NOTHING, SplitChar(piece, '\n'))
  }

  /** White-space-only pieces are skipped. */
  function PieceEvents(loads: string -> Option<Json>, piece: string): Option<seq<Parsed>> {
    if Trim(piece, IsPythonSpace) == "" then Some([])
    else
      match ParsePiece(loads, piece)
      case Some(p) => Some([p])
      case None => None
  }

  function ParsePieces(loads: string -> Option<Json>, pieces: seq<string>): Option<seq<Parsed>> {
    if pieces == [] then Some([])
    else
      match (ParsePieces(loads, pieces[..|pieces| - 1]), PieceEvents(loads, pieces[|pieces| - 1]))
      case (Some(before), Some(last)) => Some(before + last)
      case _ => None
  }

  /** All events of a text, or None for a `HarnessError`. */
  function ParseText(loads: string -> Option<Json>, text: string): Option<seq<Parsed>> {
    ParsePieces(loads, SplitBlank("", Trim(text, IsPythonSpace)))
  }

  method ReadPiece(loads: string -> Option<Json>, piece: string) returns (p: Option<Parsed>)
    ensures p == ParsePiece(loads, piece)
  {
    hide SplitChar, ParseLine;
    var lines := SplitChar(piece, '\n');
    p := Some(NOTHING);
    for j := 0 to |lines|
      invariant p.Some? && p == ParseLines(loads, NOTHING, lines[..j])
    {
      assert lines[..j + 1][..j] == lines[..j];
      p := ParseLine(loads, p.value, lines[j]);
      if p.None? {
        NoneForGood(loads, NOTHING, lines, j + 1);
        return;
      }
    }
    assert lines[..|lines|] == lines;
  }

  lemma {:induction false} NoneForGood(loads: string -> Option<Json>, p: Parsed, lines: seq<string>, j: nat)
    requires j <= |lines| && ParseLines(loads, p, lines[..j]) == None
    ensures ParseLines(loads, p, lines) == None
  {
    hide ParseLine;
    if j == |lines| {
      assert lines[..j] == lines;
    } else {
      assert lines[..|lines| - 1][..j] == lines[..j];
      NoneForGood(loads, p, lines[..|lines| - 1], j);
    }
  }

  /** `_parse_sse` */
  method ParseSse(loads: string -> Option<Json>, text: string) returns (events: Option<seq<Parsed>>)
    ensures events == ParseText(loads, text)
  {
    hide SplitBlank, Trim, PieceEvents;
    var pieces := SplitBlank("", Trim(text, IsPythonSpace));
    events := Some([]);
    for i := 0 to |pieces|
      invariant events.Some? && events == ParsePieces(loads, pieces[..i])
    {
      assert pieces[..i + 1][..i] == pieces[..i];
      var more := ReadPieceUnlessBlank(loads, pieces[i]);
      if more.None? {
        NoPiecesForGood(loads, pieces, i + 1);
        return None;
      }
      events := Some(events.value + more.value);
    }
    assert pieces[..|pieces|] == pieces;
  }

  lemma {:induction false} NoPiecesForGood(loads: string -> Option<Json>, pieces: seq<string>, j: nat)
    requires j <= |pieces| && ParsePieces(loads, pieces[..j]) == None
    ensures ParsePieces(loads, pieces) == None
  {
    hide PieceEvents;
    if j == |pieces| {
      assert pieces[..j] == pieces;
    } else {
      assert pieces[..|pieces| - 1][..j] == pieces[..j];
      NoPiecesForGood(loads, pieces[..|pieces| - 1], j);
    }
  }

  method ReadPieceUnlessBlank(loads: string -> Option<Json>, piece: string) returns (more: Option<seq<Parsed>>)
    ensures more == PieceEvents(loads, piece)
  {
    hide Trim, ParsePiece;
    if Trim(piece, IsPythonSpace) == "" {
      return Some([]);
    }
    var p := ReadPiece(loads, piece);
    more := if p.Some? then Some([p.value]) else None;
  }

  // --- when it raises ------------------------------------------------------------------------------------------

  predicate BadLine(loads: string -> Option<Json>, line: string) {
    IsData(line) && loads(DataOf(line)) == None
  }

  lemma {:induction false} LinesRaiseIff(loads: string -> Option<Json>, p: Parsed, lines: seq<string>)
    ensures ParseLines(loads, p, lines) == None <==> exists i :: 0 <= i < |lines| && BadLine(loads, lines[i])
  {
    if lines != [] {
      var n := |lines| - 1;
      LinesRaiseIff(loads, p, lines[..n]);
      assert forall i | 0 <= i < n :: lines[..n][i] == lines[i];
    }
  }

  predicate BadPiece(loads: string -> Option<Json>, piece: string) {
    var lines := SplitChar(piece, '\n');
    Trim(piece, IsPythonSpace) != "" && exists i | 0 <= i < |lines| :: BadLine(loads, lines[i])
  }

  lemma PieceRaisesIff(loads: string -> Option<Json>, piece: string)
    ensures PieceEvents(loads, piece) == None <==> BadPiece(loads, piece)
  {
    hide Trim, SplitChar, ParseLines, BadLine;
    LinesRaiseIff(loads, NOTHING, SplitChar(piece, '\n'));
  }

  /** The reader raises exactly when a data line of some piece that is not blank holds no JSON. */
  lemma {:induction false} RaisesIff(loads: string -> Option<Json>, pieces: seq<string>)
    ensures ParsePieces(loads, pieces) == None <==> exists i :: 0 <= i < |pieces| && BadPiece(loads, pieces[i])
  {
    hide PieceEvents, BadPiece;
    if pieces != [] {
      var n := |pieces| - 1;
      RaisesIff(loads, pieces[..n]);
      assert forall i | 0 <= i < n :: pieces[..n][i] == pieces[i];
      PieceRaisesIff(loads, pieces[n]);
    }
  }

  // --- agreement with the printer --------------------------------------------------------------------------

  /** One printed frame without its blank line. */
  function Body(f: Frame): string {
    Field("event", f.event) + "\n" + Field("data", f.data)
  }

  /** Serialised data that does not end in white space, as a JSON object never does. */
  predicate Solid(f: Frame) {
    && '\n' !in f.event && '\n' !in f.data
    && f.data != "" && !IsPythonSpace(f.data[|f.data| - 1])
  }

  lemma {:induction false} SplitPieceEnd(piece: string, a: string, rest: string)
    requires forall i | 0 <= i < |a| - 1 :: !(a[i] == '\n' && a[i + 1] == '\n')
    requires a != "" ==> a[|a| - 1] != '\n'
    ensures SplitBlank(piece, a + "\n\n" + rest) == [piece + a] + SplitBlank("", rest)
    ensures SplitBlank(piece, a) == [piece + a]
    decreases |a|
  {
    if a == "" {
      assert a + "\n\n" + rest == "\n\n" + rest && ("\n\n" + rest)[2..] == rest;
      assert piece + a == piece;
    } else {
      var s := a + "\n\n" + rest;
      assert s[1..] == a[1..] + "\n\n" + rest;
      assert s[0] == a[0] && (|a| > 1 ==> s[1] == a[1]);
      SplitPieceEnd(piece + [a[0]], a[1..], rest);
      assert piece + [a[0]] + a[1..] == piece + a;
    }
  }

  lemma SpaceFacts()
    ensures IsPythonSpace('\n') && !IsPythonSpace('e')
  {
  }

  lemma BodyShape(f: Frame)
    requires Solid(f)
    ensures forall i | 0 <= i < |Body(f)| - 1 :: !(Body(f)[i] == '\n' && Body(f)[i + 1] == '\n')
    ensures Body(f) != "" && Body(f)[0] == 'e' && Body(f)[|Body(f)| - 1] == f.data[|f.data| - 1] != '\n'
  {
    var a, b := Field("event", f.event), Field("data", f.data);
    assert Body(f) == a + "\n" + b;
    assert forall i | 0 <= i < |a| :: a[i] != '\n';
    assert forall i | 0 <= i < |b| :: b[i] != '\n';
    assert b[|b| - 1] == f.data[|f.data| - 1];
  }

  /** Pieces with a blank line between them. */
  function Glued(pieces: seq<string>): string {
    if pieces == [] then ""
    else if |pieces| == 1 then pieces[0]
    else pieces[0] + "\n\n" + Glued(pieces[1..])
  }

  function Bodies(fs: seq<Frame>): (r: seq<string>)
    ensures |r| == |fs|
  {
    seq(|fs|, i requires 0 <= i < |fs| => Body(fs[i]))
  }

  lemma {:induction false} PrintedIsGlued(fs: seq<Frame>)
    requires fs != []
    ensures PrintAll(fs, "\n") == Glued(Bodies(fs)) + "\n\n"
  {
    assert Print(fs[0], "\n") == Body(fs[0]) + "\n\n";
    if |fs| > 1 {
      PrintedIsGlued(fs[1..]);
      assert Bodies(fs)[1..] == Bodies(fs[1..]);
    } else {
      assert PrintAll(fs[1..], "\n") == "";
    }
  }

  /** A piece that starts with a letter, ends in no white space and holds no blank line. */
  predicate Compact(piece: string) {
    && piece != "" && piece[0] == 'e' && !IsPythonSpace(piece[|piece| - 1]) && piece[|piece| - 1] != '\n'
    && forall i | 0 <= i < |piece| - 1 :: !(piece[i] == '\n' && piece[i + 1] == '\n')
  }

  lemma BodyIsCompact(f: Frame)
    requires Solid(f)
    ensures Compact(Body(f))
  {
    BodyShape(f);
  }

  lemma {:induction false} GluedEnds(pieces: seq<string>)
    requires pieces != [] && forall i | 0 <= i < |pieces| :: Compact(pieces[i])
    ensures Glued(pieces) != "" && Glued(pieces)[0] == 'e' && !IsPythonSpace(Glued(pieces)[|Glued(pieces)| - 1])
  {
    if |pieces| > 1 {
      GluedEnds(pieces[1..]);
    }
  }

  lemma StripGlued(s: string)
    requires s != "" && s[0] == 'e' && !IsPythonSpace(s[|s| - 1])
    ensures Trim(s + "\n\n", IsPythonSpace) == s
  {
    SpaceFacts();
    var t := s + "\n\n";
    assert TrimStart(t, IsPythonSpace) == t;
    assert t[..|t| - 1] == s + "\n" && (s + "\n")[..|s|] == s;
    assert TrimEnd(t, IsPythonSpace) == TrimEnd(s + "\n", IsPythonSpace) == TrimEnd(s, IsPythonSpace) == s;
  }

  lemma GluedHead(piece: string, rest: string)
    requires Compact(piece)
    ensures SplitBlank("", piece) == [piece]
    ensures SplitBlank("", piece + "\n\n" + rest) == [piece] + SplitBlank("", rest)
  {
    assert "" + piece == piece;
    SplitPieceEnd("", piece, rest);
  }

  lemma {:induction false} SplitGlued(pieces: seq<string>)
    requires pieces != [] && forall i | 0 <= i < |pieces| :: Compact(pieces[i])
    ensures SplitBlank("", Glued(pieces)) == pieces
  {
    if |pieces| == 1 {
      GluedHead(pieces[0], "");
    } else {
      GluedHead(pieces[0], Glued(pieces[1..]));
      SplitGlued(pieces[1..]);
      assert pieces == [pieces[0]] + pieces[1..];
    }
  }

  lemma BodyLines(f: Frame)
    requires Solid(f)
    ensures SplitChar(Body(f), '\n') == [Field("event", f.event), Field("data", f.data)]
  {
    var a, b := Field("event", f.event), Field("data", f.data);
    assert Body(f) == a + (['\n'] + b);
    SplitPrefix(a, b, '\n');
    SplitWhole(b, '\n');
    assert [a] + [b] == [a, b];
  }

  lemma TwoLines(loads: string -> Option<Json>, a: string, b: string, p: Parsed)
    requires ParseLine(loads, NOTHING, a) == Some(p)
    ensures ParseLines(loads, NOTHING, [a, b]) == ParseLine(loads, p, b)
  {
    hide ParseLine;
    assert [a, b][..1] == [a] && [a][..0] == [];
    assert ParseLines(loads, NOTHING, [a][..0]) == Some(NOTHING);
    assert ParseLines(loads, NOTHING, [a, b][..1]) == Some(p);
  }

  lemma BodyFields(loads: string -> Option<Json>, f: Frame, doc: Json)
    requires Solid(f) && loads(f.data) == Some(doc)
    ensures ParsePiece(loads, Body(f)) == Some(Parsed(Some(f.event), Some(doc)))
  {
    hide SplitChar, ParseLines, Body, Field;
    BodyLines(f);
    PrefixOf(f.event);
    DataPrefixOf(f.data);
    TwoLines(loads, Field("event", f.event), Field("data", f.data), Parsed(Some(f.event), None));
  }

  lemma BodyParsed(loads: string -> Option<Json>, f: Frame, doc: Json)
    requires Solid(f) && loads(f.data) == Some(doc)
    ensures PieceEvents(loads, Body(f)) == Some([Parsed(Some(f.event), Some(doc))])
  {
    hide ParsePiece, Body;
    BodyFields(loads, f, doc);
    BodyShape(f);
    NotBlank(Body(f));
  }

  lemma NotBlank(piece: string)
    requires piece != "" && piece[0] == 'e'
    ensures Trim(piece, IsPythonSpace) != ""
  {
    SpaceFacts();
    assert !IsPythonSpace(piece[0]);
    assert TrimStart(piece, IsPythonSpace) == piece;
  }

  lemma PrefixOf(value: string)
    ensures EVENT_PREFIX <= Field("event", value) && Field("event", value)[|EVENT_PREFIX|..] == value
  {
    assert Field("event", value) == EVENT_PREFIX + value;
  }

  lemma DataPrefixOf(value: string)
    ensures !(EVENT_PREFIX <= Field("data", value))
    ensures DATA_PREFIX <= Field("data", value) && Field("data", value)[|DATA_PREFIX|..] == value
  {
    assert Field("data", value) == DATA_PREFIX + value;
    assert EVENT_PREFIX[0] == 'e' && Field("data", value)[0] == 'd';
  }

  lemma {:induction false} ParseEach(loads: string -> Option<Json>, pieces: seq<string>, parsed: seq<Parsed>)
    requires |pieces| == |parsed| && forall i | 0 <= i < |pieces| :: PieceEvents(loads, pieces[i]) == Some([parsed[i]])
    ensures ParsePieces(loads, pieces) == Some(parsed)
    decreases |pieces|
  {
    hide PieceEvents;
    if pieces != [] {
      var n := |pieces| - 1;
      ParseEach(loads, pieces[..n], parsed[..n]);
      assert parsed == parsed[..n] + [parsed[n]];
    }
  }

  function AsParsed(fs: seq<Frame>, docs: seq<Json>): (r: seq<Parsed>)
    requires |fs| == |docs|
    ensures |r| == |fs|
  {
    seq(|fs|, i requires 0 <= i < |fs| => Parsed(Some(fs[i].event), Some(docs[i])))
  }

  lemma SplitPrinted(fs: seq<Frame>)
    requires fs != [] && forall i | 0 <= i < |fs| :: Solid(fs[i])
    ensures SplitBlank("", Trim(PrintAll(fs, "\n"), IsPythonSpace)) == Bodies(fs)
  {
    var pieces := Bodies(fs);
    forall i | 0 <= i < |fs| ensures Compact(pieces[i]) {
      BodyIsCompact(fs[i]);
    }
    hide Bodies, Compact, Glued, Trim, SplitBlank, PrintAll;
    PrintedIsGlued(fs);
    GluedEnds(pieces);
    StripGlued(Glued(pieces));
    SplitGlued(pieces);
  }

  /** The harness recovers exactly the printed list: the second reader agrees with the printer. */
  lemma HarnessRoundTrip(loads: string -> Option<Json>, fs: seq<Frame>, docs: seq<Json>)
    requires |fs| == |docs| > 0 && forall i | 0 <= i < |fs| :: Solid(fs[i]) && loads(fs[i].data) == Some(docs[i])
    ensures ParseText(loads, PrintAll(fs, "\n")) == Some(AsParsed(fs, docs))
  {
    hide PieceEvents, Body, Solid, PrintAll, SplitBlank, Trim, ParsePieces;
    SplitPrinted(fs);
    forall i | 0 <= i < |fs| ensures PieceEvents(loads, Bodies(fs)[i]) == Some([AsParsed(fs, docs)[i]]) {
      BodyParsed(loads, fs[i], docs[i]);
    }
    ParseEach(loads, Bodies(fs), AsParsed(fs, docs));
  }
}
