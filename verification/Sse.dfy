/**
 The event stream between backend and shell: the printer `_sse` (backend/app/agent/loop.py), the
 incremental reader `readSse` (frontend/src/chat/agent.ts) and the eval harness's `_parse_sse`
 (backend/evals/harness.py). Chunks are decoded text.
 */
module Sse {
  import opened Text

  datatype Frame = Frame(event: string, data: string)

  function Field(name: string, value: string): string {
    name + ": " + value
  }

  /** `_sse`, with the line ending a proxy may have turned it into. */
  function Print(f: Frame, eol: string): string {
    Field("event", f.event) + eol + Field("data", f.data) + eol + eol
  }

  function PrintAll(fs: seq<Frame>, eol: string): string {
    if fs == [] then "" else Print(fs[0], eol) + PrintAll(fs[1..], eol)
  }

  function Concat(chunks: seq<string>): string {
    if chunks == [] then "" else Concat(chunks[..|chunks| - 1]) + chunks[|chunks| - 1]
  }

  // --- the reader, one character at a time --------------------------------------------------------------

  datatype Reader = Reader(buffer: string, eventName: string, dataLines: seq<string>, frames: seq<Frame>, stopped: bool)

  const FRESH := Reader("", "", [], [], false)

  /** A blank line ends a frame; with neither a name nor data there is none. */
  function Dispatch(r: Reader, stop: Frame -> bool): Reader {
    if r.eventName == "" && r.dataLines == [] then r
    else
      var f := Frame(r.eventName, Join(r.dataLines, "\n"));
      r.(eventName := "", dataLines := [], frames := r.frames + [f], stopped := stop(f))
  }

  function IndexOf(s: string, c: char): (i: int)
    ensures -1 <= i < |s|
    ensures i == -1 ==> c !in s
    ensures i >= 0 ==> s[i] == c && c !in s[..i]
  {
    if s == "" then -1
    else if s[0] == c then 0
    else
      var rest := IndexOf(s[1..], c);
      assert rest >= 0 ==> s[..rest + 1] == [s[0]] + s[1..][..rest];
      if rest == -1 then -1 else rest + 1
  }

  function DropCarriage(raw: string): string {
    if raw != "" && raw[|raw| - 1] == '\r' then raw[..|raw| - 1] else raw
  }

  function DropSpace(value: string): string {
    if value != "" && value[0] == ' ' then value[1..] else value
  }

  function HandleLine(r: Reader, raw: string, stop: Frame -> bool): Reader {
    var line := DropCarriage(raw);
    if line == "" then Dispatch(r, stop)
    else if line[0] == ':' then r
    else
      var colon := IndexOf(line, ':');
      var field := if colon == -1 then line else line[..colon];
      var value := DropSpace(if colon == -1 then "" else line[colon + 1..]);
      if field == "event" then r.(eventName := value)
      else if field == "data" then r.(dataLines := r.dataLines + [value])
      else r
  }

  function Feed(r: Reader, c: char, stop: Frame -> bool): Reader {
    if r.stopped then r
    else if c == '\n' then HandleLine(r.(buffer := ""), r.buffer, stop)
    else r.(buffer := r.buffer + [c])
  }

  function FeedAll(r: Reader, text: string, stop: Frame -> bool): Reader
    decreases text
  {
    if text == "" then r else FeedAll(Feed(r, text[0], stop), text[1..], stop)
  }

  /** End of stream: a trailing line and a half-open frame are still delivered. */
  function Flush(r: Reader, stop: Frame -> bool): Reader {
    if r.stopped then r
    else
      var s := if r.buffer == "" then r else HandleLine(r.(buffer := ""), r.buffer, stop);
      if s.stopped then s else Dispatch(s, stop)
  }

  lemma {:induction false} FeedConcat(r: Reader, a: string, b: string, stop: Frame -> bool)
    ensures FeedAll(r, a + b, stop) == FeedAll(FeedAll(r, a, stop), b, stop)
    decreases |a|
  {
    if a == "" {
      assert a + b == b;
    } else {
      assert (a + b)[1..] == a[1..] + b;
      FeedConcat(Feed(r, a[0], stop), a[1..], b, stop);
    }
  }

  lemma {:induction false} FeedStopped(r: Reader, a: string, stop: Frame -> bool)
    requires r.stopped
    ensures FeedAll(r, a, stop) == r
    decreases |a|
  {
    if a != "" {
      FeedStopped(r, a[1..], stop);
    }
  }

  lemma {:induction false} FeedPartial(r: Reader, a: string, stop: Frame -> bool)
    requires !r.stopped && '\n' !in a
    ensures FeedAll(r, a, stop) == r.(buffer := r.buffer + a)
    decreases |a|
  {
    if a == "" {
      assert r.buffer + a == r.buffer;
    } else {
      assert a[0] in a;
      FeedPartial(r.(buffer := r.buffer + [a[0]]), a[1..], stop);
      assert r.buffer + [a[0]] + a[1..] == r.buffer + a;
    }
  }

  /** A complete line is handled as one. */
  lemma FeedLine(r: Reader, line: string, rest: string, stop: Frame -> bool)
    requires !r.stopped && r.buffer == "" && '\n' !in line
    ensures FeedAll(r, line + "\n" + rest, stop) == FeedAll(HandleLine(r, line, stop), rest, stop)
  {
    FeedConcat(r, line, "\n" + rest, stop);
    assert line + "\n" + rest == line + ("\n" + rest);
    FeedPartial(r, line, stop);
    assert ("\n" + rest)[1..] == rest;
    assert r.buffer + line == line;
    assert r.(buffer := "") == r;
  }

  lemma LineKeepsBuffer(r: Reader, line: string, stop: Frame -> bool)
    ensures HandleLine(r, line, stop).buffer == r.buffer
  {
  }

  /** What a stream yields: when it breaks the flush at its end never happens. */
  function ReadText(text: string, broken: bool, stop: Frame -> bool): Reader {
    var r := FeedAll(FRESH, text, stop);
    if broken then r else Flush(r, stop)
  }

  /**
   `readSse`: it keeps what is left of a line between reads and stops at the first frame its consumer
   calls terminal; `broken` says that the read after the last chunk throws. The result depends on the
   concatenated text alone, however it was cut.
   */
  method ReadSse(chunks: seq<string>, broken: bool, stop: Frame -> bool)
    returns (frames: seq<Frame>, terminal: bool, threw: bool)
    ensures frames == ReadText(Concat(chunks), broken, stop).frames
    ensures terminal == ReadText(Concat(chunks), broken, stop).stopped
    ensures threw == (broken && !terminal)
  {
    hide HandleLine, Dispatch, IndexOf;
    var buffer := "";
    var r := FRESH;
    for i := 0 to |chunks|
      invariant !r.stopped && r.buffer == "" && '\n' !in buffer
      invariant FeedAll(r, buffer, stop) == FeedAll(FRESH, Concat(chunks[..i]), stop)
    {
      assert chunks[..i + 1][..i] == chunks[..i];
      FeedConcat(FRESH, Concat(chunks[..i]), chunks[i], stop);
      FeedConcat(r, buffer, chunks[i], stop);
      buffer := buffer + chunks[i];
      var nl := IndexOf(buffer, '\n');
      while nl != -1
        invariant !r.stopped && r.buffer == "" && nl == IndexOf(buffer, '\n')
        invariant FeedAll(r, buffer, stop) == FeedAll(FRESH, Concat(chunks[..i + 1]), stop)
        decreases |buffer|
      {
        var line := buffer[..nl];
        assert buffer == line + "\n" + buffer[nl + 1..];
        FeedLine(r, line, buffer[nl + 1..], stop);
        buffer := buffer[nl + 1..];
        LineKeepsBuffer(r, line, stop);
        r := HandleLine(r, line, stop);
        if r.stopped {
          StoppedForGood(r, buffer, chunks, i + 1, stop);
          return r.frames, true, false;
        }
        nl := IndexOf(buffer, '\n');
      }
    }
    assert chunks[..|chunks|] == chunks;
    FeedPartial(r, buffer, stop);
    assert r.buffer + buffer == buffer && r.(buffer := "") == r;
    if broken {
      return r.frames, false, true;
    }
    threw := false;
    if buffer != "" {
      r := HandleLine(r, buffer, stop);
      if r.stopped {
        return r.frames, true, false;
      }
    }
    r := Dispatch(r, stop);
    frames, terminal := r.frames, r.stopped;
  }

  /** Once stopped, neither the rest of the buffer nor later chunks matter. */
  lemma {:induction false} StoppedForGood(r: Reader, buffer: string, chunks: seq<string>, i: nat, stop: Frame -> bool)
    requires r.stopped && i <= |chunks| && FeedAll(r, buffer, stop) == FeedAll(FRESH, Concat(chunks[..i]), stop)
    ensures FeedAll(FRESH, Concat(chunks), stop) == r
    decreases |chunks| - i
  {
    FeedStopped(r, buffer, stop);
    if i == |chunks| {
      assert chunks[..i] == chunks;
    } else {
      assert chunks[..i + 1][..i] == chunks[..i];
      FeedConcat(FRESH, Concat(chunks[..i]), chunks[i], stop);
      FeedStopped(r, chunks[i], stop);
      StoppedForGood(r, "", chunks, i + 1, stop);
    }
  }

  // --- lines -----------------------------------------------------------------------------------------------

  /** A field value that fits on one line, as serialised JSON and event names do. */
  predicate OneLine(s: string) {
    '\n' !in s && (s == "" || s[|s| - 1] != '\r')
  }

  predicate Printable(f: Frame) {
    OneLine(f.event) && OneLine(f.data)
  }

  predicate LineEnding(eol: string) {
    eol == "\n" || eol == "\r\n"
  }

  /** The line as the reader sees it before the newline, and what is left once the carriage return is gone. */
  function Ended(line: string, eol: string): string {
    if eol == "\r\n" then line + "\r" else line
  }

  lemma DropEnded(line: string, eol: string)
    requires LineEnding(eol) && OneLine(line)
    ensures DropCarriage(Ended(line, eol)) == line && '\n' !in Ended(line, eol)
  {
    assert (line + "\r")[..|line|] == line;
  }

  lemma {:induction false} FirstColon(field: string, rest: string)
    requires ':' !in field
    ensures IndexOf(field + (":" + rest), ':') == |field|
  {
    if field == "" {
      assert field + (":" + rest) == ":" + rest;
    } else {
      assert (field + (":" + rest))[1..] == field[1..] + (":" + rest);
      assert field[0] in field;
      FirstColon(field[1..], rest);
    }
  }

  lemma EndedIs(line: string, eol: string)
    requires LineEnding(eol)
    ensures eol == Ended("", eol) + "\n" && Ended(line, eol) == line + Ended("", eol)
  {
  }

  /** The frames up to and including the first terminal one. */
  function UpToTerminal(fs: seq<Frame>, stop: Frame -> bool): seq<Frame> {
    if fs == [] then []
    else if stop(fs[0]) then [fs[0]]
    else [fs[0]] + UpToTerminal(fs[1..], stop)
  }

  // --- any event stream --------------------------------------------------------------------------------------

  /** How a value follows the name of its field; without a colon it is empty. */
  datatype Colon = Bare | Tight | Spaced

  /** A line of an event stream that is not blank. Other fields, such as `id` and `retry`, say nothing here. */
  datatype WireLine =
    | EventIs(colon: Colon, value: string)
    | DataIs(colon: Colon, value: string)
    | Comment(text: string)
    | OtherIs(name: string, colon: Colon, value: string)

  predicate ValueOk(colon: Colon, value: string) {
    && OneLine(value)
    && match colon case Bare => value == "" case Tight => value == "" || value[0] != ' ' case Spaced => true
  }

  predicate LineOk(l: WireLine) {
    match l
    case EventIs(colon, value) => ValueOk(colon, value)
    case DataIs(colon, value) => ValueOk(colon, value)
    case Comment(text) => OneLine(text)
    case OtherIs(name, colon, value) =>
      name != "" && name != "event" && name != "data" && ':' !in name && OneLine(name) && ValueOk(colon, value)
  }

  function Written(name: string, colon: Colon, value: string): string {
    match colon case Bare => name case Tight => name + ":" + value case Spaced => name + ": " + value
  }

  function LineText(l: WireLine): string {
    match l
    case EventIs(colon, value) => Written("event", colon, value)
    case DataIs(colon, value) => Written("data", colon, value)
    case Comment(text) => ":" + text
    case OtherIs(name, colon, value) => Written(name, colon, value)
  }

  function LinesText(ls: seq<WireLine>, eol: string): string {
    if ls == [] then "" else LineText(ls[0]) + eol + LinesText(ls[1..], eol)
  }

  /** Each block of lines with a blank one behind it. */
  function BlocksText(blocks: seq<seq<WireLine>>, eol: string): string {
    if blocks == [] then "" else LinesText(blocks[0], eol) + eol + BlocksText(blocks[1..], eol)
  }

  /** The name that a block gives its frame: a later one replaces an earlier one. */
  function NameIn(ls: seq<WireLine>, before: string): string {
    if ls == [] then before else NameIn(ls[1..], if ls[0].EventIs? then ls[0].value else before)
  }

  function ValuesIn(ls: seq<WireLine>): seq<string> {
    if ls == [] then [] else (if ls[0].DataIs? then [ls[0].value] else []) + ValuesIn(ls[1..])
  }

  /** The frame of a block: its data lines joined, and none at all where nothing is named or said. */
  function FrameIn(ls: seq<WireLine>): seq<Frame> {
    if NameIn(ls, "") == "" && ValuesIn(ls) == [] then []
    else [Frame(NameIn(ls, ""), Join(ValuesIn(ls), "\n"))]
  }

  function FramesIn(blocks: seq<seq<WireLine>>): seq<Frame> {
    if blocks == [] then [] else FrameIn(blocks[0]) + FramesIn(blocks[1..])
  }

  predicate LinesOk(ls: seq<WireLine>) {
    forall l | l in ls :: LineOk(l)
  }

  lemma {:induction false} NoColon(s: string)
    requires ':' !in s
    ensures IndexOf(s, ':') == -1
  {
    if s != "" {
      NoColon(s[1..]);
    }
  }

  lemma TightParts(name: string, value: string)
    requires name != "" && ':' !in name && OneLine(name) && OneLine(value)
    ensures var line := name + ":" + value;
            OneLine(line) && IndexOf(line, ':') == |name| && line[..|name|] == name && line[|name| + 1..] == value
  {
    var line := name + ":" + value;
    FirstColon(name, value);
    assert line == name + (":" + value);
    hide IndexOf;
    assert line[|line| - 1] == if value == "" then ':' else value[|value| - 1];
  }

  /** A written field splits at its first colon into the name and the value. */
  lemma WrittenParts(name: string, colon: Colon, value: string)
    requires name != "" && ':' !in name && OneLine(name) && ValueOk(colon, value)
    ensures var line := Written(name, colon, value); var at := IndexOf(line, ':');
            && OneLine(line) && line != "" && line[0] != ':'
            && (if at == -1 then line else line[..at]) == name
            && DropSpace(if at == -1 then "" else line[at + 1..]) == value
  {
    hide IndexOf, OneLine;
    assert name[0] in name;
    match colon {
      case Bare => NoColon(name);
      case Tight => TightParts(name, value);
      case Spaced =>
        SpaceKeeps(value);
        TightParts(name, " " + value);
        assert name + ": " + value == name + ":" + (" " + value);
    }
  }

  lemma SpaceKeeps(value: string)
    requires OneLine(value)
    ensures OneLine(" " + value) && DropSpace(" " + value) == value
  {
    assert (" " + value)[|value|] == if value == "" then ' ' else value[|value| - 1];
    assert (" " + value)[1..] == value;
  }

  /** The reader after some lines of a block. */
  function After(r: Reader, ls: seq<WireLine>): (s: Reader)
    ensures s.stopped == r.stopped && s.buffer == r.buffer && s.frames == r.frames
  {
    r.(eventName := NameIn(ls, r.eventName), dataLines := r.dataLines + ValuesIn(ls))
  }

  lemma HandleField(r: Reader, name: string, colon: Colon, value: string, eol: string, stop: Frame -> bool)
    requires LineEnding(eol) && name != "" && ':' !in name && OneLine(name) && ValueOk(colon, value)
    ensures var raw := Ended(Written(name, colon, value), eol);
            && '\n' !in raw
            && HandleLine(r, raw, stop) == if name == "event" then r.(eventName := value)
                                           else if name == "data" then r.(dataLines := r.dataLines + [value])
                                           else r
  {
    WrittenParts(name, colon, value);
    DropEnded(Written(name, colon, value), eol);
    hide IndexOf, DropSpace, DropCarriage, Written, Ended, Dispatch, OneLine;
  }

  lemma HandleComment(r: Reader, text: string, eol: string, stop: Frame -> bool)
    requires LineEnding(eol) && OneLine(text)
    ensures '\n' !in Ended(":" + text, eol) && HandleLine(r, Ended(":" + text, eol), stop) == r
  {
    CommentIsOneLine(text);
    DropEnded(":" + text, eol);
    hide IndexOf, DropSpace, DropCarriage, Ended, Dispatch, OneLine;
  }

  /** What one line does to the frame being read. */
  lemma HandleWritten(r: Reader, l: WireLine, eol: string, stop: Frame -> bool)
    requires LineEnding(eol) && LineOk(l)
    ensures '\n' !in Ended(LineText(l), eol)
    ensures HandleLine(r, Ended(LineText(l), eol), stop) == After(r, [l])
  {
    OneLineAfter(r, l);
    hide HandleLine, ValueOk, Written, Ended, After;
    match l {
      case EventIs(colon, value) => HandleField(r, "event", colon, value, eol, stop);
      case DataIs(colon, value) => HandleField(r, "data", colon, value, eol, stop);
      case Comment(text) => HandleComment(r, text, eol, stop);
      case OtherIs(name, colon, value) => HandleField(r, name, colon, value, eol, stop);
    }
  }

  lemma OneLineAfter(r: Reader, l: WireLine)
    ensures After(r, [l]) == if l.EventIs? then r.(eventName := l.value)
                             else if l.DataIs? then r.(dataLines := r.dataLines + [l.value])
                             else r
  {
    assert [l][1..] == [];
    assert NameIn([l], r.eventName) == NameIn([], if l.EventIs? then l.value else r.eventName);
    assert ValuesIn([l]) == if l.DataIs? then [l.value] else [];
    assert r.dataLines + [] == r.dataLines;
  }

  lemma AfterCons(r: Reader, l: WireLine, ls: seq<WireLine>)
    ensures After(r, [l] + ls) == After(After(r, [l]), ls)
  {
    OneLineAfter(r, l);
    assert ([l] + ls)[1..] == ls;
    assert ValuesIn([l] + ls) == (if l.DataIs? then [l.value] else []) + ValuesIn(ls);
    assert r.dataLines + [] == r.dataLines;
    assert l.DataIs? ==> r.dataLines + [l.value] + ValuesIn(ls) == r.dataLines + ([l.value] + ValuesIn(ls));
    assert !l.DataIs? ==> [] + ValuesIn(ls) == ValuesIn(ls);
  }

  lemma NothingAfter(r: Reader)
    ensures After(r, []) == r
  {
    assert r.dataLines + [] == r.dataLines;
  }

  lemma CommentIsOneLine(text: string)
    requires OneLine(text)
    ensures OneLine(":" + text)
  {
  }

  lemma {:induction false} ReadLines(r: Reader, ls: seq<WireLine>, eol: string, rest: string, stop: Frame -> bool)
    requires LineEnding(eol) && LinesOk(ls) && !r.stopped && r.buffer == ""
    ensures FeedAll(r, LinesText(ls, eol) + rest, stop) == FeedAll(After(r, ls), rest, stop)
    decreases |ls|
  {
    if ls == [] {
      NothingAfter(r);
      assert "" + rest == rest;
    } else {
      hide *;
      var l, more := ls[0], LinesText(ls[1..], eol) + rest;
      LinesOkCons(ls);
      HandleWritten(r, l, eol, stop);
      OneMoreLine(l, ls[1..], eol, rest);
      FeedLine(r, Ended(LineText(l), eol), more, stop);
      ReadLines(After(r, [l]), ls[1..], eol, rest, stop);
      AfterCons(r, l, ls[1..]);
    }
  }

  lemma LinesOkCons(ls: seq<WireLine>)
    requires ls != [] && LinesOk(ls)
    ensures LineOk(ls[0]) && LinesOk(ls[1..]) && ls == [ls[0]] + ls[1..]
  {
    hide LineOk;
  }

  lemma OneMoreLine(l: WireLine, ls: seq<WireLine>, eol: string, rest: string)
    requires LineEnding(eol)
    ensures LinesText([l] + ls, eol) + rest == Ended(LineText(l), eol) + "\n" + (LinesText(ls, eol) + rest)
  {
    hide LineText;
    assert ([l] + ls)[1..] == ls;
  }

  /** Some frame is terminal. */
  ghost predicate AnyStops(fs: seq<Frame>, stop: Frame -> bool) {
    exists f :: f in fs && stop(f)
  }

  /** The reader after those frames, of which it delivers the ones up to the first terminal one. */
  ghost function Delivered(r: Reader, fs: seq<Frame>, stop: Frame -> bool): (s: Reader)
    ensures s.buffer == r.buffer && s.eventName == r.eventName && s.dataLines == r.dataLines
    ensures s.stopped <==> r.stopped || AnyStops(fs, stop)
  {
    r.(frames := r.frames + UpToTerminal(fs, stop), stopped := r.stopped || AnyStops(fs, stop))
  }

  lemma {:induction false} ReadBlocks(r: Reader, blocks: seq<seq<WireLine>>, eol: string, rest: string,
                                      stop: Frame -> bool)
    requires LineEnding(eol) && (forall b | b in blocks :: LinesOk(b))
    requires !r.stopped && r.buffer == "" && r.eventName == "" && r.dataLines == []
    ensures FeedAll(r, BlocksText(blocks, eol) + rest, stop) ==
            FeedAll(Delivered(r, FramesIn(blocks), stop), rest, stop)
    decreases |blocks|
  {
    if blocks == [] {
      assert "" + rest == rest && r.frames + [] == r.frames;
    } else {
      hide *;
      var b, more := blocks[0], BlocksText(blocks[1..], eol) + rest;
      var t := Delivered(r, FrameIn(b), stop);
      BlockUnfold(blocks, eol, rest);
      ReadBlock(r, b, eol, more, stop);
      FramesUnfold(blocks);
      DeliveredMore(r, FrameIn(b), FramesIn(blocks[1..]), stop);
      if t.stopped {
        FeedStopped(t, more, stop);
        FeedStopped(t, rest, stop);
      } else {
        ReadBlocks(t, blocks[1..], eol, rest, stop);
      }
    }
  }

  lemma FramesUnfold(blocks: seq<seq<WireLine>>)
    requires blocks != []
    ensures FramesIn(blocks) == FrameIn(blocks[0]) + FramesIn(blocks[1..]) && |FrameIn(blocks[0])| <= 1
  {
    hide NameIn, ValuesIn, Join;
  }

  lemma DeliveredMore(r: Reader, a: seq<Frame>, b: seq<Frame>, stop: Frame -> bool)
    requires |a| <= 1 && !r.stopped
    ensures Delivered(r, a + b, stop) ==
            if AnyStops(a, stop) then Delivered(r, a, stop) else Delivered(Delivered(r, a, stop), b, stop)
  {
    if a == [] {
      assert a + b == b && r.frames + [] == r.frames;
    } else {
      var f := a[0];
      assert (a + b)[1..] == b && a == [f] && f in a && f in a + b;
      assert AnyStops(a, stop) <==> stop(f);
      assert AnyStops(a + b, stop) <==> stop(f) || AnyStops(b, stop);
      UpToOne(a, stop);
      assert UpToTerminal(a + b, stop) == if stop(f) then [f] else [f] + UpToTerminal(b, stop);
      assert r.frames + [f] + UpToTerminal(b, stop) == r.frames + ([f] + UpToTerminal(b, stop));
    }
  }

  lemma BlockUnfold(blocks: seq<seq<WireLine>>, eol: string, rest: string)
    requires blocks != [] && LineEnding(eol)
    ensures BlocksText(blocks, eol) + rest
         == LinesText(blocks[0], eol) + (Ended("", eol) + "\n" + (BlocksText(blocks[1..], eol) + rest))
  {
    EndedIs("", eol);
    hide LinesText, Ended;
    FourParts(LinesText(blocks[0], eol), eol, BlocksText(blocks[1..], eol), rest);
    FourParts("", Ended("", eol), "\n", BlocksText(blocks[1..], eol) + rest);
  }

  lemma FourParts(a: string, b: string, c: string, d: string)
    ensures a + b + c + d == a + (b + (c + d)) && b + c + d == b + (c + d)
  {
  }

  lemma ReadBlock(r: Reader, b: seq<WireLine>, eol: string, more: string, stop: Frame -> bool)
    requires LineEnding(eol) && LinesOk(b)
    requires !r.stopped && r.buffer == "" && r.eventName == "" && r.dataLines == []
    ensures FeedAll(r, LinesText(b, eol) + (Ended("", eol) + "\n" + more), stop)
         == FeedAll(Delivered(r, FrameIn(b), stop), more, stop)
  {
    hide *;
    ReadLines(r, b, eol, Ended("", eol) + "\n" + more, stop);
    EmptyLine(eol);
    FeedLine(After(r, b), Ended("", eol), more, stop);
    BlankEnds(r, b, eol, stop);
  }

  lemma EmptyLine(eol: string)
    requires LineEnding(eol)
    ensures '\n' !in Ended("", eol)
  {
  }

  lemma BlankDispatches(r: Reader, eol: string, stop: Frame -> bool)
    requires LineEnding(eol)
    ensures HandleLine(r, Ended("", eol), stop) == Dispatch(r, stop)
  {
    DropEnded("", eol);
    hide Dispatch, Ended, IndexOf;
  }

  /** A blank line delivers the frame of its block. */
  lemma BlankEnds(r: Reader, b: seq<WireLine>, eol: string, stop: Frame -> bool)
    requires LineEnding(eol) && !r.stopped && r.eventName == "" && r.dataLines == []
    ensures HandleLine(After(r, b), Ended("", eol), stop) == Delivered(r, FrameIn(b), stop)
    ensures Dispatch(After(r, b), stop) == Delivered(r, FrameIn(b), stop)
  {
    BlankDispatches(After(r, b), eol, stop);
    assert [] + ValuesIn(b) == ValuesIn(b);
    assert r.frames + [] == r.frames;
    hide HandleLine, Ended, NameIn, ValuesIn, Join, IndexOf;
    UpToOne(FrameIn(b), stop);
    if FrameIn(b) != [] {
      assert FrameIn(b)[0] in FrameIn(b);
    }
  }

  /**
   Any event stream under any chunking, with comments, other fields, several data lines and with or without the space
   behind a colon: every block gives the frame it says, a block that says nothing gives none, delivery stops at the
   first terminal frame, and a block the stream ends in without a blank line is still delivered unless the read broke.
   */
  lemma WireRead(blocks: seq<seq<WireLine>>, last: seq<WireLine>, eol: string, chunks: seq<string>, broken: bool,
                 stop: Frame -> bool)
    requires LineEnding(eol) && (forall b | b in blocks :: LinesOk(b)) && LinesOk(last)
    requires Concat(chunks) == BlocksText(blocks, eol) + LinesText(last, eol)
    ensures ReadText(Concat(chunks), broken, stop).frames
         == UpToTerminal(FramesIn(blocks) + if broken then [] else FrameIn(last), stop)
  {
    hide *;
    var t := Delivered(FRESH, FramesIn(blocks), stop);
    FreshStart();
    ReadBlocks(FRESH, blocks, eol, LinesText(last, eol), stop);
    if t.stopped {
      FeedStopped(t, LinesText(last, eol), stop);
    } else {
      ReadLines(t, last, eol, "", stop);
      assert LinesText(last, eol) + "" == LinesText(last, eol);
      BlankEnds(t, last, eol, stop);
    }
    Finishes(Concat(chunks), broken, FramesIn(blocks), last, stop);
  }

  lemma FreshStart()
    ensures !FRESH.stopped && FRESH.buffer == "" && FRESH.eventName == "" && FRESH.dataLines == []
  {
  }

  lemma Finishes(text: string, broken: bool, fs: seq<Frame>, last: seq<WireLine>, stop: Frame -> bool)
    requires var t := Delivered(FRESH, fs, stop);
             if t.stopped then FeedAll(FRESH, text, stop) == t
             else
               && FeedAll(FRESH, text, stop) == FeedAll(After(t, last), "", stop)
               && Dispatch(After(t, last), stop) == Delivered(t, FrameIn(last), stop)
    ensures ReadText(text, broken, stop).frames
         == UpToTerminal(fs + if broken then [] else FrameIn(last), stop)
  {
    var seen := UpToTerminal(fs, stop);
    assert [] + seen == seen && fs + [] == fs;
    hide NameIn, ValuesIn, Join, HandleLine;
    assert |FrameIn(last)| <= 1;
    if AnyStops(fs, stop) {
      CutThere(fs, FrameIn(last), stop);
    } else {
      NoneStops(fs, FrameIn(last), stop);
      NoneStops(fs, [], stop);
      UpToOne(FrameIn(last), stop);
    }
  }

  lemma UpToOne(fs: seq<Frame>, stop: Frame -> bool)
    requires |fs| <= 1
    ensures UpToTerminal(fs, stop) == fs
  {
    if fs != [] {
      assert fs == [fs[0]] && fs[1..] == [];
    }
  }

  lemma {:induction false} CutThere(a: seq<Frame>, b: seq<Frame>, stop: Frame -> bool)
    requires AnyStops(a, stop)
    ensures UpToTerminal(a + b, stop) == UpToTerminal(a, stop)
  {
    assert (a + b)[0] == a[0];
    if !stop(a[0]) {
      assert a == [a[0]] + a[1..];
      CutThere(a[1..], b, stop);
      assert (a + b)[1..] == a[1..] + b;
    }
  }

  lemma {:induction false} NoneStops(a: seq<Frame>, b: seq<Frame>, stop: Frame -> bool)
    requires |b| <= 1 && !AnyStops(a, stop)
    ensures UpToTerminal(a + b, stop) == a + b
  {
    if a == [] {
      assert a + b == b;
      UpToOne(b, stop);
    } else {
      assert a == [a[0]] + a[1..] && a[0] in a;
      NoneStops(a[1..], b, stop);
      assert (a + b)[1..] == a[1..] + b && a + b == [a[0]] + (a[1..] + b);
    }
  }

  // --- round trip ----------------------------------------------------------------------------------------------

  /** Printed frames as blocks of lines. */
  function Blocks(fs: seq<Frame>): seq<seq<WireLine>> {
    if fs == [] then [] else [[EventIs(Spaced, fs[0].event), DataIs(Spaced, fs[0].data)]] + Blocks(fs[1..])
  }

  lemma OneBlock(f: Frame, eol: string)
    requires Printable(f)
    ensures var b := [EventIs(Spaced, f.event), DataIs(Spaced, f.data)];
            LinesOk(b) && FrameIn(b) == [f] && LinesText(b, eol) + eol == Print(f, eol)
  {
    var e, d := EventIs(Spaced, f.event), DataIs(Spaced, f.data);
    var b := [e, d];
    assert b[1..] == [d] && [d][1..] == [];
    assert ValuesIn([d]) == [f.data] && ValuesIn(b) == [] + ValuesIn([d]);
    assert NameIn([d], f.event) == f.event;
    assert LinesText([d], eol) == LineText(d) + eol + "";
    assert LineText(e) + eol + (LineText(d) + eol + "") + eol == LineText(e) + eol + LineText(d) + eol + eol;
  }

  lemma {:induction false} PrintedBlocks(fs: seq<Frame>, eol: string)
    requires forall f | f in fs :: Printable(f)
    ensures BlocksText(Blocks(fs), eol) == PrintAll(fs, eol) && FramesIn(Blocks(fs)) == fs
    ensures forall b | b in Blocks(fs) :: LinesOk(b)
  {
    if fs != [] {
      hide Printable, LinesText, FrameIn, LinesOk, Print;
      OneBlock(fs[0], eol);
      PrintedBlocks(fs[1..], eol);
      assert Blocks(fs)[1..] == Blocks(fs[1..]) && fs == [fs[0]] + fs[1..];
    }
  }

  /**
   Round trip under any chunking: however the printed stream is cut, in a field name or between CR and
   LF, the reader delivers the printed frames in order and stops at the first terminal one.
   */
  lemma RoundTrip(fs: seq<Frame>, eol: string, chunks: seq<string>, broken: bool, stop: Frame -> bool)
    requires LineEnding(eol) && (forall f | f in fs :: Printable(f)) && Concat(chunks) == PrintAll(fs, eol)
    ensures ReadText(Concat(chunks), broken, stop).frames == UpToTerminal(fs, stop)
    ensures ReadText(Concat(chunks), broken, stop).stopped <==> exists i :: 0 <= i < |fs| && stop(fs[i])
  {
    hide *;
    FreshStart();
    PrintedBlocks(fs, eol);
    ReadBlocks(FRESH, Blocks(fs), eol, "", stop);
    assert BlocksText(Blocks(fs), eol) + "" == BlocksText(Blocks(fs), eol);
    NothingLeft(Concat(chunks), broken, fs, stop);
  }

  lemma NothingLeft(text: string, broken: bool, fs: seq<Frame>, stop: Frame -> bool)
    requires FeedAll(FRESH, text, stop) == FeedAll(Delivered(FRESH, fs, stop), "", stop)
    ensures ReadText(text, broken, stop).frames == UpToTerminal(fs, stop)
    ensures ReadText(text, broken, stop).stopped <==> exists i :: 0 <= i < |fs| && stop(fs[i])
  {
    assert [] + UpToTerminal(fs, stop) == UpToTerminal(fs, stop);
    assert AnyStops(fs, stop) <==> exists i :: 0 <= i < |fs| && stop(fs[i]);
  }

  // --- stopping ----------------------------------------------------------------------------------------------

  /** Only the last delivered frame can be terminal, and it is exactly when the reader has stopped. */
  predicate StopsAtLast(r: Reader, stop: Frame -> bool) {
    forall i | 0 <= i < |r.frames| :: stop(r.frames[i]) <==> r.stopped && i == |r.frames| - 1
  }

  lemma HandleStops(r: Reader, raw: string, stop: Frame -> bool)
    requires !r.stopped && StopsAtLast(r, stop)
    ensures StopsAtLast(HandleLine(r, raw, stop), stop)
    ensures HandleLine(r, raw, stop).stopped ==> HandleLine(r, raw, stop).frames != []
  {
  }

  lemma {:induction false} ReaderStops(r: Reader, text: string, stop: Frame -> bool)
    requires StopsAtLast(r, stop) && (r.stopped ==> r.frames != [])
    ensures StopsAtLast(FeedAll(r, text, stop), stop)
    ensures FeedAll(r, text, stop).stopped ==> FeedAll(r, text, stop).frames != []
    decreases |text|
  {
    if text != "" {
      if !r.stopped && text[0] == '\n' {
        HandleStops(r.(buffer := ""), r.buffer, stop);
      }
      ReaderStops(Feed(r, text[0], stop), text[1..], stop);
    }
  }

  /** On any text at all, even one cut short: delivery stops at the first terminal frame. */
  lemma ReadStopsAtTerminal(text: string, broken: bool, stop: Frame -> bool)
    ensures StopsAtLast(ReadText(text, broken, stop), stop)
    ensures ReadText(text, broken, stop).stopped ==> ReadText(text, broken, stop).frames != []
  {
    ReaderStops(FRESH, text, stop);
    var r := FeedAll(FRESH, text, stop);
    if !broken && !r.stopped && r.buffer != "" {
      HandleStops(r.(buffer := ""), r.buffer, stop);
    }
  }
}
