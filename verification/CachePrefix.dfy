/**
 Prompt-cache validity over every run: what was sent stays a prefix of what is sent later, the
 breakpoint entry points where it should, and a request never carries more than four markers.
 */
module CachePrefix {
  import opened Json
  import opened Transcript
  import opened Curation
  import opened Breakpoints
  import opened Conversation
  import opened TurnInvariants
  import opened RunTurns
  import opened RunCalls

  /** What a call sent, without its markers, as the flat list a prompt cache compares. */
  function Wired(c: Call): seq<(Role, Block)> {
    Flat(Erase(c.history))
  }

  /** The two calls answer the same user message. */
  predicate SameMessage(turns: seq<Turn>, m: nat, n: nat)
    requires m <= n <= |turns|
  {
    forall k | m <= k < n :: turns[k].kind != UserText
  }

  /** The two watermarks agree, or the earlier one is the very last of the turns it was read from. */
  lemma MarksCompared(turns: seq<Turn>, m: nat, n: nat)
    requires TurnsOk(turns) && 0 < m <= n <= |turns|
    ensures Watermark(turns[..m]) <= Watermark(turns[..n])
    ensures SameMessage(turns, m, n) ==> Watermark(turns[..m]) == Watermark(turns[..n])
    ensures turns[m - 1].kind == UserText ==> Watermark(turns[..m]) == turns[m - 1].no
  {
    var more := turns[m..n];
    assert turns[..n] == turns[..m] + more;
    assert forall k | 0 <= k < |more| :: more[k] == turns[m + k];
    IncreasingPrefix(turns, n);
    WatermarkMonotone(turns[..m], more);
  }

  /** Under both watermarks the first `m` turns contribute the same blocks. */
  lemma SameView(cfg: Config, turns: seq<Turn>, m: nat, n: nat)
    requires TurnsOk(turns) && 0 < m <= n <= |turns|
    requires !cfg.curating || SameMessage(turns, m, n) || turns[m - 1].kind == UserText
    ensures Parts(cfg.reg, Mark(cfg, turns[..n]), turns[..n])[..m] == Parts(cfg.reg, Mark(cfg, turns[..m]), turns[..m])
  {
    MarksCompared(turns, m, n);
    var a, b := Mark(cfg, turns[..m]), Mark(cfg, turns[..n]);
    forall i | 0 <= i < m ensures Part(cfg.reg, b, turns[i]) == Part(cfg.reg, a, turns[i]) {
      assert i < m - 1 ==> turns[i].no < turns[m - 1].no;
    }
    assert forall i | 0 <= i < m :: turns[..n][i] == turns[i] && turns[..m][i] == turns[i];
  }

  lemma IncreasingPrefix(turns: seq<Turn>, n: nat)
    requires TurnsOk(turns) && n <= |turns|
    ensures TurnsOk(turns[..n]) && StrictlyIncreasing(turns[..n])
  {
    assert forall i | 0 <= i < n :: turns[..n][i] == turns[i];
  }

  /** Results come late in a projected array exactly when they do in the stored one. */
  lemma ProjectedParts(cfg: Config, turns: seq<Turn>, m: nat, n: nat)
    requires TurnsOk(turns) && m <= n <= |turns| && NoLateResults(StoredParts(turns), m)
    ensures var p := Parts(cfg.reg, Mark(cfg, turns[..n]), turns[..n]); Homogeneous(p) && NoLateResults(p, m)
  {
    IncreasingPrefix(turns, n);
    var s, p := StoredParts(turns[..n]), Parts(cfg.reg, Mark(cfg, turns[..n]), turns[..n]);
    var all := StoredParts(turns);
    PartsLikeStored(cfg, Mark(cfg, turns[..n]), turns[..n]);
    PartsOk(turns[..n]);
    forall i | 0 <= i < n
      ensures p[i].role == s[i].role == all[i].role
      ensures |Results(p[i].content)| == |Results(s[i].content)| && |Others(p[i].content)| == |Others(s[i].content)|
      ensures s[i] == all[i]
    {
      assert SameShapeBlocks(s[i].content, p[i].content);
      FilterSameShape(s[i].content, p[i].content);
    }
    forall k | m <= k < n && p[k].role == User && Results(p[k].content) != [] ensures AssistantIn(p, m, k) {
      assert AssistantIn(all, m, k);
      var j :| m <= j < k && all[j].role == Assistant;
      assert p[j].role == Assistant;
    }
  }

  /** The history over `m` turns is continued by the history over `n` turns. */
  lemma HistoryContinues(cfg: Config, turns: seq<Turn>, m: nat, n: nat)
    requires TurnsOk(turns) && 0 < m <= n <= |turns| && NoLateResults(StoredParts(turns), m)
    requires !cfg.curating || SameMessage(turns, m, n) || turns[m - 1].kind == UserText
    ensures Continues(History(cfg, turns[..m]), History(cfg, turns[..n]))
  {
    SameView(cfg, turns, m, n);
    ProjectedParts(cfg, turns, m, n);
    MergeContinues(Parts(cfg.reg, Mark(cfg, turns[..n]), turns[..n]), m);
  }

  /**
   Cache-prefix validity. Whatever happens in between, what a call sent is a prefix of what a later
   call sends when both answer the same user message; and what the first call for a message sent is a
   prefix of what every later call sends, although the watermark has moved and results have been stubbed.
   Without curation every call is a prefix of every later one.
   */
  lemma SentStaysPrefix(cfg: Config, acts: seq<Action>, i: nat, j: nat)
    requires Resumed(cfg)
    requires i < j < |Exec(cfg, acts).calls|
    requires var s := Exec(cfg, acts); var m, n := s.calls[i].turnCount, s.calls[j].turnCount;
             || !cfg.curating || s.calls[i].first
             || (m <= n <= |s.turns| && SameMessage(s.turns, m, n))
    ensures Wired(Exec(cfg, acts).calls[i]) <= Wired(Exec(cfg, acts).calls[j])
  {
    var s := Exec(cfg, acts);
    CallsInvAlways(cfg, acts);
    TurnInvAlways(cfg, acts);
    var c, d := s.calls[i], s.calls[j];
    assert CallOk(cfg, s.turns, c) && CallOk(cfg, s.turns, d);
    IncreasingPrefix(s.turns, c.turnCount);
    IncreasingPrefix(s.turns, d.turnCount);
    HistoryFacts(cfg, s.turns[..c.turnCount], c.entry, c.wrapup);
    HistoryFacts(cfg, s.turns[..d.turnCount], d.entry, d.wrapup);
    HistoryContinues(cfg, s.turns, c.turnCount, d.turnCount);
    ContinuesIsFlatPrefix(Erase(c.history), Erase(d.history));
  }

  /**
   The first call for a message measures its gap from the last message that the previous message's first call sent.
   */
  lemma EntryIsPreviousFirstTip(cfg: Config, acts: seq<Action>, i: nat, j: nat)
    requires Resumed(cfg)
    requires i < j < |Exec(cfg, acts).calls|
    requires var s := Exec(cfg, acts); var m, n := s.calls[i].turnCount, s.calls[j].turnCount;
             && s.calls[i].first && s.calls[j].first
             && m <= n - 1 <= |s.turns| && SameMessage(s.turns, m, n - 1)
    ensures Exec(cfg, acts).calls[j].entry == Some(|Exec(cfg, acts).calls[i].history| - 1)
  {
    hide Exec, UserTextMessage, Lossless, SameMessage;
    FirstCallFacts(cfg, acts, i);
    FirstCallFacts(cfg, acts, j);
    EntryOf(Exec(cfg, acts).turns, Exec(cfg, acts).calls[i].turnCount, Exec(cfg, acts).calls[j].turnCount - 1);
  }

  lemma FirstCallFacts(cfg: Config, acts: seq<Action>, i: nat)
    requires Resumed(cfg)
    requires i < |Exec(cfg, acts).calls| && Exec(cfg, acts).calls[i].first
    ensures var turns, c := Exec(cfg, acts).turns, Exec(cfg, acts).calls[i];
            && 0 < c.turnCount <= |turns| && turns[c.turnCount - 1].kind == UserText
            && c.entry == UserTextMessage(turns[..c.turnCount - 1])
            && |c.history| == |Lossless(turns[..c.turnCount])|
  {
    var turns, c := Exec(cfg, acts).turns, Exec(cfg, acts).calls[i];
    CallsInvAlways(cfg, acts);
    TurnInvAlways(cfg, acts);
    assert CallOk(cfg, turns, c);
    IncreasingPrefix(turns, c.turnCount);
    HistoryFacts(cfg, turns[..c.turnCount], c.entry, c.wrapup);
  }

  lemma EntryOf(turns: seq<Turn>, m: nat, n: nat)
    requires 0 < m <= n <= |turns| && turns[m - 1].kind == UserText && SameMessage(turns, m, n)
    ensures UserTextMessage(turns[..n]) == Some(|Lossless(turns[..m])| - 1)
  {
    var before := turns[..n];
    assert before[m - 1].kind == UserText;
    assert NewestUserText(before) == Some(m - 1);
    assert before[..m] == turns[..m];
  }

  // --- markers in a request ---------------------------------------------------------------------------------

  const UNDERSTOOD: Message := Message(Assistant, [[("type", Str("text")), ("text", Str("Understood."))]])

  /** `primed_messages()`: the frozen instructions with their marker, and the frozen answer. */
  function Primed(instructions: string): seq<Message> {
    [Message(User, [[("type", Str("text")), ("text", Str(instructions)), MARKER]]), UNDERSTOOD]
  }

  /** `trailing_context_message`: the live context and the reminders of this round, never marked. */
  function Trailing(texts: seq<string>): Message {
    Message(User, seq(|texts|, i requires 0 <= i < |texts| => TextBlock(texts[i])))
  }

  /** The `messages` parameter of a call. */
  function Request(instructions: string, c: Call, texts: seq<string>): seq<Message> {
    Primed(instructions) + c.history + [Trailing(texts)]
  }

  lemma PrimedMarkers(instructions: string)
    ensures Markers(Primed(instructions)) == 1
  {
    var p := Primed(instructions);
    var frozen: Block := p[0].content[0];
    var answer: Block := UNDERSTOOD.content[0];
    assert frozen[2].0 in Keys(frozen);
    assert !HasMarker(answer) by {
      assert answer[0].0 == "type" && answer[1].0 == "text" && |answer| == 2;
    }
    assert p == [p[0]] + [UNDERSTOOD];
    MarkersConcat([p[0]], [UNDERSTOOD]);
    OneMessage(p[0], frozen);
    OneMessage(UNDERSTOOD, answer);
  }

  lemma OneMessage(m: Message, b: Block)
    requires m.content == [b]
    ensures Markers([m]) == if HasMarker(b) then 1 else 0
  {
    assert [m][..0] == [] && m.content[..0] == [];
    assert Markers([m]) == Markers([m][..0]) + MarkersIn(m.content);
    assert MarkersIn(m.content) == MarkersIn(m.content[..0]) + if HasMarker(b) then 1 else 0;
  }

  lemma TrailingMarkers(texts: seq<string>)
    ensures Markers([Trailing(texts)]) == 0
  {
    var c := Trailing(texts).content;
    forall j | 0 <= j < |c| ensures !HasMarker(c[j]) {
      TextBlockOk(texts[j]);
    }
    NoMarkers(c);
    assert [Trailing(texts)][..0] == [];
  }

  lemma {:induction false} UnmarkedHasNone(ms: seq<Message>)
    requires Unmarked(ms)
    ensures Markers(ms) == 0
  {
    if ms != [] {
      UnmarkedHasNone(ms[..|ms| - 1]);
      NoMarkers(ms[|ms| - 1].content);
    }
  }

  lemma SentMarkers(cfg: Config, turns: seq<Turn>, entry: Option<int>, wrapup: bool)
    requires TurnsOk(turns)
    ensures Markers(Sent(cfg, turns, entry, wrapup)) <= 2
  {
    HistoryFacts(cfg, turns, entry, wrapup);
    var h := History(cfg, turns);
    UnmarkedHasNone(h);
    BreakpointsBounded(h, entry);
  }

  /**
   One marker on the system block, one on the primed instructions, at most two on the history: four at most, on
   every run.
   */
  lemma FourMarkersAtMost(cfg: Config, acts: seq<Action>, i: nat, instructions: string, texts: seq<string>)
    requires Resumed(cfg)
    requires i < |Exec(cfg, acts).calls|
    ensures 1 + Markers(Request(instructions, Exec(cfg, acts).calls[i], texts)) <= 4
  {
    var s := Exec(cfg, acts);
    var c := s.calls[i];
    CallsInvAlways(cfg, acts);
    TurnInvAlways(cfg, acts);
    assert CallOk(cfg, s.turns, c);
    IncreasingPrefix(s.turns, c.turnCount);
    SentMarkers(cfg, s.turns[..c.turnCount], c.entry, c.wrapup);
    PrimedMarkers(instructions);
    TrailingMarkers(texts);
    MarkersConcat(Primed(instructions), c.history);
    MarkersConcat(Primed(instructions) + c.history, [Trailing(texts)]);
  }

  /** No stored turn ever carries a marker, so none reaches a later request, the ticket or the database. */
  lemma StoredNeverMarked(cfg: Config, acts: seq<Action>)
    requires TurnsOk(cfg.found)
    ensures Unmarked(StoredParts(Exec(cfg, acts).turns)) && Unmarked(Lossless(Exec(cfg, acts).turns))
  {
    TurnInvAlways(cfg, acts);
    var turns := Exec(cfg, acts).turns;
    forall i, j | 0 <= i < |turns| && 0 <= j < |turns[i].content| ensures !HasMarker(turns[i].content[j]) {
      assert TurnOk(turns[i]) && turns[i].content[j] in turns[i].content;
    }
    MergeUnmarked(StoredParts(turns));
  }
}
