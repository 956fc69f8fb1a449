/**
 What the requests of a run carry (backend/app/agent/loop.py, backend/app/agent/store.py): every word of the customer
 and of the model, and for each call of a message its place in the message, its breakpoint and its entry.
 */
module Requests {
  import opened Json
  import opened Transcript
  import opened Curation
  import opened Breakpoints
  import opened Tickets
  import opened Conversation
  import opened TurnInvariants
  import opened RunTurns
  import opened RunCalls
  import opened CachePrefix
  import opened Initiative
  import opened Replays

  // --- every word ------------------------------------------------------------------------------------------------

  lemma HistoryHolds(cfg: Config, turns: seq<Turn>, i: nat, b: Block)
    requires i < |turns| && turns[i].kind != ToolResult && b in turns[i].content
    ensures Holds(History(cfg, turns), turns[i].role, b)
  {
    var parts := Parts(cfg.reg, Mark(cfg, turns), turns);
    assert parts[i] == StoredPart(turns[i]);
    hide Merge, Watermark, CuratedPart;
    MergeHolds(parts, i, b);
  }

  /** A block that a step stores stands in the history of every call from that step on, unless it is a tool result. */
  lemma StoredIsSent(cfg: Config, acts: seq<Action>, a: Action, more: seq<Action>, j: nat, t: Turn, b: Block)
    requires Resumed(cfg) && t.kind != ToolResult && b in t.content
    requires Exec(cfg, acts + [a]).turns == Exec(cfg, acts).turns + [t]
    requires |Exec(cfg, acts).calls| <= j < |Exec(cfg, acts + [a] + more).calls|
    ensures Holds(Erase(Exec(cfg, acts + [a] + more).calls[j].history), t.role, b)
  {
    hide *;
    var f, i := Exec(cfg, acts + [a] + more), |Exec(cfg, acts).turns|;
    SawStored(cfg, acts, a, more, j);
    SentHistory(cfg, acts + [a] + more, j);
    var n := f.calls[j].turnCount;
    StillThere(Exec(cfg, acts).turns, t, f.turns, n);
    HistoryHolds(cfg, f.turns[..n], i, b);
  }

  lemma StillThere(turns: seq<Turn>, t: Turn, later: seq<Turn>, n: nat)
    requires turns + [t] <= later && |turns| < n <= |later|
    ensures later[..n][|turns|] == t
  {
    assert later[..n][|turns|] == later[|turns|] == (turns + [t])[|turns|];
  }

  /** Some message of that role carries this text. */
  ghost predicate Carries(ms: seq<Message>, role: Role, text: string) {
    exists b: Block :: Holds(ms, role, b) && Get(b, "type") == Str("text") && Get(b, "text") == Str(text)
  }

  lemma IsCarried(ms: seq<Message>, role: Role, text: string, b: Block)
    requires Holds(ms, role, b) && Get(b, "type") == Str("text") && Get(b, "text") == Str(text)
    ensures Carries(ms, role, text)
  {
  }

  lemma OneText(text: string)
    ensures CanonicalDict(TextBlock(text)) in CanonicalBlocks([TextBlock(text)])
  {
    assert CanonicalBlocks([TextBlock(text)])[0] == CanonicalDict(TextBlock(text));
  }

  lemma TextTurnIsSent(cfg: Config, acts: seq<Action>, a: Action, more: seq<Action>, j: nat, t: Turn, text: string)
    requires Resumed(cfg) && t.kind != ToolResult && t.content == CanonicalBlocks([TextBlock(text)])
    requires Exec(cfg, acts + [a]).turns == Exec(cfg, acts).turns + [t]
    requires |Exec(cfg, acts).calls| <= j < |Exec(cfg, acts + [a] + more).calls|
    ensures Carries(Erase(Exec(cfg, acts + [a] + more).calls[j].history), t.role, text)
  {
    hide *;
    var b := CanonicalDict(TextBlock(text));
    OneText(text);
    TextReads(text);
    StoredIsSent(cfg, acts, a, more, j, t, b);
    IsCarried(Erase(Exec(cfg, acts + [a] + more).calls[j].history), t.role, text, b);
  }

  lemma OneStep(cfg: Config, acts: seq<Action>, a: Action)
    ensures Exec(cfg, acts + [a]) == Next(cfg, Exec(cfg, acts), a)
  {
    hide Next;
    assert (acts + [a])[..|acts|] == acts;
  }

  /** What the customer types is in the request that answers it and in every one after. */
  lemma TypedIsSent(cfg: Config, acts: seq<Action>, more: seq<Action>, j: nat)
    requires Resumed(cfg) && Enabled(Exec(cfg, acts), Begin)
    requires |Exec(cfg, acts).calls| <= j < |Exec(cfg, acts + [Begin] + more).calls|
    ensures Carries(Erase(Exec(cfg, acts + [Begin] + more).calls[j].history), User, Exec(cfg, acts).phase.text)
  {
    hide *;
    OneStep(cfg, acts, Begin);
    var t := BeginAppends(cfg, Exec(cfg, acts));
    TextTurnIsSent(cfg, acts, Begin, more, j, t, Exec(cfg, acts).phase.text);
  }

  lemma BeginAppends(cfg: Config, s: State) returns (t: Turn)
    requires Enabled(s, Begin)
    ensures s.phase.Arrived? && Next(cfg, s, Begin).turns == s.turns + [t]
    ensures t.role == User && t.kind == UserText && t.content == CanonicalBlocks([TextBlock(s.phase.text)])
  {
    hide Sent, CanonicalBlocks, CanonicalDict;
    t := Appended(s.turns, User, UserText, [TextBlock(s.phase.text)], [])[|s.turns|];
  }

  /** So is the memo of a widget, whenever it lands. */
  lemma MemoIsSent(cfg: Config, acts: seq<Action>, memo: string, meta: Dict, more: seq<Action>, j: nat)
    requires Resumed(cfg) && WellFormedDict(meta)
    requires |Exec(cfg, acts).calls| <= j < |Exec(cfg, acts + [Flow(memo, meta)] + more).calls|
    ensures Carries(Erase(Exec(cfg, acts + [Flow(memo, meta)] + more).calls[j].history), User, memo)
  {
    hide *;
    OneStep(cfg, acts, Flow(memo, meta));
    var t := FlowAppends(cfg, Exec(cfg, acts), memo, meta);
    TextTurnIsSent(cfg, acts, Flow(memo, meta), more, j, t, memo);
  }

  lemma FlowAppends(cfg: Config, s: State, memo: string, meta: Dict) returns (t: Turn)
    requires WellFormedDict(meta)
    ensures Next(cfg, s, Flow(memo, meta)).turns == s.turns + [t]
    ensures t.role == User && t.kind == FlowEvent && t.content == CanonicalBlocks([TextBlock(memo)])
  {
    hide Sent, CanonicalBlocks, CanonicalDict;
    t := Appended(s.turns, User, FlowEvent, [TextBlock(memo)], meta)[|s.turns|];
  }

  /** And every block of a reply, its texts and its calls, all but its thinking. */
  lemma SaidIsSent(cfg: Config, acts: seq<Action>, content: seq<Block>, stop: string, more: seq<Action>, j: nat, k: nat)
    requires Resumed(cfg) && Enabled(Exec(cfg, acts), Reply(content, stop)) && k < |content| && !Thinks(content[k])
    requires |Exec(cfg, acts).calls| <= j < |Exec(cfg, acts + [Reply(content, stop)] + more).calls|
    ensures Holds(Erase(Exec(cfg, acts + [Reply(content, stop)] + more).calls[j].history), Assistant,
                  CanonicalDict(content[k]))
  {
    hide *;
    OneStep(cfg, acts, Reply(content, stop));
    ReplyAppends(cfg, Exec(cfg, acts), content, stop);
    var turns := Exec(cfg, acts).turns;
    var t := Exec(cfg, acts + [Reply(content, stop)]).turns[|turns|];
    KeptHolds(content, k);
    Snoc(turns, Exec(cfg, acts + [Reply(content, stop)]).turns);
    StoredIsSent(cfg, acts, Reply(content, stop), more, j, t, CanonicalDict(content[k]));
  }

  lemma Snoc(turns: seq<Turn>, more: seq<Turn>)
    requires |more| == |turns| + 1 && more[..|turns|] == turns
    ensures more == turns + [more[|turns|]]
  {
  }

  lemma {:induction false} KeptHolds(content: seq<Block>, k: nat)
    requires k < |content| && !Thinks(content[k])
    ensures CanonicalDict(content[k]) in CanonicalBlocks(Kept(content))
  {
    hide CanonicalDict, Thinks;
    var b, rest := content[0], content[1..];
    assert content == [b] + rest;
    KeptCons(b, rest);
    if k == 0 {
      assert CanonicalBlocks(Kept(content))[0] == CanonicalDict(b);
    } else {
      KeptHolds(rest, k - 1);
      TextsCons(b, Kept(rest));
      assert [] + Kept(rest) == Kept(rest);
    }
  }

  // --- the calls of one message ----------------------------------------------------------------------------------

  /** The entry that the call after `c` measures its gap from. */
  function EntryAfter(cfg: Config, c: Call): Option<int> {
    if cfg.historyCache && !c.wrapup then Some(|c.history| - 1) else c.entry
  }

  /** Call `j` of a message whose first call is `base`. */
  ghost predicate InPlace(cfg: Config, calls: seq<Call>, base: nat, j: nat)
    requires base <= j < |calls|
  {
    && (calls[j].wrapup <==> j - base >= cfg.maxToolRounds)
    && (calls[j].first <==> j == base)
    && (j > base ==> calls[j].entry == EntryAfter(cfg, calls[j - 1]))
  }

  ghost predicate PlacesInv(cfg: Config, s: State, base: nat) {
    && base <= |s.calls| && s.callsNow == |s.calls| - base
    && (forall j | base <= j < |s.calls| :: InPlace(cfg, s.calls, base, j))
    && (s.phase.Calling? || s.phase.Gathering? || s.phase.Recording? ==>
          && base < |s.calls| && s.lastEntry == EntryAfter(cfg, s.calls[|s.calls| - 1])
          && s.rounds == s.callsNow - if s.phase.Calling? then 1 else 0)
  }

  lemma IssuePlaces(cfg: Config, s: State, base: nat)
    requires base <= |s.calls| && s.callsNow == |s.calls| - base && s.rounds == s.callsNow
    requires forall j | base <= j < |s.calls| :: InPlace(cfg, s.calls, base, j)
    requires base < |s.calls| ==> s.lastEntry == EntryAfter(cfg, s.calls[|s.calls| - 1])
    ensures PlacesInv(cfg, Issue(cfg, s), base)
  {
    hide Sent;
    var t := Issue(cfg, s);
    forall j | base <= j < |t.calls| ensures InPlace(cfg, t.calls, base, j) {
      if j < |s.calls| {
        assert InPlace(cfg, s.calls, base, j);
      }
    }
  }

  lemma BeginPlaces(cfg: Config, s: State)
    requires Enabled(s, Begin)
    ensures PlacesInv(cfg, Next(cfg, s, Begin), |s.calls|)
  {
    hide Sent, PlacesInv, Appended, Issue, InPlace;
    var t := s.(
      lastEntry := UserTextMessage(s.turns),
      turns := Appended(s.turns, User, UserText, [TextBlock(s.phase.text)], []),
      rounds := 0, authExpired := false, callsNow := 0, dishonoured := 0);
    IssuePlaces(cfg, t, |s.calls|);
  }

  lemma ConcludePlaces(cfg: Config, t: State, base: nat)
    requires PlacesInv(cfg, t, base) && t.phase.Recording?
    ensures PlacesInv(cfg, Conclude(cfg, t), base)
  {
    if !t.artifactsOnly && !t.authExpired {
      hide Issue, InPlace, EntryAfter;
      IssuePlaces(cfg, t, base);
    }
  }

  lemma PlacesKept(cfg: Config, s: State, t: State, base: nat)
    requires PlacesInv(cfg, s, base) && s.phase.Recording? && t.phase.Recording?
    requires t.calls == s.calls && t.callsNow == s.callsNow && t.lastEntry == s.lastEntry && t.rounds == s.rounds
    ensures PlacesInv(cfg, t, base)
  {
    hide InPlace, EntryAfter;
  }

  lemma RecordPlaces(cfg: Config, s: State, base: nat)
    requires PlacesInv(cfg, s, base) && Enabled(s, Record)
    ensures PlacesInv(cfg, RecordStep(cfg, s), base)
  {
    var (uses, outcomes, k) := (s.phase.uses, s.phase.outcomes, s.phase.next);
    var t := Stored(cfg, s, uses[k], outcomes[k]);
    hide Shown, Conclude, InPlace, EntryAfter, Stored, PlacesInv;
    PlacesKept(cfg, s, t, base);
    if k + 1 < |uses| {
      PlacesKept(cfg, t, RecordStep(cfg, s), base);
    } else {
      ConcludePlaces(cfg, t, base);
    }
  }

  lemma StepPlaces(cfg: Config, s: State, a: Action, base: nat)
    requires PlacesInv(cfg, s, base) && !a.Begin?
    ensures PlacesInv(cfg, Next(cfg, s, a), base)
  {
    hide InPlace, EntryAfter, RecordStep, Sent, Appended, Kept, Uses, DoneEvent, AfterCrash, Started, Shown, Dispatch;
    if a.Record? && Enabled(s, a) {
      RecordPlaces(cfg, s, base);
    }
  }

  /**
   The calls made for one message: one is a wrap-up exactly if at least `maxToolRounds` came before it; the first alone
   counts as the first; and each later one measures its gap from the tip that the one before it marked.
   */
  lemma {:induction false} CallsInPlace(cfg: Config, acts: seq<Action>, more: seq<Action>)
    requires Enabled(Exec(cfg, acts), Begin) && (forall a | a in more :: !a.Begin?)
    ensures var base, s := |Exec(cfg, acts).calls|, Exec(cfg, acts + [Begin] + more);
            base < |s.calls| && forall j | base <= j < |s.calls| :: InPlace(cfg, s.calls, base, j)
  {
    MessagePlaces(cfg, acts, more);
    hide Exec, InPlace, Next;
    OneStep(cfg, acts, Begin);
    NewCall(cfg, Exec(cfg, acts), Begin);
    BeginCalls(cfg, Exec(cfg, acts));
    CallsStay(cfg, acts + [Begin], more);
  }

  lemma BeginCalls(cfg: Config, s: State)
    requires Enabled(s, Begin)
    ensures |Next(cfg, s, Begin).calls| == |s.calls| + 1
  {
    hide Sent;
  }

  lemma {:induction false} MessagePlaces(cfg: Config, acts: seq<Action>, more: seq<Action>)
    requires Enabled(Exec(cfg, acts), Begin) && (forall a | a in more :: !a.Begin?)
    ensures PlacesInv(cfg, Exec(cfg, acts + [Begin] + more), |Exec(cfg, acts).calls|)
    decreases |more|
  {
    hide Exec, PlacesInv, Next, Enabled;
    OneStep(cfg, acts, Begin);
    if more == [] {
      assert acts + [Begin] + more == acts + [Begin];
      BeginPlaces(cfg, Exec(cfg, acts));
    } else {
      var init, a := more[..|more| - 1], more[|more| - 1];
      assert acts + [Begin] + more == acts + [Begin] + init + [a];
      MessagePlaces(cfg, acts, init);
      OneStep(cfg, acts + [Begin] + init, a);
      StepPlaces(cfg, Exec(cfg, acts + [Begin] + init), a, |Exec(cfg, acts).calls|);
    }
  }

  // --- the breakpoint --------------------------------------------------------------------------------------------

  /** The last block of the array carries the marker. */
  predicate TipMarked(ms: seq<Message>) {
    ms != [] && ms[|ms| - 1].content != [] && MarksCache(ms[|ms| - 1].content[|ms[|ms| - 1].content| - 1])
  }

  predicate MarksCache(b: Block) {
    Get(b, "cache_control") == Obj([("type", Str("ephemeral"))])
  }

  lemma {:induction false} MarkerReads(b: Block)
    requires !HasMarker(b)
    ensures MarksCache(b + [MARKER])
  {
    KeysCons(b + [MARKER]);
    if b == [] {
      assert b + [MARKER] == [MARKER];
    } else {
      KeysCons(b);
      assert (b + [MARKER])[1..] == b[1..] + [MARKER];
      MarkerReads(b[1..]);
    }
  }

  lemma MarkedTip(m: Message)
    requires Markable(m)
    ensures Marked(m).content != [] && MarksCache(Marked(m).content[|Marked(m).content| - 1])
  {
    MarkerReads(m.content[|m.content| - 1]);
    hide HasMarker, MarksCache;
  }

  lemma BreakpointMarksTip(ms: seq<Message>, entry: Option<int>)
    requires ms != [] && Markable(ms[|ms| - 1])
    ensures TipMarked(WithBreakpoint(ms, entry))
  {
    MarkedTip(ms[|ms| - 1]);
    hide HasMarker, Markable, Marked, MarksCache;
  }

  lemma MergedTip(parts: seq<Message>)
    requires parts != [] && parts[|parts| - 1].content != []
    ensures Merge(parts) != [] && Merge(parts)[|Merge(parts)| - 1].content != []
  {
    var n := |parts| - 1;
    var ms := Merge(parts[..n]);
    if ms != [] {
      var joined := ms[|ms| - 1].content + parts[n].content;
      FilterMembers(joined);
      assert parts[n].content[0] in joined;
    }
  }

  lemma HistoryTip(cfg: Config, turns: seq<Turn>)
    requires TurnsOk(turns) && turns != [] && turns[|turns| - 1].role == User
    ensures History(cfg, turns) != [] && Markable(History(cfg, turns)[|History(cfg, turns)| - 1])
    ensures Unmarked(History(cfg, turns))
  {
    var parts := Parts(cfg.reg, Mark(cfg, turns), turns);
    assert TurnOk(turns[|turns| - 1]);
    assert |parts[|turns| - 1].content| == |StoredParts(turns)[|turns| - 1].content| > 0 by {
      PartsLikeStored(cfg, Mark(cfg, turns), turns);
    }
    HistoryFacts(cfg, turns, None, true);
    hide Merge, Watermark, CuratedPart, HasMarker, Erase;
    MergedTip(parts);
  }

  lemma {:induction false} UnmarkedCount(ms: seq<Message>)
    requires Unmarked(ms)
    ensures Markers(ms) == 0
  {
    if ms != [] {
      UnmarkedCount(ms[..|ms| - 1]);
      NoMarkers(ms[|ms| - 1].content);
    }
  }

  lemma SentMarks(cfg: Config, turns: seq<Turn>, entry: Option<int>, wrapup: bool)
    requires TurnsOk(turns) && turns != [] && turns[|turns| - 1].role == User
    ensures var h := Sent(cfg, turns, entry, wrapup);
            if cfg.historyCache && !wrapup then TipMarked(h) else Markers(h) == 0
  {
    HistoryTip(cfg, turns);
    hide Markable, HasMarker, History, Unmarked, WithBreakpoint, TipMarked, Markers, TurnsOk;
    if cfg.historyCache && !wrapup {
      BreakpointMarksTip(History(cfg, turns), entry);
    } else {
      UnmarkedCount(History(cfg, turns));
    }
  }

  lemma CallSent(cfg: Config, turns: seq<Turn>, c: Call)
    requires TurnsOk(turns) && CallOk(cfg, turns, c)
    ensures c.turnCount <= |turns|
    ensures var seen := turns[..c.turnCount];
            && TurnsOk(seen) && seen != [] && seen[|seen| - 1].role == User
            && c.history == Sent(cfg, seen, c.entry, c.wrapup)
  {
    IncreasingPrefix(turns, c.turnCount);
    hide Sent, TurnOk;
  }

  lemma CallIsOk(cfg: Config, s: State, j: nat)
    requires CallsInv(cfg, s) && j < |s.calls|
    ensures CallOk(cfg, s.turns, s.calls[j])
  {
    hide CallOk;
  }

  /** With the history cached every request ends in a breakpoint, but for a wrap-up, which has none anywhere. */
  lemma TipIsMarked(cfg: Config, acts: seq<Action>, j: nat)
    requires Resumed(cfg) && j < |Exec(cfg, acts).calls|
    ensures var c := Exec(cfg, acts).calls[j];
            if cfg.historyCache && !c.wrapup then TipMarked(c.history) else Markers(c.history) == 0
  {
    hide *;
    var f := Exec(cfg, acts);
    var c := f.calls[j];
    OnlyTurns(cfg);
    CallsInvAlways(cfg, acts);
    TurnInvAlways(cfg, acts);
    CallIsOk(cfg, f, j);
    TurnsAreOk(cfg, f);
    CallSent(cfg, f.turns, c);
    SentMarks(cfg, f.turns[..c.turnCount], c.entry, c.wrapup);
  }

  lemma TurnsAreOk(cfg: Config, s: State)
    requires TurnInv(cfg, s)
    ensures TurnsOk(s.turns)
  {
    hide TurnsOk;
  }

  /** A request opens with the instructions and their frozen answer, and ends with the context of the round. */
  lemma RequestCarries(instructions: string, c: Call, texts: seq<string>)
    ensures var r := Request(instructions, c, texts);
            && |r| == |c.history| + 3 && r[2..|r| - 1] == c.history
            && r[0].role == User && TextsOf(r[0].content) == [instructions]
            && r[1].role == Assistant && TextsOf(r[1].content) == ["Understood."]
            && r[|r| - 1].role == User && TextsOf(r[|r| - 1].content) == texts
  {
    TextsAre(texts);
    var frozen: Block := [("type", Str("text")), ("text", Str(instructions)), MARKER];
    assert frozen == [("type", Str("text")), ("text", Str(instructions))] + [MARKER];
    TextOfBlock(instructions, [MARKER]);
    TextOfBlock("Understood.", []);
    hide Get, BlockText;
    assert TextBlock("Understood.") + [] == TextBlock("Understood.");
    assert Primed(instructions)[0].content == [frozen];
    assert UNDERSTOOD.content == [TextBlock("Understood.")];
  }

  lemma TextOfBlock(text: string, more: Block)
    ensures var b: Block := [("type", Str("text")), ("text", Str(text))] + more; TextsOf([b]) == [text]
  {
    var b: Block := [("type", Str("text")), ("text", Str(text))] + more;
    assert "type"[1] != "text"[1];
    assert Get(b, "text") == Get(b[1..], "text") == Str(text);
    assert [b][1..] == [];
  }

  lemma {:induction false} TextsAre(texts: seq<string>)
    ensures TextsOf(Trailing(texts).content) == texts
  {
    if texts == [] {
    } else {
      var b, rest := TextBlock(texts[0]), Trailing(texts[1..]).content;
      TextsAre(texts[1..]);
      TextBlockFields(texts[0]);
      TextsCons(b, rest);
      BlockTextIs(b, texts[0]);
      hide TextBlock, TextsOf, BlockText, Get;
      assert Trailing(texts).content == [b] + rest;
      assert texts == [texts[0]] + texts[1..];
    }
  }

  // --- what is stored --------------------------------------------------------------------------------------------

  /** The turns a run adds are numbered on from those it found, and hold no thinking. */
  predicate AddedOk(turns: seq<Turn>, i: nat)
    requires i < |turns|
  {
    && turns[i].no == (if i == 0 then 1 else turns[i - 1].no + 1)
    && forall b | b in turns[i].content :: !Thinks(b)
  }

  ghost predicate Adds(turns: seq<Turn>, more: seq<Turn>) {
    turns <= more && forall i | |turns| <= i < |more| :: AddedOk(more, i)
  }

  lemma AppendAdds(turns: seq<Turn>, role: Role, kind: Kind, content: seq<Block>, meta: Dict)
    requires forall b | b in CanonicalBlocks(content) :: !Thinks(b)
    ensures Adds(turns, Appended(turns, role, kind, content, meta))
  {
    hide Thinks, CanonicalBlocks, CanonicalDict;
  }

  lemma AddsTransitive(a: seq<Turn>, b: seq<Turn>, c: seq<Turn>)
    requires Adds(a, b) && Adds(b, c)
    ensures Adds(a, c)
  {
    hide Thinks;
    forall i | |a| <= i < |c| ensures AddedOk(c, i) {
      if i < |b| {
        assert AddedOk(b, i);
        assert c[i] == b[i] && (i > 0 ==> c[i - 1] == b[i - 1]);
      }
    }
  }

  lemma CanonicalThinks(b: Block)
    requires WellFormedDict(b)
    ensures Thinks(CanonicalDict(b)) <==> Thinks(b)
  {
    hide *;
    CanonicalLookups(b);
    CanonicalIsText(Get(b, "type"), "thinking");
    CanonicalIsText(Get(b, "type"), "redacted_thinking");
    SameType(CanonicalDict(b), b);
  }

  lemma SameType(a: Block, b: Block)
    requires Get(a, "type") == Str("thinking") <==> Get(b, "type") == Str("thinking")
    requires Get(a, "type") == Str("redacted_thinking") <==> Get(b, "type") == Str("redacted_thinking")
    ensures Thinks(a) <==> Thinks(b)
  {
    hide Get;
  }

  lemma NotThinking(bs: seq<Block>)
    requires forall b | b in bs :: WellFormedDict(b) && !Thinks(b)
    ensures forall b | b in CanonicalBlocks(bs) :: !Thinks(b)
  {
    hide CanonicalDict, Thinks, WellFormedDict;
    forall b | b in CanonicalBlocks(bs) ensures !Thinks(b) {
      var i :| 0 <= i < |bs| && CanonicalBlocks(bs)[i] == b;
      CanonicalThinks(bs[i]);
    }
  }

  lemma {:induction false} KeptNotThinking(content: seq<Block>)
    ensures forall b | b in Kept(content) :: b in content && !Thinks(b)
  {
    if content == [] {
    } else {
      hide Get;
      KeptNotThinking(content[1..]);
      assert content == [content[0]] + content[1..];
    }
  }

  lemma TextIsNoThought(text: string)
    ensures WellFormedDict(TextBlock(text)) && !Thinks(TextBlock(text))
  {
    TextBlockOk(text);
    TextBlockFields(text);
    assert "text"[1] == 'e' && "thinking"[1] == 'h' && "redacted_thinking"[0] == 'r';
    hide Get;
  }

  lemma ResultIsNoThought(id: Json, content: Json, isError: bool)
    requires WellFormed(id) && WellFormed(content)
    ensures WellFormedDict(ResultBlock(id, content, isError)) && !Thinks(ResultBlock(id, content, isError))
  {
    ResultBlockOk(id, content, isError);
    assert "tool_result"[1] == 'o' && "thinking"[1] == 'h' && "redacted_thinking"[0] == 'r';
    hide Get, WellFormed;
  }

  lemma TextAdds(turns: seq<Turn>, kind: Kind, text: string, meta: Dict)
    ensures Adds(turns, Appended(turns, User, kind, [TextBlock(text)], meta))
  {
    hide *;
    TextIsNoThought(text);
    NotThinking([TextBlock(text)]);
    AppendAdds(turns, User, kind, [TextBlock(text)], meta);
  }

  lemma StoredAdds(cfg: Config, s: State, use: Block, o: Outcome)
    requires WellFormedDict(use) && WellFormed(o.content)
    ensures Adds(s.turns, Stored(cfg, s, use, o).turns)
  {
    GetWellFormed(use, "id");
    var b := ResultBlock(Get(use, "id"), o.content, o.isError);
    hide Get, Thinks, ResultBlock, TextBlock, Appended, Adds, WellFormed, WellFormedDict, ResultMeta;
    ResultIsNoThought(Get(use, "id"), o.content, o.isError);
    NotThinking([b]);
    AppendAdds(s.turns, User, ToolResult, [b], ResultMeta(use, o));
    var turns := Appended(s.turns, User, ToolResult, [b], ResultMeta(use, o));
    if RaisedTicket(use, o) {
      var memo := cfg.ticketMemo(Get(o.envelope.value, "ticketId"), Get(use, "input"));
      TextAdds(turns, FlowEvent, memo, [("flow", Str("ticket"))]);
      AddsTransitive(s.turns, turns, Appended(turns, User, FlowEvent, [TextBlock(memo)], [("flow", Str("ticket"))]));
    }
  }

  lemma ReplyAdds(cfg: Config, s: State, content: seq<Block>, stop: string)
    requires Enabled(s, Reply(content, stop))
    ensures Adds(s.turns, Next(cfg, s, Reply(content, stop)).turns)
  {
    var kept := Kept(content);
    assert forall b | b in content :: WellFormedDict(b);
    KeptNotThinking(content);
    NotThinking(kept);
    hide Thinks, Kept, Uses, WellFormedDict, ReplyOk, DoneEvent, Started, Adds, Appended;
    AppendAdds(s.turns, Assistant, if Uses(kept) != [] then AssistantToolUse else AssistantText, kept,
               [("stop_reason", Str(stop))]);
  }

  lemma StepAdds(cfg: Config, s: State, a: Action)
    requires TurnInv(cfg, s)
    ensures Adds(s.turns, Next(cfg, s, a).turns)
  {
    if !Enabled(s, a) {
    } else if a.Begin? {
      TextAdds(s.turns, UserText, s.phase.text, []);
      hide Sent, Adds, Appended;
    } else if a.Flow? {
      TextAdds(s.turns, FlowEvent, a.memo, a.meta);
      hide Adds, Appended;
    } else if a.Reply? {
      ReplyAdds(cfg, s, a.content, a.stop);
    } else if a.Record? {
      RecordingParts(cfg, s);
      StoredAdds(cfg, s, s.phase.uses[s.phase.next], s.phase.outcomes[s.phase.next]);
    }
  }

  /** On every run: turns stay, new ones are numbered on without a gap, and no thinking is ever stored. */
  lemma {:induction false} StoredAlways(cfg: Config, acts: seq<Action>)
    requires TurnsOk(cfg.found)
    ensures Adds(cfg.found, Exec(cfg, acts).turns)
    decreases |acts|
  {
    if acts == [] {
    } else {
      var init := acts[..|acts| - 1];
      StoredAlways(cfg, init);
      TurnInvAlways(cfg, init);
      hide TurnInv, Next, Adds;
      StepAdds(cfg, Exec(cfg, init), acts[|acts| - 1]);
      AddsTransitive(cfg.found, Exec(cfg, init).turns, Exec(cfg, acts).turns);
    }
  }
}
