/**
 What the model is shown again of a tool's answer: in the history of every later call of every run, by what the call
 answered and what has happened since (backend/app/agent/curation.py, backend/app/agent/loop.py).
 */
module Replays {
  import opened Json
  import opened Transcript
  import opened Curation
  import opened Breakpoints
  import opened Conversation
  import opened TurnInvariants
  import opened RunTurns
  import opened RunEvents
  import opened RunCalls
  import opened CachePrefix

  // --- blocks of a merged array ---------------------------------------------------------------------------------

  /** Some message of that role holds the block. */
  ghost predicate Holds(ms: seq<Message>, role: Role, b: Block) {
    exists i :: 0 <= i < |ms| && ms[i].role == role && b in ms[i].content
  }

  lemma ExtendHolds(ms: seq<Message>, next: Message, role: Role, b: Block)
    requires Holds(ms, role, b) || (next.role == role && b in next.content)
    ensures Holds(Extend(ms, next), role, b)
  {
    var r, n := Extend(ms, next), |ms| - 1;
    if next.role == User && ms != [] && ms[n].role == User {
      FilterMembers(ms[n].content + next.content);
      if Holds(ms, role, b) {
        var i :| 0 <= i < |ms| && ms[i].role == role && b in ms[i].content;
        assert r[i].role == role && b in r[i].content;
      } else {
        assert b in r[n].content;
      }
    } else if Holds(ms, role, b) {
      var i :| 0 <= i < |ms| && ms[i].role == role && b in ms[i].content;
      assert r[i] == ms[i];
    } else {
      assert r[|ms|] == next;
    }
  }

  /** Merging loses no block. */
  lemma {:induction false} MergeHolds(parts: seq<Message>, i: nat, b: Block)
    requires i < |parts| && b in parts[i].content
    ensures Holds(Merge(parts), parts[i].role, b)
    decreases |parts|
  {
    var n := |parts| - 1;
    if i < n {
      MergeHolds(parts[..n], i, b);
    }
    ExtendHolds(Merge(parts[..n]), parts[n], parts[i].role, b);
  }

  // --- calls after a step -----------------------------------------------------------------------------------------

  /** A step makes one call at most, over all turns that there are then. */
  lemma NewCall(cfg: Config, s: State, a: Action)
    ensures var t := Next(cfg, s, a);
            t.calls == s.calls || (|t.calls| == |s.calls| + 1 && t.calls[..|s.calls|] == s.calls
                                   && t.calls[|s.calls|].turnCount == |t.turns|)
  {
    hide Sent, Canonical, CanonicalBlocks, Dispatch;
  }

  /** Turns stay, and every call made since saw at least those that there were. */
  lemma {:induction false} LaterCalls(cfg: Config, acts: seq<Action>, more: seq<Action>, j: nat)
    requires |Exec(cfg, acts).calls| <= j < |Exec(cfg, acts + more).calls|
    ensures Exec(cfg, acts).turns <= Exec(cfg, acts + more).turns
    ensures Exec(cfg, acts + more).calls[j].turnCount >= |Exec(cfg, acts).turns|
    decreases |more|
  {
    hide Next;
    assert acts + [] == acts;
    if more != [] {
      var init, a := more[..|more| - 1], more[|more| - 1];
      var all := acts + more;
      assert all[..|all| - 1] == acts + init && all[|all| - 1] == a;
      NewCall(cfg, Exec(cfg, acts + init), a);
      RunGrows(cfg, acts, init);
      TurnsOnlyGrow(cfg, Exec(cfg, acts + init), a);
      if j < |Exec(cfg, acts + init).calls| {
        LaterCalls(cfg, acts, init, j);
      }
    }
  }

  lemma {:induction false} RunGrows(cfg: Config, acts: seq<Action>, more: seq<Action>)
    ensures Exec(cfg, acts).turns <= Exec(cfg, acts + more).turns
    decreases |more|
  {
    hide Next;
    if more == [] {
      assert acts + more == acts;
    } else {
      var init, all := more[..|more| - 1], acts + more;
      assert all[..|all| - 1] == acts + init && all[|all| - 1] == more[|more| - 1];
      RunGrows(cfg, acts, init);
      TurnsOnlyGrow(cfg, Exec(cfg, acts + init), more[|more| - 1]);
    }
  }

  // --- one stored answer ------------------------------------------------------------------------------------------

  /** A newer user text stands between turn `i` and turn `n`. */
  predicate NewerText(turns: seq<Turn>, i: nat, n: nat)
    requires n <= |turns|
  {
    exists k :: i < k < n && turns[k].kind == UserText
  }

  lemma MarkIsBeyond(turns: seq<Turn>, i: nat)
    requires TurnsOk(turns) && i < |turns| && turns[i].kind != UserText
    ensures turns[i].no < Watermark(turns) <==> NewerText(turns, i, |turns|)
  {
    var newest := NewestUserText(turns);
    if NewerText(turns, i, |turns|) {
      var k :| i < k < |turns| && turns[k].kind == UserText;
      assert newest.Some? && k <= newest.value;
    }
    if newest.Some? && newest.value > i {
      assert NewerText(turns, i, |turns|);
    }
    if newest.Some? && newest.value < i {
      assert turns[newest.value].no < turns[i].no;
    }
  }

  /** The block as a history shows it: all of it as it is stored, but for the content, which is this. */
  ghost predicate Shows(b: Block, stored: Block, content: Json) {
    forall k :: Get(b, k) == if k == "content" then content else Get(stored, k)
  }

  /** What a history over the first `n` turns shows of the answer stored in turn `i`. */
  lemma HistoryShows(cfg: Config, turns: seq<Turn>, i: nat, tool: string) returns (b: Block)
    requires TurnsOk(turns) && i < |turns| && turns[i].kind == ToolResult
    requires Get(turns[i].meta, "tool_name") == Str(tool)
    ensures Holds(History(cfg, turns), User, b)
    ensures var raw := Get(turns[i].content[0], "content");
            Shows(b, turns[i].content[0],
                  if cfg.curating && NewerText(turns, i, |turns|) && Spendable(cfg.reg, turns[i], tool) then
                    Str(Render(cfg.reg, tool, raw))
                  else raw)
  {
    var t := turns[i];
    assert TurnOk(t);
    MarkIsBeyond(turns, i);
    var parts := Parts(cfg.reg, Mark(cfg, turns), turns);
    PartShows(cfg.reg, Watermark(turns), t, tool);
    hide Merge, Render, Spendable, NewerText, Watermark, CuratedPart;
    b := parts[i].content[0];
    MergeHolds(parts, i, b);
  }

  lemma MetaReads(use: Block, o: Outcome)
    requires WellFormed(Get(use, "name"))
    ensures Get(CanonicalDict(ResultMeta(use, o)), "is_error") == Bool(o.isError)
    ensures Get(CanonicalDict(ResultMeta(use, o)), "tool_name") == Canonical(Get(use, "name"))
  {
    var meta := ResultMeta(use, o);
    assert "tool_name"[0] != "is_error"[0];
    assert meta[1..][0] == meta[1] && Get(meta, "is_error") == Get(meta[1..], "is_error");
    CanonicalDictFacts(meta);
  }

  lemma BlockReads(id: Json, content: Json, isError: bool)
    requires WellFormed(id) && WellFormed(content)
    ensures var b := CanonicalDict(ResultBlock(id, content, isError));
            Get(b, "content") == Canonical(content) && Get(b, "tool_use_id") == Canonical(id)
            && Get(b, "is_error") == Bool(isError)
  {
    var b := ResultBlock(id, content, isError);
    ResultBlockOk(id, content, isError);
    CanonicalBlockOk(b);
    assert "content"[0] != "type"[0] && "content"[0] != "tool_use_id"[0];
    assert |"is_error"| != |"type"| && |"is_error"| != |"tool_use_id"| && |"is_error"| != |"content"|;
    var rest := b[1..];
    assert rest[0] == b[1] && rest[1..][0] == b[2] && rest[1..][1..][0] == b[3];
    assert Get(b, "content") == Get(rest, "content") == Get(rest[1..], "content") == content;
    assert Get(b, "is_error") == Get(rest, "is_error") == Get(rest[1..], "is_error") == Get(rest[1..][1..], "is_error");
  }

  /** The turn that holds the answer of a call. */
  lemma AnswerStored(cfg: Config, s: State, use: Block, o: Outcome)
    requires WellFormedDict(use) && WellFormed(o.content)
    ensures var turns := Stored(cfg, s, use, o).turns;
            && |turns| > |s.turns| && turns[|s.turns|].kind == ToolResult
            && Get(turns[|s.turns|].meta, "is_error") == Bool(o.isError)
            && Get(turns[|s.turns|].meta, "tool_name") == Canonical(Get(use, "name"))
            && turns[|s.turns|].content == [CanonicalDict(ResultBlock(Get(use, "id"), o.content, o.isError))]
  {
    GetWellFormed(use, "name");
    MetaReads(use, o);
    hide Canonical, CanonicalDict, ResultMeta, ResultBlock, Get, WellFormed;
    assert CanonicalBlocks([ResultBlock(Get(use, "id"), o.content, o.isError)])
        == [CanonicalDict(ResultBlock(Get(use, "id"), o.content, o.isError))];
  }

  /** What a call answered, as a later history shows it. */
  ghost predicate ShowsAnswer(b: Block, use: Block, o: Outcome, content: Json) {
    && Get(b, "type") == Str("tool_result") && Get(b, "tool_use_id") == Canonical(Get(use, "id"))
    && Get(b, "is_error") == Bool(o.isError) && Get(b, "content") == content
  }

  /** The content under which it is shown: its stub, once a newer message stands, or the answer itself. */
  ghost function ContentShown(cfg: Config, tool: string, o: Outcome, newer: bool): Json
  {
    var answer := Canonical(o.content);
    if cfg.curating && newer && !o.isError && tool !in cfg.reg.keepVerbatim && tool in cfg.reg.renderers then
      Str(Render(cfg.reg, tool, answer))
    else answer
  }

  /** A stored answer, as the history over the first `n` turns shows it. */
  lemma StoredShown(cfg: Config, turns: seq<Turn>, n: nat, i: nat, use: Block, o: Outcome, tool: string)
    returns (b: Block)
    requires TurnsOk(turns) && i < n <= |turns| && turns[i].kind == ToolResult
    requires WellFormedDict(use) && WellFormed(o.content) && Get(use, "name") == Str(tool)
    requires Get(turns[i].meta, "is_error") == Bool(o.isError) && Get(turns[i].meta, "tool_name") == Str(tool)
    requires turns[i].content == [CanonicalDict(ResultBlock(Get(use, "id"), o.content, o.isError))]
    ensures Holds(History(cfg, turns[..n]), User, b)
    ensures ShowsAnswer(b, use, o, ContentShown(cfg, tool, o, NewerText(turns, i, n)))
  {
    assert TurnOk(turns[i]) && IsResult(turns[i].content[0]);
    hide *;
    IncreasingPrefix(turns, n);
    assert turns[..n][i] == turns[i];
    SameNewer(turns, i, n);
    b := HistoryShows(cfg, turns[..n], i, tool);
    var newer := NewerText(turns, i, n);
    ReadsAnswer(cfg, b, turns[i], use, o, tool, newer);
  }

  lemma ReadsAnswer(cfg: Config, b: Block, t: Turn, use: Block, o: Outcome, tool: string, newer: bool)
    requires WellFormedDict(use) && WellFormed(o.content) && t.kind == ToolResult && Get(use, "name") == Str(tool)
    requires Get(t.meta, "is_error") == Bool(o.isError) && Get(t.meta, "tool_name") == Str(tool)
    requires t.content == [CanonicalDict(ResultBlock(Get(use, "id"), o.content, o.isError))]
    requires var raw := Get(t.content[0], "content");
             Shows(b, t.content[0],
                   if cfg.curating && newer && Spendable(cfg.reg, t, tool) then Str(Render(cfg.reg, tool, raw))
                   else raw)
    ensures ShowsAnswer(b, use, o, ContentShown(cfg, tool, o, newer))
  {
    var stored := t.content[0];
    hide *;
    AnswerReads(use, o);
    ContentIs(cfg, t, tool, o, newer);
    ShowsKeys(b, stored, ContentShown(cfg, tool, o, newer));
    IsShown(b, stored, use, o, ContentShown(cfg, tool, o, newer));
  }

  /** The block that holds an answer. */
  lemma AnswerReads(use: Block, o: Outcome)
    requires WellFormedDict(use) && WellFormed(o.content)
    ensures var b := CanonicalDict(ResultBlock(Get(use, "id"), o.content, o.isError));
            && Get(b, "type") == Str("tool_result") && Get(b, "tool_use_id") == Canonical(Get(use, "id"))
            && Get(b, "is_error") == Bool(o.isError) && Get(b, "content") == Canonical(o.content)
  {
    GetWellFormed(use, "id");
    BlockReads(Get(use, "id"), o.content, o.isError);
    ResultBlockOk(Get(use, "id"), o.content, o.isError);
    CanonicalBlockOk(ResultBlock(Get(use, "id"), o.content, o.isError));
    hide Canonical, CanonicalDict, ResultBlock, WellFormed, WellFormedDict, HasMarker, Get;
  }

  lemma ContentIs(cfg: Config, t: Turn, tool: string, o: Outcome, newer: bool)
    requires t.kind == ToolResult && t.content != [] && Get(t.content[0], "content") == Canonical(o.content)
    requires Get(t.meta, "is_error") == Bool(o.isError) && Get(t.meta, "tool_name") == Str(tool)
    ensures ContentShown(cfg, tool, o, newer) ==
            var raw := Get(t.content[0], "content");
            if cfg.curating && newer && Spendable(cfg.reg, t, tool) then Str(Render(cfg.reg, tool, raw)) else raw
  {
    hide Canonical, Render, Get;
  }

  lemma ShowsKeys(b: Block, stored: Block, content: Json)
    requires Shows(b, stored, content)
    ensures Get(b, "content") == content && Get(b, "type") == Get(stored, "type")
    ensures Get(b, "tool_use_id") == Get(stored, "tool_use_id") && Get(b, "is_error") == Get(stored, "is_error")
  {
    hide Get;
    assert "type"[0] != "content"[0] && "tool_use_id"[0] != "content"[0] && "is_error"[0] != "content"[0];
  }

  lemma IsShown(b: Block, stored: Block, use: Block, o: Outcome, content: Json)
    requires Get(b, "content") == content && Get(b, "type") == Get(stored, "type") == Str("tool_result")
    requires Get(b, "tool_use_id") == Get(stored, "tool_use_id") == Canonical(Get(use, "id"))
    requires Get(b, "is_error") == Get(stored, "is_error") == Bool(o.isError)
    ensures ShowsAnswer(b, use, o, content)
  {
    hide Get, Canonical;
  }

  lemma SameNewer(turns: seq<Turn>, i: nat, n: nat)
    requires n <= |turns|
    ensures NewerText(turns[..n], i, n) <==> NewerText(turns, i, n)
  {
    if NewerText(turns, i, n) {
      var k :| i < k < n && turns[k].kind == UserText;
      assert turns[..n][k].kind == UserText;
    }
  }

  /** A call that saw turn `i` sent what the history over the turns it saw shows. */
  lemma SentHistory(cfg: Config, acts: seq<Action>, j: nat)
    requires Resumed(cfg) && j < |Exec(cfg, acts).calls|
    ensures var f := Exec(cfg, acts); var c := f.calls[j];
            TurnsOk(f.turns) && c.turnCount <= |f.turns| && Erase(c.history) == History(cfg, f.turns[..c.turnCount])
  {
    CallsInvAlways(cfg, acts);
    TurnInvAlways(cfg, acts);
    var f := Exec(cfg, acts);
    var c := f.calls[j];
    assert CallOk(cfg, f.turns, c);
    IncreasingPrefix(f.turns, c.turnCount);
    hide TurnsOk, Exec;
    HistoryFacts(cfg, f.turns[..c.turnCount], c.entry, c.wrapup);
  }

  /** The calls made from a step on saw what it stored. */
  lemma SawStored(cfg: Config, acts: seq<Action>, a: Action, more: seq<Action>, j: nat)
    requires |Exec(cfg, acts).calls| <= j < |Exec(cfg, acts + [a] + more).calls|
    requires |Exec(cfg, acts + [a]).turns| > |Exec(cfg, acts).turns|
    ensures Exec(cfg, acts + [a] + more).calls[j].turnCount > |Exec(cfg, acts).turns|
    ensures Exec(cfg, acts + [a]).turns <= Exec(cfg, acts + [a] + more).turns
  {
    var done := acts + [a];
    assert done[..|acts|] == acts;
    assert Exec(cfg, done) == Next(cfg, Exec(cfg, acts), a);
    hide *;
    NewCall(cfg, Exec(cfg, acts), a);
    RunGrows(cfg, done, more);
    if j >= |Exec(cfg, done).calls| {
      LaterCalls(cfg, done, more, j);
    } else {
      CallsStay(cfg, done, more);
    }
  }

  lemma {:induction false} CallsStay(cfg: Config, acts: seq<Action>, more: seq<Action>)
    ensures Exec(cfg, acts).calls <= Exec(cfg, acts + more).calls
    decreases |more|
  {
    hide Next;
    if more == [] {
      assert acts + more == acts;
    } else {
      var init, all := more[..|more| - 1], acts + more;
      assert all[..|all| - 1] == acts + init && all[|all| - 1] == more[|more| - 1];
      CallsStay(cfg, acts, init);
      TurnsOnlyGrow(cfg, Exec(cfg, acts + init), more[|more| - 1]);
    }
  }

  lemma RecordStores(cfg: Config, acts: seq<Action>)
    requires TurnsOk(cfg.found) && Enabled(Exec(cfg, acts), Record)
    ensures var s := Exec(cfg, acts); var k := s.phase.next;
            && k < |s.phase.uses| == |s.phase.outcomes|
            && WellFormedDict(s.phase.uses[k]) && WellFormed(s.phase.outcomes[k].content)
            && Exec(cfg, acts + [Record]).turns == Stored(cfg, s, s.phase.uses[k], s.phase.outcomes[k]).turns
  {
    TurnInvAlways(cfg, acts);
    assert (acts + [Record])[..|acts|] == acts;
    assert Exec(cfg, acts + [Record]) == Next(cfg, Exec(cfg, acts), Record);
    hide Exec;
    RecordingParts(cfg, Exec(cfg, acts));
  }

  lemma RecordingParts(cfg: Config, s: State)
    requires TurnInv(cfg, s) && Enabled(s, Record)
    ensures var k := s.phase.next;
            && k < |s.phase.uses| == |s.phase.outcomes|
            && WellFormedDict(s.phase.uses[k]) && WellFormed(s.phase.outcomes[k].content)
            && Next(cfg, s, Record).turns == Stored(cfg, s, s.phase.uses[k], s.phase.outcomes[k]).turns
  {
    assert s.phase.uses[s.phase.next] in s.phase.uses;
    hide Stored, Shown, Conclude, WellFormed;
    RecordTurnsAre(cfg, s);
  }

  lemma RecordTurnsAre(cfg: Config, s: State)
    requires Enabled(s, Record)
    ensures RecordStep(cfg, s).turns == Stored(cfg, s, s.phase.uses[s.phase.next], s.phase.outcomes[s.phase.next]).turns
  {
    hide Stored, Shown, Sent;
  }

  /**
   What a call answered, in every later call of every run: its block stands in a user message with its id and its flag,
   and reads as the answer itself, word for word, unless curation is on, a newer message has been asked since, and the
   answer is a success of a tool with a stub; then it reads as that stub. A failure so always stands verbatim.
   */
  lemma AnswerInLaterCalls(cfg: Config, acts: seq<Action>, more: seq<Action>, j: nat, use: Block, o: Outcome,
                           tool: string)
    returns (b: Block)
    requires Resumed(cfg) && Enabled(Exec(cfg, acts), Record)
    requires var p := Exec(cfg, acts).phase; use == p.uses[p.next] && o == p.outcomes[p.next]
    requires Get(use, "name") == Str(tool)
    requires |Exec(cfg, acts).calls| <= j < |Exec(cfg, acts + [Record] + more).calls|
    ensures var f, i := Exec(cfg, acts + [Record] + more), |Exec(cfg, acts).turns|;
            var c := f.calls[j];
            && i < c.turnCount <= |f.turns|
            && Holds(Erase(c.history), User, b)
            && ShowsAnswer(b, use, o, ContentShown(cfg, tool, o, NewerText(f.turns, i, c.turnCount)))
  {
    hide *;
    OnlyTurns(cfg);
    RecordStores(cfg, acts);
    AnswerStored(cfg, Exec(cfg, acts), use, o);
    SawStored(cfg, acts, Record, more, j);
    SentHistory(cfg, acts + [Record] + more, j);
    CanonicalStr(tool);
    b := StoredShown(cfg, Exec(cfg, acts + [Record] + more).turns, Exec(cfg, acts + [Record] + more).calls[j].turnCount,
                     |Exec(cfg, acts).turns|, use, o, tool);
  }

  lemma OnlyTurns(cfg: Config)
    requires Resumed(cfg)
    ensures TurnsOk(cfg.found)
  {
  }

  lemma CanonicalStr(s: string)
    ensures Canonical(Str(s)) == Str(s)
  {
  }
}
