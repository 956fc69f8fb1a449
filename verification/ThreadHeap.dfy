/**
 The live `Thread` object (backend/app/agent/store.py) with its block dicts as heap objects.
 `messages()` shares the stored dicts with the array it builds, so marking a block must copy
 it and curation must hand out copies; the contracts say which objects are shared and that
 the stored ones never change.
 */
module ThreadHeap {
  import opened Json
  import opened Transcript
  import opened Curation
  import opened Breakpoints

  /** One content-block dict. */
  class BlockObject {
    var fields: Block

    constructor (fields: Block)
      ensures this.fields == fields
    {
      this.fields := fields;
    }
  }

  datatype TurnRecord = TurnRecord(no: nat, role: Role, kind: Kind, content: seq<BlockObject>, meta: Dict)

  datatype WireMessage = WireMessage(role: Role, content: seq<BlockObject>)

  function Fields(bs: seq<BlockObject>): (r: seq<Block>)
    reads bs
    ensures |r| == |bs|
  {
    seq(|bs|, i requires 0 <= i < |bs| reads bs => bs[i].fields)
  }

  lemma FieldsCons(b: BlockObject, rest: seq<BlockObject>)
    ensures Fields([b] + rest) == [b.fields] + Fields(rest)
  {
  }

  function Objects(ms: seq<WireMessage>): set<BlockObject> {
    set i, j | 0 <= i < |ms| && 0 <= j < |ms[i].content| :: ms[i].content[j]
  }

  /** The values an array of messages carries. */
  function Wire(ms: seq<WireMessage>): (r: seq<Message>)
    reads Objects(ms)
    ensures |r| == |ms|
  {
    seq(|ms|, i requires 0 <= i < |ms| reads Objects(ms) =>
      assert forall b | b in ms[i].content :: b in Objects(ms);
      Message(ms[i].role, Fields(ms[i].content)))
  }

  /** `[b for b in merged if b.get("type") == "tool_result"]`, and with `!=`. */
  function Select(bs: seq<BlockObject>, results: bool): (r: seq<BlockObject>)
    reads bs
    ensures forall b | b in r :: b in bs
    ensures Fields(r) == if results then Results(Fields(bs)) else Others(Fields(bs))
  {
    if bs == [] then []
    else
      assert Fields(bs)[1..] == Fields(bs[1..]);
      var rest := Select(bs[1..], results);
      if IsResult(bs[0].fields) == results then
        FieldsCons(bs[0], rest);
        [bs[0]] + rest
      else rest
  }

  function TurnObjects(ts: seq<TurnRecord>): set<BlockObject> {
    set i, j | 0 <= i < |ts| && 0 <= j < |ts[i].content| :: ts[i].content[j]
  }

  function TurnValue(t: TurnRecord): Turn
    reads t.content
  {
    Turn(t.no, t.role, t.kind, Fields(t.content), t.meta)
  }

  /** The stored conversation as a value. */
  function TurnValues(ts: seq<TurnRecord>): (r: seq<Turn>)
    reads TurnObjects(ts)
    ensures |r| == |ts|
  {
    seq(|ts|, i requires 0 <= i < |ts| reads TurnObjects(ts) =>
      assert forall b | b in ts[i].content :: b in TurnObjects(ts);
      TurnValue(ts[i]))
  }

  lemma TurnsAppend(ts: seq<TurnRecord>, t: TurnRecord)
    ensures TurnValues(ts + [t]) == TurnValues(ts) + [TurnValue(t)]
    ensures TurnObjects(ts + [t]) == TurnObjects(ts) + set b | b in t.content
  {
    var all := ts + [t];
    forall b ensures b in TurnObjects(all) <==> b in TurnObjects(ts) + set b | b in t.content {
      if b in TurnObjects(ts) {
        var i, j :| 0 <= i < |ts| && 0 <= j < |ts[i].content| && ts[i].content[j] == b;
        assert all[i].content[j] == b;
      }
      if b in t.content {
        var j :| 0 <= j < |t.content| && t.content[j] == b;
        assert all[|ts|].content[j] == b;
      }
    }
  }

  /** `blocks` is the stub of the turn numbered `n`. */
  ghost predicate MemoHolds(reg: Registry, log: seq<Turn>, n: nat, blocks: seq<Block>) {
    exists i :: 0 <= i < |log| && log[i].no == n && StubBlocks(reg, log[i]) == Some(blocks)
  }

  /** Every memo of the cache is the stub of its turn. */
  ghost predicate CacheHolds(reg: Registry, log: seq<Turn>, memos: map<nat, seq<Block>>) {
    forall n | n in memos :: MemoHolds(reg, log, n, memos[n])
  }

  lemma MemoOf(reg: Registry, log: seq<Turn>, i: nat, memos: map<nat, seq<Block>>)
    requires StrictlyIncreasing(log) && i < |log| && log[i].no in memos && CacheHolds(reg, log, memos)
    ensures StubBlocks(reg, log[i]) == Some(memos[log[i].no])
  {
    var k :| 0 <= k < |log| && log[k].no == log[i].no && StubBlocks(reg, log[k]) == Some(memos[log[i].no]);
    assert k == i;
  }

  lemma CacheKept(reg: Registry, log: seq<Turn>, next: Turn, memos: map<nat, seq<Block>>)
    requires CacheHolds(reg, log, memos)
    ensures CacheHolds(reg, log + [next], memos)
  {
    forall n | n in memos ensures MemoHolds(reg, log + [next], n, memos[n]) {
      var i :| 0 <= i < |log| && log[i].no == n && StubBlocks(reg, log[i]) == Some(memos[n]);
      assert (log + [next])[i] == log[i];
    }
  }

  /** The dicts in a cache of memos. */
  function MemoObjects(memos: map<nat, seq<BlockObject>>): set<BlockObject> {
    set n, j | n in memos && 0 <= j < |memos[n]| :: memos[n][j]
  }

  /** A cache of memos as values. */
  ghost function MemoValues(memos: map<nat, seq<BlockObject>>): map<nat, seq<Block>>
    reads MemoObjects(memos)
  {
    map n | n in memos ::
      assert forall b | b in memos[n] :: b in MemoObjects(memos);
      Fields(memos[n])
  }

  lemma MemoAdded(memos: map<nat, seq<BlockObject>>, n: nat, blocks: seq<BlockObject>)
    requires n !in memos
    ensures MemoObjects(memos[n := blocks]) == MemoObjects(memos) + set b | b in blocks
    ensures MemoValues(memos[n := blocks]) == MemoValues(memos)[n := Fields(blocks)]
  {
    var more := memos[n := blocks];
    forall b ensures b in MemoObjects(more) <==> b in MemoObjects(memos) + set b | b in blocks {
      if b in MemoObjects(memos) {
        var k, j :| k in memos && 0 <= j < |memos[k]| && memos[k][j] == b;
        assert more[k][j] == b;
      }
      if b in blocks {
        var j :| 0 <= j < |blocks| && blocks[j] == b;
        assert more[n][j] == b;
      }
    }
  }

  /** One more turn merged. */
  lemma MergeNext(reg: Registry, mark: Option<nat>, log: seq<Turn>, i: nat)
    requires i < |log|
    ensures var parts := Parts(reg, mark, log);
            Merge(parts[..i + 1]) == Extend(Merge(parts[..i]), Part(reg, mark, log[i]))
  {
    var parts := Parts(reg, mark, log);
    assert parts[..i + 1] == parts[..i] + [parts[i]];
    MergeSnoc(parts[..i], parts[i]);
  }

  /** Fresh dicts holding the given fields. */
  method Allocate(blocks: seq<Block>) returns (bs: seq<BlockObject>)
    ensures Fields(bs) == blocks
    ensures forall b | b in bs :: fresh(b)
  {
    bs := [];
    for i := 0 to |blocks|
      invariant |bs| == i && forall j | 0 <= j < i :: fresh(bs[j]) && bs[j].fields == blocks[j]
    {
      var b := new BlockObject(blocks[i]);
      bs := bs + [b];
    }
  }

  /** `[dict(block) for block in blocks]` */
  method Copies(blocks: seq<BlockObject>) returns (bs: seq<BlockObject>)
    ensures Fields(bs) == Fields(blocks)
    ensures forall b | b in bs :: fresh(b)
  {
    bs := [];
    for i := 0 to |blocks|
      invariant |bs| == i && forall j | 0 <= j < i :: fresh(bs[j]) && bs[j].fields == blocks[j].fields
    {
      var b := new BlockObject(blocks[i].fields);
      bs := bs + [b];
    }
  }

  class Thread {
    const reg: Registry
    var turns: seq<TurnRecord>
    /** Stubs already made, by turn seq; copies of them are handed out. */
    var curated: map<nat, seq<BlockObject>>

    constructor (reg: Registry)
      ensures Valid() && this.reg == reg && turns == []
    {
      this.reg := reg;
      turns := [];
      curated := map[];
    }

    /** The dicts that belong to the store. */
    ghost function Stored(): set<BlockObject>
      reads this`turns
    {
      TurnObjects(turns)
    }

    ghost function Log(): (r: seq<Turn>)
      reads this`turns, Stored()
      ensures |r| == |turns|
    {
      TurnValues(turns)
    }

    /** The dicts that belong to the cache. */
    ghost function Memos(): set<BlockObject>
      reads this`curated
    {
      MemoObjects(curated)
    }

    /** Seqs increase, the cache keeps correct stubs, and no dict is in both the store and the cache. */
    ghost predicate Valid()
      reads this, Stored(), Memos()
    {
      && StrictlyIncreasing(Log()) && CacheHolds(reg, Log(), MemoValues(curated))
      && Stored() !! Memos()
    }

    function NextSeq(): nat
      reads this`turns
    {
      if turns == [] then 1 else turns[|turns| - 1].no + 1
    }

    /** `append_turn`, without the enqueued write: the content is canonicalised into fresh dicts. */
    method AppendTurn(role: Role, kind: Kind, content: seq<Block>, meta: Dict) returns (turn: TurnRecord)
      requires Valid()
      modifies this`turns
      ensures Valid()
      ensures Log() == old(Log())
              + [Turn(NextNo(old(Log())), role, kind, CanonicalBlocks(content), CanonicalDict(meta))]
      ensures turns == old(turns) + [turn]
      ensures forall b | b in turn.content :: fresh(b)
    {
      ghost var log, memos, store, cache := Log(), MemoValues(curated), Stored(), Memos();
      assert NextSeq() == NextNo(log);
      hide StrictlyIncreasing, CacheHolds, MemoValues, TurnValues, TurnObjects, MemoObjects;
      var blocks := Allocate(CanonicalBlocks(content));
      turn := TurnRecord(NextSeq(), role, kind, blocks, CanonicalDict(meta));
      assert Log() == log && MemoValues(curated) == memos && Stored() == store && Memos() == cache;
      assert forall b | b in turn.content :: b !in cache;
      Push(turn);
    }

    /** `self.turns.append(turn)` */
    method Push(turn: TurnRecord)
      requires Valid() && turn.no == NextNo(Log()) && forall b | b in turn.content :: b !in Memos()
      modifies this`turns
      ensures Valid() && Log() == old(Log()) + [TurnValue(turn)] && turns == old(turns) + [turn]
    {
      ghost var log, memos := Log(), MemoValues(curated);
      hide StrictlyIncreasing, CacheHolds, MemoValues, TurnValues, TurnObjects, MemoObjects;
      TurnsAppend(turns, turn);
      IncreasingAppend(log, TurnValue(turn));
      CacheKept(reg, log, TurnValue(turn), memos);
      turns := turns + [turn];
    }

    /** `cache[turn.seq] = blocks` */
    method Remember(i: nat, stub: seq<Block>)
      requires Valid() && i < |turns| && turns[i].no !in curated && StubBlocks(reg, Log()[i]) == Some(stub)
      modifies this`curated
      ensures Valid() && Log() == old(Log()) && turns[i].no in curated
      ensures forall n | n in old(curated) :: n in curated && curated[n] == old(curated)[n]
      ensures forall b | b in Memos() :: b in old(Memos()) || fresh(b)
    {
      ghost var log, memos, store := Log(), MemoValues(curated), Stored();
      assert log[i] == TurnValue(turns[i]) && MemoHolds(reg, log, turns[i].no, stub);
      hide StrictlyIncreasing, MemoValues, TurnValues, TurnObjects, MemoObjects, MemoHolds, StubBlocks;
      var made := Allocate(stub);
      assert Log() == log && MemoValues(curated) == memos && Stored() == store;
      assert forall b | b in made :: b !in store;
      MemoAdded(curated, turns[i].no, made);
      curated := curated[turns[i].no := made];
    }

    /** Copies of the memo of a turn. */
    method HandOut(i: nat) returns (copies: seq<BlockObject>)
      requires Valid() && i < |turns| && turns[i].no in curated
      ensures Valid() && Log() == old(Log()) && Memos() == old(Memos())
      ensures Some(Fields(copies)) == StubBlocks(reg, Log()[i])
      ensures forall b | b in copies :: fresh(b) && b !in Memos() && b !in Stored()
    {
      ghost var log, memos, store, cache := Log(), MemoValues(curated), Stored(), Memos();
      assert log[i] == TurnValue(turns[i]);
      MemoOf(reg, log, i, memos);
      assert memos[turns[i].no] == Fields(curated[turns[i].no]);
      hide StubBlocks, CacheHolds, StrictlyIncreasing, MemoValues, MemoObjects, TurnValues, TurnObjects;
      copies := Copies(curated[turns[i].no]);
      assert Log() == log && MemoValues(curated) == memos && Stored() == store && Memos() == cache;
      assert forall b | b in copies :: b !in cache && b !in store;
    }

    /**
     The `transform` closure of `curate(thread)`, for one of the thread's turns. What it hands out is neither in the
     cache nor in the store, so writing to it reaches neither; what was in the cache stays there.
     */
    method Transform(mark: nat, i: nat) returns (blocks: Option<seq<BlockObject>>)
      requires Valid() && i < |turns|
      modifies this`curated
      ensures Valid() && Log() == old(Log())
      ensures blocks.Some? <==> turns[i].no < mark && StubBlocks(reg, Log()[i]).Some?
      ensures blocks.Some? ==> Some(Fields(blocks.value)) == StubBlocks(reg, Log()[i])
      ensures blocks.Some? ==> forall b | b in blocks.value :: fresh(b) && b !in Memos() && b !in Stored()
      ensures forall n | n in old(curated) :: n in curated && curated[n] == old(curated)[n]
      ensures forall b | b in Memos() :: b in old(Memos()) || fresh(b)
    {
      var turn := turns[i];
      assert Log()[i] == TurnValue(turn);
      hide StubBlocks, CacheHolds, StrictlyIncreasing, MemoValues, TurnValues;
      if turn.no >= mark {
        return None;
      }
      if turn.no !in curated {
        var stub := StubBlocks(reg, TurnValue(turn));
        if stub.None? {
          return None;
        }
        Remember(i, stub.value);
      }
      var copies := HandOut(i);
      blocks := Some(copies);
    }

    /** `watermark`: walks back to the newest user text. */
    method FindWatermark() returns (mark: nat)
      ensures mark == Watermark(Log())
    {
      var i := |turns|;
      assert Log()[..i] == Log();
      while i > 0
        invariant i <= |turns| == |Log()|
        invariant NewestUserText(Log()) == NewestUserText(Log()[..i])
      {
        i := i - 1;
        assert Log()[..i + 1][..i] == Log()[..i];
        if turns[i].kind == UserText {
          return turns[i].no;
        }
      }
      mark := 0;
    }

    /** `transform(turn) or turn.content`. */
    method Content(mark: Option<nat>, i: nat) returns (content: seq<BlockObject>)
      requires Valid() && i < |turns|
      modifies this`curated
      ensures Valid() && Log() == old(Log())
      ensures Message(turns[i].role, Fields(content)) == Part(reg, mark, Log()[i])
      ensures content == turns[i].content || (mark.Some? && forall b | b in content :: fresh(b))
    {
      ghost var log := Log();
      assert log[i] == TurnValue(turns[i]);
      content := turns[i].content;
      if mark.Some? {
        var replaced := Transform(mark.value, i);
        if replaced.Some? {
          content := replaced.value;
        }
      }
      assert Log() == log;
    }

    /** One round of the loop in `Thread.messages`. */
    method MergeTurn(ms: seq<WireMessage>, mark: Option<nat>, i: nat) returns (more: seq<WireMessage>)
      requires Valid() && i < |turns|
      modifies this`curated
      ensures Valid() && Log() == old(Log())
      ensures Wire(more) == Extend(old(Wire(ms)), Part(reg, mark, Log()[i]))
      ensures forall b | b in Objects(more) :: b in Objects(ms) || b in Stored() || (mark.Some? && fresh(b))
    {
      hide TurnValues, StrictlyIncreasing, CacheHolds, MemoValues, Extend, Part;
      ghost var log, before := Log(), Wire(ms);
      var content := Content(mark, i);
      assert Log() == log && Wire(ms) == before;
      StoredContent(turns, i);
      more := ExtendWire(ms, turns[i].role, content);
    }

    /** The loop in `Thread.messages`. */
    method MergeTurns(mark: Option<nat>) returns (ms: seq<WireMessage>)
      requires Valid()
      modifies this`curated
      ensures Valid() && Log() == old(Log())
      ensures Wire(ms) == Merge(Parts(reg, mark, Log()))
      ensures forall b | b in Objects(ms) :: b in Stored() || (mark.Some? && fresh(b))
    {
      ghost var parts := Parts(reg, mark, Log());
      ms := [];
      assert Wire(ms) == Merge(parts[..0]) && Objects(ms) == {};
      hide Parts, Extend, StrictlyIncreasing, CacheHolds, MemoValues, TurnValues, TurnObjects, MemoObjects, Merge, Part,
        Wire, Objects;
      for i := 0 to |turns|
        invariant Valid() && Log() == old(Log())
        invariant Wire(ms) == Merge(parts[..i])
        invariant forall b | b in Objects(ms) :: b in Stored() || (mark.Some? && fresh(b))
      {
        ms := MergeTurn(ms, mark, i);
        MergeNext(reg, mark, Log(), i);
      }
      assert parts[..|turns|] == parts;
    }

    /**
     `Thread.messages`, with the curating transform when `curating` is set. Kept dicts are the stored
     ones, replaced ones are fresh, and no dict is written.
     */
    method Messages(curating: bool) returns (ms: seq<WireMessage>)
      requires Valid()
      modifies this`curated
      ensures Valid() && Log() == old(Log())
      ensures Wire(ms) == if curating then Curated(reg, Log()) else Lossless(Log())
      ensures forall b | b in Objects(ms) :: b in Stored() || (curating && fresh(b))
    {
      ghost var log := Log();
      var mark := None;
      if curating {
        var w := FindWatermark();
        mark := Some(w);
      }
      assert Log() == log;
      ms := MergeTurns(mark);
    }
  }

  lemma StoredContent(ts: seq<TurnRecord>, i: nat)
    requires i < |ts|
    ensures forall b | b in ts[i].content :: b in TurnObjects(ts)
  {
  }

  lemma FieldsConcat(a: seq<BlockObject>, b: seq<BlockObject>)
    ensures Fields(a + b) == Fields(a) + Fields(b)
  {
  }

  lemma LastObjects(ms: seq<WireMessage>)
    requires ms != []
    ensures forall b | b in ms[|ms| - 1].content :: b in Objects(ms)
  {
  }

  lemma MergedFields(ms: seq<WireMessage>, content: seq<BlockObject>)
    requires ms != []
    ensures var last := ms[|ms| - 1].content;
      && (forall b | b in last + content :: b in Objects(ms) || b in content)
      && Fields(last + content) == Fields(last) + Fields(content)
      && Fields(Select(last + content, true) + Select(last + content, false))
         == ResultsFirst(Fields(last) + Fields(content))
  {
    var last := ms[|ms| - 1].content;
    LastObjects(ms);
    FieldsConcat(last, content);
    FieldsConcat(Select(last + content, true), Select(last + content, false));
  }

  /** One iteration of the merge, on the objects. */
  function ExtendWire(ms: seq<WireMessage>, role: Role, content: seq<BlockObject>): (r: seq<WireMessage>)
    reads Objects(ms), content
    ensures Wire(r) == Extend(Wire(ms), Message(role, Fields(content)))
    ensures forall b | b in Objects(r) :: b in Objects(ms) || b in content
  {
    if role == User && ms != [] && ms[|ms| - 1].role == User then
      var merged := ms[|ms| - 1].content + content;
      MergedFields(ms, content);
      ms[|ms| - 1 := WireMessage(User, Select(merged, true) + Select(merged, false))]
    else
      ms + [WireMessage(role, content)]
  }

  /** `_marked`: a copy of the message whose last dict is a marked copy, or None when unmarkable. */
  method MarkedCopy(m: WireMessage) returns (r: Option<WireMessage>)
    ensures r.Some? <==> Markable(Message(m.role, Fields(m.content)))
    ensures r.Some? ==>
              && Message(r.value.role, Fields(r.value.content)) == Marked(Message(m.role, Fields(m.content)))
              && |r.value.content| == |m.content| && fresh(r.value.content[|m.content| - 1])
              && r.value.content[..|m.content| - 1] == m.content[..|m.content| - 1]
  {
    if m.content == [] || "cache_control" in Keys(m.content[|m.content| - 1].fields) {
      return None;
    }
    var last := |m.content| - 1;
    var copy := new BlockObject(m.content[last].fields + [MARKER]);
    r := Some(WireMessage(m.role, m.content[last := copy]));
    assert Fields(r.value.content) == Fields(m.content)[last := copy.fields];
  }

  /** Puts the marked copy of message `i` into its slot, when it can be marked. */
  method MarkAt(ms: seq<WireMessage>, i: nat) returns (r: seq<WireMessage>, done: bool)
    requires i < |ms|
    ensures Wire(r) == MarkIf(old(Wire(ms)), i)
    ensures done == Markable(old(Wire(ms))[i])
    ensures forall b | b in Objects(r) :: b in Objects(ms) || fresh(b)
  {
    assert Wire(ms)[i] == Message(ms[i].role, Fields(ms[i].content));
    var m := MarkedCopy(ms[i]);
    r, done := ms, m.Some?;
    if done {
      r := ms[i := m.value];
      assert Wire(r) == Wire(ms)[i := Message(m.value.role, Fields(m.value.content))];
      forall b | b in Objects(r) ensures b in Objects(ms) || fresh(b) {
        var k, j :| 0 <= k < |r| && 0 <= j < |r[k].content| && r[k].content[j] == b;
        var last := |ms[i].content| - 1;
        if k != i {
          assert ms[k].content[j] == b;
        } else if j < last {
          assert m.value.content[..last][j] == ms[i].content[..last][j];
        }
      }
    }
  }

  /**
   `with_history_breakpoint`: the array with its markers, in copies. Nothing is written, and every
   dict of the result is the caller's own or a new copy.
   */
  method WithHistoryBreakpoint(messages: seq<WireMessage>, lastEntry: Option<int>) returns (marked: seq<WireMessage>)
    ensures Wire(marked) == WithBreakpoint(old(Wire(messages)), lastEntry)
    ensures forall b | b in Objects(marked) :: b in Objects(messages) || fresh(b)
  {
    if messages == [] {
      return messages;
    }
    ghost var wire := Wire(messages);
    var done;
    marked, done := MarkAt(messages, |messages| - 1);
    if done {
      CandidateCounts(wire, Wire(marked), lastEntry);
      var anchor := SecondAnchor(marked, lastEntry);
      if anchor.Some? {
        marked, done := MarkAt(marked, anchor.value);
      }
    }
  }

  /** Where the deep-gap marker would go. */
  method SecondAnchor(messages: seq<WireMessage>, lastEntry: Option<int>) returns (anchor: Option<nat>)
    requires messages != []
    ensures Wire(messages) == old(Wire(messages))
    ensures anchor == Candidate(Wire(messages), lastEntry)
  {
    var tip := |messages| - 1;
    if lastEntry.None? || !(0 <= lastEntry.value < tip) {
      return None;
    }
    var gap := BlocksBetween(messages, lastEntry.value, tip);
    if gap <= REACH {
      return None;
    }
    anchor := FindAnchor(messages, lastEntry.value);
  }

  /** `sum(_block_count(...))` over the messages after the entry, up to and including the tip. */
  method BlocksBetween(ms: seq<WireMessage>, entry: nat, tip: nat) returns (gap: nat)
    requires entry <= tip < |ms|
    ensures Wire(ms) == old(Wire(ms))
    ensures gap == Distance(Wire(ms), entry, tip)
  {
    gap := 0;
    for i := entry + 1 to tip + 1
      invariant gap == Span(Wire(ms), entry + 1, i)
    {
      gap := gap + |ms[i].content|;
    }
  }

  /** The loop that walks up from the entry and keeps the last message still within reach of it. */
  method FindAnchor(ms: seq<WireMessage>, entry: nat) returns (anchor: Option<nat>)
    requires entry < |ms| - 1
    ensures Wire(ms) == old(Wire(ms))
    ensures anchor == Deepest(Wire(ms), entry, |ms| - 2)
  {
    ghost var wire := Wire(ms);
    anchor := None;
    var running := 0;
    for i := entry + 1 to |ms| - 1
      invariant running == Span(wire, entry + 1, i) <= REACH
      invariant anchor == if i == entry + 1 then None else Some(i - 1)
    {
      running := running + |ms[i].content|;
      if running > REACH {
        if i == entry + 1 {
          NothingWithinReach(wire, entry, |ms| - 2);
        } else {
          WalkFindsDeepest(wire, entry, |ms| - 2, i - 1);
        }
        return;
      }
      anchor := Some(i);
    }
    if anchor.Some? {
      WalkFindsDeepest(wire, entry, |ms| - 2, |ms| - 2);
    }
  }
}
