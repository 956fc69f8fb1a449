/** What every stored turn satisfies, whatever the run. */
module TurnInvariants {
  import opened Json
  import opened Transcript
  import opened Curation
  import opened Breakpoints
  import opened Conversation

  /** A block in stored form: canonical, and without a cache marker. */
  predicate BlockOk(b: Block) {
    WellFormedDict(b) && CanonicalDict(b) == b && !HasMarker(b)
  }

  predicate RawBlockOk(b: Block) {
    WellFormedDict(b) && !HasMarker(b)
  }

  /** The shape of a turn's content by kind. */
  predicate KindOk(role: Role, kind: Kind, content: seq<Block>) {
    && (role == Assistant <==> kind == AssistantText || kind == AssistantToolUse)
    && (kind == UserText || kind == FlowEvent ==> |content| == 1 && !IsResult(content[0]))
    && (kind == ToolResult ==> |content| == 1 && IsResult(content[0]) && "content" in Keys(content[0]))
  }

  predicate TurnOk(t: Turn) {
    KindOk(t.role, t.kind, t.content) && forall b | b in t.content :: BlockOk(b)
  }

  predicate TurnsOk(turns: seq<Turn>) {
    StrictlyIncreasing(turns) && forall i | 0 <= i < |turns| :: TurnOk(turns[i])
  }

  lemma CanonicalBlockOk(b: Block)
    requires RawBlockOk(b)
    ensures BlockOk(CanonicalDict(b)) && Keys(CanonicalDict(b)) == Keys(b)
    ensures forall k :: Get(CanonicalDict(b), k) == Canonical(Get(b, k))
    ensures IsResult(CanonicalDict(b)) == IsResult(b) && IsUse(CanonicalDict(b)) == IsUse(b)
  {
    CanonicalLookups(b);
    CanonicalFixed(b);
    CanonicalTypes(b);
  }

  lemma CanonicalLookups(b: Block)
    requires WellFormedDict(b)
    ensures Keys(CanonicalDict(b)) == Keys(b) && forall k :: Get(CanonicalDict(b), k) == Canonical(Get(b, k))
  {
    CanonicalDictFacts(b);
  }

  lemma CanonicalTypes(b: Block)
    requires WellFormedDict(b)
    ensures IsResult(CanonicalDict(b)) == IsResult(b) && IsUse(CanonicalDict(b)) == IsUse(b)
  {
    CanonicalLookups(b);
    TypesStay(b, CanonicalDict(b));
  }

  lemma CanonicalFixed(b: Block)
    requires WellFormedDict(b)
    ensures WellFormedDict(CanonicalDict(b)) && CanonicalDict(CanonicalDict(b)) == CanonicalDict(b)
  {
    CanonicalKeepsData(Obj(b));
    CanonicalIdempotent(Obj(b));
    assert Canonical(Obj(b)) == Obj(CanonicalDict(b));
    assert Canonical(Obj(CanonicalDict(b))) == Obj(CanonicalDict(CanonicalDict(b)));
  }

  lemma TypesStay(b: Block, c: Block)
    requires Get(c, "type") == Canonical(Get(b, "type"))
    ensures IsResult(c) == IsResult(b) && IsUse(c) == IsUse(b)
  {
    StringsStay(Get(b, "type"), "tool_result");
    StringsStay(Get(b, "type"), "tool_use");
  }

  lemma StringsStay(j: Json, s: string)
    ensures Canonical(j) == Str(s) <==> j == Str(s)
  {
  }

  lemma CanonicalTurnOk(no: nat, role: Role, kind: Kind, content: seq<Block>, meta: Dict)
    requires KindOk(role, kind, content) && forall b | b in content :: RawBlockOk(b)
    ensures TurnOk(Turn(no, role, kind, CanonicalBlocks(content), meta))
  {
    var c := CanonicalBlocks(content);
    forall i | 0 <= i < |content|
      ensures BlockOk(c[i]) && IsResult(c[i]) == IsResult(content[i]) && Keys(c[i]) == Keys(content[i])
    {
      assert content[i] in content;
      CanonicalBlockOk(content[i]);
    }
    assert forall b | b in c :: BlockOk(b);
  }

  lemma AppendedOk(turns: seq<Turn>, role: Role, kind: Kind, content: seq<Block>, meta: Dict)
    requires TurnsOk(turns) && KindOk(role, kind, content) && forall b | b in content :: RawBlockOk(b)
    ensures TurnsOk(Appended(turns, role, kind, content, meta))
  {
    var r := Appended(turns, role, kind, content, meta);
    IncreasingAppend(turns, r[|turns|]);
    forall i | 0 <= i < |r| ensures TurnOk(r[i]) {
      if i == |turns| {
        CanonicalTurnOk(r[i].no, role, kind, content, r[i].meta);
      }
    }
  }

  lemma TextBlockOk(text: string)
    ensures RawBlockOk(TextBlock(text)) && !IsResult(TextBlock(text))
  {
    var b := TextBlock(text);
    assert Get(b, "type") == Str("text");
    assert "type"[1] != "text"[1];
    assert b[0].0 == "type" && b[1].0 == "text";
    assert b[0].1 == b[0].1 && WellFormed(b[0].1) && WellFormed(b[1].1);
  }

  lemma ResultBlockOk(id: Json, content: Json, isError: bool)
    requires WellFormed(id) && WellFormed(content)
    ensures RawBlockOk(ResultBlock(id, content, isError)) && IsResult(ResultBlock(id, content, isError))
    ensures "content" in Keys(ResultBlock(id, content, isError))
    ensures Get(ResultBlock(id, content, isError), "tool_use_id") == id
  {
    var b := ResultBlock(id, content, isError);
    assert b[2].0 == "content";
    assert Get(b, "type") == Str("tool_result");
    assert b[1..][0] == ("tool_use_id", id);
  }

  lemma {:induction false} KeptFrom(content: seq<Block>)
    ensures forall b | b in Kept(content) :: b in content
  {
    if content != [] {
      KeptFrom(content[1..]);
    }
  }

  lemma {:induction false} UsesFrom(content: seq<Block>)
    ensures forall b | b in Uses(content) :: b in content && IsUse(b)
  {
    if content != [] {
      UsesFrom(content[1..]);
    }
  }

  lemma {:induction false} GetWellFormed(d: Dict, key: string)
    requires WellFormedDict(d)
    ensures WellFormed(Get(d, key))
  {
    if d != [] && d[0].0 != key {
      assert forall i | 0 <= i < |d[1..]| :: d[1..][i] == d[i + 1];
      GetWellFormed(d[1..], key);
    }
  }

  /** The parts of well-formed turns are homogeneous, carry no marker, and their stubs keep their shape. */
  lemma PartsOk(turns: seq<Turn>)
    requires TurnsOk(turns)
    ensures Homogeneous(StoredParts(turns))
    ensures forall t | t in turns :: HasContent(t)
  {
    var parts := StoredParts(turns);
    forall i | 0 <= i < |parts| && parts[i].role == User
      ensures Results(parts[i].content) == [] || Others(parts[i].content) == []
    {
      assert TurnOk(turns[i]);
      var c := parts[i].content;
      assert |c| == 1 && c[1..] == [];
      assert Results(c[1..]) == [] && Others(c[1..]) == [];
    }
  }

  lemma OneBlock(t: Turn)
    requires TurnOk(t) && t.role == User
    ensures (t.kind == ToolResult) <==> Results(t.content) != []
    ensures t.kind == ToolResult ==> Results(t.content) == t.content && Others(t.content) == []
    ensures t.kind != ToolResult ==> Results(t.content) == [] && Others(t.content) == t.content
  {
    assert t.content == [t.content[0]] && t.content[1..] == [];
    assert Results(t.content[1..]) == [] && Others(t.content[1..]) == [];
  }
}
