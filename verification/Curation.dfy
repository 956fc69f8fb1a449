/**
 Read-time curation (backend/app/agent/curation.py): spent tool results become stubs.
 The table of renderers is a parameter, so what is proved holds whatever they write.
 */
module Curation {
  import opened Json
  import opened Transcript

  /** `_RENDERERS`, `_ALLOWED_KEYS`, `_KEEP_VERBATIM` and `_generic`. */
  datatype Registry = Registry(
    renderers: map<string, Dict -> Option<string>>,
    allowed: map<string, set<string>>,
    keepVerbatim: set<string>,
    generic: string -> string)

  // --- the key whitelist ------------------------------------------------------------------------

  /** The fields whose key a renderer was granted, in order. */
  function Granted(fields: Dict, allowed: set<string>): (r: Dict)
    ensures forall i | 0 <= i < |r| :: r[i] in fields && r[i].0 in allowed
    ensures (forall i | 0 <= i < |fields| :: fields[i].0 in allowed) ==> r == fields
  {
    if fields == [] then []
    else if fields[0].0 in allowed then [fields[0]] + Granted(fields[1..], allowed)
    else Granted(fields[1..], allowed)
  }

  /** `_prune`: only whitelisted keys survive, at every depth; lists keep their length. */
  function Prune(value: Json, allowed: set<string>): Json {
    match value
    case Arr(items) => Arr(seq(|items|, i requires 0 <= i < |items| => Prune(items[i], allowed)))
    case Obj(fields) =>
      var kept := Granted(fields, allowed);
      Obj(seq(|kept|, i requires 0 <= i < |kept| => (kept[i].0, Prune(kept[i].1, allowed))))
    case _ => value
  }

  /** Two values that differ only under keys outside the whitelist, at any depth. */
  ghost predicate SameVisible(a: Json, b: Json, allowed: set<string>) {
    match (a, b)
    case (Arr(x), Arr(y)) => |x| == |y| && forall i | 0 <= i < |x| :: SameVisible(x[i], y[i], allowed)
    case (Obj(f), Obj(g)) =>
      var p, q := Granted(f, allowed), Granted(g, allowed);
      |p| == |q| && forall i | 0 <= i < |p| :: p[i].0 == q[i].0 && SameVisible(p[i].1, q[i].1, allowed)
    case _ => a == b
  }

  /** No key outside the whitelist, at any depth. */
  predicate OnlyAllowed(j: Json, allowed: set<string>) {
    match j
    case Arr(items) => forall i | 0 <= i < |items| :: OnlyAllowed(items[i], allowed)
    case Obj(fields) => forall i | 0 <= i < |fields| :: fields[i].0 in allowed && OnlyAllowed(fields[i].1, allowed)
    case _ => true
  }

  /** Pruning erases exactly the difference under foreign keys: no more and no less. */
  lemma {:induction false} PruneIffSameVisible(a: Json, b: Json, allowed: set<string>)
    ensures Prune(a, allowed) == Prune(b, allowed) <==> SameVisible(a, b, allowed)
    decreases a
  {
    var pa, pb := Prune(a, allowed), Prune(b, allowed);
    match (a, b) {
      case (Arr(x), Arr(y)) =>
        assert |pa.items| == |x| && |pb.items| == |y|;
        if |x| == |y| {
          forall i | 0 <= i < |x|
            ensures pa.items[i] == pb.items[i] <==> SameVisible(x[i], y[i], allowed)
          {
            PruneIffSameVisible(x[i], y[i], allowed);
          }
        }
      case (Obj(f), Obj(g)) =>
        var p, q := Granted(f, allowed), Granted(g, allowed);
        assert |pa.fields| == |p| && |pb.fields| == |q|;
        if |p| == |q| {
          forall i | 0 <= i < |p|
            ensures pa.fields[i] == pb.fields[i] <==> p[i].0 == q[i].0 && SameVisible(p[i].1, q[i].1, allowed)
          {
            assert p[i] in f;
            PruneIffSameVisible(p[i].1, q[i].1, allowed);
          }
        }
      case _ =>
    }
  }

  /** Nothing foreign is left, and what is left is kept by a second pass. */
  lemma {:induction false} PruneLeavesOnlyAllowed(j: Json, allowed: set<string>)
    ensures OnlyAllowed(Prune(j, allowed), allowed)
    ensures Prune(Prune(j, allowed), allowed) == Prune(j, allowed)
    ensures j.Arr? ==> Prune(j, allowed).Arr? && |Prune(j, allowed).items| == |j.items|
  {
    var r := Prune(j, allowed);
    match j {
      case Arr(items) =>
        forall i | 0 <= i < |items|
          ensures OnlyAllowed(r.items[i], allowed) && Prune(r.items[i], allowed) == r.items[i]
        {
          PruneLeavesOnlyAllowed(items[i], allowed);
        }
      case Obj(fields) =>
        var kept := Granted(fields, allowed);
        forall i | 0 <= i < |kept|
          ensures OnlyAllowed(r.fields[i].1, allowed) && Prune(r.fields[i].1, allowed) == r.fields[i].1
        {
          assert kept[i] in fields;
          PruneLeavesOnlyAllowed(kept[i].1, allowed);
        }
        assert Granted(r.fields, allowed) == r.fields;
      case _ =>
    }
  }

  // --- stubs --------------------------------------------------------------------------------------

  /** `_curatable`: the class rules, independent of the watermark. */
  predicate Curatable(reg: Registry, t: Turn) {
    && t.kind == ToolResult
    && Get(t.meta, "is_error") != Bool(true)
    && Get(t.meta, "tool_name").Str?
    && Get(t.meta, "tool_name").s !in reg.keepVerbatim
    && Get(t.meta, "tool_name").s in reg.renderers
  }

  /** `_render`: anything unexpected degrades to the generic text. */
  function Render(reg: Registry, tool: string, raw: Json): string
    requires tool in reg.renderers
  {
    var envelope := if raw.Dumped? then raw.doc else raw;
    if !envelope.Obj? || tool !in reg.allowed then reg.generic(tool)
    else
      match reg.renderers[tool](Prune(envelope, reg.allowed[tool]).fields)
      case Some(text) => if text == "" then reg.generic(tool) else text
      case None => reg.generic(tool)
  }

  /** `d[key] = value` on a dict: in place when the key is there, at the end when it is not. */
  function Assign(d: Dict, key: string, value: Json): (r: Dict)
    ensures forall k :: Get(r, k) == if k == key then value else Get(d, k)
  {
    if d == [] then [(key, value)]
    else if d[0].0 == key then [(key, value)] + d[1..]
    else [d[0]] + Assign(d[1..], key, value)
  }

  function StubBlock(reg: Registry, tool: string, b: Block): Block
    requires tool in reg.renderers
  {
    if IsResult(b) then Assign(b, "content", Str(Render(reg, tool, Get(b, "content")))) else b
  }

  /** `stub_blocks`: replacement blocks for one spent tool result turn, or None to keep it. */
  function StubBlocks(reg: Registry, t: Turn): (r: Option<seq<Block>>)
    ensures r.Some? ==> |r.value| == |t.content| > 0
  {
    if !Curatable(reg, t) || t.content == [] then None
    else
      var tool := Get(t.meta, "tool_name").s;
      Some(seq(|t.content|, i requires 0 <= i < |t.content| => StubBlock(reg, tool, t.content[i])))
  }

  /** The envelope a stub is made from: parsed when it was serialised. */
  function Envelope(raw: Json): Json {
    if raw.Dumped? then raw.doc else raw
  }

  /** The whitelist is all a stub can depend on: hidden data never reaches the model again. */
  lemma StubIgnoresHiddenData(reg: Registry, tool: string, raw: Json, other: Json)
    requires tool in reg.renderers && tool in reg.allowed
    requires SameVisible(Envelope(raw), Envelope(other), reg.allowed[tool])
    ensures Render(reg, tool, raw) == Render(reg, tool, other)
  {
    PruneIffSameVisible(Envelope(raw), Envelope(other), reg.allowed[tool]);
  }

  // --- the projection ---------------------------------------------------------------------------------

  /** `watermark`: seq of the newest user text, 0 when there is none. */
  function Watermark(turns: seq<Turn>): nat {
    match NewestUserText(turns)
    case Some(k) => turns[k].no
    case None => 0
  }

  /** What one turn contributes under `curate(thread)` with watermark `mark`. */
  function CuratedPart(reg: Registry, mark: nat, t: Turn): Message {
    if t.no >= mark then StoredPart(t)
    else
      match StubBlocks(reg, t)
      case Some(blocks) => Message(t.role, blocks)
      case None => StoredPart(t)
  }

  function CuratedParts(reg: Registry, mark: nat, turns: seq<Turn>): seq<Message> {
    seq(|turns|, i requires 0 <= i < |turns| => CuratedPart(reg, mark, turns[i]))
  }

  /** What one turn contributes: to the curated array with that watermark, or to the lossless one. */
  function Part(reg: Registry, mark: Option<nat>, t: Turn): Message {
    if mark.Some? then CuratedPart(reg, mark.value, t) else StoredPart(t)
  }

  function Parts(reg: Registry, mark: Option<nat>, turns: seq<Turn>): (r: seq<Message>)
    ensures |r| == |turns| && forall i | 0 <= i < |r| :: r[i] == Part(reg, mark, turns[i])
  {
    if mark.Some? then CuratedParts(reg, mark.value, turns) else StoredParts(turns)
  }

  /** `messages_for_model`. */
  function Curated(reg: Registry, turns: seq<Turn>): seq<Message> {
    Merge(CuratedParts(reg, Watermark(turns), turns))
  }

  lemma {:induction false} AssignKeepsKeys(d: Dict, key: string, value: Json)
    requires key in Keys(d)
    ensures Keys(Assign(d, key, value)) == Keys(d)
    ensures |Assign(d, key, value)| == |d|
  {
    KeysCons(d);
    KeysCons(Assign(d, key, value));
    if d[0].0 == key {
      assert Assign(d, key, value)[1..] == d[1..];
    } else {
      assert key in Keys(d[1..]);
      AssignKeepsKeys(d[1..], key, value);
      assert Assign(d, key, value)[1..] == Assign(d[1..], key, value);
    }
  }

  lemma KeysCons(d: Dict)
    requires d != []
    ensures Keys(d) == {d[0].0} + Keys(d[1..])
  {
    forall k ensures k in Keys(d) <==> k in {d[0].0} + Keys(d[1..]) {
      if k in Keys(d) && k != d[0].0 {
        var i :| 0 <= i < |d| && d[i].0 == k;
        assert d[1..][i - 1].0 == k;
      }
    }
  }

  /** A tool result block of a tool result turn has a `content` key for a stub to replace. */
  predicate HasContent(t: Turn) {
    t.kind == ToolResult ==> forall j | 0 <= j < |t.content| && IsResult(t.content[j]) ::
      "content" in Keys(t.content[j])
  }

  /** A stub differs from the block it replaces in `content` alone. */
  lemma StubSameShape(reg: Registry, mark: nat, t: Turn)
    requires HasContent(t)
    ensures SameShapeBlocks(t.content, CuratedPart(reg, mark, t).content)
    ensures CuratedPart(reg, mark, t).role == t.role
  {
    var c := CuratedPart(reg, mark, t).content;
    forall i | 0 <= i < |t.content|
      ensures SameButContent(t.content[i], c[i]) && (!IsResult(t.content[i]) ==> t.content[i] == c[i])
    {
      if c != t.content && IsResult(t.content[i]) {
        AssignKeepsKeys(t.content[i], "content", Get(c[i], "content"));
      }
    }
  }

  lemma {:induction false} AssignSame(d: Dict, key: string, value: Json)
    requires value != Null
    ensures Assign(d, key, value) == d <==> Get(d, key) == value
  {
    if d != [] && d[0].0 != key {
      AssignSame(d[1..], key, value);
      assert d == [d[0]] + d[1..];
    }
  }

  /** A result whose tool has a stub: no failure, nothing to be kept, registered. */
  predicate Spendable(reg: Registry, t: Turn, tool: string) {
    && t.kind == ToolResult && Get(t.meta, "is_error") != Bool(true)
    && Get(t.meta, "tool_name") == Str(tool) && tool !in reg.keepVerbatim && tool in reg.renderers
  }

  /**
   What the projection shows of a turn: below the watermark, and for results of tools that have a stub, each result
   block with the stub as its content and all else as it was; anything else as it is stored.
   */
  lemma PartShows(reg: Registry, mark: nat, t: Turn, tool: string)
    ensures !Spendable(reg, t, tool) && Get(t.meta, "tool_name") == Str(tool) ==>
              CuratedPart(reg, mark, t) == StoredPart(t)
    ensures !Get(t.meta, "tool_name").Str? || t.no >= mark ==> CuratedPart(reg, mark, t) == StoredPart(t)
    ensures Spendable(reg, t, tool) && t.no < mark ==>
              var c := CuratedPart(reg, mark, t);
              && c.role == t.role && |c.content| == |t.content|
              && forall j, k | 0 <= j < |t.content| ::
                   Get(c.content[j], k) ==
                   if k == "content" && IsResult(t.content[j]) then Str(Render(reg, tool, Get(t.content[j], "content")))
                   else Get(t.content[j], k)
  {
  }

  /**
   Exactly what a projection replaces: a turn comes out changed if and only if it is a result below the watermark, no
   failure, of a registered tool that is not kept verbatim, and some result block in it does not read as its stub yet.
   */
  lemma ReplacedIff(reg: Registry, mark: nat, t: Turn)
    ensures CuratedPart(reg, mark, t) != StoredPart(t) <==>
            && t.no < mark && Get(t.meta, "tool_name").Str? && Spendable(reg, t, Get(t.meta, "tool_name").s)
            && exists j :: 0 <= j < |t.content| && IsResult(t.content[j])
                           && Get(t.content[j], "content")
                              != Str(Render(reg, Get(t.meta, "tool_name").s, Get(t.content[j], "content")))
  {
    if Get(t.meta, "tool_name").Str? && Spendable(reg, t, Get(t.meta, "tool_name").s) && t.no < mark {
      var tool, c := Get(t.meta, "tool_name").s, CuratedPart(reg, mark, t).content;
      forall j | 0 <= j < |t.content| && IsResult(t.content[j])
        ensures c[j] == t.content[j] <==>
                Get(t.content[j], "content") == Str(Render(reg, tool, Get(t.content[j], "content")))
      {
        AssignSame(t.content[j], "content", Str(Render(reg, tool, Get(t.content[j], "content"))));
      }
      assert CuratedPart(reg, mark, t) != StoredPart(t) <==> c != t.content;
    }
  }

  /**
   The curated array simulates the lossless one: the same messages, roles, block counts and
   positions, and the same blocks but for the `content` of tool results.
   */
  lemma CuratedSimulatesLossless(reg: Registry, turns: seq<Turn>, mark: nat)
    requires forall t | t in turns :: HasContent(t)
    ensures SameShape(Lossless(turns), Merge(CuratedParts(reg, mark, turns)))
    ensures Legal(Lossless(turns)) <==> Legal(Merge(CuratedParts(reg, mark, turns)))
  {
    var p, q := StoredParts(turns), CuratedParts(reg, mark, turns);
    forall i | 0 <= i < |turns| ensures p[i].role == q[i].role && SameShapeBlocks(p[i].content, q[i].content) {
      assert turns[i] in turns;
      StubSameShape(reg, mark, turns[i]);
    }
    MergeSameShape(p, q);
    SameShapeSameLegality(Lossless(turns), Merge(q));
  }

  /** Stubbing is monotone: once a turn is a stub it stays that stub, whatever is appended. */
  lemma OnceStubbedAlwaysStubbed(reg: Registry, turns: seq<Turn>, more: seq<Turn>, i: nat)
    requires StrictlyIncreasing(turns + more)
    requires i < |turns| && turns[i].no < Watermark(turns) && StubBlocks(reg, turns[i]).Some?
    ensures Watermark(turns) <= Watermark(turns + more)
    ensures CuratedPart(reg, Watermark(turns + more), turns[i])
            == Message(turns[i].role, StubBlocks(reg, turns[i]).value)
  {
    WatermarkMonotone(turns, more);
  }

  predicate Ascending(turns: seq<Turn>) {
    forall i, j | 0 <= i < j < |turns| :: turns[i].no < turns[j].no
  }

  predicate StrictlyIncreasing(turns: seq<Turn>) {
    (forall i | 0 <= i < |turns| :: turns[i].no > 0) && Ascending(turns)
  }

  /** `append_turn` keeps seqs increasing. */
  lemma IncreasingAppend(turns: seq<Turn>, t: Turn)
    requires StrictlyIncreasing(turns) && t.no == NextNo(turns)
    ensures StrictlyIncreasing(turns + [t])
  {
    forall i, j | 0 <= i < j < |turns| + 1 ensures (turns + [t])[i].no < (turns + [t])[j].no {
      assert i < |turns| - 1 ==> turns[i].no < turns[|turns| - 1].no;
    }
  }

  /** The watermark never decreases, and moves only when a new user text is appended. */
  lemma WatermarkMonotone(turns: seq<Turn>, more: seq<Turn>)
    requires StrictlyIncreasing(turns + more)
    ensures Watermark(turns) <= Watermark(turns + more)
    ensures (Watermark(turns) == Watermark(turns + more)) <==> (forall i | 0 <= i < |more| :: more[i].kind != UserText)
  {
    var all := turns + more;
    assert forall i | 0 <= i < |turns| :: all[i] == turns[i];
    assert forall i | 0 <= i < |more| :: all[|turns| + i] == more[i];
    if NewestUserText(turns).Some? {
      assert all[NewestUserText(turns).value].kind == UserText;
    }
    match (NewestUserText(turns), NewestUserText(all)) {
      case (Some(k), Some(l)) =>
        assert k <= l;
        if l >= |turns| { assert more[l - |turns|].kind == UserText; }
      case (None, Some(l)) =>
        assert l >= |turns|;
        assert more[l - |turns|].kind == UserText;
      case (Some(_), None) =>
      case (None, None) =>
    }
  }
}
