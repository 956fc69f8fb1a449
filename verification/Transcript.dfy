/**
 The stored conversation and the messages array rebuilt from it
 (backend/app/agent/store.py): turns, the user-role merge with its
 tool-results-first partition, and what the Messages API accepts.
 */
module Transcript {
  import opened Json
  import opened Sorting

  datatype Role = User | Assistant

  datatype Kind = UserText | AssistantText | AssistantToolUse | ToolResult | FlowEvent

  /** A content block is a dict. */
  type Block = Dict

  /** `no` is the turn's `seq`. */
  datatype Turn = Turn(no: nat, role: Role, kind: Kind, content: seq<Block>, meta: Dict)

  datatype Message = Message(role: Role, content: seq<Block>)

  /** `next_seq`. */
  function NextNo(log: seq<Turn>): nat {
    if log == [] then 1 else log[|log| - 1].no + 1
  }

  /** Block contents as `append_turn` stores them. */
  function CanonicalBlocks(bs: seq<Block>): (r: seq<Block>)
    ensures |r| == |bs|
  {
    seq(|bs|, i requires 0 <= i < |bs| => CanonicalDict(bs[i]))
  }

  predicate IsResult(b: Block) {
    Get(b, "type") == Str("tool_result")
  }

  predicate IsUse(b: Block) {
    Get(b, "type") == Str("tool_use")
  }

  function Results(bs: seq<Block>): seq<Block> {
    if bs == [] then []
    else if IsResult(bs[0]) then [bs[0]] + Results(bs[1..])
    else Results(bs[1..])
  }

  function Others(bs: seq<Block>): seq<Block> {
    if bs == [] then []
    else if IsResult(bs[0]) then Others(bs[1..])
    else [bs[0]] + Others(bs[1..])
  }

  /** The stable partition that puts tool results in front. */
  function ResultsFirst(bs: seq<Block>): seq<Block> {
    Results(bs) + Others(bs)
  }

  /** One iteration of the loop in `Thread.messages`. */
  function Extend(ms: seq<Message>, next: Message): seq<Message> {
    if next.role == User && ms != [] && ms[|ms| - 1].role == User then
      ms[|ms| - 1 := Message(User, ResultsFirst(ms[|ms| - 1].content + next.content))]
    else
      ms + [next]
  }

  /** `Thread.messages`, given what each turn contributes. */
  function Merge(parts: seq<Message>): (ms: seq<Message>)
    ensures |ms| <= |parts|
    ensures parts != [] ==> ms != [] && ms[|ms| - 1].role == parts[|parts| - 1].role
  {
    if parts == [] then []
    else Extend(Merge(parts[..|parts| - 1]), parts[|parts| - 1])
  }

  lemma MergeSnoc(parts: seq<Message>, p: Message)
    ensures Merge(parts + [p]) == Extend(Merge(parts), p)
  {
    assert (parts + [p])[..|parts|] == parts;
  }

  function StoredPart(t: Turn): Message {
    Message(t.role, t.content)
  }

  function StoredParts(turns: seq<Turn>): seq<Message> {
    seq(|turns|, i requires 0 <= i < |turns| => StoredPart(turns[i]))
  }

  /** `thread.messages()` with no transform. */
  function Lossless(turns: seq<Turn>): seq<Message> {
    Merge(StoredParts(turns))
  }

  // --- filtering --------------------------------------------------------------------------

  lemma {:induction false} FilterConcat(a: seq<Block>, b: seq<Block>)
    ensures Results(a + b) == Results(a) + Results(b)
    ensures Others(a + b) == Others(a) + Others(b)
  {
    if a == [] {
      assert a + b == b;
    } else {
      assert (a + b)[1..] == a[1..] + b;
      FilterConcat(a[1..], b);
      if IsResult(a[0]) {
        assert [a[0]] + (Results(a[1..]) + Results(b)) == ([a[0]] + Results(a[1..])) + Results(b);
      } else {
        assert [a[0]] + (Others(a[1..]) + Others(b)) == ([a[0]] + Others(a[1..])) + Others(b);
      }
    }
  }

  lemma {:induction false} FilterMembers(bs: seq<Block>)
    ensures forall b :: b in Results(bs) <==> b in bs && IsResult(b)
    ensures forall b :: b in Others(bs) <==> b in bs && !IsResult(b)
    ensures |Results(bs)| + |Others(bs)| == |bs|
  {
    if bs != [] {
      FilterMembers(bs[1..]);
    }
  }

  lemma {:induction false} FilterNone(bs: seq<Block>)
    requires forall b | b in bs :: !IsResult(b)
    ensures Results(bs) == [] && Others(bs) == bs
  {
    if bs != [] {
      assert bs[0] in bs && forall b | b in bs[1..] :: b in bs;
      FilterNone(bs[1..]);
    }
  }

  lemma {:induction false} FilterAll(bs: seq<Block>)
    requires forall b | b in bs :: IsResult(b)
    ensures Results(bs) == bs && Others(bs) == []
  {
    if bs != [] {
      assert bs[0] in bs && forall b | b in bs[1..] :: b in bs;
      FilterAll(bs[1..]);
    }
  }

  /** The partition is stable under itself and under later appends. */
  lemma ResultsFirstAgain(a: seq<Block>, b: seq<Block>)
    ensures Results(ResultsFirst(a)) == Results(a) && Others(ResultsFirst(a)) == Others(a)
    ensures ResultsFirst(ResultsFirst(a) + b) == ResultsFirst(a + b)
  {
    FilterMembers(a);
    FilterAll(Results(a));
    FilterNone(Others(a));
    FilterConcat(Results(a), Others(a));
    FilterConcat(ResultsFirst(a), b);
    FilterConcat(a, b);
  }

  // --- growth: what an append does to the array already sent ------------------------------------

  /** The array read as one flat list of (role, block): what a prompt cache matches on. */
  function Flat(ms: seq<Message>): seq<(Role, Block)> {
    if ms == [] then []
    else Flat(ms[..|ms| - 1]) + Tagged(ms[|ms| - 1])
  }

  function Tagged(m: Message): (r: seq<(Role, Block)>)
    ensures |r| == |m.content|
  {
    seq(|m.content|, i requires 0 <= i < |m.content| => (m.role, m.content[i]))
  }

  /** `b` continues `a`: same messages, the last one possibly longer, then new ones. */
  predicate Continues(a: seq<Message>, b: seq<Message>) {
    && |a| <= |b|
    && (a != [] ==>
          && a[..|a| - 1] == b[..|a| - 1]
          && a[|a| - 1].role == b[|a| - 1].role
          && a[|a| - 1].content <= b[|a| - 1].content)
  }

  lemma FlatSplit(ms: seq<Message>, k: nat)
    requires k <= |ms|
    ensures Flat(ms[..k]) <= Flat(ms)
    decreases |ms|
  {
    if k < |ms| {
      assert ms[..|ms| - 1][..k] == ms[..k];
      FlatSplit(ms[..|ms| - 1], k);
    } else {
      assert ms[..k] == ms;
    }
  }

  lemma ContinuesIsFlatPrefix(a: seq<Message>, b: seq<Message>)
    requires Continues(a, b)
    ensures Flat(a) <= Flat(b)
  {
    if a != [] {
      var n := |a|;
      FlatSplit(b, n);
      assert b[..n][..n - 1] == b[..n - 1];
      assert Flat(b[..n]) == Flat(b[..n - 1]) + Tagged(b[n - 1]);
      assert Tagged(a[n - 1]) <= Tagged(b[n - 1]);
    }
  }

  lemma ContinuesTransitive(a: seq<Message>, b: seq<Message>, c: seq<Message>)
    requires Continues(a, b) && Continues(b, c)
    ensures Continues(a, c)
  {
    if a != [] {
      var n := |a|;
      if n < |b| {
        assert b[n - 1] == b[..|b| - 1][n - 1] == c[..|b| - 1][n - 1] == c[n - 1];
        assert a[..n - 1] == b[..|b| - 1][..n - 1] == c[..|b| - 1][..n - 1] == c[..n - 1];
      }
    }
  }

  /** Each user turn holds only tool results or none at all. */
  predicate Homogeneous(parts: seq<Message>) {
    forall i | 0 <= i < |parts| && parts[i].role == User ::
      Results(parts[i].content) == [] || Others(parts[i].content) == []
  }

  /** Every user message has its tool results in front. */
  predicate Partitioned(ms: seq<Message>) {
    forall i | 0 <= i < |ms| && ms[i].role == User :: ms[i].content == ResultsFirst(ms[i].content)
  }

  lemma {:induction false} HomogeneousContent(bs: seq<Block>)
    requires Results(bs) == [] || Others(bs) == []
    ensures ResultsFirst(bs) == bs
  {
    FilterMembers(bs);
    if Results(bs) == [] {
      FilterNone(bs) by { forall b | b in bs ensures !IsResult(b) { assert IsResult(b) ==> b in Results(bs); } }
    } else {
      FilterAll(bs) by { forall b | b in bs ensures IsResult(b) { assert !IsResult(b) ==> b in Others(bs); } }
    }
  }

  lemma PartitionTwice(bs: seq<Block>)
    ensures ResultsFirst(ResultsFirst(bs)) == ResultsFirst(bs)
  {
    ResultsFirstAgain(bs, []);
    assert ResultsFirst(bs) + [] == ResultsFirst(bs) && bs + [] == bs;
  }

  lemma ExtendPartitioned(ms: seq<Message>, next: Message)
    requires Partitioned(ms)
    requires next.role == User ==> Results(next.content) == [] || Others(next.content) == []
    ensures Partitioned(Extend(ms, next))
  {
    if next.role == User {
      HomogeneousContent(next.content);
      if ms != [] {
        PartitionTwice(ms[|ms| - 1].content + next.content);
      }
    }
  }

  lemma {:induction false} MergePartitioned(parts: seq<Message>)
    requires Homogeneous(parts)
    ensures Partitioned(Merge(parts))
    decreases |parts|
  {
    if parts != [] {
      var n := |parts| - 1;
      MergePartitioned(parts[..n]);
      ExtendPartitioned(Merge(parts[..n]), parts[n]);
    }
  }

  /** Appending an assistant turn, or a user turn without tool results, continues the array. */
  lemma ExtendContinues(ms: seq<Message>, next: Message)
    requires Partitioned(ms)
    requires next.role == User ==> Results(next.content) == []
    ensures Continues(ms, Extend(ms, next))
  {
    if next.role == User && ms != [] && ms[|ms| - 1].role == User {
      var last := ms[|ms| - 1].content;
      FilterConcat(last, next.content);
      assert ResultsFirst(last + next.content) == ResultsFirst(last) + Others(next.content);
    }
  }

  ghost predicate AssistantIn(parts: seq<Message>, lo: nat, hi: nat)
    requires hi <= |parts|
  {
    exists j :: lo <= j < hi && parts[j].role == Assistant
  }

  /** In `parts[n..]` no tool result comes before the first assistant part. */
  ghost predicate NoLateResults(parts: seq<Message>, n: nat)
    requires n <= |parts|
  {
    forall k | n <= k < |parts| && parts[k].role == User && Results(parts[k].content) != [] :: AssistantIn(parts, n, k)
  }

  lemma StepContinues(a: seq<Message>, b: seq<Message>, next: Message)
    requires Continues(a, b) && Partitioned(b)
    requires |a| < |b| || (next.role == User ==> Results(next.content) == [])
    ensures Continues(a, Extend(b, next))
    ensures |a| < |b| || next.role == Assistant ==> |a| < |Extend(b, next)|
  {
    if |a| < |b| {
      var c := Extend(b, next);
      assert forall i | 0 <= i < |a| :: c[i] == b[i];
      if a != [] {
        assert c[..|a| - 1] == b[..|a| - 1];
      }
    } else {
      ExtendContinues(b, next);
      ContinuesTransitive(a, b, Extend(b, next));
    }
  }

  /**
   What was sent stays a prefix: the array over the first `n` parts is continued by the array
   over all of them, provided no tool result lands in the last sent message afterwards.
   */
  lemma {:induction false} MergeContinues(parts: seq<Message>, n: nat)
    requires n <= |parts| && Homogeneous(parts) && NoLateResults(parts, n)
    ensures Continues(Merge(parts[..n]), Merge(parts))
    ensures AssistantIn(parts, n, |parts|) ==> |Merge(parts[..n])| < |Merge(parts)|
    decreases |parts|
  {
    var last := |parts| - 1;
    if n == |parts| {
      assert parts[..n] == parts;
    } else {
      InitKeeps(parts, n);
      MergeContinues(parts[..last], n);
      MergePartitioned(parts[..last]);
      LastPart(parts, n);
      StepContinues(Merge(parts[..n]), Merge(parts[..last]), parts[last]);
    }
  }

  lemma LastPart(parts: seq<Message>, n: nat)
    requires n < |parts| && NoLateResults(parts, n)
    ensures var last := |parts| - 1;
      && (AssistantIn(parts, n, last) || (parts[last].role == User ==> Results(parts[last].content) == []))
      && (AssistantIn(parts, n, |parts|) ==> AssistantIn(parts, n, last) || parts[last].role == Assistant)
  {
    var last := |parts| - 1;
    if AssistantIn(parts, n, |parts|) {
      var j :| n <= j < |parts| && parts[j].role == Assistant;
      assert j < last || j == last;
    }
  }

  lemma InitKeeps(parts: seq<Message>, n: nat)
    requires n < |parts| && Homogeneous(parts) && NoLateResults(parts, n)
    ensures var init := parts[..|parts| - 1];
      && init[..n] == parts[..n] && Homogeneous(init) && NoLateResults(init, n)
      && (AssistantIn(init, n, |init|) <==> AssistantIn(parts, n, |init|))
  {
    var init := parts[..|parts| - 1];
    forall k | n <= k < |init| && init[k].role == User && Results(init[k].content) != []
      ensures AssistantIn(init, n, k)
    {
      assert AssistantIn(parts, n, k);
      var j :| n <= j < k && parts[j].role == Assistant;
      assert init[j].role == Assistant;
    }
    if AssistantIn(parts, n, |init|) {
      var j :| n <= j < |init| && parts[j].role == Assistant;
      assert init[j].role == Assistant;
    }
  }

  // --- the message that holds the newest user text --------------------------------------------------

  /** Position of the newest `user_text` turn. */
  function NewestUserText(turns: seq<Turn>): (r: Option<nat>)
    ensures r.Some? ==> r.value < |turns| && turns[r.value].kind == UserText
    ensures r.Some? ==> forall i | r.value < i < |turns| :: turns[i].kind != UserText
    ensures r.None? ==> forall i | 0 <= i < |turns| :: turns[i].kind != UserText
  {
    if turns == [] then None
    else if turns[|turns| - 1].kind == UserText then Some(|turns| - 1)
    else NewestUserText(turns[..|turns| - 1])
  }

  lemma LosslessStep(turns: seq<Turn>, i: nat)
    requires i < |turns|
    ensures Lossless(turns[..i + 1]) == Extend(Lossless(turns[..i]), StoredPart(turns[i]))
    ensures i > 0 ==>
              Lossless(turns[..i]) != [] && Lossless(turns[..i])[|Lossless(turns[..i])| - 1].role == turns[i - 1].role
    ensures |Lossless(turns[..i + 1])|
            == |Lossless(turns[..i])| + if i > 0 && turns[i].role == User && turns[i - 1].role == User then 0 else 1
  {
    assert StoredParts(turns[..i + 1])[..i] == StoredParts(turns[..i]);
  }

  /**
   `last_user_message_index`: the index of the last message of the array as it stood when the
   newest user text had just been stored.
   */
  method LastUserMessageIndex(turns: seq<Turn>) returns (found: Option<int>)
    ensures found == UserTextMessage(turns)
  {
    var index := -1;
    found := None;
    var previous: Option<Role> := None;
    for i := 0 to |turns|
      invariant index == |Lossless(turns[..i])| - 1
      invariant previous == if i == 0 then None else Some(turns[i - 1].role)
      invariant found == UserTextMessage(turns[..i])
    {
      LosslessStep(turns, i);
      UserTextMessageStep(turns, i);
      if !(turns[i].role == User && previous == Some(User)) {
        index := index + 1;
      }
      previous := Some(turns[i].role);
      if turns[i].kind == UserText {
        found := Some(index);
      }
    }
    assert turns[..|turns|] == turns;
  }

  function UserTextMessage(turns: seq<Turn>): Option<int> {
    match NewestUserText(turns)
    case None => None
    case Some(k) => Some(|Lossless(turns[..k + 1])| - 1)
  }

  lemma UserTextMessageStep(turns: seq<Turn>, i: nat)
    requires i < |turns|
    ensures UserTextMessage(turns[..i + 1]) ==
            if turns[i].kind == UserText then Some(|Lossless(turns[..i + 1])| - 1) else UserTextMessage(turns[..i])
  {
    assert turns[..i + 1][..i] == turns[..i];
    match NewestUserText(turns[..i]) {
      case Some(k) => assert turns[..i + 1][..k + 1] == turns[..i][..k + 1];
      case None =>
    }
    assert turns[..i + 1][..i + 1] == turns[..i + 1];
  }

  // --- what the Messages API accepts -------------------------------------------------------------------

  /** Ids of the tool calls of an assistant message, in order. */
  function UseIds(bs: seq<Block>): seq<Json> {
    if bs == [] then []
    else if IsUse(bs[0]) then [Get(bs[0], "id")] + UseIds(bs[1..])
    else UseIds(bs[1..])
  }

  /** The calls that the tool results of a user message answer, in order. */
  function ResultIds(bs: seq<Block>): seq<Json> {
    if bs == [] then []
    else if IsResult(bs[0]) then [Get(bs[0], "tool_use_id")] + ResultIds(bs[1..])
    else ResultIds(bs[1..])
  }

  /** The leading blocks are exactly one result per call, in call order; nothing else is a result. */
  predicate Answers(calls: seq<Block>, reply: seq<Block>) {
    var ids := UseIds(calls);
    && |ids| <= |reply|
    && (forall j | 0 <= j < |ids| :: IsResult(reply[j]) && Get(reply[j], "tool_use_id") == ids[j])
    && (forall j | |ids| <= j < |reply| :: !IsResult(reply[j]))
  }

  predicate Alternates(ms: seq<Message>) {
    && (ms != [] ==> ms[0].role == User)
    && (forall i | 0 <= i < |ms| - 1 :: ms[i].role != ms[i + 1].role)
  }

  /** No message is empty. */
  predicate NoneEmpty(ms: seq<Message>) {
    forall i | 0 <= i < |ms| :: ms[i].content != []
  }

  /** Ids of all tool calls of an array, in order. */
  function CallIds(ms: seq<Message>): seq<Json> {
    if ms == [] then []
    else CallIds(ms[..|ms| - 1]) + if ms[|ms| - 1].role == Assistant then UseIds(ms[|ms| - 1].content) else []
  }

  /**
   A legal history: it starts and ends with the user, alternates, has no empty message, uses no call id
   twice, answers every tool call in the next message, and holds no result of a call it does not hold.
   */
  predicate Legal(ms: seq<Message>) {
    && Alternates(ms)
    && ms != [] && ms[|ms| - 1].role == User
    && NoneEmpty(ms) && Distinct(CallIds(ms)) && ResultIds(ms[0].content) == []
    && (forall i | 0 <= i < |ms| - 1 && ms[i].role == Assistant :: Answers(ms[i].content, ms[i + 1].content))
  }

  /** The last assistant message of an array that ends with the user made tool calls. */
  predicate AnswersTools(ms: seq<Message>) {
    |ms| > 1 && UseIds(ms[|ms| - 2].content) != []
  }

  /**
   A history that the API accepts. With thinking enabled it wants a thinking block in front of the last assistant
   message when that made tool calls; the stored turns never hold one.
   */
  predicate Accepted(thinking: bool, ms: seq<Message>) {
    Legal(ms) && !(thinking && AnswersTools(ms))
  }

  lemma {:induction false} ResultIdsConcat(a: seq<Block>, b: seq<Block>)
    ensures ResultIds(a + b) == ResultIds(a) + ResultIds(b)
  {
    if a == [] {
      assert a + b == b;
    } else {
      assert (a + b)[1..] == a[1..] + b;
      ResultIdsConcat(a[1..], b);
    }
  }

  lemma {:induction false} ResultIdsOf(bs: seq<Block>)
    ensures ResultIds(Results(bs)) == ResultIds(bs) && ResultIds(Others(bs)) == []
    ensures |Results(bs)| == |ResultIds(bs)|
  {
    if bs != [] {
      ResultIdsOf(bs[1..]);
      if IsResult(bs[0]) {
        assert ([bs[0]] + Results(bs[1..]))[1..] == Results(bs[1..]);
      } else {
        assert ([bs[0]] + Others(bs[1..]))[1..] == Others(bs[1..]);
      }
    }
  }

  lemma {:induction false} ResultIdAt(bs: seq<Block>, j: nat)
    requires j < |bs| && forall b | b in bs :: IsResult(b)
    ensures |ResultIds(bs)| == |bs| && ResultIds(bs)[j] == Get(bs[j], "tool_use_id")
  {
    assert bs[0] in bs && forall b | b in bs[1..] :: b in bs;
    if j > 0 {
      ResultIdAt(bs[1..], j - 1);
    } else if |bs| > 1 {
      ResultIdAt(bs[1..], 0);
    }
  }

  lemma FrontAt(reply: seq<Block>, j: nat)
    requires reply == ResultsFirst(reply) && j < |Results(reply)|
    ensures j < |reply| && reply[j] == Results(reply)[j] && IsResult(reply[j])
  {
    FilterMembers(reply);
    assert Results(reply)[j] in Results(reply);
  }

  lemma BackAt(reply: seq<Block>, j: nat)
    requires reply == ResultsFirst(reply) && |Results(reply)| <= j < |reply|
    ensures !IsResult(reply[j])
  {
    FilterMembers(reply);
    assert reply[j] == Others(reply)[j - |Results(reply)|];
    assert reply[j] in Others(reply);
  }

  lemma ResultIdsAt(reply: seq<Block>, j: nat)
    requires j < |Results(reply)|
    ensures |ResultIds(reply)| == |Results(reply)| && ResultIds(reply)[j] == Get(Results(reply)[j], "tool_use_id")
  {
    FilterMembers(reply);
    ResultIdsOf(reply);
    ResultIdAt(Results(reply), j);
  }

  /** With results in front, position j of the message is position j of its results, then of the rest. */
  lemma ResultsFirstAt(reply: seq<Block>)
    requires reply == ResultsFirst(reply)
    ensures |ResultIds(reply)| == |Results(reply)| <= |reply|
    ensures forall j | 0 <= j < |Results(reply)| ::
            IsResult(reply[j]) && ResultIds(reply)[j] == Get(reply[j], "tool_use_id")
    ensures forall j | |Results(reply)| <= j < |reply| :: !IsResult(reply[j])
  {
    ResultIdsOf(reply);
    forall j | 0 <= j < |Results(reply)|
      ensures ResultIds(reply)[j] == Get(reply[j], "tool_use_id") && IsResult(reply[j])
    {
      FrontAt(reply, j);
      ResultIdsAt(reply, j);
    }
    forall j | |Results(reply)| <= j < |reply| ensures !IsResult(reply[j]) {
      BackAt(reply, j);
    }
  }

  /** With results in front, answering is a matter of the two id lists being equal. */
  lemma AnswersIffSameIds(calls: seq<Block>, reply: seq<Block>)
    requires reply == ResultsFirst(reply)
    ensures Answers(calls, reply) <==> UseIds(calls) == ResultIds(reply)
  {
    ResultsFirstAt(reply);
    var n, m := |UseIds(calls)|, |Results(reply)|;
    if Answers(calls, reply) {
      var k := if n < m then n else m;
      assert k < |reply| ==> (IsResult(reply[k]) <==> k < m) && (IsResult(reply[k]) <==> k < n);
    }
  }

  // --- arrays of the same shape ----------------------------------------------------------------------

  /** The same block except for what its `content` key holds. */
  ghost predicate SameButContent(b: Block, c: Block) {
    Keys(b) == Keys(c) && forall k | k != "content" :: Get(b, k) == Get(c, k)
  }

  ghost predicate SameShapeBlocks(a: seq<Block>, b: seq<Block>) {
    |a| == |b| && forall i | 0 <= i < |a| :: SameButContent(a[i], b[i]) && (!IsResult(a[i]) ==> a[i] == b[i])
  }

  /** Same messages, roles, block counts and positions; only tool results differ, in `content` alone. */
  ghost predicate SameShape(a: seq<Message>, b: seq<Message>) {
    |a| == |b| && forall i | 0 <= i < |a| :: a[i].role == b[i].role && SameShapeBlocks(a[i].content, b[i].content)
  }

  lemma {:induction false} FilterSameShape(a: seq<Block>, b: seq<Block>)
    requires SameShapeBlocks(a, b)
    ensures SameShapeBlocks(Results(a), Results(b)) && SameShapeBlocks(Others(a), Others(b))
  {
    if a != [] {
      assert SameButContent(a[0], b[0]);
      FilterSameShape(a[1..], b[1..]);
      if IsResult(a[0]) {
        JoinSameShape([a[0]], [b[0]], Results(a[1..]), Results(b[1..]));
      } else {
        JoinSameShape([a[0]], [b[0]], Others(a[1..]), Others(b[1..]));
      }
    }
  }

  lemma JoinSameShape(a: seq<Block>, b: seq<Block>, c: seq<Block>, d: seq<Block>)
    requires SameShapeBlocks(a, b) && SameShapeBlocks(c, d)
    ensures SameShapeBlocks(a + c, b + d)
  {
  }

  lemma ResultsFirstSameShape(a: seq<Block>, b: seq<Block>)
    requires SameShapeBlocks(a, b)
    ensures SameShapeBlocks(ResultsFirst(a), ResultsFirst(b))
  {
    FilterSameShape(a, b);
    JoinSameShape(Results(a), Results(b), Others(a), Others(b));
  }

  lemma ExtendSameShape(a: seq<Message>, b: seq<Message>, x: Message, y: Message)
    requires SameShape(a, b) && x.role == y.role && SameShapeBlocks(x.content, y.content)
    ensures SameShape(Extend(a, x), Extend(b, y))
  {
    if x.role == User && a != [] && a[|a| - 1].role == User {
      var n := |a| - 1;
      assert SameShapeBlocks(a[n].content, b[n].content);
      JoinSameShape(a[n].content, b[n].content, x.content, y.content);
      ResultsFirstSameShape(a[n].content + x.content, b[n].content + y.content);
    }
  }

  /** Turn by turn alike gives message by message alike, through merging and repeated partition. */
  lemma {:induction false} MergeSameShape(a: seq<Message>, b: seq<Message>)
    requires SameShape(a, b)
    ensures SameShape(Merge(a), Merge(b))
    decreases |a|
  {
    if a != [] {
      var n := |a| - 1;
      MergeSameShape(a[..n], b[..n]);
      assert a[n].role == b[n].role && SameShapeBlocks(a[n].content, b[n].content);
      ExtendSameShape(Merge(a[..n]), Merge(b[..n]), a[n], b[n]);
    }
  }

  /** Alike in all that the API checks: types and ids. */
  predicate SameOnWire(b: Block, c: Block) {
    && IsResult(b) == IsResult(c) && IsUse(b) == IsUse(c)
    && Get(b, "id") == Get(c, "id") && Get(b, "tool_use_id") == Get(c, "tool_use_id")
  }

  predicate SameWire(a: seq<Message>, b: seq<Message>) {
    && |a| == |b|
    && forall i | 0 <= i < |a| :: a[i].role == b[i].role && SameWireBlocks(a[i].content, b[i].content)
  }

  predicate SameWireBlocks(a: seq<Block>, b: seq<Block>) {
    |a| == |b| && forall j | 0 <= j < |a| :: SameOnWire(a[j], b[j])
  }

  lemma {:induction false} UseIdsSameWire(a: seq<Block>, b: seq<Block>)
    requires SameWireBlocks(a, b)
    ensures UseIds(a) == UseIds(b)
  {
    if a != [] {
      assert SameOnWire(a[0], b[0]);
      UseIdsSameWire(a[1..], b[1..]);
    }
  }

  lemma {:induction false} ResultIdsSameWire(a: seq<Block>, b: seq<Block>)
    requires SameWireBlocks(a, b)
    ensures ResultIds(a) == ResultIds(b)
  {
    if a != [] {
      assert SameOnWire(a[0], b[0]);
      ResultIdsSameWire(a[1..], b[1..]);
    }
  }

  lemma {:induction false} CallIdsSameWire(a: seq<Message>, b: seq<Message>)
    requires SameWire(a, b)
    ensures CallIds(a) == CallIds(b)
    decreases |a|
  {
    if a != [] {
      var n := |a| - 1;
      CallIdsSameWire(a[..n], b[..n]);
      UseIdsSameWire(a[n].content, b[n].content);
    }
  }

  /** Legality depends on types, ids and block counts alone. */
  lemma SameWireSameLegality(a: seq<Message>, b: seq<Message>)
    requires SameWire(a, b)
    ensures Legal(a) <==> Legal(b)
  {
    CallIdsSameWire(a, b);
    if a != [] {
      ResultIdsSameWire(a[0].content, b[0].content);
    }
    assert NoneEmpty(a) <==> NoneEmpty(b) by {
      assert forall i | 0 <= i < |a| :: SameWireBlocks(a[i].content, b[i].content);
    }
    forall i | 0 <= i < |a| - 1
      ensures Answers(a[i].content, a[i + 1].content) <==> Answers(b[i].content, b[i + 1].content)
    {
      UseIdsSameWire(a[i].content, b[i].content);
      var r, s := a[i + 1].content, b[i + 1].content;
      assert forall j | 0 <= j < |r| :: SameOnWire(r[j], s[j]);
    }
  }

  lemma SameWireSameTools(a: seq<Message>, b: seq<Message>)
    requires SameWire(a, b)
    ensures AnswersTools(a) <==> AnswersTools(b)
  {
    if |a| > 1 {
      UseIdsSameWire(a[|a| - 2].content, b[|a| - 2].content);
    }
  }

  lemma SameShapeSameLegality(a: seq<Message>, b: seq<Message>)
    requires SameShape(a, b)
    ensures Legal(a) <==> Legal(b)
    ensures AnswersTools(a) <==> AnswersTools(b)
  {
    forall i, j | 0 <= i < |a| && 0 <= j < |a[i].content| ensures SameOnWire(a[i].content[j], b[i].content[j]) {
      assert SameButContent(a[i].content[j], b[i].content[j]);
    }
    SameWireSameLegality(a, b);
    SameWireSameTools(a, b);
  }
}
