/**
 The rolling prompt-cache breakpoint (backend/app/agent/store.py): at most two markers
 on the replayed history, and nothing but markers added.
 */
module Breakpoints {
  import opened Json
  import opened Transcript

  /** The API looks this many blocks back for a readable cache entry. */
  const CACHE_LOOKBACK_BLOCKS := 20
  const REACH := CACHE_LOOKBACK_BLOCKS - 1

  const MARKER: (string, Json) := ("cache_control", Obj([("type", Str("ephemeral"))]))

  predicate HasMarker(b: Block) {
    "cache_control" in Keys(b)
  }

  /** Can the last block of this message carry a marker? */
  predicate Markable(m: Message) {
    m.content != [] && !HasMarker(m.content[|m.content| - 1])
  }

  /** `_marked`: the copy whose last block carries the marker. */
  function Marked(m: Message): Message
    requires Markable(m)
  {
    var last := |m.content| - 1;
    m.(content := m.content[last := m.content[last] + [MARKER]])
  }

  /** Number of content blocks in `ms[lo..hi]`. */
  function Span(ms: seq<Message>, lo: nat, hi: nat): nat
    requires lo <= hi <= |ms|
  {
    if lo == hi then 0 else Span(ms, lo, hi - 1) + |ms[hi - 1].content|
  }

  /** How many blocks past the message at `entry` the message at `i` ends. */
  function Distance(ms: seq<Message>, entry: nat, i: nat): nat
    requires entry <= i < |ms|
  {
    Span(ms, entry + 1, i + 1)
  }

  /** The deepest message in (entry, from] still within reach of the entry, searched from the tip side. */
  function Deepest(ms: seq<Message>, entry: nat, from: nat): (r: Option<nat>)
    requires entry <= from < |ms|
    ensures r.Some? ==> entry < r.value <= from
  {
    if from == entry then None
    else if Distance(ms, entry, from) <= REACH then Some(from)
    else Deepest(ms, entry, from - 1)
  }

  /** Where the second marker would go: only when the tip is out of reach of the last entry. */
  function Candidate(ms: seq<Message>, entry: Option<int>): (r: Option<nat>)
    requires ms != []
    ensures r.Some? ==> entry.Some? && 0 <= entry.value < r.value < |ms| - 1
  {
    var tip := |ms| - 1;
    if entry.None? || !(0 <= entry.value < tip) || Distance(ms, entry.value, tip) <= REACH then None
    else Deepest(ms, entry.value, tip - 1)
  }

  /** Where it goes: a message whose last block cannot be marked gets none. */
  function SecondMarker(ms: seq<Message>, entry: Option<int>): Option<nat>
    requires ms != []
  {
    match Candidate(ms, entry)
    case Some(a) => if Markable(ms[a]) then Some(a) else None
    case None => None
  }

  /** The array with message `i` replaced by its marked copy, where it has one. */
  function MarkIf(ms: seq<Message>, i: nat): (r: seq<Message>)
    requires i < |ms|
    ensures |r| == |ms|
  {
    if Markable(ms[i]) then ms[i := Marked(ms[i])] else ms
  }

  /** `with_history_breakpoint`. */
  function WithBreakpoint(ms: seq<Message>, entry: Option<int>): (r: seq<Message>)
    ensures |r| == |ms|
  {
    if ms == [] || !Markable(ms[|ms| - 1]) then ms
    else
      match Candidate(ms, entry)
      case Some(a) => MarkIf(MarkIf(ms, |ms| - 1), a)
      case None => MarkIf(ms, |ms| - 1)
  }

  lemma {:induction false} SpanMonotone(ms: seq<Message>, lo: nat, a: nat, b: nat)
    requires lo <= a <= b <= |ms|
    ensures Span(ms, lo, a) <= Span(ms, lo, b)
    decreases b - a
  {
    if a < b {
      SpanMonotone(ms, lo, a, b - 1);
    }
  }

  /** Within reach of the entry, while everything from there up to `from` is not. */
  predicate IsDeepest(ms: seq<Message>, entry: nat, from: nat, a: nat)
    requires from < |ms|
  {
    entry < a <= from && Distance(ms, entry, a) <= 19 && forall b | a < b <= from :: Distance(ms, entry, b) > 19
  }

  lemma {:induction false} DeepestIs(ms: seq<Message>, entry: nat, from: nat, a: nat)
    requires entry <= from < |ms|
    ensures Deepest(ms, entry, from) == Some(a) <==> IsDeepest(ms, entry, from, a)
  {
    if from > entry && Distance(ms, entry, from) > REACH {
      DeepestIs(ms, entry, from - 1, a);
    }
  }

  /** Walking up from the entry and stopping at the first overflow finds the same message. */
  lemma WalkFindsDeepest(ms: seq<Message>, entry: nat, from: nat, a: nat)
    requires entry < a <= from < |ms| && Distance(ms, entry, a) <= REACH
    requires a < from ==> Distance(ms, entry, a + 1) > REACH
    ensures Deepest(ms, entry, from) == Some(a)
  {
    forall b | a < b <= from ensures Distance(ms, entry, b) > REACH {
      SpanMonotone(ms, entry + 1, a + 2, b + 1);
    }
    DeepestIs(ms, entry, from, a);
  }

  lemma {:induction false} NothingWithinReach(ms: seq<Message>, entry: nat, from: nat)
    requires entry < from < |ms| && Distance(ms, entry, entry + 1) > REACH
    ensures Deepest(ms, entry, from) == None
  {
    SpanMonotone(ms, entry + 1, entry + 2, from + 1);
    if from > entry + 1 {
      NothingWithinReach(ms, entry, from - 1);
    }
  }

  predicate SameCounts(ms: seq<Message>, ns: seq<Message>) {
    |ms| == |ns| && forall i | 0 <= i < |ms| :: |ms[i].content| == |ns[i].content|
  }

  lemma {:induction false} SpanCounts(ms: seq<Message>, ns: seq<Message>, lo: nat, hi: nat)
    requires SameCounts(ms, ns) && lo <= hi <= |ms|
    ensures Span(ms, lo, hi) == Span(ns, lo, hi)
  {
    if lo < hi {
      SpanCounts(ms, ns, lo, hi - 1);
    }
  }

  lemma {:induction false} DeepestCounts(ms: seq<Message>, ns: seq<Message>, entry: nat, from: nat)
    requires SameCounts(ms, ns) && entry <= from < |ms|
    ensures Deepest(ms, entry, from) == Deepest(ns, entry, from)
  {
    if entry < from {
      SpanCounts(ms, ns, entry + 1, from + 1);
      DeepestCounts(ms, ns, entry, from - 1);
    }
  }

  /** Only block counts decide where the second marker would go. */
  lemma CandidateCounts(ms: seq<Message>, ns: seq<Message>, entry: Option<int>)
    requires SameCounts(ms, ns) && ms != []
    ensures Candidate(ms, entry) == Candidate(ns, entry)
  {
    if entry.Some? && 0 <= entry.value < |ms| - 1 {
      SpanCounts(ms, ns, entry.value + 1, |ms|);
      DeepestCounts(ms, ns, entry.value, |ms| - 2);
    }
  }

  // --- additive ---------------------------------------------------------------------------------------

  /** A block without its marker. */
  function EraseBlock(b: Block): Block {
    if b == [] then []
    else if b[0].0 == "cache_control" then EraseBlock(b[1..])
    else [b[0]] + EraseBlock(b[1..])
  }

  function Erase(ms: seq<Message>): (r: seq<Message>)
    ensures |r| == |ms|
  {
    seq(|ms|, i requires 0 <= i < |ms| =>
      Message(ms[i].role, seq(|ms[i].content|, j requires 0 <= j < |ms[i].content| => EraseBlock(ms[i].content[j]))))
  }

  lemma {:induction false} EraseConcat(b: Block, c: Block)
    ensures EraseBlock(b + c) == EraseBlock(b) + EraseBlock(c)
  {
    if b == [] {
      assert b + c == c;
    } else {
      assert (b + c)[1..] == b[1..] + c;
      EraseConcat(b[1..], c);
    }
  }

  lemma {:induction false} EraseUnmarked(b: Block)
    requires !HasMarker(b)
    ensures EraseBlock(b) == b
  {
    if b != [] {
      assert b[0].0 in Keys(b);
      assert forall i | 0 <= i < |b[1..]| :: b[1..][i].0 == b[i + 1].0 && b[i + 1].0 in Keys(b);
      EraseUnmarked(b[1..]);
    }
  }

  predicate Unmarked(ms: seq<Message>) {
    forall i, j | 0 <= i < |ms| && 0 <= j < |ms[i].content| :: !HasMarker(ms[i].content[j])
  }

  lemma EraseMarkedMessage(m: Message)
    requires Markable(m)
    ensures Erase([Marked(m)]) == Erase([m])
  {
    var last := |m.content| - 1;
    EraseConcat(m.content[last], [MARKER]);
    assert [MARKER][1..] == [];
    assert EraseBlock([MARKER]) == EraseBlock([]) == [];
    forall j | 0 <= j < |m.content|
      ensures Erase([Marked(m)])[0].content[j] == Erase([m])[0].content[j]
    {
      if j == last {
        assert Erase([Marked(m)])[0].content[j] == EraseBlock(m.content[last] + [MARKER]);
      }
    }
    assert Erase([Marked(m)])[0].content == Erase([m])[0].content;
  }

  /** Erasing the markers gives back the input, which is itself when it had none. */
  lemma BreakpointsAreAdditive(ms: seq<Message>, entry: Option<int>)
    ensures Erase(WithBreakpoint(ms, entry)) == Erase(ms)
    ensures Unmarked(ms) ==> Erase(ms) == ms
  {
    var r := WithBreakpoint(ms, entry);
    forall i | 0 <= i < |ms| ensures Erase(r)[i] == Erase(ms)[i] {
      if r[i] != ms[i] {
        assert r[i] == Marked(ms[i]);
        EraseMarkedMessage(ms[i]);
        assert Erase([r[i]])[0] == Erase(r)[i] && Erase([ms[i]])[0] == Erase(ms)[i];
      }
    }
    if Unmarked(ms) {
      forall i | 0 <= i < |ms| ensures Erase(ms)[i] == ms[i] {
        forall j | 0 <= j < |ms[i].content| ensures EraseBlock(ms[i].content[j]) == ms[i].content[j] {
          EraseUnmarked(ms[i].content[j]);
        }
      }
    }
  }

  // --- bounded, and where ------------------------------------------------------------------------------

  function MarkersIn(bs: seq<Block>): nat {
    if bs == [] then 0
    else MarkersIn(bs[..|bs| - 1]) + if HasMarker(bs[|bs| - 1]) then 1 else 0
  }

  /** Number of marked blocks in an array. */
  function Markers(ms: seq<Message>): nat {
    if ms == [] then 0 else Markers(ms[..|ms| - 1]) + MarkersIn(ms[|ms| - 1].content)
  }

  lemma {:induction false} NoMarkers(bs: seq<Block>)
    requires forall j | 0 <= j < |bs| :: !HasMarker(bs[j])
    ensures MarkersIn(bs) == 0
  {
    if bs != [] {
      NoMarkers(bs[..|bs| - 1]);
    }
  }

  lemma MarkedHasOneMore(m: Message)
    requires Markable(m)
    ensures MarkersIn(Marked(m).content) == MarkersIn(m.content) + 1
  {
    var last := |m.content| - 1;
    var c: seq<Block> := Marked(m).content;
    var tail: Block := c[last];
    assert tail[|tail| - 1].0 == "cache_control";
    assert c[..last] == m.content[..last];
  }

  /** Marked positions, counted one message at a time. */
  lemma {:induction false} MarkersCount(ms: seq<Message>, r: seq<Message>, at: set<nat>)
    requires |r| == |ms|
    requires forall i | i in at :: i < |ms|
    requires forall i | 0 <= i < |ms| :: if i in at then Markable(ms[i]) && r[i] == Marked(ms[i]) else r[i] == ms[i]
    ensures Markers(r) == Markers(ms) + |at|
  {
    hide MarkersIn, Marked, Markable;
    if ms == [] {
      assert at == {};
    } else {
      var n := |ms| - 1;
      var rest := at - {n};
      forall i | 0 <= i < n
        ensures if i in rest then Markable(ms[..n][i]) && r[..n][i] == Marked(ms[..n][i]) else r[..n][i] == ms[..n][i]
      {
      }
      MarkersCount(ms[..n], r[..n], rest);
      if n in at {
        MarkedHasOneMore(ms[n]);
        assert |at| == |rest| + 1;
      } else {
        assert at == rest;
      }
    }
  }

  /** Where `with_history_breakpoint` adds markers: nowhere, on the tip, or on the tip and the second message. */
  function NewMarkers(ms: seq<Message>, entry: Option<int>): set<nat> {
    if ms == [] || !Markable(ms[|ms| - 1]) then {}
    else
      match SecondMarker(ms, entry)
      case Some(a) => {|ms| - 1, a}
      case None => {|ms| - 1}
  }

  lemma BreakpointPlaces(ms: seq<Message>, entry: Option<int>)
    ensures var at, r := NewMarkers(ms, entry), WithBreakpoint(ms, entry);
            && (forall i | i in at :: i < |ms|)
            && (forall i | 0 <= i < |ms| ::
                  if i in at then Markable(ms[i]) && r[i] == Marked(ms[i]) else r[i] == ms[i])
  {
    hide Markable, Marked, HasMarker;
  }

  /** That many markers more, exactly there, and no other change: one, or two where there is a second one to place. */
  lemma BreakpointsBounded(ms: seq<Message>, entry: Option<int>)
    ensures Markers(WithBreakpoint(ms, entry)) == Markers(ms) + |NewMarkers(ms, entry)|
    ensures forall i | 0 <= i < |ms| && i !in NewMarkers(ms, entry) :: WithBreakpoint(ms, entry)[i] == ms[i]
    ensures |NewMarkers(ms, entry)| == if ms == [] || !Markable(ms[|ms| - 1]) then 0
                                       else if SecondMarker(ms, entry).Some? then 2 else 1
  {
    hide WithBreakpoint, Markers, Marked, Markable, Candidate;
    BreakpointPlaces(ms, entry);
    MarkersCount(ms, WithBreakpoint(ms, entry), NewMarkers(ms, entry));
    if ms != [] && Markable(ms[|ms| - 1]) && SecondMarker(ms, entry).Some? {
      assert |{|ms| - 1, SecondMarker(ms, entry).value}| == 2;
    }
  }

  /**
   The second marker sits on `a` exactly when the tip is more than 19 blocks past a valid entry
   and `a` is the deepest message before the tip still within 19 blocks of that entry.
   */
  lemma SecondMarkerIs(ms: seq<Message>, entry: Option<int>, a: nat)
    requires ms != []
    ensures SecondMarker(ms, entry) == Some(a) <==>
            && entry.Some? && 0 <= entry.value < |ms| - 1
            && Distance(ms, entry.value, |ms| - 1) > 19
            && IsDeepest(ms, entry.value, |ms| - 2, a)
            && Markable(ms[a])
  {
    if entry.Some? && 0 <= entry.value < |ms| - 1 {
      DeepestIs(ms, entry.value, |ms| - 2, a);
      if Deepest(ms, entry.value, |ms| - 2).Some? {
        DeepestIs(ms, entry.value, |ms| - 2, Deepest(ms, entry.value, |ms| - 2).value);
      }
    }
  }

  lemma {:induction false} MarkersConcat(a: seq<Message>, b: seq<Message>)
    ensures Markers(a + b) == Markers(a) + Markers(b)
  {
    if b == [] {
      assert a + b == a;
    } else {
      assert (a + b)[..|a + b| - 1] == a + b[..|b| - 1];
      MarkersConcat(a, b[..|b| - 1]);
    }
  }

  // --- still legal -------------------------------------------------------------------------------------------

  lemma {:induction false} GetMarked(b: Block, key: string)
    requires key != "cache_control"
    ensures Get(b + [MARKER], key) == Get(b, key)
  {
    if b == [] {
      assert b + [MARKER] == [MARKER] && [MARKER][1..] == [];
    } else {
      assert (b + [MARKER])[1..] == b[1..] + [MARKER];
      GetMarked(b[1..], key);
    }
  }

  lemma MarkIfSameWire(ms: seq<Message>, i: nat)
    requires i < |ms|
    ensures SameWire(ms, MarkIf(ms, i))
  {
    if Markable(ms[i]) {
      var b := ms[i].content[|ms[i].content| - 1];
      GetMarked(b, "type");
      GetMarked(b, "id");
      GetMarked(b, "tool_use_id");
    }
  }

  /** Markers change nothing that the API checks. */
  lemma BreakpointKeepsLegality(ms: seq<Message>, entry: Option<int>)
    ensures Legal(WithBreakpoint(ms, entry)) <==> Legal(ms)
    ensures AnswersTools(WithBreakpoint(ms, entry)) <==> AnswersTools(ms)
  {
    hide Legal, AnswersTools, MarkIf;
    if ms != [] {
      MarkIfSameWire(ms, |ms| - 1);
      SameWireSameLegality(ms, MarkIf(ms, |ms| - 1));
      SameWireSameTools(ms, MarkIf(ms, |ms| - 1));
      match Candidate(ms, entry) {
        case Some(a) =>
          MarkIfSameWire(MarkIf(ms, |ms| - 1), a);
          SameWireSameLegality(MarkIf(ms, |ms| - 1), MarkIf(MarkIf(ms, |ms| - 1), a));
          SameWireSameTools(MarkIf(ms, |ms| - 1), MarkIf(MarkIf(ms, |ms| - 1), a));
        case None =>
      }
    }
  }
}
