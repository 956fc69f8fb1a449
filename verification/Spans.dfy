/**
 Span nesting of one traced turn (backend/app/agent/tracing.py). The turn's coroutine opens the root and the
 model rounds; `gather` starts one task a tool call, each with its own copy of the context; tasks interleave
 at will, and each may open any number of retriever spans.
 */
module Spans {
  import opened Json

  datatype Kind = Agent | Llm | Tool | Retriever

  datatype Span = Span(id: nat, parent: Option<nat>, kind: Kind, name: string, start: real)

  /** Who opened a span: the turn's own coroutine, or the task of one dispatch. */
  datatype Opener = Main | Dispatch(task: nat)

  /** The context of one gathered task: its parent before and, once its tool span is open, the saved token. */
  datatype Task =
    | Fresh(parent: Option<nat>)
    | InTool(parent: Option<nat>, saved: Option<nat>)
    | Over(parent: Option<nat>)

  /** `openers` says, span by span, who opened it: history the code does not keep. */
  datatype State = State(
    begun: bool, counter: nat, spans: seq<Span>, openers: seq<Opener>, parent: Option<nat>, tasks: seq<Task>)

  const START := State(false, 0, [], [], None, [])

  datatype Action =
    | BeginTurn(now: real)
    | ModelRound(now: real)
    | Gather(calls: nat)
    | ToolBegins(task: nat, name: string, now: real)
    | Retrieve(task: nat, name: string, now: real)
    | ToolEnds(task: nat)
    | EndTurn

  /** `_Trace.open` */
  function Opened(s: State, who: Opener, kind: Kind, name: string, parent: Option<nat>, now: real): State {
    s.(counter := s.counter + 1,
       spans := s.spans + [Span(s.counter + 1, parent, kind, name, now)],
       openers := s.openers + [who])
  }

  /** The clock never runs backwards. */
  predicate OnTime(s: State, now: real) {
    s.spans == [] || s.spans[|s.spans| - 1].start <= now
  }

  predicate Enabled(s: State, a: Action) {
    match a
    case BeginTurn(now) => !s.begun && OnTime(s, now)
    case ModelRound(now) => s.begun && s.parent.Some? && OnTime(s, now)
    case Gather(_) => s.begun && s.parent.Some?
    case ToolBegins(t, _, now) => t < |s.tasks| && s.tasks[t].Fresh? && OnTime(s, now)
    case Retrieve(t, _, now) => t < |s.tasks| && s.tasks[t].InTool? && OnTime(s, now)
    case ToolEnds(t) => t < |s.tasks| && s.tasks[t].InTool?
    case EndTurn => s.begun && s.parent.Some?
  }

  /** One step; an action that cannot happen changes nothing. */
  function Step(s: State, a: Action): State {
    if !Enabled(s, a) then s
    else
      match a
      case BeginTurn(now) =>
        var t := Opened(s, Main, Agent, "chat_turn", None, now);
        t.(begun := true, parent := Some(t.counter))
      case ModelRound(now) => Opened(s, Main, Llm, "model_round", s.parent, now)
      case Gather(calls) => s.(tasks := s.tasks + seq(calls, _ => Fresh(s.parent)))
      case ToolBegins(t, name, now) =>
        var u := Opened(s, Dispatch(t), Tool, name, s.tasks[t].parent, now);
        u.(tasks := s.tasks[t := InTool(Some(u.counter), s.tasks[t].parent)])
      case Retrieve(t, name, now) => Opened(s, Dispatch(t), Retriever, name, s.tasks[t].parent, now)
      case ToolEnds(t) => s.(tasks := s.tasks[t := Over(s.tasks[t].saved)])
      case EndTurn => s.(parent := None)
  }

  function Run(acts: seq<Action>): State {
    if acts == [] then START else Step(Run(acts[..|acts| - 1]), acts[|acts| - 1])
  }

  /** What a span says of itself. */
  datatype Entry = Entry(kind: Kind, name: string, start: real)

  /** What happened at an action, if anything that is traced. */
  function EntryOf(a: Action): Option<Entry> {
    match a
    case BeginTurn(now) => Some(Entry(Agent, "chat_turn", now))
    case ModelRound(now) => Some(Entry(Llm, "model_round", now))
    case ToolBegins(_, name, now) => Some(Entry(Tool, name, now))
    case Retrieve(_, name, now) => Some(Entry(Retriever, name, now))
    case _ => None
  }

  function Happened(acts: seq<Action>): seq<Entry> {
    if acts == [] then []
    else
      var init, a := acts[..|acts| - 1], acts[|acts| - 1];
      Happened(init) + if Enabled(Run(init), a) && EntryOf(a).Some? then [EntryOf(a).value] else []
  }

  function Entries(spans: seq<Span>): (r: seq<Entry>)
    ensures |r| == |spans|
  {
    seq(|spans|, i requires 0 <= i < |spans| => Entry(spans[i].kind, spans[i].name, spans[i].start))
  }

  /** A trace tells what happened, in order: one span for every round, tool and retrieval, with its name and start. */
  lemma {:induction false} TraceTells(acts: seq<Action>)
    ensures Entries(Run(acts).spans) == Happened(acts)
    decreases |acts|
  {
    if acts == [] {
    } else {
      var init, a := acts[..|acts| - 1], acts[|acts| - 1];
      TraceTells(init);
      var s, t := Run(init), Run(acts);
      if Enabled(s, a) && EntryOf(a).Some? {
        assert t.spans == s.spans + [t.spans[|s.spans|]];
        assert Entries(t.spans) == Entries(s.spans) + [EntryOf(a).value];
      } else {
        assert t.spans == s.spans;
      }
    }
  }

  // --- the tree ------------------------------------------------------------------------------------------

  /** Ids are 1, 2, 3 … in opening order, only the first span has no parent, and starts never go back. */
  predicate Numbered(s: State) {
    && s.counter == |s.spans| == |s.openers|
    && (forall i | 0 <= i < |s.spans| :: s.spans[i].id == i + 1)
    && (forall i | 0 <= i < |s.spans| :: i == 0 <==> s.spans[i].parent.None?)
    && (forall i | 0 < i < |s.spans| :: 1 <= s.spans[i].parent.value <= i)
    && (forall i, j | 0 <= i < j < |s.spans| :: s.spans[i].start <= s.spans[j].start)
  }

  /** What a span hangs under: rounds and tools under the root, a retriever under its own dispatch's tool. */
  predicate Nested(s: State, i: nat)
    requires Numbered(s) && i < |s.spans|
  {
    match s.spans[i].kind
    case Agent => i == 0 && s.openers[i] == Main
    case Llm => i > 0 && s.openers[i] == Main && s.spans[i].parent == Some(1)
    case Tool => i > 0 && s.openers[i].Dispatch? && s.spans[i].parent == Some(1)
    case Retriever =>
      && i > 0 && s.openers[i].Dispatch?
      && var p := s.spans[i].parent.value - 1;
         s.spans[p].kind == Tool && s.openers[p] == s.openers[i]
  }

  /** The context of a task: the root before and after its tool span, that span in between. */
  predicate InContext(s: State, t: nat)
    requires Numbered(s) && t < |s.tasks|
  {
    match s.tasks[t]
    case Fresh(parent) => parent == Some(1) && Unopened(s, t)
    case InTool(parent, saved) =>
      && saved == Some(1) && parent.Some? && 2 <= parent.value <= |s.spans|
      && s.spans[parent.value - 1].kind == Tool && s.openers[parent.value - 1] == Dispatch(t)
    case Over(parent) => parent == Some(1)
  }

  predicate Unopened(s: State, t: nat) {
    forall i | 0 <= i < |s.openers| :: s.openers[i] != Dispatch(t)
  }

  /** One tool span a dispatch. */
  predicate OneToolEach(s: State)
    requires Numbered(s)
  {
    forall i, j | 0 <= i < j < |s.spans| && s.spans[i].kind == Tool && s.spans[j].kind == Tool ::
      s.openers[i] != s.openers[j]
  }

  predicate SpansOk(s: State) {
    && Numbered(s)
    && (s.begun <==> s.spans != [])
    && (s.parent.Some? ==> s.begun && s.parent == Some(1))
    && (forall i | 0 <= i < |s.spans| :: Nested(s, i))
    && OneToolEach(s)
  }

  predicate TasksOk(s: State)
    requires Numbered(s)
  {
    && (s.tasks != [] ==> s.begun)
    && (forall i | 0 <= i < |s.openers| :: s.openers[i].Dispatch? ==> s.openers[i].task < |s.tasks|)
    && (forall t | 0 <= t < |s.tasks| :: InContext(s, t))
  }

  predicate TreeInv(s: State) {
    SpansOk(s) && TasksOk(s)
  }

  /** Opening a span under an earlier one keeps what is already there. */
  lemma OpenKeeps(s: State, who: Opener, kind: Kind, name: string, parent: Option<nat>, now: real)
    requires Numbered(s) && OnTime(s, now)
    requires if s.spans == [] then parent.None? else parent.Some? && 1 <= parent.value <= |s.spans|
    ensures var t := Opened(s, who, kind, name, parent, now);
            && Numbered(t)
            && (forall i | 0 <= i < |s.spans| :: Nested(s, i) ==> Nested(t, i))
            && (OneToolEach(s) && (kind == Tool ==> forall i | 0 <= i < |s.openers| :: s.openers[i] != who)
                ==> OneToolEach(t))
  {
    hide Nested, OneToolEach;
    OpenNumbers(s, who, kind, name, parent, now);
    OpenKeepsNesting(s, who, kind, name, parent, now);
    if OneToolEach(s) && (kind == Tool ==> forall i | 0 <= i < |s.openers| :: s.openers[i] != who) {
      OpenKeepsOneTool(s, who, kind, name, parent, now);
    }
  }

  lemma OpenNumbers(s: State, who: Opener, kind: Kind, name: string, parent: Option<nat>, now: real)
    requires Numbered(s) && OnTime(s, now)
    requires if s.spans == [] then parent.None? else parent.Some? && 1 <= parent.value <= |s.spans|
    ensures Numbered(Opened(s, who, kind, name, parent, now))
  {
  }

  lemma OpenKeepsNesting(s: State, who: Opener, kind: Kind, name: string, parent: Option<nat>, now: real)
    requires Numbered(s) && Numbered(Opened(s, who, kind, name, parent, now))
    ensures var t := Opened(s, who, kind, name, parent, now);
            forall i | 0 <= i < |s.spans| :: Nested(s, i) ==> Nested(t, i)
  {
  }

  lemma OpenKeepsOneTool(s: State, who: Opener, kind: Kind, name: string, parent: Option<nat>, now: real)
    requires Numbered(s) && Numbered(Opened(s, who, kind, name, parent, now)) && OneToolEach(s)
    requires kind == Tool ==> forall i | 0 <= i < |s.openers| :: s.openers[i] != who
    ensures OneToolEach(Opened(s, who, kind, name, parent, now))
  {
  }

  lemma OpenKeepsContext(s: State, who: Opener, kind: Kind, name: string, parent: Option<nat>, now: real, t: nat)
    requires Numbered(s) && Numbered(Opened(s, who, kind, name, parent, now))
    requires t < |s.tasks| && InContext(s, t) && (s.tasks[t].Fresh? ==> who != Dispatch(t))
    ensures InContext(Opened(s, who, kind, name, parent, now), t)
  {
  }

  lemma ModelRoundKeepsTree(s: State, now: real)
    requires TreeInv(s) && Enabled(s, ModelRound(now))
    ensures TreeInv(Step(s, ModelRound(now)))
  {
    OpenKeeps(s, Main, Llm, "model_round", s.parent, now);
    forall t | 0 <= t < |s.tasks| ensures InContext(Step(s, ModelRound(now)), t) {
      OpenKeepsContext(s, Main, Llm, "model_round", s.parent, now, t);
    }
  }

  lemma GatherKeepsTree(s: State, calls: nat)
    requires TreeInv(s) && Enabled(s, Gather(calls))
    ensures TreeInv(Step(s, Gather(calls)))
  {
    var u := Step(s, Gather(calls));
    forall i | 0 <= i < |u.spans| ensures Nested(u, i) {
      assert Nested(s, i);
    }
    forall t | 0 <= t < |u.tasks| ensures InContext(u, t) {
      assert t < |s.tasks| ==> InContext(s, t);
    }
  }

  /** Only the context of one task changes. */
  lemma SameSpans(o: State, u: State)
    requires Numbered(o) && u.counter == o.counter && u.spans == o.spans && u.openers == o.openers
    ensures Numbered(u) && (OneToolEach(o) ==> OneToolEach(u))
    ensures forall i | 0 <= i < |o.spans| :: Nested(o, i) ==> Nested(u, i)
    ensures forall v | 0 <= v < |o.tasks| && v < |u.tasks| && o.tasks[v] == u.tasks[v] ::
              InContext(o, v) ==> InContext(u, v)
  {
  }

  lemma ToolBeginsKeepsTree(s: State, t: nat, name: string, now: real)
    requires TreeInv(s) && Enabled(s, ToolBegins(t, name, now))
    ensures TreeInv(Step(s, ToolBegins(t, name, now)))
  {
    var o, u := Opened(s, Dispatch(t), Tool, name, s.tasks[t].parent, now), Step(s, ToolBegins(t, name, now));
    assert InContext(s, t);
    OpenKeeps(s, Dispatch(t), Tool, name, s.tasks[t].parent, now);
    SameSpans(o, u);
    forall i | 0 <= i < |u.spans| ensures Nested(u, i) {
      assert i < |s.spans| ==> Nested(s, i) && Nested(o, i);
    }
    forall v | 0 <= v < |u.tasks| ensures InContext(u, v) {
      if v != t {
        OpenKeepsContext(s, Dispatch(t), Tool, name, s.tasks[t].parent, now, v);
      }
    }
  }

  lemma RetrieveKeepsTree(s: State, t: nat, name: string, now: real)
    requires TreeInv(s) && Enabled(s, Retrieve(t, name, now))
    ensures TreeInv(Step(s, Retrieve(t, name, now)))
  {
    var u := Step(s, Retrieve(t, name, now));
    assert InContext(s, t);
    OpenKeeps(s, Dispatch(t), Retriever, name, s.tasks[t].parent, now);
    forall i | 0 <= i < |u.spans| ensures Nested(u, i) {
      assert i < |s.spans| ==> Nested(s, i);
    }
    forall v | 0 <= v < |u.tasks| ensures InContext(u, v) {
      OpenKeepsContext(s, Dispatch(t), Retriever, name, s.tasks[t].parent, now, v);
    }
  }

  lemma ToolEndsKeepsTree(s: State, t: nat)
    requires TreeInv(s) && Enabled(s, ToolEnds(t))
    ensures TreeInv(Step(s, ToolEnds(t)))
  {
    var u := Step(s, ToolEnds(t));
    assert InContext(s, t);
    forall i | 0 <= i < |u.spans| ensures Nested(u, i) {
      assert Nested(s, i);
    }
    forall v | 0 <= v < |u.tasks| ensures InContext(u, v) {
      assert InContext(s, v);
    }
  }

  lemma StepKeepsTree(s: State, a: Action)
    requires TreeInv(s)
    ensures TreeInv(Step(s, a))
  {
    if Enabled(s, a) {
      match a
      case BeginTurn(now) =>
      case ModelRound(now) => ModelRoundKeepsTree(s, now);
      case Gather(calls) => GatherKeepsTree(s, calls);
      case ToolBegins(t, name, now) => ToolBeginsKeepsTree(s, t, name, now);
      case Retrieve(t, name, now) => RetrieveKeepsTree(s, t, name, now);
      case ToolEnds(t) => ToolEndsKeepsTree(s, t);
      case EndTurn => EndTurnKeepsTree(s);
    }
  }

  lemma TreeIsParallel(s: State)
    requires TreeInv(s)
    ensures |s.openers| == |s.spans|
  {
  }

  lemma EndTurnKeepsTree(s: State)
    requires TreeInv(s) && Enabled(s, EndTurn)
    ensures TreeInv(Step(s, EndTurn))
  {
    var u := Step(s, EndTurn);
    forall i | 0 <= i < |u.spans| ensures Nested(u, i) {
      assert Nested(s, i);
    }
    forall v | 0 <= v < |u.tasks| ensures InContext(u, v) {
      assert InContext(s, v);
    }
  }

  /** For every interleaving of any number of rounds and tools. */
  lemma {:induction false} TreeAlways(acts: seq<Action>)
    ensures TreeInv(Run(acts))
  {
    if acts != [] {
      TreeAlways(acts[..|acts| - 1]);
      StepKeepsTree(Run(acts[..|acts| - 1]), acts[|acts| - 1]);
    }
  }

  predicate IsToolOf(x: Span, who: Opener, t: nat, name: string) {
    x.kind == Tool && who == Dispatch(t) && x.name == name
  }

  /** The call that task `t` dispatches has its tool span. */
  predicate Traced(spans: seq<Span>, openers: seq<Opener>, t: nat, name: string) {
    exists i | 0 <= i < |spans| && i < |openers| :: IsToolOf(spans[i], openers[i], t, name)
  }

  /** Nothing that was there is gone, and what is new was opened by tasks. */
  predicate Grown(s: State, u: State) {
    && s.spans <= u.spans && s.openers <= u.openers
    && forall i | |s.openers| <= i < |u.openers| :: u.openers[i].Dispatch?
  }

  /** What the turn's own coroutine opened, in order. */
  function ByMain(spans: seq<Span>, openers: seq<Opener>): seq<Kind>
    requires |spans| == |openers|
  {
    if spans == [] then []
    else
      var k := |spans| - 1;
      ByMain(spans[..k], openers[..k]) + if openers[k] == Main then [spans[k].kind] else []
  }

  lemma ByMainOneMore(spans: seq<Span>, openers: seq<Opener>, x: Span, who: Opener)
    requires |spans| == |openers|
    ensures ByMain(spans + [x], openers + [who]) == ByMain(spans, openers) + if who == Main then [x.kind] else []
  {
    assert (spans + [x])[..|spans|] == spans && (openers + [who])[..|openers|] == openers;
  }

  lemma {:induction false} ByMainStays(s: State, u: State)
    requires |s.spans| == |s.openers| && |u.spans| == |u.openers| && Grown(s, u)
    ensures ByMain(u.spans, u.openers) == ByMain(s.spans, s.openers)
    decreases |u.spans|
  {
    if |u.spans| == |s.spans| {
      assert u.spans == s.spans && u.openers == s.openers;
    } else {
      var k := |u.spans| - 1;
      ByMainStays(s, u.(spans := u.spans[..k], openers := u.openers[..k]));
    }
  }

  lemma TracedStays(s: State, u: State, t: nat, name: string)
    requires Traced(s.spans, s.openers, t, name) && s.spans <= u.spans && s.openers <= u.openers
    ensures Traced(u.spans, u.openers, t, name)
  {
    var i :| 0 <= i < |s.spans| && i < |s.openers| && IsToolOf(s.spans[i], s.openers[i], t, name);
    assert IsToolOf(u.spans[i], u.openers[i], t, name);
  }

  /** Every task is over, its context back at the root. */
  predicate AllOver(tasks: seq<Task>) {
    forall t | 0 <= t < |tasks| :: tasks[t] == Over(Some(1))
  }

  /** The tasks are those of these calls, each with its span. */
  predicate AllTraced(s: State, names: seq<string>) {
    |s.tasks| == |names| && forall t | 0 <= t < |names| :: Traced(s.spans, s.openers, t, names[t])
  }

  lemma AllTracedMore(s: State, u: State, done: seq<string>, names: seq<string>)
    requires AllTraced(s, done) && s.spans <= u.spans && s.openers <= u.openers
    requires |u.tasks| == |done| + |names|
    requires forall k | 0 <= k < |names| :: Traced(u.spans, u.openers, |done| + k, names[k])
    ensures AllTraced(u, done + names)
  {
    forall t | 0 <= t < |u.tasks| ensures Traced(u.spans, u.openers, t, (done + names)[t]) {
      if t < |done| {
        TracedStays(s, u, t, done[t]);
      } else {
        assert Traced(u.spans, u.openers, |done| + (t - |done|), names[t - |done|]);
      }
    }
  }

  /** Before `first` every task is over; each of the others works on its name and has its span once begun. */
  predicate Working(s: State, first: nat, names: seq<string>) {
    && |s.tasks| == first + |names|
    && AllOver(s.tasks[..first])
    && (forall t | first <= t < |s.tasks| :: s.tasks[t].Fresh? || Traced(s.spans, s.openers, t, names[t - first]))
  }

  lemma WorkingKept(s: State, u: State, first: nat, names: seq<string>, task: nat)
    requires Working(s, first, names) && Grown(s, u) && first <= task < |u.tasks| == |s.tasks|
    requires u.tasks == s.tasks[task := u.tasks[task]]
    requires || u.tasks[task].Fresh? || s.tasks[task] == u.tasks[task]
             || Traced(u.spans, u.openers, task, names[task - first])
    ensures Working(u, first, names)
  {
    assert u.tasks[..first] == s.tasks[..first];
    forall t | first <= t < |u.tasks| && !u.tasks[t].Fresh? ensures Traced(u.spans, u.openers, t, names[t - first]) {
      if s.tasks[t] == u.tasks[t] {
        TracedStays(s, u, t, names[t - first]);
      }
    }
  }

  function Concat(rounds: seq<seq<string>>): seq<string> {
    if rounds == [] then [] else Concat(rounds[..|rounds| - 1]) + rounds[|rounds| - 1]
  }

  // --- the tracer, step by step -----------------------------------------------------------------------------

  lemma RunOneMore(acts: seq<Action>, a: Action)
    ensures Run(acts + [a]) == Step(Run(acts), a)
  {
    assert (acts + [a])[..|acts|] == acts;
  }

  /** The open trace and the two context variables: `parent` in the turn's context, and a copy in each task. */
  class Tracer {
    var begun: bool
    var counter: nat
    var spans: seq<Span>
    ghost var openers: seq<Opener>
    var parent: Option<nat>
    var tasks: seq<Task>
    ghost var acts: seq<Action>

    ghost function Now(): State
      reads this
    {
      State(begun, counter, spans, openers, parent, tasks)
    }

    /** What there is came about by the steps recorded, so the spans form the tree of `TreeAlways`. */
    ghost predicate Valid()
      reads this
    {
      TreeInv(Now()) && Now() == Run(acts) && |spans| == |openers|
    }

    constructor ()
      ensures Valid() && Now() == START
    {
      begun, counter, spans, openers, parent, tasks, acts := false, 0, [], [], None, [], [];
    }

    /** The step just taken joins the record. */
    ghost method Record(a: Action, before: State)
      requires TreeInv(before) && before == Run(acts) && Now() == Step(before, a)
      modifies `acts
      ensures Valid() && acts == old(acts) + [a]
    {
      hide TreeInv, Run;
      StepKeepsTree(before, a);
      TreeIsParallel(Now());
      RunOneMore(acts, a);
      acts := acts + [a];
    }

    /** Some time not before the last span's start. */
    method Clock() returns (now: real)
      ensures OnTime(Now(), now)
    {
      now := *;
      if spans != [] && now < spans[|spans| - 1].start {
        now := spans[|spans| - 1].start;
      }
    }

    /** `_Trace.open` */
    method Open(ghost who: Opener, kind: Kind, name: string, parentId: Option<nat>, now: real) returns (id: nat)
      modifies `counter, `spans, `openers
      ensures Now() == Opened(old(Now()), who, kind, name, parentId, now)
      ensures id == counter
    {
      counter := counter + 1;
      id := counter;
      spans, openers := spans + [Span(id, parentId, kind, name, now)], openers + [who];
    }

    /** `observe_turn`, up to its first chunk: one span, the root. */
    method BeginTurn(now: real)
      requires Valid() && !begun && OnTime(Now(), now)
      modifies this
      ensures Valid() && begun && tasks == old(tasks) && acts == old(acts) + [Action.BeginTurn(now)]
      ensures spans == [Span(1, None, Agent, "chat_turn", now)] && openers == [Main] && parent == Some(1)
    {
      ghost var before := Now();
      var root := Open(Main, Agent, "chat_turn", None, now);
      begun, parent := true, Some(root);
      Record(Action.BeginTurn(now), before);
    }

    /** `observe_model_round`: under the root, and no context changes. */
    method ModelRound(now: real)
      requires Valid() && parent.Some? && OnTime(Now(), now)
      modifies this
      ensures Valid() && begun && parent == old(parent) && tasks == old(tasks)
      ensures spans == old(spans) + [Span(|old(spans)| + 1, Some(1), Llm, "model_round", now)]
      ensures openers == old(openers) + [Main]
    {
      ghost var before := Now();
      var _ := Open(Main, Llm, "model_round", parent, now);
      Record(Action.ModelRound(now), before);
    }

    /** `asyncio.gather`: every task starts with a copy of the context. */
    method Gather(calls: nat)
      requires Valid() && parent.Some?
      modifies this
      ensures Valid() && begun && parent == old(parent) && spans == old(spans) && openers == old(openers)
      ensures tasks == old(tasks) + seq(calls, _ => Fresh(Some(1)))
    {
      ghost var before := Now();
      var copy := parent;
      tasks := tasks + seq(calls, _ => Fresh(copy));
      Record(Action.Gather(calls), before);
    }

    /** `observe_tool`, up to its await: a span under the root, now the parent in this task and in no other. */
    method ToolBegins(task: nat, name: string, now: real)
      requires Valid() && task < |tasks| && tasks[task].Fresh? && OnTime(Now(), now)
      modifies this
      ensures Valid() && begun == old(begun) && parent == old(parent)
      ensures spans == old(spans) + [Span(|old(spans)| + 1, Some(1), Tool, name, now)]
      ensures openers == old(openers) + [Dispatch(task)]
      ensures tasks == old(tasks)[task := InTool(Some(|old(spans)| + 1), Some(1))]
      ensures Traced(spans, openers, task, name)
    {
      ghost var before := Now();
      assert InContext(before, task);
      var token := tasks[task].parent;
      var id := Open(Dispatch(task), Tool, name, token, now);
      tasks := tasks[task := InTool(Some(id), token)];
      Record(Action.ToolBegins(task, name, now), before);
      assert IsToolOf(spans[|old(spans)|], openers[|old(spans)|], task, name);
    }

    /**
     `observe_embedding` and `observe_retrieval`: whatever other tasks have done since, the span hangs under the
     tool span that this very task opened. No context changes.
     */
    method Retrieve(task: nat, name: string, now: real)
      requires Valid() && task < |tasks| && tasks[task].InTool? && OnTime(Now(), now)
      modifies this
      ensures Valid() && begun == old(begun) && parent == old(parent) && tasks == old(tasks)
      ensures |spans| == |old(spans)| + 1 && old(spans) <= spans && openers == old(openers) + [Dispatch(task)]
      ensures var x := spans[|old(spans)|];
              && x.kind == Retriever && x.name == name && x.id == |spans| && x.start == now
              && x.parent.Some? && 1 <= x.parent.value < x.id
              && old(spans)[x.parent.value - 1].kind == Tool && openers[x.parent.value - 1] == Dispatch(task)
    {
      ghost var before := Now();
      assert InContext(before, task);
      var _ := Open(Dispatch(task), Retriever, name, tasks[task].parent, now);
      Record(Action.Retrieve(task, name, now), before);
    }

    /** `observe_tool`, its `finally`: the task's parent is again the one it was started with, the root. */
    method ToolEnds(task: nat)
      requires Valid() && task < |tasks| && tasks[task].InTool?
      modifies this
      ensures Valid() && begun == old(begun) && parent == old(parent)
      ensures spans == old(spans) && openers == old(openers)
      ensures tasks == old(tasks)[task := Over(Some(1))]
    {
      ghost var before := Now();
      assert InContext(before, task);
      tasks := tasks[task := Over(tasks[task].saved)];
      Record(Action.ToolEnds(task), before);
    }

    /** `observe_turn`, its `finally`. */
    method EndTurn()
      requires Valid() && parent.Some?
      modifies this
      ensures Valid() && begun && parent == None
      ensures spans == old(spans) && openers == old(openers) && tasks == old(tasks)
    {
      ghost var before := Now();
      parent := None;
      Record(Action.EndTurn, before);
    }

    // --- a whole turn ------------------------------------------------------------------------------------------

    /** The next step of one task, whichever it may be. */
    method OneStep(task: nat, ghost first: nat, name: string, ghost names: seq<string>)
      requires Valid() && parent == Some(1) && Working(Now(), first, names)
      requires first <= task < |tasks| && names[task - first] == name
      modifies this
      ensures Valid() && parent == Some(1) && Working(Now(), first, names) && Grown(old(Now()), Now())
    {
      hide TreeInv, Run, Traced;
      var now := Clock();
      match tasks[task] {
        case Fresh(_) =>
          ToolBegins(task, name, now);
        case InTool(_, _) =>
          if {
            case true => Retrieve(task, "kb_embed", now);
            case true => Retrieve(task, "kb_search", now);
            case true => ToolEnds(task);
          }
          TracedStays(old(Now()), Now(), task, name);
        case Over(_) =>
      }
      WorkingKept(old(Now()), Now(), first, names, task);
    }

    /** What is left of one task: its tool begins if it has not, and ends. */
    method Complete(task: nat, ghost first: nat, name: string, ghost names: seq<string>)
      requires Valid() && parent == Some(1) && Working(Now(), first, names)
      requires first <= task < |tasks| && names[task - first] == name
      modifies this
      ensures Valid() && parent == Some(1) && Working(Now(), first, names) && Grown(old(Now()), Now())
      ensures tasks == old(tasks)[task := Over(Some(1))]
    {
      hide Run, Traced;
      assert InContext(Now(), task);
      if tasks[task].Fresh? {
        var now := Clock();
        ToolBegins(task, name, now);
      }
      if tasks[task].InTool? {
        ToolEnds(task);
      }
      WorkingKept(old(Now()), Now(), first, names, task);
    }

    /**
     `gather` over the calls of one round: the tasks take turns in any order and at any pace, each opening as many
     retriever spans as it likes, until all are over. Then every call has its tool span and the context is as it was.
     */
    method RunTools(names: seq<string>)
      requires Valid() && parent == Some(1) && AllOver(tasks)
      modifies this
      ensures Valid() && parent == Some(1) && AllOver(tasks) && Grown(old(Now()), Now())
      ensures |tasks| == |old(tasks)| + |names|
      ensures forall k | 0 <= k < |names| :: Traced(spans, openers, |old(tasks)| + k, names[k])
    {
      hide TreeInv, Run, Traced;
      var first := |tasks|;
      Gather(|names|);
      var steps: nat := *;
      while steps > 0 && names != []
        invariant Valid() && parent == Some(1) && Working(Now(), first, names) && Grown(old(Now()), Now())
      {
        var task: nat :| first <= task < |tasks|;
        OneStep(task, first, names[task - first], names);
        steps := steps - 1;
      }
      for task := first to |tasks|
        invariant Valid() && parent == Some(1) && Working(Now(), first, names) && Grown(old(Now()), Now())
        invariant forall t | first <= t < task :: tasks[t] == Over(Some(1))
      {
        Complete(task, first, names[task - first], names);
      }
      forall k | 0 <= k < |names| ensures Traced(spans, openers, first + k, names[k]) {
        assert tasks[first + k] == Over(Some(1));
      }
    }

    /** One round: the model's span, then its tools. */
    method OneRound(names: seq<string>, ghost done: seq<string>)
      requires Valid() && parent == Some(1) && AllOver(tasks) && AllTraced(Now(), done)
      modifies this
      ensures Valid() && parent == Some(1) && AllOver(tasks) && AllTraced(Now(), done + names)
      ensures ByMain(spans, openers) == old(ByMain(spans, openers)) + [Llm]
    {
      hide TreeInv, Run, Traced, ByMain;
      var now := Clock();
      ModelRound(now);
      ByMainOneMore(old(spans), old(openers), spans[|spans| - 1], Main);
      ghost var asked := Now();
      RunTools(names);
      ByMainStays(asked, Now());
      AllTracedMore(old(Now()), Now(), done, names);
    }

    /**
     `observe_turn` around the rounds of one message, each given by the tools it calls. The coroutine itself opens
     the root and a span a round; every call of every round ends with one tool span of its name under the root.
     */
    method ObserveTurn(rounds: seq<seq<string>>)
      requires Valid() && Now() == START
      modifies this
      ensures Valid() && begun && parent == None && AllOver(tasks) && AllTraced(Now(), Concat(rounds))
      ensures ByMain(spans, openers) == [Agent] + seq(|rounds|, _ => Llm)
    {
      hide TreeInv, Run, Traced;
      var now := Clock();
      BeginTurn(now);
      assert ByMain(spans, openers) == [Agent] by {
        ByMainOneMore([], [], spans[0], Main);
      }
      for k := 0 to |rounds|
        invariant Valid() && parent == Some(1) && AllOver(tasks) && AllTraced(Now(), Concat(rounds[..k]))
        invariant ByMain(spans, openers) == [Agent] + seq(k, _ => Llm)
      {
        OneRound(rounds[k], Concat(rounds[..k]));
        assert rounds[..k + 1][..k] == rounds[..k];
      }
      assert rounds[..|rounds|] == rounds;
      EndTurn();
    }
  }
}
