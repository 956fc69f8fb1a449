/**
 `_chat_events` (backend/app/agent/loop.py) as it is written: a loop over a live thread. The
 environment is free: how the stream goes, what the model and the tools answer, and which widget
 events land wherever the code waits. The contract ties every execution to a run of `Conversation`.
 */
module ChatLoop {
  import opened Json
  import opened Transcript
  import opened Curation
  import opened Breakpoints
  import opened Tickets
  import opened Conversation
  import opened RunEvents
  import opened ThreadHeap

  /** The state after more actions. */
  ghost function RunFrom(cfg: Config, s: State, acts: seq<Action>): State {
    if acts == [] then s
    else Next(cfg, RunFrom(cfg, s, acts[..|acts| - 1]), acts[|acts| - 1])
  }

  lemma RunStep(cfg: Config, s: State, acts: seq<Action>, a: Action)
    ensures RunFrom(cfg, s, acts + [a]) == Next(cfg, RunFrom(cfg, s, acts), a)
  {
    assert (acts + [a])[..|acts|] == acts;
  }

  lemma {:induction false} RunMore(cfg: Config, s: State, acts: seq<Action>, more: seq<Action>)
    ensures RunFrom(cfg, s, acts + more) == RunFrom(cfg, RunFrom(cfg, s, acts), more)
    decreases |more|
  {
    if more == [] {
      assert acts + more == acts;
    } else {
      RunMore(cfg, s, acts, more[..|more| - 1]);
      assert (acts + more)[..|acts + more| - 1] == acts + more[..|more| - 1];
    }
  }

  lemma RunNone(cfg: Config, s: State)
    ensures RunFrom(cfg, s, []) == s
  {
  }

  /** Going on with a run is a longer run. */
  lemma {:induction false} ExecMore(cfg: Config, acts: seq<Action>, more: seq<Action>)
    ensures Exec(cfg, acts + more) == RunFrom(cfg, Exec(cfg, acts), more)
    decreases |more|
  {
    if more == [] {
      assert acts + more == acts;
    } else {
      ExecMore(cfg, acts, more[..|more| - 1]);
      assert (acts + more)[..|acts + more| - 1] == acts + more[..|more| - 1];
    }
  }

  lemma {:induction false} ExecIsRunFromStart(cfg: Config, acts: seq<Action>)
    ensures Exec(cfg, acts) == RunFrom(cfg, Start(cfg), acts)
    decreases |acts|
  {
    if acts != [] {
      ExecIsRunFromStart(cfg, acts[..|acts| - 1]);
    }
  }

  // --- the ticket rule during one message ---------------------------------------------------------------------------

  /** The user has asked for a ticket in the one history exactly if in the other. */
  ghost predicate SameVerdict(cfg: Config, a: seq<Turn>, b: seq<Turn>) {
    UserInitiated(cfg.phrases, a) == UserInitiated(cfg.phrases, b)
  }

  lemma SameVerdictChain(cfg: Config, a: seq<Turn>, b: seq<Turn>, c: seq<Turn>, d: seq<Turn>)
    ensures SameVerdict(cfg, a, a)
    ensures SameVerdict(cfg, a, b) && SameVerdict(cfg, b, c) ==> SameVerdict(cfg, a, c)
    ensures SameVerdict(cfg, a, b) && SameVerdict(cfg, b, c) && SameVerdict(cfg, c, d) ==> SameVerdict(cfg, a, d)
  {
    hide UserInitiated;
  }

  /** Only a user text changes the verdict. */
  lemma AppendKeepsVerdict(cfg: Config, turns: seq<Turn>, role: Role, kind: Kind, content: seq<Block>, meta: Dict)
    requires kind != UserText
    ensures SameVerdict(cfg, turns, Appended(turns, role, kind, content, meta))
  {
    hide UserInitiated;
    VerdictFixedByUserText(cfg.phrases, turns,
      [Turn(NextNo(turns), role, kind, CanonicalBlocks(content), CanonicalDict(meta))]);
  }

  // --- suspension ----------------------------------------------------------------------------------------------

  /** How a suspension ends: the code goes on, an exception comes out of it, or the consumer has gone. */
  datatype Fate = Going | Broken | Dropped

  lemma FlowStep(cfg: Config, s: State, memo: string, meta: Dict)
    requires WellFormedDict(meta)
    ensures Next(cfg, s, Flow(memo, meta)) == s.(turns := Appended(s.turns, User, FlowEvent, [TextBlock(memo)], meta))
  {
  }

  lemma EmptyWellFormed()
    ensures WellFormedDict([])
  {
  }

  lemma YieldStep(cfg: Config, s: State)
    requires s.outbox != []
    ensures Next(cfg, s, Yield) == s.(emitted := s.emitted + [s.outbox[0]], outbox := s.outbox[1..])
  {
  }

  /** A point where the coroutine is suspended: any number of widget events may be recorded. */
  method Suspend(cfg: Config, thread: Thread, ghost s: State)
    returns (fate: Fate, ghost t: State, ghost more: seq<Action>)
    requires thread.Valid() && s.turns == thread.Log()
    modifies thread`turns
    ensures thread.Valid() && t == s.(turns := thread.Log()) && SameVerdict(cfg, s.turns, t.turns)
    ensures t == RunFrom(cfg, s, more)
  {
    RunNone(cfg, s);
    hide Next, RunFrom, WellFormed, UserInitiated;
    t, more := s, [];
    var n: nat :| true;
    for i := 0 to n
      invariant thread.Valid() && t == s.(turns := thread.Log()) && SameVerdict(cfg, s.turns, t.turns)
      invariant t == RunFrom(cfg, s, more)
    {
      var memo: string :| true;
      EmptyWellFormed();
      var meta: Dict :| WellFormedDict(meta);
      var turn := thread.AppendTurn(User, FlowEvent, [TextBlock(memo)], meta);
      RunStep(cfg, s, more, Flow(memo, meta));
      FlowStep(cfg, t, memo, meta);
      AppendKeepsVerdict(cfg, t.turns, User, FlowEvent, [TextBlock(memo)], meta);
      t, more := Next(cfg, t, Flow(memo, meta)), more + [Flow(memo, meta)];
    }
    fate :| true;
  }

  /** `yield event`: the consumer takes it, and the coroutine is suspended. */
  method Emit(cfg: Config, thread: Thread, e: Event, events: seq<Event>, ghost s: State)
    returns (emitted: seq<Event>, fate: Fate, ghost t: State, ghost more: seq<Action>)
    requires thread.Valid() && s.turns == thread.Log()
    requires s.outbox != [] && s.outbox[0] == e && s.emitted == events
    modifies thread`turns
    ensures thread.Valid() && emitted == events + [e]
    ensures t == s.(turns := thread.Log(), emitted := emitted, outbox := s.outbox[1..])
    ensures t == RunFrom(cfg, s, more) && SameVerdict(cfg, s.turns, t.turns)
  {
    hide Next, UserInitiated;
    emitted := events + [e];
    ghost var u := Next(cfg, s, Yield);
    YieldStep(cfg, s);
    ghost var rest;
    fate, t, rest := Suspend(cfg, thread, u);
    more := [Yield] + rest;
    RunStep(cfg, s, [], Yield);
    assert [] + [Yield] == [Yield];
    RunMore(cfg, s, [Yield], rest);
  }

  /** Emits a list of events in order, as far as it gets. */
  method EmitAll(cfg: Config, thread: Thread, es: seq<Event>, events: seq<Event>, ghost s: State)
    returns (emitted: seq<Event>, fate: Fate, ghost t: State, ghost more: seq<Action>)
    requires thread.Valid() && s.turns == thread.Log()
    requires s.outbox == es && s.emitted == events
    modifies thread`turns
    ensures thread.Valid() && t == s.(turns := thread.Log(), emitted := emitted, outbox := t.outbox)
    ensures fate.Going? ==> emitted == events + es && t.outbox == []
    ensures t == RunFrom(cfg, s, more) && SameVerdict(cfg, s.turns, t.turns)
  {
    RunNone(cfg, s);
    hide RunFrom, Next, UserInitiated;
    emitted, fate, t, more := events, Going, s, [];
    for i := 0 to |es|
      invariant thread.Valid() && emitted == events + es[..i] && fate.Going?
      invariant t == s.(turns := thread.Log(), emitted := emitted, outbox := es[i..])
      invariant t == RunFrom(cfg, s, more) && SameVerdict(cfg, s.turns, t.turns)
    {
      ghost var rest;
      assert es[i..][0] == es[i] && es[i..][1..] == es[i + 1..];
      emitted, fate, t, rest := Emit(cfg, thread, es[i], emitted, t);
      assert es[..i + 1] == es[..i] + [es[i]];
      RunMore(cfg, s, more, rest);
      more := more + rest;
      if !fate.Going? {
        return;
      }
    }
    assert es[..|es|] == es;
  }

  /** The streamed part of a model round: any number of text deltas. */
  method StreamDeltas(cfg: Config, thread: Thread, events: seq<Event>, ghost s: State)
    returns (emitted: seq<Event>, fate: Fate, ghost t: State, ghost more: seq<Action>)
    requires thread.Valid() && s.turns == thread.Log() && s.phase.Calling? && s.outbox == [] && s.emitted == events
    modifies thread`turns
    ensures thread.Valid() && t == s.(turns := thread.Log(), emitted := emitted)
    ensures t == RunFrom(cfg, s, more) && SameVerdict(cfg, s.turns, t.turns)
  {
    hide RunFrom, UserInitiated;
    emitted := events;
    fate, t, more := Suspend(cfg, thread, s);
    var n: nat :| true;
    for i := 0 to n
      invariant thread.Valid() && t == s.(turns := thread.Log(), emitted := emitted)
      invariant t == RunFrom(cfg, s, more) && SameVerdict(cfg, s.turns, t.turns)
    {
      if !fate.Going? {
        return;
      }
      var delta: string :| true;
      ghost var u := Next(cfg, t, Delta(delta));
      RunStep(cfg, s, more, Delta(delta));
      ghost var rest;
      emitted, fate, t, rest := Emit(cfg, thread, TextEvent(delta), emitted, u);
      RunMore(cfg, s, more + [Delta(delta)], rest);
      more := more + [Delta(delta)] + rest;
    }
  }

  // --- the tools of one round ---------------------------------------------------------------------------------------

  /** The tool handlers; `reached` counts the calls of each. */
  class Handlers {
    ghost var reached: multiset<string>

    constructor ()
      ensures reached == multiset{}
    {
      reached := multiset{};
    }

    /** Whatever the handler of `name` does. */
    method Handle(name: string) returns (result: HandlerResult)
      modifies this
      ensures reached == old(reached) + multiset{name}
    {
      reached := reached + multiset{name};
      result :| true;
    }
  }

  /** What one dispatch adds to the calls that reach a handler. */
  ghost function Reach(cfg: Config, turns: seq<Turn>, name: string): multiset<string> {
    if LetThrough(cfg, turns, name) then multiset{name} else multiset{}
  }

  /** The calls of one round that reach a handler. */
  ghost function Through(cfg: Config, turns: seq<Turn>, uses: seq<Block>): multiset<string> {
    if uses == [] then multiset{}
    else
      Through(cfg, turns, uses[..|uses| - 1]) + Reach(cfg, turns, NameOf(uses[|uses| - 1]))
  }

  /** The calls of `uses` that are let through, and no others, reached their handlers meanwhile. */
  ghost predicate ReachedBy(cfg: Config, turns: seq<Turn>, uses: seq<Block>, before: multiset<string>,
                            now: multiset<string>)
  {
    now == before + Through(cfg, turns, uses)
  }

  lemma {:induction false} SameThrough(cfg: Config, a: seq<Turn>, b: seq<Turn>, uses: seq<Block>)
    requires SameVerdict(cfg, a, b)
    ensures Through(cfg, a, uses) == Through(cfg, b, uses)
    ensures forall before, now :: ReachedBy(cfg, a, uses, before, now) <==> ReachedBy(cfg, b, uses, before, now)
  {
    hide UserInitiated;
    if uses != [] {
      SameThrough(cfg, a, b, uses[..|uses| - 1]);
    }
  }

  /** Only known tools are let through, and tickets only when the user asked. */
  lemma {:induction false} ThroughOnly(cfg: Config, turns: seq<Turn>, uses: seq<Block>)
    ensures forall name | name !in cfg.tools :: name !in Through(cfg, turns, uses)
    ensures !UserInitiated(cfg.phrases, turns) ==> "raise_support_ticket" !in Through(cfg, turns, uses)
  {
    hide UserInitiated;
    if uses != [] {
      ThroughOnly(cfg, turns, uses[..|uses| - 1]);
    }
  }

  /** `dispatch_outcome` (backend/app/agent/tools.py). `result` is what the handler answered, if it was reached. */
  method DispatchOutcome(cfg: Config, turns: seq<Turn>, name: string, handlers: Handlers)
    returns (o: Outcome, ghost result: HandlerResult)
    modifies handlers
    ensures o == Dispatch(cfg, turns, name, result)
    ensures handlers.reached == old(handlers.reached) + Reach(cfg, turns, name)
  {
    result := Raised;
    if name !in cfg.tools {
      return Outcome(Str("unknown tool: " + name), true, None, None), result;
    }
    if name == "raise_support_ticket" {
      var asked := TicketCallIsUserInitiated(cfg.phrases, turns);
      if !asked {
        return Outcome(Str(NOT_ASKED), true, None, None), result;
      }
    }
    var answer := handlers.Handle(name);
    result := answer;
    match answer {
      case Raised => o := Outcome(Str(UNEXPECTED), true, None, None);
      case Failure(code, message) => o := Outcome(Str(message), true, None, Some(code));
      case Success(envelope) =>
        o := Outcome(Dumped(Canonical(cfg.modelView(name, envelope))), false, Some(envelope), None);
    }
  }

  lemma OutcomesOneMore(cfg: Config, turns: seq<Turn>, uses: seq<Block>, results: seq<HandlerResult>, use: Block,
                        result: HandlerResult)
    requires |results| == |uses|
    ensures Outcomes(cfg, turns, uses + [use], results + [result])
         == Outcomes(cfg, turns, uses, results) + [Dispatch(cfg, turns, NameOf(use), result)]
  {
    hide Dispatch;
  }

  lemma ThroughNone(cfg: Config, turns: seq<Turn>, now: multiset<string>)
    ensures ReachedBy(cfg, turns, [], now, now)
  {
  }

  lemma ThroughOneMore(cfg: Config, turns: seq<Turn>, uses: seq<Block>, use: Block, before: multiset<string>,
                       now: multiset<string>)
    requires ReachedBy(cfg, turns, uses, before, now)
    ensures ReachedBy(cfg, turns, uses + [use], before, now + Reach(cfg, turns, NameOf(use)))
  {
    hide Reach;
    assert (uses + [use])[..|uses|] == uses;
  }

  /** The gathered dispatches of one round: outcomes in call order, and only the calls let through reach a handler. */
  method Gather(cfg: Config, turns: seq<Turn>, uses: seq<Block>, handlers: Handlers)
    returns (outcomes: seq<Outcome>, ghost results: seq<HandlerResult>)
    modifies handlers
    ensures |results| == |uses| && outcomes == Outcomes(cfg, turns, uses, results)
    ensures ReachedBy(cfg, turns, uses, old(handlers.reached), handlers.reached)
  {
    outcomes, results := [], [];
    assert outcomes == Outcomes(cfg, turns, [], []);
    ThroughNone(cfg, turns, handlers.reached);
    hide Dispatch, Outcomes, ReachedBy, Reach, NameOf;
    for i := 0 to |uses|
      invariant |results| == i && outcomes == Outcomes(cfg, turns, uses[..i], results)
      invariant ReachedBy(cfg, turns, uses[..i], old(handlers.reached), handlers.reached)
    {
      ghost var result, reached := Raised, handlers.reached;
      var o;
      o, result := DispatchOutcome(cfg, turns, NameOf(uses[i]), handlers);
      OutcomesOneMore(cfg, turns, uses[..i], results, uses[i], result);
      ThroughOneMore(cfg, turns, uses[..i], uses[i], old(handlers.reached), reached);
      assert uses[..i + 1] == uses[..i] + [uses[i]];
      outcomes, results := outcomes + [o], results + [result];
    }
    assert uses[..|uses|] == uses;
  }

  /** Stores one result, and the memo of the ticket it raised. */
  method StoreResult(cfg: Config, thread: Thread, use: Block, o: Outcome, ghost s: State)
    requires thread.Valid() && s.turns == thread.Log()
    modifies thread`turns
    ensures thread.Valid() && thread.Log() == Stored(cfg, s, use, o).turns
  {
    var result := ResultBlock(Get(use, "id"), o.content, o.isError);
    var turn := thread.AppendTurn(User, ToolResult, [result], ResultMeta(use, o));
    if NameOf(use) == "raise_support_ticket" && !o.isError && o.envelope.Some? {
      var memo := cfg.ticketMemo(Get(o.envelope.value, "ticketId"), Get(use, "input"));
      turn := thread.AppendTurn(User, FlowEvent, [TextBlock(memo)], [("flow", Str("ticket"))]);
    }
  }

  lemma StoredKeepsVerdict(cfg: Config, s: State, use: Block, o: Outcome)
    ensures SameVerdict(cfg, s.turns, Stored(cfg, s, use, o).turns)
  {
    hide UserInitiated;
    var result := [ResultBlock(Get(use, "id"), o.content, o.isError)];
    var turns := Appended(s.turns, User, ToolResult, result, ResultMeta(use, o));
    AppendKeepsVerdict(cfg, s.turns, User, ToolResult, result, ResultMeta(use, o));
    if RaisedTicket(use, o) {
      var memo := cfg.ticketMemo(Get(o.envelope.value, "ticketId"), Get(use, "input"));
      AppendKeepsVerdict(cfg, turns, User, FlowEvent, [TextBlock(memo)], [("flow", Str("ticket"))]);
    }
  }

  /** The state in which result `k` is about to be recorded. */
  ghost function AtResult(cfg: Config, t: State, uses: seq<Block>, outcomes: seq<Outcome>, k: nat): State
    requires |uses| == |outcomes| && k <= |uses|
  {
    if k < |uses| then t.(phase := Recording(uses, outcomes, k), outbox := Shown(cfg, uses[k], outcomes[k]))
    else Conclude(cfg, t)
  }

  /** All but what recording results changes. */
  ghost predicate SameRequest(s: State, t: State) {
    && t.rounds == s.rounds && t.lastEntry == s.lastEntry && t.calls == s.calls && t.callsNow == s.callsNow
    && t.dishonoured == s.dishonoured && t.finished == s.finished
  }

  lemma RecordsOne(cfg: Config, w: State, uses: seq<Block>, outcomes: seq<Outcome>, k: nat)
    requires |uses| == |outcomes| && k < |uses|
    requires w.phase == Recording(uses, outcomes, k) && w.outbox == []
    ensures var t := Stored(cfg, w, uses[k], outcomes[k]);
            && Next(cfg, w, Record) == AtResult(cfg, t, uses, outcomes, k + 1)
            && SameRequest(w, t) && t.emitted == w.emitted && t.outbox == []
  {
    assert Enabled(w, Record);
    assert Next(cfg, w, Record) == RecordStep(cfg, w);
  }

  /** The loop over the outcomes of a round: show each, store each, and remember what decides the turn. */
  method RecordResults(cfg: Config, thread: Thread, uses: seq<Block>, outcomes: seq<Outcome>, events: seq<Event>,
                       ghost s: State)
    returns (emitted: seq<Event>, fate: Fate, authExpired: bool, artifactsOnly: bool, ghost t: State,
             ghost more: seq<Action>)
    requires thread.Valid() && s.turns == thread.Log() && s.emitted == events
    requires |uses| == |outcomes| > 0 && s == AtResult(cfg, s, uses, outcomes, 0)
    requires s.artifactsOnly && !s.authExpired
    modifies thread`turns
    ensures thread.Valid() && t.turns == thread.Log() && t.emitted == emitted && SameRequest(s, t)
    ensures fate.Going? ==> t.outbox == [] && t.authExpired == authExpired && t.artifactsOnly == artifactsOnly
    ensures !fate.Going? ==> t.phase.Recording?
    ensures SameVerdict(cfg, s.turns, t.turns)
    ensures (if fate.Going? then Conclude(cfg, t) else t) == RunFrom(cfg, s, more)
  {
    SameVerdictChain(cfg, s.turns, s.turns, s.turns, s.turns);
    hide Next, RunFrom, Conclude, SameVerdict, StrictlyIncreasing, CacheHolds, MemoValues;
    emitted, fate, authExpired, artifactsOnly := events, Going, false, true;
    t, more := s, [];
    RunNone(cfg, s);
    for k := 0 to |uses|
      invariant thread.Valid() && t.turns == thread.Log() && t.emitted == emitted && fate.Going?
      invariant t.authExpired == authExpired && t.artifactsOnly == artifactsOnly && SameRequest(s, t)
      invariant (k > 0 ==> t.outbox == []) && SameVerdict(cfg, s.turns, t.turns)
      invariant AtResult(cfg, t, uses, outcomes, k) == RunFrom(cfg, s, more)
    {
      var (use, o) := (uses[k], outcomes[k]);
      ghost var w, before := AtResult(cfg, t, uses, outcomes, k), t.turns;
      var shown := [ToolEvent(use, "finished", o.isError)];
      var artifact := cfg.artifact(NameOf(use), o);
      if artifact.Some? {
        shown := shown + [Event("artifact", artifact.value)];
      }
      assert shown == w.outbox;
      ghost var rest;
      emitted, fate, w, rest := EmitAll(cfg, thread, shown, emitted, w);
      RunMore(cfg, s, more, rest);
      more := more + rest;
      if !fate.Going? {
        SameVerdictChain(cfg, s.turns, before, w.turns, w.turns);
        t := w;
        return;
      }
      if o.code == Some("AUTH_EXPIRED") {
        authExpired := true;
      }
      artifactsOnly := artifactsOnly && !o.isError && artifact.Some?;
      StoreResult(cfg, thread, use, o, w);
      RecordsOne(cfg, w, uses, outcomes, k);
      StoredKeepsVerdict(cfg, w, use, o);
      SameVerdictChain(cfg, s.turns, before, w.turns, Stored(cfg, w, use, o).turns);
      RunStep(cfg, s, more, Record);
      t, more := Stored(cfg, w, use, o), more + [Record];
    }
  }

  lemma HistoryIs(cfg: Config, turns: seq<Turn>)
    ensures History(cfg, turns) == if cfg.curating then Curated(cfg.reg, turns) else Lossless(turns)
  {
  }

  /** The history of the next request, before its breakpoints. */
  method Project(cfg: Config, thread: Thread) returns (history: seq<WireMessage>)
    requires thread.Valid() && thread.reg == cfg.reg
    modifies thread`curated
    ensures thread.Valid() && thread.Log() == old(thread.Log())
    ensures Wire(history) == History(cfg, thread.Log())
  {
    history := thread.Messages(cfg.curating);
    HistoryIs(cfg, thread.Log());
  }

  /** Builds the history of the next request, with its breakpoints. */
  method BuildHistory(cfg: Config, thread: Thread, wrapup: bool, lastEntry: Option<int>)
    returns (history: seq<WireMessage>, entry: Option<int>)
    requires thread.Valid() && thread.reg == cfg.reg
    modifies thread`curated
    ensures thread.Valid() && thread.Log() == old(thread.Log())
    ensures Wire(history) == Sent(cfg, thread.Log(), lastEntry, wrapup)
    ensures entry == if cfg.historyCache && !wrapup then Some(|history| - 1) else lastEntry
  {
    hide History, WithBreakpoint, StrictlyIncreasing, CacheHolds, MemoValues;
    history := Project(cfg, thread);
    ghost var log := thread.Log();
    entry := lastEntry;
    if cfg.historyCache && !wrapup {
      history := WithHistoryBreakpoint(history, lastEntry);
      entry := Some(|history| - 1);
    }
    assert thread.Log() == log;
  }

  /** `calls` continues `before` with calls that sent exactly the histories `sent`. */
  ghost predicate Histories(before: seq<Call>, sent: seq<seq<Message>>, calls: seq<Call>) {
    && before <= calls && |calls| == |before| + |sent|
    && forall i | 0 <= i < |sent| :: calls[|before| + i].history == sent[i]
  }

  lemma HistoriesSnoc(before: seq<Call>, sent: seq<seq<Message>>, calls: seq<Call>, c: Call)
    requires Histories(before, sent, calls)
    ensures Histories(before, sent + [c.history], calls + [c])
  {
  }

  lemma NoHistories(before: seq<Call>)
    ensures Histories(before, [], before)
  {
  }

  /** A call leaves all but the log of calls as it is. */
  lemma IssueKeeps(cfg: Config, u: State)
    ensures var s := Issue(cfg, u);
            && s.phase == Calling && s.turns == u.turns && s.emitted == u.emitted && s.outbox == u.outbox
            && s.rounds == u.rounds && s.authExpired == u.authExpired && s.finished == u.finished
  {
  }

  /** The top of the loop: the history is built and the call with it opened. */
  method OpenCall(cfg: Config, thread: Thread, wrapup: bool, lastEntry: Option<int>, ghost before: seq<Call>,
                  ghost sent: seq<seq<Message>>, ghost u: State)
    returns (entry: Option<int>, ghost sent': seq<seq<Message>>, ghost s: State)
    requires thread.Valid() && thread.reg == cfg.reg && u.turns == thread.Log()
    requires u.lastEntry == lastEntry && wrapup == (u.rounds >= cfg.maxToolRounds) && Histories(before, sent, u.calls)
    modifies thread`curated
    ensures thread.Valid() && thread.Log() == old(thread.Log())
    ensures s == Issue(cfg, u) && s.lastEntry == entry && Histories(before, sent', s.calls)
  {
    var history;
    history, entry := BuildHistory(cfg, thread, wrapup, lastEntry);
    s := Issue(cfg, u);
    assert s.calls[|u.calls|].history == Wire(history);
    HistoriesSnoc(before, sent, u.calls, s.calls[|u.calls|]);
    sent' := sent + [Wire(history)];
  }

  /** Yields the terminal event and returns. */
  method Finish(cfg: Config, thread: Thread, e: Event, events: seq<Event>, ghost s: State)
    returns (emitted: seq<Event>, fate: Fate, ghost t: State, ghost more: seq<Action>)
    requires thread.Valid() && s.turns == thread.Log()
    requires s.phase.Closing? && s.outbox == [e] && s.emitted == events
    modifies thread`turns
    ensures thread.Valid() && t.turns == thread.Log() && t.calls == s.calls && t.emitted == emitted
    ensures t.phase.Idle? == fate.Going?
    ensures t.finished == if fate.Going? then s.finished + [emitted] else s.finished
    ensures t == RunFrom(cfg, s, more) && SameVerdict(cfg, s.turns, t.turns)
  {
    hide RunFrom, UserInitiated;
    emitted, fate, t, more := Emit(cfg, thread, e, events, s);
    if fate.Going? {
      RunStep(cfg, s, more, Return);
      t, more := Next(cfg, t, Return), more + [Return];
    }
  }

  /**
   The start of a request, up to the stored user message: the machine state is the one about to issue the first call.
   */
  method Receive(cfg: Config, thread: Thread, message: string, ghost s0: State)
    returns (lastEntry: Option<int>, fate: Fate, ghost u: State, ghost acts: seq<Action>)
    requires thread.Valid() && s0.phase.Idle? && s0.turns == thread.Log()
    modifies thread`turns
    ensures thread.Valid() && u.turns == thread.Log()
    ensures u.emitted == [] && u.outbox == [] && u.calls == s0.calls && u.finished == s0.finished
    ensures fate.Going? ==> u.lastEntry == lastEntry && u.rounds == 0 && !u.authExpired
    ensures !fate.Going? ==> u.phase.Arrived?
    ensures (if fate.Going? then Issue(cfg, u) else u) == RunFrom(cfg, s0, acts)
  {
    RunNone(cfg, s0);
    hide RunFrom, Issue, StrictlyIncreasing, CacheHolds, MemoValues;
    RunStep(cfg, s0, [], Arrive(message));
    acts := [] + [Arrive(message)];
    ghost var rest;
    fate, u, rest := Suspend(cfg, thread, Next(cfg, s0, Arrive(message)));
    RunMore(cfg, s0, acts, rest);
    acts := acts + rest;
    if !fate.Going? {
      lastEntry := None;
      return;
    }
    ghost var before := u;
    ghost var log := thread.Log();
    lastEntry := LastUserMessageIndex(TurnValues(thread.turns));
    assert thread.Log() == log;
    var turn := thread.AppendTurn(User, UserText, [TextBlock(message)], []);
    RunStep(cfg, s0, acts, Begin);
    acts := acts + [Begin];
    u := u.(lastEntry := lastEntry, turns := thread.Log(),
            rounds := 0, authExpired := false, callsNow := 0, dishonoured := 0);
    assert Issue(cfg, u) == BeginStep(cfg, before);
  }

  /** Once all have answered, the first result is about to be recorded. */
  lemma GatheredIs(cfg: Config, s: State, uses: seq<Block>, results: seq<HandlerResult>)
    requires s.phase == Gathering(uses) && uses != [] && s.outbox == [] && |results| == |uses|
    ensures var g := Next(cfg, s, Gathered(results));
            && g == AtResult(cfg, g, uses, Outcomes(cfg, s.turns, uses, results), 0)
            && g.artifactsOnly && g.authExpired == s.authExpired && SameRequest(s, g)
            && g.turns == s.turns && g.emitted == s.emitted
  {
  }

  /** What the calls answer depends on the turns through the verdict on tickets alone. */
  lemma SameOutcomes(cfg: Config, a: seq<Turn>, b: seq<Turn>, uses: seq<Block>, results: seq<HandlerResult>)
    requires |results| == |uses| && SameVerdict(cfg, a, b)
    ensures Outcomes(cfg, a, uses, results) == Outcomes(cfg, b, uses, results)
  {
    hide UserInitiated;
    assert forall i | 0 <= i < |uses| ::
        Dispatch(cfg, a, NameOf(uses[i]), results[i]) == Dispatch(cfg, b, NameOf(uses[i]), results[i]);
  }

  /** A round of tools: announce them, run them together, record what they answered. */
  method ToolRound(cfg: Config, thread: Thread, handlers: Handlers, uses: seq<Block>, events: seq<Event>,
                   ghost s: State)
    returns (emitted: seq<Event>, fate: Fate, authExpired: bool, artifactsOnly: bool, ghost t: State,
             ghost more: seq<Action>)
    requires thread.Valid() && s.turns == thread.Log() && s.emitted == events && !s.authExpired
    requires uses != [] && s.phase == Gathering(uses) && s.outbox == Started(uses)
    modifies thread`turns, handlers
    ensures thread.Valid() && t.turns == thread.Log() && t.emitted == emitted && SameRequest(s, t)
    ensures fate.Going? ==> t.outbox == [] && t.authExpired == authExpired && t.artifactsOnly == artifactsOnly
    ensures !fate.Going? ==> !t.phase.Idle?
    ensures SameVerdict(cfg, s.turns, t.turns)
    ensures || ReachedBy(cfg, s.turns, uses, old(handlers.reached), handlers.reached)
            || (!fate.Going? && handlers.reached == old(handlers.reached))
    ensures (if fate.Going? then Conclude(cfg, t) else t) == RunFrom(cfg, s, more)
  {
    hide RunFrom, Next, Conclude, UserInitiated, ReachedBy;
    authExpired, artifactsOnly := false, false;
    emitted, fate, t, more := EmitAll(cfg, thread, Started(uses), events, s);
    if !fate.Going? {
      return;
    }
    ghost var log := thread.Log();
    var outcomes;
    ghost var results;
    outcomes, results := Gather(cfg, TurnValues(thread.turns), uses, handlers);
    assert thread.Log() == log;
    SameThrough(cfg, s.turns, t.turns, uses);
    ghost var asked, rest := t.turns, [];
    fate, t, rest := Suspend(cfg, thread, t);
    RunMore(cfg, s, more, rest);
    more := more + rest;
    if !fate.Going? {
      return;
    }
    SameOutcomes(cfg, asked, t.turns, uses, results);
    GatheredIs(cfg, t, uses, results);
    RunStep(cfg, s, more, Gathered(results));
    ghost var g := Next(cfg, t, Gathered(results));
    more := more + [Gathered(results)];
    emitted, fate, authExpired, artifactsOnly, t, rest := RecordResults(cfg, thread, uses, outcomes, emitted, g);
    RunMore(cfg, s, more, rest);
    more := more + rest;
  }

  lemma ModelSteps(cfg: Config, s: State, content: seq<Block>, stop: string)
    requires s.phase.Calling? && s.outbox == []
    ensures Next(cfg, s, ModelFails) == s.(phase := Closing, outbox := [ErrorEvent("AGENT_UNAVAILABLE")])
    ensures ReplyOk(content) ==> Next(cfg, s, Reply(content, stop)) == ReplyStep(cfg, s, content, stop)
  {
  }

  /** One model call: the calls of the assistant turn it leaves, or None when it failed. */
  method ModelRound(cfg: Config, thread: Thread, obedient: bool, events: seq<Event>, ghost s: State)
    returns (emitted: seq<Event>, fate: Fate, uses: Option<seq<Block>>, toolStop: bool, ghost t: State,
             ghost more: seq<Action>)
    requires thread.Valid() && s.turns == thread.Log() && s.emitted == events && s.phase.Calling? && s.outbox == []
    modifies thread`turns
    ensures thread.Valid() && t.turns == thread.Log() && t.emitted == emitted && t == RunFrom(cfg, s, more)
    ensures t.calls == s.calls && t.finished == s.finished && t.lastEntry == s.lastEntry
            && t.authExpired == s.authExpired
    ensures !t.phase.Idle? && SameVerdict(cfg, s.turns, t.turns)
    ensures fate.Going? && uses.None? ==> t.phase.Closing? && t.outbox == [ErrorEvent("AGENT_UNAVAILABLE")]
    ensures fate.Going? && uses.Some? && toolStop && uses.value != [] ==>
              && !obedient && t.phase == Gathering(uses.value) && t.outbox == Started(uses.value)
              && t.rounds == s.rounds + 1
    ensures fate.Going? && uses.Some? && !(toolStop && uses.value != []) ==>
              t.phase.Closing? && t.outbox == [DoneEvent(cfg, t.turns)]
  {
    hide RunFrom, Next, UserInitiated;
    uses, toolStop := None, false;
    emitted, fate, t, more := StreamDeltas(cfg, thread, events, s);
    if !fate.Going? {
      return;
    }
    var fails: bool :| true;
    if fails {
      RunStep(cfg, s, more, ModelFails);
      ModelSteps(cfg, t, [], "");
      t, more := Next(cfg, t, ModelFails), more + [ModelFails];
      return;
    }
    assert ReplyOk([]) && Uses(Kept([])) == [];
    var content: seq<Block> :| ReplyOk(content) && (obedient ==> Uses(Kept(content)) == []);
    var stop: string :| true;
    var kept := Kept(content);
    uses, toolStop := Some(Uses(kept)), stop == "tool_use";
    var kind := if uses.value != [] then AssistantToolUse else AssistantText;
    var turn := thread.AppendTurn(Assistant, kind, kept, [("stop_reason", Str(stop))]);
    AppendKeepsVerdict(cfg, t.turns, Assistant, kind, kept, [("stop_reason", Str(stop))]);
    RunStep(cfg, s, more, Reply(content, stop));
    ModelSteps(cfg, t, content, stop);
    t, more := Next(cfg, t, Reply(content, stop)), more + [Reply(content, stop)];
  }

  lemma ConcludeKeeps(cfg: Config, u: State)
    ensures var s := Conclude(cfg, u);
            && s.turns == u.turns && s.emitted == u.emitted && s.finished == u.finished && !s.phase.Idle?
            && (u.artifactsOnly ==> s.phase.Closing? && s.outbox == [DoneEvent(cfg, u.turns)] && s.calls == u.calls)
            && (!u.artifactsOnly && u.authExpired ==>
                  s.phase.Closing? && s.outbox == [ErrorEvent("AUTH_EXPIRED")] && s.calls == u.calls)
            && (!u.artifactsOnly && !u.authExpired ==> s == Issue(cfg, u))
  {
  }

  /** No handler of an unknown tool was reached, nor that of tickets unless the newest user text asks for one. */
  ghost predicate OnlyReached(cfg: Config, turns: seq<Turn>, before: multiset<string>, now: multiset<string>) {
    && before <= now
    && (forall name | name !in cfg.tools :: now[name] == before[name])
    && (!UserInitiated(cfg.phrases, turns) ==> now["raise_support_ticket"] == before["raise_support_ticket"])
  }

  lemma NoneReached(cfg: Config, turns: seq<Turn>, now: multiset<string>)
    ensures OnlyReached(cfg, turns, now, now)
  {
  }

  lemma ReachedStill(cfg: Config, a: seq<Turn>, b: seq<Turn>, before: multiset<string>, now: multiset<string>)
    requires OnlyReached(cfg, a, before, now) && SameVerdict(cfg, a, b)
    ensures OnlyReached(cfg, b, before, now)
  {
  }

  lemma ReachedMore(cfg: Config, turns: seq<Turn>, uses: seq<Block>, before: multiset<string>, now: multiset<string>,
                    after: multiset<string>)
    requires OnlyReached(cfg, turns, before, now) && (after == now || ReachedBy(cfg, turns, uses, now, after))
    ensures OnlyReached(cfg, turns, before, after)
  {
    hide UserInitiated;
    ThroughOnly(cfg, turns, uses);
  }

  /**
   What an execution leaves: its stream, with the error of `run_chat_stream` when it raised, or nothing when it
   was dropped.
   */
  function Left(fate: Fate, events: seq<Event>): seq<seq<Event>> {
    match fate
    case Going => [events]
    case Broken => [AfterCrash(events)]
    case Dropped => []
  }

  lemma StopStep(cfg: Config, w: State)
    requires !w.phase.Idle?
    ensures Next(cfg, w, Crash) == w.(phase := Idle, outbox := [], finished := w.finished + [AfterCrash(w.emitted)])
    ensures Next(cfg, w, Abandon) == w.(phase := Idle, outbox := [])
  {
  }

  /** An exception, or a consumer that is gone, ends the request where it stands. */
  lemma CutShort(cfg: Config, s0: State, acts: seq<Action>, w: State, fate: Fate) returns (s: State, all: seq<Action>)
    requires w == RunFrom(cfg, s0, acts) && !w.phase.Idle? && !fate.Going?
    ensures s == RunFrom(cfg, s0, all) && s.phase.Idle? && s.turns == w.turns && s.calls == w.calls
    ensures s.finished == w.finished + Left(fate, w.emitted)
  {
    var a := if fate.Broken? then Crash else Abandon;
    StopStep(cfg, w);
    hide RunFrom, Next;
    RunStep(cfg, s0, acts, a);
    s, all := Next(cfg, w, a), acts + [a];
  }

  /**
   `_chat_events`: one request, from the user message to the terminal event, to the exception that comes out of one of
   its suspensions, or to the yield at which its consumer drops it. Every execution is a run of the session machine
   that ends idle with exactly the emitted events as its finished stream, and the histories sent are the ones the
   machine logged. `patience` bounds how often the model uses tools although `tool_choice` forbids it, without which
   the loop need not end.
   */
  method ChatEvents(cfg: Config, thread: Thread, handlers: Handlers, message: string, patience: nat, ghost s0: State)
    returns (events: seq<Event>, fate: Fate, ghost sent: seq<seq<Message>>, ghost s: State, ghost acts: seq<Action>)
    requires thread.Valid() && thread.reg == cfg.reg && s0.phase.Idle? && s0.turns == thread.Log()
    modifies thread`turns, thread`curated, handlers
    ensures thread.Valid() && s.turns == thread.Log() && s.phase.Idle?
    ensures s == RunFrom(cfg, s0, acts)
    ensures s.finished == s0.finished + Left(fate, events)
    ensures Histories(s0.calls, sent, s.calls)
    ensures OnlyReached(cfg, s.turns, old(handlers.reached), handlers.reached)
  {
    hide RunFrom, Next, Issue, Histories, OnlyReached, ReachedBy, SameVerdict, Conclude;
    var lastEntry, rounds, left := None, 0, patience;
    ghost var u;
    lastEntry, fate, u, acts := Receive(cfg, thread, message, s0);
    events, sent := [], [];
    NoHistories(s0.calls);
    NoneReached(cfg, u.turns, handlers.reached);
    if !fate.Going? {
      s, acts := CutShort(cfg, s0, acts, u, fate);
      return;
    }
    while true
      invariant thread.Valid() && u.turns == thread.Log() && u.emitted == events && u.outbox == []
      invariant u.rounds == rounds && u.lastEntry == lastEntry && !u.authExpired && u.finished == s0.finished
      invariant Issue(cfg, u) == RunFrom(cfg, s0, acts)
      invariant Histories(s0.calls, sent, u.calls)
      invariant OnlyReached(cfg, u.turns, old(handlers.reached), handlers.reached)
      decreases if rounds < cfg.maxToolRounds then cfg.maxToolRounds - rounds else 0, left
    {
      var wrapup := rounds >= cfg.maxToolRounds;
      lastEntry, sent, s := OpenCall(cfg, thread, wrapup, lastEntry, s0.calls, sent, u);
      IssueKeeps(cfg, u);
      var uses, toolStop;
      ghost var rest;
      events, fate, uses, toolStop, s, rest := ModelRound(cfg, thread, wrapup && left == 0, events, s);
      ReachedStill(cfg, u.turns, s.turns, old(handlers.reached), handlers.reached);
      RunMore(cfg, s0, acts, rest);
      acts := acts + rest;
      if fate.Going? && (uses.None? || !toolStop || uses.value == []) {
        var last := if uses.None? then ErrorEvent("AGENT_UNAVAILABLE") else DoneEvent(cfg, TurnValues(thread.turns));
        ghost var closing := s.turns;
        events, fate, s, rest := Finish(cfg, thread, last, events, s);
        ReachedStill(cfg, closing, s.turns, old(handlers.reached), handlers.reached);
        RunMore(cfg, s0, acts, rest);
        acts := acts + rest;
        if fate.Going? {
          return;
        }
      }
      if !fate.Going? {
        s, acts := CutShort(cfg, s0, acts, s, fate);
        return;
      }
      if wrapup {
        left := left - 1;
      }
      rounds := rounds + 1;
      var authExpired, artifactsOnly;
      ghost var asked, reached := s.turns, handlers.reached;
      events, fate, authExpired, artifactsOnly, u, rest := ToolRound(cfg, thread, handlers, uses.value, events, s);
      RunMore(cfg, s0, acts, rest);
      acts := acts + rest;
      ReachedMore(cfg, asked, uses.value, old(handlers.reached), reached, handlers.reached);
      ReachedStill(cfg, asked, u.turns, old(handlers.reached), handlers.reached);
      s := if fate.Going? then Conclude(cfg, u) else u;
      ConcludeKeeps(cfg, u);
      if fate.Going? && (artifactsOnly || authExpired) {
        var last := if artifactsOnly then DoneEvent(cfg, TurnValues(thread.turns)) else ErrorEvent("AUTH_EXPIRED");
        ghost var closing := s.turns;
        events, fate, s, rest := Finish(cfg, thread, last, events, s);
        ReachedStill(cfg, closing, s.turns, old(handlers.reached), handlers.reached);
        RunMore(cfg, s0, acts, rest);
        acts := acts + rest;
        if fate.Going? {
          return;
        }
      }
      if !fate.Going? {
        s, acts := CutShort(cfg, s0, acts, s, fate);
        return;
      }
    }
  }

  /** The body of `run_chat_stream`: `inner` is what `_chat_events` yielded before it returned or raised. */
  method PassOn(inner: seq<Event>, raises: bool) returns (out: seq<Event>)
    ensures out == if raises then AfterCrash(inner) else inner
  {
    out := [];
    var terminalEmitted := false;
    for i := 0 to |inner|
      invariant out == inner[..i]
      invariant terminalEmitted <==> SawTerminal(inner[..i])
    {
      assert inner[..i + 1] == inner[..i] + [inner[i]];
      if inner[i].name == "done" || inner[i].name == "error" {
        terminalEmitted := true;
      }
      out := out + [inner[i]];
    }
    assert inner[..|inner|] == inner;
    if raises && !terminalEmitted {
      out := out + [ErrorEvent("AGENT_UNAVAILABLE")];
    }
  }

  /**
   `run_chat_stream` on a session that has come this far by `past`: unless its consumer drops it, the stream it yields
   is the one the session machine finishes, with exactly one terminal event, the last.
   */
  method RunChatStream(cfg: Config, thread: Thread, handlers: Handlers, message: string, patience: nat,
                       ghost past: seq<Action>)
    returns (out: seq<Event>, fate: Fate, ghost acts: seq<Action>)
    requires thread.Valid() && thread.reg == cfg.reg
    requires Exec(cfg, past).phase.Idle? && Exec(cfg, past).turns == thread.Log()
    modifies thread`turns, thread`curated, handlers
    ensures thread.Valid() && Exec(cfg, past + acts).turns == thread.Log() && Exec(cfg, past + acts).phase.Idle?
    ensures Exec(cfg, past + acts).finished == Exec(cfg, past).finished + if fate.Dropped? then [] else [out]
    ensures !fate.Dropped? ==> OneTerminalLast(out)
  {
    hide Exec, RunFrom, Next;
    var events;
    ghost var sent, s;
    events, fate, sent, s, acts := ChatEvents(cfg, thread, handlers, message, patience, Exec(cfg, past));
    ghost var log := thread.Log();
    out := PassOn(events, fate.Broken?);
    assert thread.Log() == log;
    ExecMore(cfg, past, acts);
    OneTerminalAlways(cfg, past + acts);
    assert !fate.Dropped? ==> out in Exec(cfg, past + acts).finished;
  }

}
