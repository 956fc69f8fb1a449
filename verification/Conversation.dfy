/**
 One session as a state machine: the agent loop of backend/app/agent/loop.py over the turns of
 backend/app/agent/store.py, with widget events and failures landing at any suspension point.

 Code between two suspension points (`await` or `yield`) is one step. What a step yields is queued
 in `outbox`, and each `Yield` hands one event to the consumer. An action that the current phase
 does not allow changes nothing, so a run is any list of actions at all.
 */
module Conversation {
  import opened Json
  import opened Transcript
  import opened Curation
  import opened Breakpoints
  import opened Tickets

  /**
   What is fixed while a process serves a session. Of the deployment: `artifact` is `_artifact_payload`, `modelView`
   the projection of a tool's result, `thinkingEnabled` whether requests carry `thinking: enabled`. Of the session:
   `found` are the turns that `get_thread` found for it, and `before` the calls sent for it until then.
   */
  datatype Config = Config(
    reg: Registry,
    curating: bool,
    historyCache: bool,
    maxToolRounds: int,
    tools: set<string>,
    modelView: (string, Dict) -> Json,
    artifact: (string, Outcome) -> Option<Dict>,
    phrases: Phrases,
    ticketMemo: (Json, Json) -> string,
    counters: seq<Turn> -> Dict,
    thinkingEnabled: bool,
    found: seq<Turn>,
    before: seq<Call>)

  /** One server-sent event: its name and the dict that is serialised after `data:`. */
  datatype Event = Event(name: string, data: Dict)

  predicate Terminal(e: Event) {
    e.name == "done" || e.name == "error"
  }

  /** What a tool handler does. */
  datatype HandlerResult = Success(envelope: Dict) | Failure(code: string, message: string) | Raised

  datatype Outcome = Outcome(content: Json, isError: bool, envelope: Option<Dict>, code: Option<string>)

  /** One request to the model: the replayed history, and the number of turns it was built from. */
  datatype Call = Call(history: seq<Message>, turnCount: nat, entry: Option<int>, wrapup: bool, first: bool)

  datatype Phase =
    | Idle
    | Arrived(text: string)
    | Calling
    | Gathering(uses: seq<Block>)
    | Recording(uses: seq<Block>, outcomes: seq<Outcome>, next: nat)
    | Closing

  datatype State = State(
    turns: seq<Turn>,
    phase: Phase,
    outbox: seq<Event>,
    emitted: seq<Event>,
    rounds: nat,
    lastEntry: Option<int>,
    authExpired: bool,
    artifactsOnly: bool,
    calls: seq<Call>,
    callsNow: nat,
    dishonoured: nat,
    raised: seq<nat>,
    finished: seq<seq<Event>>)

  datatype Action =
    | Arrive(text: string)
    | Begin
    | Delta(text: string)
    | ModelFails
    | Reply(content: seq<Block>, stop: string)
    | Gathered(results: seq<HandlerResult>)
    | Record
    | Yield
    | Return
    | Crash
    | Abandon
    | Flow(memo: string, meta: Dict)

  // --- blocks and events the code builds ---------------------------------------------------------

  function TextBlock(text: string): Block {
    [("type", Str("text")), ("text", Str(text))]
  }

  function ResultBlock(id: Json, content: Json, isError: bool): Block {
    [("type", Str("tool_result")), ("tool_use_id", id), ("content", content), ("is_error", Bool(isError))]
  }

  function TextEvent(delta: string): Event {
    Event("text", [("delta", Str(delta))])
  }

  function ToolEvent(use: Block, status: string, isError: bool): Event {
    Event("tool", [("name", Get(use, "name")), ("status", Str(status)), ("is_error", Bool(isError))])
  }

  function ErrorEvent(code: string): Event {
    Event("error", [("error", Str(code))])
  }

  function DoneEvent(cfg: Config, turns: seq<Turn>): Event {
    var lastSeq := if turns == [] then 0 else turns[|turns| - 1].no;
    Event("done", [("thread", Obj(cfg.counters(turns) + [("lastSeq", Int(lastSeq))]))])
  }

  /** Thinking blocks are dropped before anything is stored. */
  function Kept(content: seq<Block>): seq<Block> {
    if content == [] then []
    else if Get(content[0], "type") in {Str("thinking"), Str("redacted_thinking")} then Kept(content[1..])
    else [content[0]] + Kept(content[1..])
  }

  function Uses(content: seq<Block>): seq<Block> {
    if content == [] then []
    else if IsUse(content[0]) then [content[0]] + Uses(content[1..])
    else Uses(content[1..])
  }

  function NameOf(use: Block): string {
    match Get(use, "name")
    case Str(s) => s
    case _ => ""
  }

  // --- the dispatcher (backend/app/agent/tools.py) ---------------------------------------------------

  /** What the model is told when it raises a ticket on its own. */
  const NOT_ASKED: string :=
    "Do NOT raise a ticket unless the user explicitly asks to escalate "
    + "or accepts your offer. Instead ask 'Want me to raise a ticket so "
    + "the team can take this up?' and stop."

  const UNEXPECTED: string :=
    "The tool failed unexpectedly — apologize briefly and suggest trying "
    + "again in a moment."

  /** The dispatcher lets the call through to its handler. */
  ghost predicate LetThrough(cfg: Config, turns: seq<Turn>, name: string) {
    name in cfg.tools && (name == "raise_support_ticket" ==> UserInitiated(cfg.phrases, turns))
  }

  /** `dispatch_outcome`: unknown tools and unasked tickets never reach their handler. */
  ghost function Dispatch(cfg: Config, turns: seq<Turn>, name: string, result: HandlerResult): Outcome {
    if name !in cfg.tools then Outcome(Str("unknown tool: " + name), true, None, None)
    else if name == "raise_support_ticket" && !UserInitiated(cfg.phrases, turns) then
      Outcome(Str(NOT_ASKED), true, None, None)
    else
      match result
      case Raised => Outcome(Str(UNEXPECTED), true, None, None)
      case Failure(code, message) => Outcome(Str(message), true, None, Some(code))
      case Success(envelope) => Outcome(Dumped(Canonical(cfg.modelView(name, envelope))), false, Some(envelope), None)
  }

  // --- steps -----------------------------------------------------------------------------------------

  function History(cfg: Config, turns: seq<Turn>): seq<Message> {
    Merge(Parts(cfg.reg, if cfg.curating then Some(Watermark(turns)) else None, turns))
  }

  /** The history as it goes on the wire: with breakpoints, except on the wrap-up round. */
  function Sent(cfg: Config, turns: seq<Turn>, entry: Option<int>, wrapup: bool): seq<Message> {
    if cfg.historyCache && !wrapup then WithBreakpoint(History(cfg, turns), entry) else History(cfg, turns)
  }

  /** `append_turn` on the turns. */
  function Appended(turns: seq<Turn>, role: Role, kind: Kind, content: seq<Block>, meta: Dict): seq<Turn> {
    turns + [Turn(NextNo(turns), role, kind, CanonicalBlocks(content), CanonicalDict(meta))]
  }

  /** The top of the `while True` loop, down to the opened stream. */
  function Issue(cfg: Config, s: State): State {
    var wrapup := s.rounds >= cfg.maxToolRounds;
    var sent := Sent(cfg, s.turns, s.lastEntry, wrapup);
    s.(phase := Calling,
       lastEntry := if cfg.historyCache && !wrapup then Some(|sent| - 1) else s.lastEntry,
       calls := s.calls + [Call(sent, |s.turns|, s.lastEntry, wrapup, s.callsNow == 0)],
       callsNow := s.callsNow + 1)
  }

  function BeginStep(cfg: Config, s: State): State
    requires s.phase.Arrived?
  {
    var t := s.(
      lastEntry := UserTextMessage(s.turns),
      turns := Appended(s.turns, User, UserText, [TextBlock(s.phase.text)], []),
      rounds := 0, authExpired := false, callsNow := 0, dishonoured := 0);
    Issue(cfg, t)
  }

  function ReplyStep(cfg: Config, s: State, content: seq<Block>, stop: string): State {
    var kept := Kept(content);
    var uses := Uses(kept);
    var kind := if uses != [] then AssistantToolUse else AssistantText;
    var t := s.(turns := Appended(s.turns, Assistant, kind, kept, [("stop_reason", Str(stop))]));
    if stop == "tool_use" && uses != [] then
      t.(phase := Gathering(uses),
         rounds := s.rounds + 1,
         dishonoured := s.dishonoured + if s.rounds >= cfg.maxToolRounds then 1 else 0,
         outbox := Started(uses))
    else
      t.(phase := Closing, outbox := [DoneEvent(cfg, t.turns)])
  }

  function Started(uses: seq<Block>): (r: seq<Event>)
    ensures forall e | e in r :: !Terminal(e)
  {
    seq(|uses|, i requires 0 <= i < |uses| => ToolEvent(uses[i], "started", false))
  }

  /** What is yielded about call `k` before its result is recorded. */
  function Shown(cfg: Config, use: Block, o: Outcome): (r: seq<Event>)
    ensures forall e | e in r :: !Terminal(e)
  {
    match cfg.artifact(NameOf(use), o)
    case Some(payload) => [ToolEvent(use, "finished", o.isError), Event("artifact", payload)]
    case None => [ToolEvent(use, "finished", o.isError)]
  }

  ghost function Outcomes(cfg: Config, turns: seq<Turn>, uses: seq<Block>,
                          results: seq<HandlerResult>): (r: seq<Outcome>)
    requires |results| == |uses|
    ensures |r| == |uses|
  {
    seq(|uses|, i requires 0 <= i < |uses| => Dispatch(cfg, turns, NameOf(uses[i]), results[i]))
  }

  ghost function GatheredStep(cfg: Config, s: State, results: seq<HandlerResult>): State
    requires s.phase.Gathering? && s.phase.uses != [] && |results| == |s.phase.uses|
  {
    var uses := s.phase.uses;
    var outcomes := Outcomes(cfg, s.turns, uses, results);
    s.(phase := Recording(uses, outcomes, 0), artifactsOnly := true, outbox := Shown(cfg, uses[0], outcomes[0]))
  }

  predicate RaisedTicket(use: Block, o: Outcome) {
    NameOf(use) == "raise_support_ticket" && !o.isError && o.envelope.Some?
  }

  /** Number of turns up to and including the newest user text. */
  function Asked(turns: seq<Turn>): nat {
    match NewestUserText(turns)
    case Some(k) => k + 1
    case None => 0
  }

  function ResultMeta(use: Block, o: Outcome): Dict {
    [("tool_name", Get(use, "name")), ("is_error", Bool(o.isError))]
  }

  /** Storing the result of one call, and the memo of a ticket it raised. */
  function Stored(cfg: Config, s: State, use: Block, o: Outcome): (r: State)
    ensures r == s.(turns := r.turns, raised := r.raised,
                    authExpired := r.authExpired, artifactsOnly := r.artifactsOnly)
    ensures s.turns < r.turns
    ensures r.raised == s.raised || (r.raised == s.raised + [Asked(s.turns)] && RaisedTicket(use, o))
    ensures r.authExpired == (s.authExpired || o.code == Some("AUTH_EXPIRED"))
    ensures r.artifactsOnly ==> s.artifactsOnly && !o.isError
  {
    var t := s.(
      authExpired := s.authExpired || o.code == Some("AUTH_EXPIRED"),
      artifactsOnly := s.artifactsOnly && !o.isError && cfg.artifact(NameOf(use), o).Some?,
      turns := Appended(s.turns, User, ToolResult, [ResultBlock(Get(use, "id"), o.content, o.isError)],
                        ResultMeta(use, o)));
    if RaisedTicket(use, o) then
      var memo := cfg.ticketMemo(Get(o.envelope.value, "ticketId"), Get(use, "input"));
      t.(turns := Appended(t.turns, User, FlowEvent, [TextBlock(memo)], [("flow", Str("ticket"))]),
         raised := t.raised + [Asked(s.turns)])
    else t
  }

  function RecordStep(cfg: Config, s: State): State
    requires s.phase.Recording? && s.phase.next < |s.phase.uses| == |s.phase.outcomes|
  {
    var (uses, outcomes, k) := (s.phase.uses, s.phase.outcomes, s.phase.next);
    var t := Stored(cfg, s, uses[k], outcomes[k]);
    if k + 1 < |uses| then
      t.(phase := Recording(uses, outcomes, k + 1), outbox := Shown(cfg, uses[k + 1], outcomes[k + 1]))
    else Conclude(cfg, t)
  }

  /**
   After the last result: artifacts alone answer, an expired login ends the message, otherwise the model continues.
   */
  function Conclude(cfg: Config, t: State): State {
    if t.artifactsOnly then t.(phase := Closing, outbox := [DoneEvent(cfg, t.turns)])
    else if t.authExpired then t.(phase := Closing, outbox := [ErrorEvent("AUTH_EXPIRED")])
    else Issue(cfg, t)
  }

  /** What the API returns: dicts, no cache markers, calls with an id and a name. */
  predicate ReplyOk(content: seq<Block>) {
    forall b | b in content ::
      && WellFormedDict(b) && !HasMarker(b)
      && (IsUse(b) ==> Get(b, "name").Str? && "id" in Keys(b))
  }

  predicate Enabled(s: State, a: Action) {
    match a
    case Arrive(_) => s.phase.Idle?
    case Begin => s.phase.Arrived?
    case Delta(_) => s.phase.Calling? && s.outbox == []
    case ModelFails => s.phase.Calling? && s.outbox == []
    case Reply(content, _) => s.phase.Calling? && s.outbox == [] && ReplyOk(content)
    case Gathered(results) => s.phase.Gathering? && s.outbox == [] && s.phase.uses != [] && |results| == |s.phase.uses|
    case Record => s.phase.Recording? && s.outbox == [] && s.phase.next < |s.phase.uses| == |s.phase.outcomes|
    case Yield => s.outbox != []
    case Return => s.phase.Closing? && s.outbox == []
    case Crash => !s.phase.Idle?
    case Abandon => !s.phase.Idle?
    case Flow(_, meta) => WellFormedDict(meta)
  }

  predicate SawTerminal(es: seq<Event>) {
    exists i | 0 <= i < |es| :: Terminal(es[i])
  }

  /** `run_chat_stream`: an exception anywhere becomes the terminal error, unless one was already emitted. */
  function AfterCrash(emitted: seq<Event>): seq<Event> {
    if SawTerminal(emitted) then emitted else emitted + [ErrorEvent("AGENT_UNAVAILABLE")]
  }

  ghost function Next(cfg: Config, s: State, a: Action): State {
    if !Enabled(s, a) then s
    else
      match a
      case Arrive(text) => s.(phase := Arrived(text), emitted := [], outbox := [])
      case Begin => BeginStep(cfg, s)
      case Delta(text) => s.(outbox := [TextEvent(text)])
      case ModelFails => s.(phase := Closing, outbox := [ErrorEvent("AGENT_UNAVAILABLE")])
      case Reply(content, stop) => ReplyStep(cfg, s, content, stop)
      case Gathered(results) => GatheredStep(cfg, s, results)
      case Record => RecordStep(cfg, s)
      case Yield => s.(emitted := s.emitted + [s.outbox[0]], outbox := s.outbox[1..])
      case Return => s.(phase := Idle, finished := s.finished + [s.emitted])
      case Crash => s.(phase := Idle, outbox := [], finished := s.finished + [AfterCrash(s.emitted)])
      case Abandon => s.(phase := Idle, outbox := [])
      case Flow(memo, meta) => s.(turns := Appended(s.turns, User, FlowEvent, [TextBlock(memo)], meta))
  }

  /** A session as it is taken up: new, or read back after a restart. */
  function Start(cfg: Config): State {
    State(cfg.found, Idle, [], [], 0, None, false, false, cfg.before, 0, 0, [], [])
  }

  /** The state after a list of actions. */
  ghost function Exec(cfg: Config, acts: seq<Action>): State {
    if acts == [] then Start(cfg)
    else Next(cfg, Exec(cfg, acts[..|acts| - 1]), acts[|acts| - 1])
  }
}
