/** Turns along a run: well formed, append-only, and complete enough for a verdict on tickets. */
module RunTurns {
  import opened Json
  import opened Transcript
  import opened Breakpoints
  import opened Tickets
  import opened Conversation
  import opened TurnInvariants

  predicate UsesOk(uses: seq<Block>) {
    uses != [] && forall u | u in uses :: RawBlockOk(u) && IsUse(u)
  }

  ghost predicate RecordingOk(cfg: Config, turns: seq<Turn>, uses: seq<Block>, outcomes: seq<Outcome>, next: nat) {
    && |outcomes| == |uses| && next < |uses|
    && (forall i | 0 <= i < |uses| :: WellFormed(outcomes[i].content))
    && (forall i | 0 <= i < |uses| && RaisedTicket(uses[i], outcomes[i]) :: UserInitiated(cfg.phrases, turns))
    && (forall i | 0 <= i < |uses| && outcomes[i].code.Some? :: outcomes[i].isError)
  }

  ghost predicate PhaseOk(cfg: Config, s: State) {
    match s.phase
    case Gathering(uses) => UsesOk(uses)
    case Recording(uses, outcomes, next) => UsesOk(uses) && RecordingOk(cfg, s.turns, uses, outcomes, next)
    case _ => true
  }

  ghost predicate TurnInv(cfg: Config, s: State) {
    TurnsOk(s.turns) && PhaseOk(cfg, s)
  }

  lemma UserTextAppendOk(turns: seq<Turn>, kind: Kind, text: string, meta: Dict)
    requires TurnsOk(turns) && (kind == UserText || kind == FlowEvent)
    ensures TurnsOk(Appended(turns, User, kind, [TextBlock(text)], meta))
  {
    TextBlockOk(text);
    AppendedOk(turns, User, kind, [TextBlock(text)], meta);
  }

  /** A memo appended while results are being recorded leaves the ticket verdict alone. */
  lemma RecordingKept(cfg: Config, turns: seq<Turn>, t: Turn, uses: seq<Block>, outcomes: seq<Outcome>, next: nat,
                      next': nat)
    requires RecordingOk(cfg, turns, uses, outcomes, next) && !FromUser(t) && next' < |uses|
    ensures RecordingOk(cfg, turns + [t], uses, outcomes, next')
  {
    VerdictFixedByUserText(cfg.phrases, turns, [t]);
  }

  lemma StoredTurns(cfg: Config, s: State, use: Block, o: Outcome)
    requires TurnsOk(s.turns) && RawBlockOk(use) && WellFormed(o.content)
    ensures TurnsOk(Stored(cfg, s, use, o).turns)
  {
    var block := ResultBlock(Get(use, "id"), o.content, o.isError);
    GetWellFormed(use, "id");
    ResultBlockOk(Get(use, "id"), o.content, o.isError);
    AppendedOk(s.turns, User, ToolResult, [block], ResultMeta(use, o));
    if RaisedTicket(use, o) {
      var mid := Appended(s.turns, User, ToolResult, [block], ResultMeta(use, o));
      var memo := cfg.ticketMemo(Get(o.envelope.value, "ticketId"), Get(use, "input"));
      UserTextAppendOk(mid, FlowEvent, memo, [("flow", Str("ticket"))]);
    }
  }

  lemma StoredRecording(cfg: Config, s: State, use: Block, o: Outcome, uses: seq<Block>, outcomes: seq<Outcome>,
                        k: nat, k': nat)
    requires RecordingOk(cfg, s.turns, uses, outcomes, k) && k' < |uses|
    ensures RecordingOk(cfg, Stored(cfg, s, use, o).turns, uses, outcomes, k')
  {
    var t := Stored(cfg, s, use, o).turns;
    RecordingKept(cfg, s.turns, t[|s.turns|], uses, outcomes, k, k');
    if RaisedTicket(use, o) {
      RecordingKept(cfg, s.turns + [t[|s.turns|]], t[|s.turns| + 1], uses, outcomes, k', k');
    }
  }

  lemma ReplyTurns(cfg: Config, s: State, content: seq<Block>, stop: string)
    requires TurnInv(cfg, s) && ReplyOk(content)
    ensures TurnInv(cfg, ReplyStep(cfg, s, content, stop))
  {
    KeptFrom(content);
    UsesFrom(Kept(content));
    var uses := Uses(Kept(content));
    var kind := if uses != [] then AssistantToolUse else AssistantText;
    AppendedOk(s.turns, Assistant, kind, Kept(content), [("stop_reason", Str(stop))]);
  }

  lemma GatheredTurns(cfg: Config, s: State, results: seq<HandlerResult>)
    requires TurnInv(cfg, s) && s.phase.Gathering? && |results| == |s.phase.uses|
    ensures TurnInv(cfg, GatheredStep(cfg, s, results))
  {
    var outcomes := Outcomes(cfg, s.turns, s.phase.uses, results);
    forall i | 0 <= i < |outcomes|
      ensures WellFormed(outcomes[i].content) && (outcomes[i].code.Some? ==> outcomes[i].isError)
      ensures RaisedTicket(s.phase.uses[i], outcomes[i]) ==> UserInitiated(cfg.phrases, s.turns)
    {
      assert outcomes[i] == Dispatch(cfg, s.turns, NameOf(s.phase.uses[i]), results[i]);
    }
  }

  lemma TurnInvStep(cfg: Config, s: State, a: Action)
    requires TurnInv(cfg, s)
    ensures TurnInv(cfg, Next(cfg, s, a))
  {
    hide TurnsOk, UsesOk, RecordingOk, BeginStep, ReplyStep, RecordStep, GatheredStep;
    if Enabled(s, a) {
      match a {
        case Begin => BeginTurns(cfg, s);
        case Reply(content, stop) => ReplyTurns(cfg, s, content, stop);
        case Gathered(results) => GatheredTurns(cfg, s, results);
        case Record => RecordTurns(cfg, s);
        case Flow(memo, meta) => FlowTurns(cfg, s, memo, meta);
        case _ =>
      }
    }
  }

  lemma BeginTurns(cfg: Config, s: State)
    requires TurnInv(cfg, s) && s.phase.Arrived?
    ensures TurnInv(cfg, BeginStep(cfg, s))
  {
    hide TurnsOk;
    UserTextAppendOk(s.turns, UserText, s.phase.text, []);
  }

  lemma RecordTurns(cfg: Config, s: State)
    requires TurnInv(cfg, s) && Enabled(s, Record)
    ensures TurnInv(cfg, RecordStep(cfg, s))
  {
    hide TurnsOk, RecordingOk, WellFormed, HasMarker, Stored, Sent;
    var (uses, outcomes, k) := (s.phase.uses, s.phase.outcomes, s.phase.next);
    assert uses[k] in uses;
    OutcomeOk(cfg, s.turns, uses, outcomes, k);
    StoredTurns(cfg, s, uses[k], outcomes[k]);
    if k + 1 < |uses| {
      StoredRecording(cfg, s, uses[k], outcomes[k], uses, outcomes, k, k + 1);
    }
  }

  lemma OutcomeOk(cfg: Config, turns: seq<Turn>, uses: seq<Block>, outcomes: seq<Outcome>, k: nat)
    requires RecordingOk(cfg, turns, uses, outcomes, k)
    ensures k < |uses| == |outcomes| && WellFormed(outcomes[k].content)
  {
  }

  lemma FlowTurns(cfg: Config, s: State, memo: string, meta: Dict)
    requires TurnInv(cfg, s) && WellFormedDict(meta)
    ensures TurnInv(cfg, s.(turns := Appended(s.turns, User, FlowEvent, [TextBlock(memo)], meta)))
  {
    hide TurnsOk, RecordingOk;
    UserTextAppendOk(s.turns, FlowEvent, memo, meta);
    if s.phase.Recording? {
      OutcomeOk(cfg, s.turns, s.phase.uses, s.phase.outcomes, s.phase.next);
      var t := Appended(s.turns, User, FlowEvent, [TextBlock(memo)], meta)[|s.turns|];
      RecordingKept(cfg, s.turns, t, s.phase.uses, s.phase.outcomes, s.phase.next, s.phase.next);
    }
  }

  lemma {:induction false} TurnInvAlways(cfg: Config, acts: seq<Action>)
    requires TurnsOk(cfg.found)
    ensures TurnInv(cfg, Exec(cfg, acts))
    decreases |acts|
  {
    if acts != [] {
      TurnInvAlways(cfg, acts[..|acts| - 1]);
      TurnInvStep(cfg, Exec(cfg, acts[..|acts| - 1]), acts[|acts| - 1]);
    }
  }
}
