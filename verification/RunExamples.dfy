/**
 Runs of one session that show what the loop leaves to the model and to its settings: a message beyond the cap on tool
 rounds, and a round of tools with thinking enabled (backend/app/agent/loop.py, backend/app/config.py).
 */
module RunExamples {
  import opened Json
  import opened Transcript
  import opened Conversation
  import opened TurnInvariants
  import opened RunEvents
  import opened LegalWire
  import opened LegalRuns

  // --- rounds of one call ---------------------------------------------------------------------------------------

  /** The `n`-th call of a session: each has an id of its own. */
  function Use(n: nat): Block {
    [("type", Str("tool_use")), ("id", Str(seq(n + 1, _ => 't'))), ("name", Str("get_holdings"))]
  }

  /** The model asks for the tool, its handler raises, and the result is stored. */
  function OneRound(acts: seq<Action>, n: nat): seq<Action> {
    acts + [Reply([Use(n)], "tool_use")] + [Yield] + [Gathered([Raised])] + [Yield] + [Yield] + [Record]
  }

  function Rounds(text: string, n: nat): seq<Action> {
    if n == 0 then [Arrive(text)] + [Begin] else OneRound(Rounds(text, n - 1), n - 1)
  }

  function Answer(cfg: Config): Outcome {
    if "get_holdings" in cfg.tools then Outcome(Str(UNEXPECTED), true, None, None)
    else Outcome(Str("unknown tool: " + "get_holdings"), true, None, None)
  }

  /** The two turns that a round stores. */
  function AfterRound(cfg: Config, turns: seq<Turn>, n: nat): seq<Turn> {
    Appended(Appended(turns, Assistant, AssistantToolUse, [Use(n)], [("stop_reason", Str("tool_use"))]),
             User, ToolResult, [ResultBlock(Get(Use(n), "id"), Answer(cfg).content, true)],
             ResultMeta(Use(n), Answer(cfg)))
  }

  lemma ReplyPart(cfg: Config, s: State, n: nat)
    requires s.phase.Calling? && s.outbox == []
    ensures var t := Next(cfg, Next(cfg, s, Reply([Use(n)], "tool_use")), Yield);
            && t == s.(phase := Gathering([Use(n)]), rounds := s.rounds + 1, outbox := [], turns := t.turns,
                       emitted := t.emitted, dishonoured := t.dishonoured)
            && t.turns == Appended(s.turns, Assistant, AssistantToolUse, [Use(n)], [("stop_reason", Str("tool_use"))])
  {
    ExampleUse(Use(n), seq(n + 1, _ => 't'));
    assert Kept([Use(n)]) == [Use(n)];
    var r := Next(cfg, s, Reply([Use(n)], "tool_use"));
    assert r == ReplyStep(cfg, s, [Use(n)], "tool_use");
    assert |r.outbox| == 1;
  }

  lemma NameOfUse(n: nat)
    ensures NameOf(Use(n)) == "get_holdings"
  {
    var use := Use(n);
    assert use[1..][0] == use[1] && use[1..][1..][0] == use[2];
    assert Get(use[1..], "name") == Get(use[1..][1..], "name") == Str("get_holdings");
  }

  lemma DispatchRaised(cfg: Config, turns: seq<Turn>, n: nat)
    ensures Dispatch(cfg, turns, NameOf(Use(n)), Raised) == Answer(cfg)
  {
    NameOfUse(n);
    hide Use;
    assert |"get_holdings"| != |"raise_support_ticket"|;
  }

  lemma GatherPart(cfg: Config, s: State, n: nat)
    requires s.phase == Gathering([Use(n)]) && s.outbox == []
    ensures var t := Next(cfg, Next(cfg, Next(cfg, s, Gathered([Raised])), Yield), Yield);
            t == s.(phase := Recording([Use(n)], [Answer(cfg)], 0), artifactsOnly := true, outbox := [],
                    emitted := t.emitted)
  {
    DispatchRaised(cfg, s.turns, n);
    var g := Next(cfg, s, Gathered([Raised]));
    assert Outcomes(cfg, s.turns, [Use(n)], [Raised]) == [Answer(cfg)];
    hide Use, Answer, Dispatch, Outcomes;
    assert g == s.(phase := Recording([Use(n)], [Answer(cfg)], 0), artifactsOnly := true, outbox := g.outbox);
    assert 1 <= |g.outbox| <= 2;
  }

  lemma RecordPart(cfg: Config, s: State, n: nat)
    requires s.phase == Recording([Use(n)], [Answer(cfg)], 0) && s.outbox == [] && !s.authExpired
    ensures var t := Next(cfg, s, Record);
            && t.phase.Calling? && t.outbox == [] && t.rounds == s.rounds && t.callsNow == s.callsNow + 1
            && t.turns == Appended(s.turns, User, ToolResult,
                                   [ResultBlock(Get(Use(n), "id"), Answer(cfg).content, true)],
                                   ResultMeta(Use(n), Answer(cfg)))
  {
    hide Use, Get, Sent;
    var t := Stored(cfg, s, Use(n), Answer(cfg));
    assert Answer(cfg).isError && Answer(cfg).code == None;
    assert Next(cfg, s, Record) == Issue(cfg, t);
  }

  /** One round costs one call. */
  lemma RoundMoves(cfg: Config, acts: seq<Action>, n: nat)
    requires Exec(cfg, acts).phase.Calling? && Exec(cfg, acts).outbox == [] && !Exec(cfg, acts).authExpired
    ensures var s, t := Exec(cfg, acts), Exec(cfg, OneRound(acts, n));
            && t.phase.Calling? && t.outbox == [] && t.rounds == s.rounds + 1 && t.callsNow == s.callsNow + 1
            && t.turns == AfterRound(cfg, s.turns, n)
  {
    hide Next, Exec, Use, Answer;
    var replied := acts + [Reply([Use(n)], "tool_use")] + [Yield];
    var gathered := replied + [Gathered([Raised])] + [Yield] + [Yield];
    RunOneMore(cfg, acts, Reply([Use(n)], "tool_use"));
    RunOneMore(cfg, acts + [Reply([Use(n)], "tool_use")], Yield);
    ReplyPart(cfg, Exec(cfg, acts), n);
    RunOneMore(cfg, replied, Gathered([Raised]));
    RunOneMore(cfg, replied + [Gathered([Raised])], Yield);
    RunOneMore(cfg, replied + [Gathered([Raised])] + [Yield], Yield);
    GatherPart(cfg, Exec(cfg, replied), n);
    RunOneMore(cfg, gathered, Record);
    RecordPart(cfg, Exec(cfg, gathered), n);
  }

  lemma {:induction false} RoundsMove(cfg: Config, text: string, n: nat)
    requires TurnsOk(cfg.found)
    ensures var s := Exec(cfg, Rounds(text, n));
            s.phase.Calling? && s.outbox == [] && s.rounds == n && s.callsNow == n + 1
  {
    hide Exec, OneRound, Appended, TextBlock, AfterRound, TurnsOk;
    if n == 0 {
      FirstCall(cfg, text);
      FirstRound(cfg, text);
    } else {
      RoundsMove(cfg, text, n - 1);
      NotExpired(cfg, Rounds(text, n - 1));
      RoundMoves(cfg, Rounds(text, n - 1), n - 1);
    }
  }

  lemma NotExpired(cfg: Config, acts: seq<Action>)
    requires TurnsOk(cfg.found) && Exec(cfg, acts).phase.Calling?
    ensures !Exec(cfg, acts).authExpired
  {
    CallInvAlways(cfg, acts);
  }

  lemma FirstRound(cfg: Config, text: string)
    ensures var s := Exec(cfg, [Arrive(text)] + [Begin]);
            && s.rounds == 0 && s.callsNow == 1
            && s.turns == Appended(cfg.found, User, UserText, [TextBlock(text)], [])
  {
    hide Sent, Canonical;
    RunOneMore(cfg, [], Arrive(text));
    assert [] + [Arrive(text)] == [Arrive(text)];
    RunOneMore(cfg, [Arrive(text)], Begin);
  }

  /**
   The cap is not kept by the code alone: a model that uses a tool although `tool_choice` is none gets one call more
   than `max_tool_rounds` allows for the message, whatever the setting.
   */
  lemma CapExceeded(cfg: Config, text: string)
    requires TurnsOk(cfg.found)
    ensures var s := Exec(cfg, Rounds(text, CallCap(cfg)));
            s.phase.Calling? && s.callsNow == CallCap(cfg) + 1 && s.dishonoured == 1
  {
    hide Exec, Rounds;
    RoundsMove(cfg, text, CallCap(cfg));
    CallInvAlways(cfg, Rounds(text, CallCap(cfg)));
  }

  // --- thinking ---------------------------------------------------------------------------------------------------

  /** A step that is no reply and ends no stream leaves a clean run clean. */
  lemma CleanStays(cfg: Config, acts: seq<Action>, a: Action)
    requires CleanRun(cfg, acts) && !a.Reply? && !a.Crash? && !a.Abandon?
    ensures CleanRun(cfg, acts + [a])
  {
    assert (acts + [a])[..|acts|] == acts;
  }

  lemma CleanReply(cfg: Config, acts: seq<Action>, content: seq<Block>)
    requires CleanRun(cfg, acts) && Kept(content) != [] && FreshStep(Exec(cfg, acts), Reply(content, "tool_use"))
    ensures CleanRun(cfg, acts + [Reply(content, "tool_use")])
  {
    assert (acts + [Reply(content, "tool_use")])[..|acts|] == acts;
  }

  lemma StartIsClean(cfg: Config, text: string)
    requires cfg.found == []
    ensures CleanRun(cfg, [Arrive(text)] + [Begin])
  {
    assert CleanRun(cfg, []);
    CleanStays(cfg, [], Arrive(text));
    assert [] + [Arrive(text)] == [Arrive(text)];
    CleanStays(cfg, [Arrive(text)], Begin);
  }

  /** Nothing was called before the first round. */
  lemma FirstReplyFresh(cfg: Config, text: string)
    requires cfg.found == []
    ensures FreshStep(Exec(cfg, [Arrive(text)] + [Begin]), Reply([Use(0)], "tool_use")) && Kept([Use(0)]) != []
  {
    ExampleUse(Use(0), seq(1, _ => 't'));
    FirstRound(cfg, text);
    hide Exec, TextBlock, Use;
    var turns := Exec(cfg, [Arrive(text)] + [Begin]).turns;
    assert StoredParts(turns) == [] + [StoredPart(turns[0])];
    CallIdsSnoc([], StoredPart(turns[0]));
    assert Kept([Use(0)]) == [Use(0)];
    assert StoredIds([Use(0)]) == [Canonical(Get(Use(0), "id"))];
  }

  lemma OneRoundClean(cfg: Config, text: string)
    requires cfg.found == []
    ensures CleanRun(cfg, Rounds(text, 1))
  {
    StartIsClean(cfg, text);
    FirstReplyFresh(cfg, text);
    hide CleanRun, Exec, FreshStep, Use, Kept;
    var r0 := [Arrive(text)] + [Begin];
    var r1 := r0 + [Reply([Use(0)], "tool_use")];
    var r3 := r1 + [Yield] + [Gathered([Raised])];
    CleanReply(cfg, r0, [Use(0)]);
    CleanStays(cfg, r1, Yield);
    CleanStays(cfg, r1 + [Yield], Gathered([Raised]));
    CleanStays(cfg, r3, Yield);
    CleanStays(cfg, r3 + [Yield], Yield);
    CleanStays(cfg, r3 + [Yield] + [Yield], Record);
    assert Rounds(text, 0) == r0;
  }

  /** A new session with thinking enabled: one clean round of tools, and the call that goes on from it is refused. */
  lemma ThinkingExample(cfg: Config, text: string, entry: Option<int>, wrapup: bool)
    requires cfg.found == [] && cfg.thinkingEnabled
    ensures CleanRun(cfg, Rounds(text, 1))
    ensures var s := Exec(cfg, Rounds(text, 1)); s.phase.Calling? && !Accepted(true, Sent(cfg, s.turns, entry, wrapup))
  {
    OneRoundClean(cfg, text);
    assert TurnsOk(cfg.found);
    hide CleanRun, Exec, Rounds, Sent;
    RoundsMove(cfg, text, 1);
    ToolRoundRefused(cfg, Rounds(text, 1), entry, wrapup);
  }
}
