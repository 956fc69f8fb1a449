/** The stream contract along a run: terminal events, model calls, and tickets. */
module RunEvents {
  import opened Json
  import opened Transcript
  import opened Tickets
  import opened Conversation
  import opened TurnInvariants
  import opened RunTurns

  /** Exactly one terminal event, and it is the last. */
  predicate OneTerminalLast(es: seq<Event>) {
    es != [] && Terminal(es[|es| - 1]) && !SawTerminal(es[..|es| - 1])
  }

  ghost predicate EventInv(s: State) {
    && (forall i | 0 <= i < |s.finished| :: OneTerminalLast(s.finished[i]))
    && (s.phase.Idle? || s.phase.Arrived? ==> s.outbox == [])
    && (s.phase.Arrived? ==> s.emitted == [])
    && (!s.phase.Idle? && !s.phase.Closing? ==> !SawTerminal(s.emitted) && !SawTerminal(s.outbox))
    && (s.phase.Closing? ==>
          || (!SawTerminal(s.emitted) && |s.outbox| == 1 && Terminal(s.outbox[0]))
          || (OneTerminalLast(s.emitted) && s.outbox == []))
  }

  lemma ReplyEvents(cfg: Config, s: State, content: seq<Block>, stop: string)
    requires EventInv(s) && s.phase.Calling? && s.outbox == []
    ensures EventInv(ReplyStep(cfg, s, content, stop))
  {
    NoTerminalIn(Started(Uses(Kept(content))));
  }

  lemma GatheredEvents(cfg: Config, s: State, results: seq<HandlerResult>)
    requires EventInv(s) && Enabled(s, Gathered(results))
    ensures EventInv(GatheredStep(cfg, s, results))
  {
    hide Dispatch;
    NoTerminalIn(GatheredStep(cfg, s, results).outbox);
  }

  lemma YieldEvents(s: State)
    requires EventInv(s) && s.outbox != []
    ensures EventInv(s.(emitted := s.emitted + [s.outbox[0]], outbox := s.outbox[1..]))
  {
    var es := s.emitted + [s.outbox[0]];
    assert es[..|es| - 1] == s.emitted;
    if !SawTerminal(s.outbox) {
      assert !Terminal(s.outbox[0]);
      assert forall i | 0 <= i < |s.outbox[1..]| :: s.outbox[1..][i] == s.outbox[i + 1];
    }
  }

  lemma CrashEvents(s: State)
    requires EventInv(s) && !s.phase.Idle?
    ensures EventInv(s.(phase := Idle, outbox := [], finished := s.finished + [AfterCrash(s.emitted)]))
  {
    var es := AfterCrash(s.emitted);
    if !SawTerminal(s.emitted) {
      assert es[..|es| - 1] == s.emitted;
    }
  }

  lemma OtherEvents(cfg: Config, s: State, a: Action)
    requires EventInv(s) && Enabled(s, a)
    requires a.Arrive? || a.Begin? || a.Delta? || a.ModelFails? || a.Return? || a.Abandon? || a.Flow?
    ensures EventInv(Next(cfg, s, a))
  {
    hide Sent, History, Canonical;
  }

  lemma EventInvStep(cfg: Config, s: State, a: Action)
    requires EventInv(s)
    ensures EventInv(Next(cfg, s, a))
  {
    hide EventInv, ReplyStep, RecordStep, GatheredStep, BeginStep;
    if Enabled(s, a) {
      match a {
        case Reply(content, stop) => ReplyEvents(cfg, s, content, stop);
        case Gathered(results) => GatheredEvents(cfg, s, results);
        case Record => RecordEvents(cfg, s);
        case Yield => YieldEvents(s);
        case Crash => CrashEvents(s);
        case _ => OtherEvents(cfg, s, a);
      }
    }
  }

  lemma NoTerminalIn(es: seq<Event>)
    requires forall e | e in es :: !Terminal(e)
    ensures !SawTerminal(es)
  {
  }

  lemma RecordEvents(cfg: Config, s: State)
    requires EventInv(s) && Enabled(s, Record)
    ensures EventInv(RecordStep(cfg, s))
  {
    var (uses, outcomes, k) := (s.phase.uses, s.phase.outcomes, s.phase.next);
    if k + 1 < |uses| {
      NoTerminalIn(Shown(cfg, uses[k + 1], outcomes[k + 1]));
    }
  }

  lemma {:induction false} EventInvAlways(cfg: Config, acts: seq<Action>)
    ensures EventInv(Exec(cfg, acts))
    decreases |acts|
  {
    if acts != [] {
      EventInvAlways(cfg, acts[..|acts| - 1]);
      EventInvStep(cfg, Exec(cfg, acts[..|acts| - 1]), acts[|acts| - 1]);
    }
  }

  /**
   Every stream that was consumed to its end carries exactly one terminal event, as its last one,
   wherever an exception struck. One that is still running, or was abandoned, carries at most one, last.
   */
  lemma OneTerminalAlways(cfg: Config, acts: seq<Action>)
    ensures forall es | es in Exec(cfg, acts).finished :: OneTerminalLast(es)
    ensures !Exec(cfg, acts).phase.Idle? ==>
            !SawTerminal(Exec(cfg, acts).emitted) || OneTerminalLast(Exec(cfg, acts).emitted)
  {
    EventInvAlways(cfg, acts);
  }

  /** The five event names of the stream contract. */
  predicate KnownName(e: Event) {
    e.name == "text" || e.name == "tool" || e.name == "artifact" || e.name == "done" || e.name == "error"
  }

  predicate AllKnown(es: seq<Event>) {
    forall e | e in es :: KnownName(e)
  }

  ghost predicate NameInv(s: State) {
    AllKnown(s.outbox) && AllKnown(s.emitted) && forall i | 0 <= i < |s.finished| :: AllKnown(s.finished[i])
  }

  lemma YieldNames(s: State)
    requires NameInv(s) && s.outbox != []
    ensures NameInv(s.(emitted := s.emitted + [s.outbox[0]], outbox := s.outbox[1..]))
  {
    assert s.outbox[0] in s.outbox && forall e | e in s.outbox[1..] :: e in s.outbox;
  }

  lemma StartedKnown(uses: seq<Block>)
    ensures AllKnown(Started(uses))
  {
  }

  lemma ShownKnown(cfg: Config, use: Block, o: Outcome)
    ensures AllKnown(Shown(cfg, use, o))
  {
  }

  lemma StepOutbox(cfg: Config, s: State, a: Action)
    requires Enabled(s, a) && !a.Yield?
    ensures Next(cfg, s, a).outbox == s.outbox || AllKnown(Next(cfg, s, a).outbox)
  {
    hide Sent, History, Canonical, Dispatch, RecordStep;
    match a
    case Reply(content, stop) => StartedKnown(Uses(Kept(content)));
    case Record => RecordOutbox(cfg, s);
    case Gathered(results) =>
      var o := Dispatch(cfg, s.turns, NameOf(s.phase.uses[0]), results[0]);
      ShownKnown(cfg, s.phase.uses[0], o);
    case Begin => BeginOutbox(cfg, s);
    case _ => KnownOutbox(cfg, s, a);
  }

  lemma BeginOutbox(cfg: Config, s: State)
    requires s.phase.Arrived?
    ensures BeginStep(cfg, s).outbox == s.outbox && BeginStep(cfg, s).emitted == s.emitted
    ensures BeginStep(cfg, s).finished == s.finished
  {
    hide Sent;
  }

  lemma KnownOutbox(cfg: Config, s: State, a: Action)
    requires Enabled(s, a) && !a.Yield? && !a.Reply? && !a.Record? && !a.Gathered? && !a.Begin?
    ensures Next(cfg, s, a).outbox == s.outbox || AllKnown(Next(cfg, s, a).outbox)
  {
  }

  lemma RecordOutbox(cfg: Config, s: State)
    requires Enabled(s, Record)
    ensures RecordStep(cfg, s).outbox == s.outbox || AllKnown(RecordStep(cfg, s).outbox)
  {
    hide Sent, Canonical;
    if s.phase.next + 1 < |s.phase.uses| {
      ShownKnown(cfg, s.phase.uses[s.phase.next + 1], s.phase.outcomes[s.phase.next + 1]);
    }
  }

  lemma NameInvStep(cfg: Config, s: State, a: Action)
    requires NameInv(s)
    ensures NameInv(Next(cfg, s, a))
  {
    if Enabled(s, a) {
      if a.Yield? {
        YieldNames(s);
      } else {
        StepOutbox(cfg, s, a);
        StepFinished(cfg, s, a);
      }
    }
  }

  lemma StepFinished(cfg: Config, s: State, a: Action)
    requires Enabled(s, a) && !a.Yield? && NameInv(s)
    ensures var t := Next(cfg, s, a);
            AllKnown(t.emitted) && forall i | 0 <= i < |t.finished| :: AllKnown(t.finished[i])
  {
    hide Sent, Canonical, Dispatch;
  }

  lemma {:induction false} NameInvAlways(cfg: Config, acts: seq<Action>)
    ensures NameInv(Exec(cfg, acts))
    decreases |acts|
  {
    if acts != [] {
      NameInvAlways(cfg, acts[..|acts| - 1]);
      NameInvStep(cfg, Exec(cfg, acts[..|acts| - 1]), acts[|acts| - 1]);
    }
  }

  // --- how often the model is called -------------------------------------------------------------------

  function Max(a: int, b: int): int {
    if a < b then b else a
  }

  /** A request counts its model calls by rounds; each wrap-up round that still used tools adds one. */
  ghost predicate CallInv(cfg: Config, s: State) {
    && (s.phase.Calling? ==> s.callsNow == s.rounds + 1)
    && (s.phase.Gathering? || s.phase.Recording? ==> s.callsNow == s.rounds > 0)
    && s.callsNow <= s.rounds + 1
    && s.dishonoured == Max(0, s.rounds - Max(0, cfg.maxToolRounds))
    && (s.phase.Calling? ==> !s.authExpired)
    && (s.phase.Recording? && s.authExpired ==> !s.artifactsOnly)
    && (s.phase.Gathering? ==> !s.authExpired)
  }

  lemma CallInvStep(cfg: Config, s: State, a: Action)
    requires CallInv(cfg, s) && PhaseOk(cfg, s)
    ensures CallInv(cfg, Next(cfg, s, a))
  {
    hide Sent, Canonical, CanonicalBlocks, Dispatch, Appended, Shown, Kept, Uses, UserTextMessage;
    hide DoneEvent, AfterCrash;
    if Enabled(s, a) && a.Gathered? {
      assert !s.authExpired;
    }
  }

  lemma {:induction false} CallInvAlways(cfg: Config, acts: seq<Action>)
    requires TurnsOk(cfg.found)
    ensures CallInv(cfg, Exec(cfg, acts))
    decreases |acts|
  {
    if acts != [] {
      CallInvAlways(cfg, acts[..|acts| - 1]);
      TurnInvAlways(cfg, acts[..|acts| - 1]);
      CallInvStep(cfg, Exec(cfg, acts[..|acts| - 1]), acts[|acts| - 1]);
    }
  }

  /** The calls that `max_tool_rounds` promises at most for one message. */
  function CallCap(cfg: Config): nat {
    Max(0, cfg.maxToolRounds) + 1
  }

  /**
   The tool-round cap: a message costs at most that many model calls and one more for each wrap-up reply that used
   tools although `tool_choice` was none.
   */
  lemma ModelCallsBounded(cfg: Config, acts: seq<Action>)
    requires TurnsOk(cfg.found)
    ensures Exec(cfg, acts).callsNow <= CallCap(cfg) + Exec(cfg, acts).dishonoured
  {
    CallInvAlways(cfg, acts);
  }

  /** Exactly: a call is beyond the cap if and only if such a reply came before it, and by as many as there were. */
  lemma BeyondCapIff(cfg: Config, acts: seq<Action>)
    requires TurnsOk(cfg.found) && Exec(cfg, acts).phase.Calling?
    ensures var s := Exec(cfg, acts);
            && (s.callsNow > CallCap(cfg) <==> s.dishonoured > 0)
            && (s.dishonoured > 0 ==> s.callsNow == CallCap(cfg) + s.dishonoured)
  {
    CallInvAlways(cfg, acts);
  }

  /** Once a tool has reported an expired login, the message ends without another model call. */
  lemma {:induction false} NoCallAfterAuthExpiry(cfg: Config, acts: seq<Action>, more: seq<Action>)
    requires TurnsOk(cfg.found)
    requires Exec(cfg, acts).authExpired
    requires forall i | 0 <= i < |more| :: !more[i].Begin?
    ensures Exec(cfg, acts + more).calls == Exec(cfg, acts).calls
    ensures Exec(cfg, acts + more).authExpired
    decreases |more|
  {
    hide Next, CallInv;
    if more == [] {
      assert acts + more == acts;
    } else {
      var init := more[..|more| - 1];
      NoCallAfterAuthExpiry(cfg, acts, init);
      var all := acts + more;
      assert all[..|all| - 1] == acts + init && all[|all| - 1] == more[|more| - 1];
      CallInvAlways(cfg, acts + init);
      AuthExpiryStep(cfg, Exec(cfg, acts + init), more[|more| - 1]);
    }
  }

  lemma AuthExpiryStep(cfg: Config, s: State, a: Action)
    requires s.authExpired && CallInv(cfg, s) && !a.Begin?
    ensures Next(cfg, s, a).calls == s.calls && Next(cfg, s, a).authExpired
  {
  }

  // --- tickets -----------------------------------------------------------------------------------------------

  /** Every ticket raised so far answered a message for which the rule held when it arrived. */
  ghost predicate TicketInv(cfg: Config, s: State) {
    forall i | 0 <= i < |s.raised| :: s.raised[i] <= |s.turns| && UserInitiated(cfg.phrases, s.turns[..s.raised[i]])
  }

  lemma NoneAfterAsked(turns: seq<Turn>)
    ensures Asked(turns) <= |turns| && forall i | Asked(turns) <= i < |turns| :: !FromUser(turns[i])
  {
  }

  lemma VerdictAtQuestion(p: Phrases, turns: seq<Turn>)
    requires UserInitiated(p, turns)
    ensures UserInitiated(p, turns[..Asked(turns)])
  {
    hide UserInitiated, TurnsOk, Asked;
    var n := Asked(turns);
    NoneAfterAsked(turns);
    assert turns == turns[..n] + turns[n..];
    VerdictFixedByUserText(p, turns[..n], turns[n..]);
  }

  lemma TicketInvGrows(cfg: Config, turns: seq<Turn>, more: seq<Turn>, raised: seq<nat>)
    requires turns <= more
    requires forall i | 0 <= i < |raised| :: raised[i] <= |turns| && UserInitiated(cfg.phrases, turns[..raised[i]])
    ensures forall i | 0 <= i < |raised| :: raised[i] <= |more| && UserInitiated(cfg.phrases, more[..raised[i]])
  {
    forall i | 0 <= i < |raised| ensures raised[i] <= |more| && UserInitiated(cfg.phrases, more[..raised[i]]) {
      assert more[..raised[i]] == turns[..raised[i]];
    }
  }

  /** The end of a round, or a new call, leaves turns and tickets alone. */
  lemma ConcludeKeeps(cfg: Config, t: State)
    ensures Conclude(cfg, t).turns == t.turns && Conclude(cfg, t).raised == t.raised
            && t.calls <= Conclude(cfg, t).calls
  {
  }

  /** Recording a result appends user turns, and a ticket is raised for the message being answered. */
  lemma RecordGrows(cfg: Config, s: State)
    requires Enabled(s, Record)
    ensures var t := RecordStep(cfg, s);
            && s.turns <= t.turns && UserFrom(t.turns, |s.turns|) && s.calls <= t.calls
            && (t.raised == s.raised || (RaisedTicket(s.phase.uses[s.phase.next], s.phase.outcomes[s.phase.next])
                                         && t.raised == s.raised + [Asked(s.turns)]))
  {
    var t := Stored(cfg, s, s.phase.uses[s.phase.next], s.phase.outcomes[s.phase.next]);
    StoredGrows(cfg, s, s.phase.uses[s.phase.next], s.phase.outcomes[s.phase.next], t);
    ConcludeKeeps(cfg, t);
  }

  /**
   Recording a result appends one result turn, and behind it a memo exactly when the call raised a ticket;
   the ticket is put down to the message being answered, and no call is made.
   */
  lemma StoredGrows(cfg: Config, s: State, use: Block, o: Outcome, t: State)
    requires t == Stored(cfg, s, use, o)
    ensures s.turns < t.turns && UserFrom(t.turns, |s.turns|)
    ensures |t.turns| == |s.turns| + if RaisedTicket(use, o) then 2 else 1
    ensures t.turns[|s.turns|].kind == ToolResult
    ensures t.turns[|s.turns|].content == CanonicalBlocks([ResultBlock(Get(use, "id"), o.content, o.isError)])
    ensures t.turns[|s.turns|].meta == CanonicalDict([("tool_name", Get(use, "name")), ("is_error", Bool(o.isError))])
    ensures RaisedTicket(use, o) ==>
              var memo := cfg.ticketMemo(Get(o.envelope.value, "ticketId"), Get(use, "input"));
              && t.turns[|s.turns| + 1].kind == FlowEvent
              && t.turns[|s.turns| + 1].content == CanonicalBlocks([TextBlock(memo)])
              && t.turns[|s.turns| + 1].meta == CanonicalDict([("flow", Str("ticket"))])
    ensures t.raised == s.raised + if RaisedTicket(use, o) then [Asked(s.turns)] else []
    ensures t.calls == s.calls && t.callsNow == s.callsNow
  {
    hide CanonicalDict, CanonicalBlocks, Get;
  }

  lemma BeginGrows(cfg: Config, s: State)
    requires s.phase.Arrived?
    ensures var t := BeginStep(cfg, s);
            s.turns <= t.turns && UserFrom(t.turns, |s.turns|) && s.calls <= t.calls && t.raised == s.raised
  {
  }

  /** All turns from position `n` on are the user's. */
  predicate UserFrom(turns: seq<Turn>, n: nat) {
    forall i | n <= i < |turns| :: turns[i].role == User
  }

  /** Turns are only ever appended, assistant turns by replies alone. */
  lemma TurnsOnlyGrow(cfg: Config, s: State, a: Action)
    ensures s.turns <= Next(cfg, s, a).turns
    ensures s.calls <= Next(cfg, s, a).calls
    ensures Next(cfg, s, a).raised == s.raised
            || (a.Record? && Enabled(s, a) && s.phase.next < |s.phase.uses| == |s.phase.outcomes|
              && RaisedTicket(s.phase.uses[s.phase.next], s.phase.outcomes[s.phase.next])
              && Next(cfg, s, a).raised == s.raised + [Asked(s.turns)])
    ensures !(a.Reply? && Enabled(s, a)) ==> UserFrom(Next(cfg, s, a).turns, |s.turns|)
  {
    if Enabled(s, a) {
      match a
      case Begin => BeginGrows(cfg, s);
      case Record => RecordGrows(cfg, s);
      case _ =>
    }
  }

  lemma TicketInvStep(cfg: Config, s: State, a: Action)
    requires TicketInv(cfg, s) && TurnInv(cfg, s)
    ensures TicketInv(cfg, Next(cfg, s, a))
  {
    TurnsOnlyGrow(cfg, s, a);
    TicketInvMoves(cfg, s, Next(cfg, s, a));
  }

  /** Turns grew, and at most one ticket was raised, for the message being answered. */
  lemma TicketInvMoves(cfg: Config, s: State, t: State)
    requires TicketInv(cfg, s) && TurnInv(cfg, s) && s.turns <= t.turns
    requires t.raised == s.raised || (s.phase.Recording? && s.phase.next < |s.phase.uses| == |s.phase.outcomes|
               && RaisedTicket(s.phase.uses[s.phase.next], s.phase.outcomes[s.phase.next])
               && t.raised == s.raised + [Asked(s.turns)])
    ensures TicketInv(cfg, t)
  {
    TicketInvGrows(cfg, s.turns, t.turns, s.raised);
    if t.raised != s.raised {
      VerdictAtQuestion(cfg.phrases, s.turns);
      TicketInvGrows(cfg, s.turns, t.turns, [Asked(s.turns)]);
    }
  }

  lemma {:induction false} TicketInvAlways(cfg: Config, acts: seq<Action>)
    requires TurnsOk(cfg.found)
    ensures TicketInv(cfg, Exec(cfg, acts))
    decreases |acts|
  {
    if acts != [] {
      TicketInvAlways(cfg, acts[..|acts| - 1]);
      TurnInvAlways(cfg, acts[..|acts| - 1]);
      TicketInvStep(cfg, Exec(cfg, acts[..|acts| - 1]), acts[|acts| - 1]);
    }
  }
}
