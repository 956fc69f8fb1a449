/**
 What the customer is told (backend/app/agent/loop.py): the events of a stream against what the model said, what it
 called and what the tools answered, event by event and in order, on every run.
 */
module Streams {
  import opened Json
  import opened Transcript
  import opened Conversation
  import opened RunEvents

  // --- reading a stream ------------------------------------------------------------------------------------------

  /** What a reader takes from one event. */
  datatype Beat =
    | Words(delta: Json)
    | ToolMark(name: Json, status: Json, failed: Json)
    | CardShown(payload: Dict)
    | Finished(thread: Json)
    | Broken(code: Json)

  function ReadEvent(e: Event): seq<Beat> {
    if e.name == "text" then [Words(Get(e.data, "delta"))]
    else if e.name == "tool" then
      [ToolMark(Get(e.data, "name"), Get(e.data, "status"), Get(e.data, "is_error"))]
    else if e.name == "artifact" then [CardShown(e.data)]
    else if e.name == "done" then [Finished(Get(e.data, "thread"))]
    else if e.name == "error" then [Broken(Get(e.data, "error"))]
    else []
  }

  function Beats(es: seq<Event>): seq<Beat> {
    if es == [] then [] else Beats(es[..|es| - 1]) + ReadEvent(es[|es| - 1])
  }

  lemma {:induction false} BeatsConcat(a: seq<Event>, b: seq<Event>)
    ensures Beats(a + b) == Beats(a) + Beats(b)
    decreases |b|
  {
    hide ReadEvent;
    if b == [] {
      assert a + b == a;
    } else {
      var n := |b| - 1;
      BeatsConcat(a, b[..n]);
      FrontOf(a, b);
    }
  }

  lemma BeatsFront(es: seq<Event>)
    requires es != []
    ensures Beats(es) == Beats(es[..|es| - 1]) + ReadEvent(es[|es| - 1])
  {
  }

  lemma FrontOf(a: seq<Event>, b: seq<Event>)
    requires b != []
    ensures var all := a + b;
            all[..|all| - 1] == a + b[..|b| - 1] && all[|all| - 1] == b[|b| - 1]
  {
  }

  // --- what there is to tell -------------------------------------------------------------------------------------

  /**
   The beats of a request so far; of its current round, the beats until its last call was announced, the calls, their
   answers, and how many of these are stored.
   */
  datatype Tale = Tale(beats: seq<Beat>, before: seq<Beat>, asked: seq<Block>, answered: seq<Outcome>, recorded: nat)

  predicate IsAnnouncement(b: Beat) {
    b.ToolMark? && b.status == Str("started")
  }

  /** All calls of a reply are announced, in order. */
  function Announced(calls: seq<Block>): (r: seq<Beat>)
    ensures |r| == |calls|
  {
    seq(|calls|, i requires 0 <= i < |calls| => ToolMark(Get(calls[i], "name"), Str("started"), Bool(false)))
  }

  /** The answer to a call, and behind it the card that its tool makes of it, if any. */
  function Answered(cfg: Config, call: Block, o: Outcome): seq<Beat> {
    var card := cfg.artifact(NameOf(call), o);
    [ToolMark(Get(call, "name"), Str("finished"), Bool(o.isError))] + if card.Some? then [CardShown(card.value)] else []
  }

  function AllAnswered(cfg: Config, calls: seq<Block>, outcomes: seq<Outcome>, n: nat): seq<Beat>
    requires n <= |calls| == |outcomes|
  {
    if n == 0 then [] else AllAnswered(cfg, calls, outcomes, n - 1) + Answered(cfg, calls[n - 1], outcomes[n - 1])
  }

  predicate CardsOnly(cfg: Config, calls: seq<Block>, outcomes: seq<Outcome>, n: nat)
    requires n <= |calls| == |outcomes|
  {
    forall i | 0 <= i < n :: !outcomes[i].isError && cfg.artifact(NameOf(calls[i]), outcomes[i]).Some?
  }

  predicate LoginExpired(outcomes: seq<Outcome>, n: nat)
    requires n <= |outcomes|
  {
    exists i :: 0 <= i < n && outcomes[i].code == Some("AUTH_EXPIRED")
  }

  /** The counters of the thread, with the seq of its newest turn. */
  function Farewell(cfg: Config, turns: seq<Turn>): Beat
    requires turns != []
  {
    Finished(Obj(cfg.counters(turns) + [("lastSeq", Int(turns[|turns| - 1].no))]))
  }

  /** What happens next adds what there is to tell of it; `turns` are those before, `after` those behind it. */
  ghost function Tell(cfg: Config, turns: seq<Turn>, tale: Tale, a: Action, after: seq<Turn>): Tale {
    match a
    case Arrive(_) => Tale([], [], [], [], 0)
    case Delta(text) => tale.(beats := tale.beats + [Words(Str(text))])
    case ModelFails => tale.(beats := tale.beats + [Broken(Str("AGENT_UNAVAILABLE"))])
    case Reply(content, stop) =>
      var calls := Uses(content);
      if stop == "tool_use" && calls != [] then
        var beats := tale.beats + Announced(calls);
        Tale(beats, beats, calls, [], 0)
      else if after == [] then tale
      else tale.(beats := tale.beats + [Farewell(cfg, after)])
    case Gathered(results) =>
      if |results| != |tale.asked| then tale
      else
        var outcomes := seq(|results|, i requires 0 <= i < |results| =>
                            Dispatch(cfg, turns, NameOf(tale.asked[i]), results[i]));
        tale.(answered := outcomes, beats := tale.beats + AllAnswered(cfg, tale.asked, outcomes, |outcomes|))
    case Record =>
      var t := tale.(recorded := tale.recorded + 1);
      var n := |t.answered|;
      if t.recorded != n || n != |t.asked| || after == [] then t
      else if CardsOnly(cfg, t.asked, t.answered, n) then t.(beats := t.beats + [Farewell(cfg, after)])
      else if LoginExpired(t.answered, n) then t.(beats := t.beats + [Broken(Str("AUTH_EXPIRED"))])
      else t
    case _ => tale
  }

  /** All there is to tell of the request that is being answered. */
  ghost function Told(cfg: Config, acts: seq<Action>): Tale {
    if acts == [] then Tale([], [], [], [], 0)
    else
      var init, a := acts[..|acts| - 1], acts[|acts| - 1];
      var s := Exec(cfg, init);
      if Enabled(s, a) then Tell(cfg, s.turns, Told(cfg, init), a, Next(cfg, s, a).turns) else Told(cfg, init)
  }

  // --- what the code's events read as ----------------------------------------------------------------------------

  lemma EventsRead(call: Block, status: string, failed: bool, text: string, code: string)
    ensures ReadEvent(ToolEvent(call, status, failed)) == [ToolMark(Get(call, "name"), Str(status), Bool(failed))]
    ensures ReadEvent(TextEvent(text)) == [Words(Str(text))]
    ensures ReadEvent(ErrorEvent(code)) == [Broken(Str(code))]
  {
    var data := ToolEvent(call, status, failed).data;
    assert data[1..][0] == data[1] && data[1..][1..][0] == data[2];
    assert "name"[0] != "status"[0] && "name"[0] != "is_error"[0] && "status"[0] != "is_error"[0];
    assert Get(data, "status") == Get(data[1..], "status") && Get(data, "is_error") == Get(data[1..], "is_error");
    assert Get(data[1..], "is_error") == Get(data[1..][1..], "is_error");
  }

  lemma DoneReads(cfg: Config, turns: seq<Turn>)
    requires turns != []
    ensures ReadEvent(DoneEvent(cfg, turns)) == [Farewell(cfg, turns)]
  {
  }

  lemma OneRead(e: Event)
    ensures Beats([e]) == ReadEvent(e)
  {
    assert [e][..0] == [];
  }

  lemma ShownReads(cfg: Config, call: Block, o: Outcome)
    ensures Beats(Shown(cfg, call, o)) == Answered(cfg, call, o)
  {
    EventsRead(call, "finished", o.isError, "", "");
    var shown := Shown(cfg, call, o);
    OneRead(shown[0]);
    if |shown| == 2 {
      CardReads(shown[1]);
      OneRead(shown[1]);
      hide Beats, ReadEvent;
      assert shown == [shown[0]] + [shown[1]];
      BeatsConcat([shown[0]], [shown[1]]);
    }
  }

  lemma CardReads(e: Event)
    requires e.name == "artifact"
    ensures ReadEvent(e) == [CardShown(e.data)]
  {
  }

  lemma {:induction false} StartedReads(cfg: Config, calls: seq<Block>)
    ensures Beats(Started(calls)) == Announced(calls)
  {
    var es := Started(calls);
    if calls != [] {
      var n := |calls| - 1;
      StartedReads(cfg, calls[..n]);
      EventsRead(calls[n], "started", false, "", "");
      assert es[..n] == Started(calls[..n]);
      assert Announced(calls) == Announced(calls[..n]) + ReadEvent(es[n]);
    }
  }

  // --- a request and what is told of it --------------------------------------------------------------------------

  /** Dropping thinking drops no call. */
  lemma {:induction false} UsesOfKept(content: seq<Block>)
    ensures Uses(Kept(content)) == Uses(content)
  {
    if content != [] {
      UsesOfKept(content[1..]);
      if Get(content[0], "type") !in {Str("thinking"), Str("redacted_thinking")} {
        assert ([content[0]] + Kept(content[1..]))[1..] == Kept(content[1..]);
      } else {
        assert "thinking"[1] != "tool_use"[1] && "redacted_thinking"[0] != "tool_use"[0];
      }
    }
  }

  /** All events of the request so far, sent or about to be. */
  function Sending(s: State): seq<Event> {
    s.emitted + s.outbox
  }

  ghost predicate StreamInv(cfg: Config, s: State, tale: Tale) {
    match s.phase
    case Idle => true
    case Arrived(_) => s.emitted == [] && s.outbox == [] && tale.beats == []
    case Calling => Beats(Sending(s)) == tale.beats && !s.authExpired
    case Closing => Beats(Sending(s)) == tale.beats
    case Gathering(uses) =>
      && Beats(Sending(s)) == tale.beats && tale.beats == tale.before && tale.asked == uses && uses != []
      && tale.recorded == 0 && !s.authExpired && Announces(tale)
    case Recording(uses, outcomes, k) =>
      && |uses| == |outcomes| && k < |uses| && RoundTold(cfg, tale, uses, outcomes, k)
      && Beats(Sending(s)) == tale.before + AllAnswered(cfg, uses, outcomes, k + 1)
      && (s.artifactsOnly <==> CardsOnly(cfg, uses, outcomes, k))
      && (s.authExpired <==> LoginExpired(outcomes, k))
  }

  /** All answers of the round are told, and `k` of them are stored. */
  predicate RoundTold(cfg: Config, tale: Tale, uses: seq<Block>, outcomes: seq<Outcome>, k: nat)
    requires |uses| == |outcomes|
  {
    && tale.asked == uses && tale.answered == outcomes && tale.recorded == k && Announces(tale)
    && tale.beats == tale.before + AllAnswered(cfg, uses, outcomes, |uses|)
  }

  /** The answers of the round are told behind the announcement of its last call. */
  predicate Announces(tale: Tale) {
    tale.before != [] && IsAnnouncement(tale.before[|tale.before| - 1])
  }

  lemma SendMore(s: State, t: State)
    requires s.outbox == [] && t.emitted == s.emitted
    ensures Beats(Sending(t)) == Beats(Sending(s)) + Beats(t.outbox)
  {
    assert Sending(s) == s.emitted;
    BeatsConcat(s.emitted, t.outbox);
  }

  lemma ReplyIs(cfg: Config, s: State, content: seq<Block>, stop: string)
    ensures var t, calls := ReplyStep(cfg, s, content, stop), Uses(content);
            && t.emitted == s.emitted && t.authExpired == s.authExpired && t.turns != []
            && if stop == "tool_use" && calls != [] then t.phase == Gathering(calls) && t.outbox == Started(calls)
               else t.phase == Closing && t.outbox == [DoneEvent(cfg, t.turns)]
  {
    UsesOfKept(content);
    hide Kept, Uses, DoneEvent, CanonicalBlocks, CanonicalDict;
  }

  lemma TellReply(cfg: Config, turns: seq<Turn>, tale: Tale, content: seq<Block>, stop: string, after: seq<Turn>)
    requires after != []
    ensures var t, calls := Tell(cfg, turns, tale, Reply(content, stop), after), Uses(content);
            if stop == "tool_use" && calls != [] then
              t == Tale(tale.beats + Announced(calls), tale.beats + Announced(calls), calls, [], 0)
            else t == tale.(beats := tale.beats + [Farewell(cfg, after)])
  {
    hide Uses;
  }

  lemma Announce(tale: Tale, calls: seq<Block>)
    requires calls != []
    ensures Announces(Tale(tale.beats + Announced(calls), tale.beats + Announced(calls), calls, [], 0))
  {
    LastAnnounced(calls);
  }

  lemma ReplyTold(cfg: Config, s: State, tale: Tale, content: seq<Block>, stop: string)
    requires Beats(Sending(s)) == tale.beats && !s.authExpired && s.outbox == []
    ensures var t := ReplyStep(cfg, s, content, stop);
            StreamInv(cfg, t, Tell(cfg, s.turns, tale, Reply(content, stop), t.turns))
  {
    var t := ReplyStep(cfg, s, content, stop);
    var calls := Uses(content);
    hide Beats, Kept, Uses, Announced, ReplyStep, Tell, Sending, Farewell, DoneEvent, Announces;
    ReplyIs(cfg, s, content, stop);
    TellReply(cfg, s.turns, tale, content, stop, t.turns);
    SendMore(s, t);
    if stop == "tool_use" && calls != [] {
      StartedReads(cfg, calls);
      Announce(tale, calls);
    } else {
      DoneReads(cfg, t.turns);
      OneRead(DoneEvent(cfg, t.turns));
    }
  }

  lemma LastAnnounced(calls: seq<Block>)
    requires calls != []
    ensures IsAnnouncement(Announced(calls)[|calls| - 1])
  {
  }

  // --- answers ---------------------------------------------------------------------------------------------------

  lemma GatheredIs(cfg: Config, s: State, results: seq<HandlerResult>)
    requires Enabled(s, Gathered(results))
    ensures var t, uses := GatheredStep(cfg, s, results), s.phase.uses;
            var outcomes := Outcomes(cfg, s.turns, uses, results);
            && t == s.(phase := Recording(uses, outcomes, 0), artifactsOnly := true,
                       outbox := Shown(cfg, uses[0], outcomes[0]))
            && s.outbox == [] && uses != []
  {
    hide Dispatch, Outcomes, Shown;
  }

  lemma TellGathered(cfg: Config, turns: seq<Turn>, tale: Tale, results: seq<HandlerResult>, after: seq<Turn>)
    requires |results| == |tale.asked| && tale.beats == tale.before && Announces(tale) && tale.recorded == 0
    ensures var outcomes := Outcomes(cfg, turns, tale.asked, results);
            var told := Tell(cfg, turns, tale, Gathered(results), after);
            && RoundTold(cfg, told, tale.asked, outcomes, 0)
            && told.before == tale.before
  {
    var outcomes := Outcomes(cfg, turns, tale.asked, results);
    var told := Tell(cfg, turns, tale, Gathered(results), after);
    assert told.answered == outcomes;
    hide Dispatch, Outcomes, AllAnswered;
  }

  lemma FirstAnswer(cfg: Config, uses: seq<Block>, outcomes: seq<Outcome>)
    requires |uses| == |outcomes| > 0
    ensures AllAnswered(cfg, uses, outcomes, 1) == Answered(cfg, uses[0], outcomes[0])
    ensures CardsOnly(cfg, uses, outcomes, 0) && !LoginExpired(outcomes, 0)
  {
    assert AllAnswered(cfg, uses, outcomes, 0) == [];
  }

  lemma GatheredTold(cfg: Config, s: State, tale: Tale, results: seq<HandlerResult>)
    requires StreamInv(cfg, s, tale) && Enabled(s, Gathered(results))
    ensures var t := GatheredStep(cfg, s, results);
            StreamInv(cfg, t, Tell(cfg, s.turns, tale, Gathered(results), t.turns))
  {
    var t, uses := GatheredStep(cfg, s, results), s.phase.uses;
    GatheredIs(cfg, s, results);
    WhileGathering(cfg, s, tale, uses);
    hide *;
    TellGathered(cfg, s.turns, tale, results, t.turns);
    RoundBegins(cfg, s, t, tale.before, Tell(cfg, s.turns, tale, Gathered(results), t.turns), uses,
                Outcomes(cfg, s.turns, uses, results));
  }

  lemma WhileGathering(cfg: Config, s: State, tale: Tale, uses: seq<Block>)
    requires s.phase == Gathering(uses) && StreamInv(cfg, s, tale)
    ensures Beats(Sending(s)) == tale.beats == tale.before && tale.asked == uses && uses != []
    ensures tale.recorded == 0 && !s.authExpired && Announces(tale)
  {
    hide Beats, Sending, Announces;
  }

  /** The first answer goes out. */
  lemma RoundBegins(cfg: Config, s: State, t: State, before: seq<Beat>, told: Tale, uses: seq<Block>,
                    outcomes: seq<Outcome>)
    requires 0 < |uses| == |outcomes| && Beats(Sending(s)) == before && s.outbox == [] && !s.authExpired
    requires t.phase == Recording(uses, outcomes, 0) && t.outbox == Shown(cfg, uses[0], outcomes[0])
    requires t.emitted == s.emitted && t.artifactsOnly && !t.authExpired
    requires RoundTold(cfg, told, uses, outcomes, 0) && told.before == before
    ensures StreamInv(cfg, t, told)
  {
    hide *;
    SendMore(s, t);
    ShownReads(cfg, uses[0], outcomes[0]);
    FirstAnswer(cfg, uses, outcomes);
    RecordingIs(cfg, t, told, uses, outcomes, 0);
  }

  // --- results ---------------------------------------------------------------------------------------------------

  /** All results so far were cards; some login has expired. */
  lemma OneMoreFlag(cfg: Config, uses: seq<Block>, outcomes: seq<Outcome>, k: nat)
    requires k < |uses| == |outcomes|
    ensures CardsOnly(cfg, uses, outcomes, k + 1) <==>
            && CardsOnly(cfg, uses, outcomes, k) && !outcomes[k].isError
            && cfg.artifact(NameOf(uses[k]), outcomes[k]).Some?
    ensures LoginExpired(outcomes, k + 1) <==> LoginExpired(outcomes, k) || outcomes[k].code == Some("AUTH_EXPIRED")
  {
    if outcomes[k].code == Some("AUTH_EXPIRED") {
      assert LoginExpired(outcomes, k + 1);
    }
    if LoginExpired(outcomes, k) {
      var i :| 0 <= i < k && outcomes[i].code == Some("AUTH_EXPIRED");
      assert i < k + 1;
    }
  }

  lemma FlagsOf(cfg: Config, s: State, use: Block, o: Outcome)
    ensures var u := Stored(cfg, s, use, o);
            && u == s.(turns := u.turns, raised := u.raised, authExpired := u.authExpired,
                       artifactsOnly := u.artifactsOnly)
            && u.turns != []
            && (u.artifactsOnly <==> s.artifactsOnly && !o.isError && cfg.artifact(NameOf(use), o).Some?)
            && (u.authExpired <==> s.authExpired || o.code == Some("AUTH_EXPIRED"))
  {
    hide Appended;
  }

  lemma ConcludeIs(cfg: Config, u: State)
    ensures var t := Conclude(cfg, u);
            && t.emitted == u.emitted && t.turns == u.turns && t.authExpired == u.authExpired
            && if u.artifactsOnly then t.phase == Closing && t.outbox == [DoneEvent(cfg, u.turns)]
               else if u.authExpired then t.phase == Closing && t.outbox == [ErrorEvent("AUTH_EXPIRED")]
               else t.phase == Calling && t.outbox == u.outbox
  {
    hide Sent, DoneEvent;
  }

  lemma TellRecord(cfg: Config, turns: seq<Turn>, tale: Tale, after: seq<Turn>)
    requires |tale.asked| == |tale.answered| && after != []
    ensures var told, n := Tell(cfg, turns, tale, Record, after), |tale.asked|;
            told == tale.(recorded := tale.recorded + 1, beats := told.beats)
            && told.beats ==
               if tale.recorded + 1 != n then tale.beats
               else if CardsOnly(cfg, tale.asked, tale.answered, n) then tale.beats + [Farewell(cfg, after)]
               else if LoginExpired(tale.answered, n) then tale.beats + [Broken(Str("AUTH_EXPIRED"))]
               else tale.beats
  {
    hide CardsOnly, LoginExpired, Farewell;
  }

  /** The parts of the invariant while results are recorded. */
  lemma RecordingHas(cfg: Config, s: State, tale: Tale, uses: seq<Block>, outcomes: seq<Outcome>, k: nat)
    requires s.phase == Recording(uses, outcomes, k) && StreamInv(cfg, s, tale)
    ensures |uses| == |outcomes| && k < |uses| && RoundTold(cfg, tale, uses, outcomes, k)
    ensures Beats(Sending(s)) == tale.before + AllAnswered(cfg, uses, outcomes, k + 1)
    ensures s.artifactsOnly == CardsOnly(cfg, uses, outcomes, k) && s.authExpired == LoginExpired(outcomes, k)
  {
    hide Beats, Sending, AllAnswered, CardsOnly, LoginExpired, RoundTold;
  }

  lemma RecordingIs(cfg: Config, s: State, tale: Tale, uses: seq<Block>, outcomes: seq<Outcome>, k: nat)
    requires s.phase == Recording(uses, outcomes, k)
    requires |uses| == |outcomes| && k < |uses| && RoundTold(cfg, tale, uses, outcomes, k)
    requires Beats(Sending(s)) == tale.before + AllAnswered(cfg, uses, outcomes, k + 1)
    requires s.artifactsOnly == CardsOnly(cfg, uses, outcomes, k) && s.authExpired == LoginExpired(outcomes, k)
    ensures StreamInv(cfg, s, tale)
  {
    hide Beats, Sending, AllAnswered, CardsOnly, LoginExpired, RoundTold;
  }

  lemma Associates(a: seq<Beat>, b: seq<Beat>, c: seq<Beat>)
    ensures (a + b) + c == a + (b + c)
  {
  }

  lemma RoundGoesOn(cfg: Config, tale: Tale, told: Tale, uses: seq<Block>, outcomes: seq<Outcome>, k: nat)
    requires |uses| == |outcomes| && RoundTold(cfg, tale, uses, outcomes, k)
    requires told == tale.(recorded := k + 1)
    ensures RoundTold(cfg, told, uses, outcomes, k + 1)
  {
    hide AllAnswered;
  }

  lemma RoundIs(cfg: Config, tale: Tale, uses: seq<Block>, outcomes: seq<Outcome>, k: nat)
    requires |uses| == |outcomes| && RoundTold(cfg, tale, uses, outcomes, k)
    ensures tale.asked == uses && tale.answered == outcomes && tale.recorded == k
    ensures tale.beats == tale.before + AllAnswered(cfg, uses, outcomes, |uses|)
    ensures tale.before != [] && IsAnnouncement(tale.before[|tale.before| - 1])
  {
    hide AllAnswered;
  }

  lemma NextAnswerSent(cfg: Config, s: State, t: State, before: seq<Beat>, uses: seq<Block>, outcomes: seq<Outcome>,
                       k: nat)
    requires k < |uses| == |outcomes| && s.outbox == [] && t.emitted == s.emitted
    requires t.outbox == Shown(cfg, uses[k], outcomes[k])
    requires Beats(Sending(s)) == before + AllAnswered(cfg, uses, outcomes, k)
    ensures Beats(Sending(t)) == before + AllAnswered(cfg, uses, outcomes, k + 1)
  {
    hide *;
    SendMore(s, t);
    ShownReads(cfg, uses[k], outcomes[k]);
    OneMoreAnswer(cfg, uses, outcomes, k);
    Associates(before, AllAnswered(cfg, uses, outcomes, k), Answered(cfg, uses[k], outcomes[k]));
  }

  /** A result that is not the last of its round. */
  lemma {:induction false} MiddleTold(cfg: Config, s: State, t: State, tale: Tale, uses: seq<Block>,
                                      outcomes: seq<Outcome>, k: nat)
    requires s.phase == Recording(uses, outcomes, k) && StreamInv(cfg, s, tale) && s.outbox == []
    requires k + 1 < |uses| == |outcomes|
    requires t.phase == Recording(uses, outcomes, k + 1) && t.outbox == Shown(cfg, uses[k + 1], outcomes[k + 1])
    requires t.emitted == s.emitted && t.turns != []
    requires t.artifactsOnly <==>
               s.artifactsOnly && !outcomes[k].isError && cfg.artifact(NameOf(uses[k]), outcomes[k]).Some?
    requires t.authExpired <==> s.authExpired || outcomes[k].code == Some("AUTH_EXPIRED")
    ensures StreamInv(cfg, t, Tell(cfg, s.turns, tale, Record, t.turns))
  {
    hide *;
    RecordingHas(cfg, s, tale, uses, outcomes, k);
    RoundIs(cfg, tale, uses, outcomes, k);
    OneMoreFlag(cfg, uses, outcomes, k);
    NextAnswerSent(cfg, s, t, tale.before, uses, outcomes, k + 1);
    MiddleTells(cfg, s.turns, tale, uses, outcomes, k, t.turns);
    RecordingIs(cfg, t, Tell(cfg, s.turns, tale, Record, t.turns), uses, outcomes, k + 1);
  }

  lemma MiddleTells(cfg: Config, turns: seq<Turn>, tale: Tale, uses: seq<Block>, outcomes: seq<Outcome>, k: nat,
                    after: seq<Turn>)
    requires k + 1 < |uses| == |outcomes| && RoundTold(cfg, tale, uses, outcomes, k) && after != []
    ensures var told := Tell(cfg, turns, tale, Record, after);
            RoundTold(cfg, told, uses, outcomes, k + 1) && told.beats == tale.beats && told.before == tale.before
  {
    hide *;
    RoundIs(cfg, tale, uses, outcomes, k);
    TellRecord(cfg, turns, tale, after);
    RoundGoesOn(cfg, tale, Tell(cfg, turns, tale, Record, after), uses, outcomes, k);
  }

  lemma OneMoreAnswer(cfg: Config, uses: seq<Block>, outcomes: seq<Outcome>, k: nat)
    requires k < |uses| == |outcomes|
    ensures AllAnswered(cfg, uses, outcomes, k + 1)
         == AllAnswered(cfg, uses, outcomes, k) + Answered(cfg, uses[k], outcomes[k])
  {
  }

  /** What goes out at the end of a round is what there is to tell of it. */
  lemma ConcludeTold(cfg: Config, u: State, tale: Tale, uses: seq<Block>, outcomes: seq<Outcome>)
    requires |uses| == |outcomes| && u.outbox == [] && u.turns != [] && Beats(Sending(u)) == tale.beats
    requires tale.asked == uses && tale.answered == outcomes && tale.recorded + 1 == |uses|
    requires u.artifactsOnly <==> CardsOnly(cfg, uses, outcomes, |uses|)
    requires u.authExpired <==> LoginExpired(outcomes, |uses|)
    ensures var t, told := Conclude(cfg, u), Tell(cfg, u.turns, tale, Record, u.turns);
            && (t.phase.Calling? || t.phase.Closing?) && (t.phase.Calling? ==> !t.authExpired)
            && Beats(Sending(t)) == told.beats
  {
    var t := Conclude(cfg, u);
    hide *;
    ConcludeIs(cfg, u);
    TellRecord(cfg, u.turns, tale, u.turns);
    SendMore(u, t);
    EventsRead([], "", false, "", "AUTH_EXPIRED");
    OneRead(ErrorEvent("AUTH_EXPIRED"));
    DoneReads(cfg, u.turns);
    OneRead(DoneEvent(cfg, u.turns));
    NoBeats();
  }

  lemma WhileClosing(cfg: Config, t: State, told: Tale)
    requires (t.phase.Calling? || t.phase.Closing?) && (t.phase.Calling? ==> !t.authExpired)
    requires Beats(Sending(t)) == told.beats
    ensures StreamInv(cfg, t, told)
  {
    hide Beats, Sending;
  }

  lemma SameSending(s: State, t: State)
    requires t.emitted == s.emitted && t.outbox == s.outbox
    ensures Sending(t) == Sending(s)
  {
  }

  /** The last result of a round. */
  lemma LastTold(cfg: Config, s: State, tale: Tale, uses: seq<Block>, outcomes: seq<Outcome>, k: nat)
    requires s.phase == Recording(uses, outcomes, k) && StreamInv(cfg, s, tale) && s.outbox == []
    requires k + 1 == |uses| == |outcomes|
    ensures var t := Conclude(cfg, Stored(cfg, s, uses[k], outcomes[k]));
            StreamInv(cfg, t, Tell(cfg, s.turns, tale, Record, t.turns))
  {
    var u := Stored(cfg, s, uses[k], outcomes[k]);
    var t := Conclude(cfg, u);
    SameTell(cfg, s.turns, u.turns, tale, u.turns);
    hide *;
    FlagsOf(cfg, s, uses[k], outcomes[k]);
    RecordingHas(cfg, s, tale, uses, outcomes, k);
    RoundIs(cfg, tale, uses, outcomes, k);
    OneMoreFlag(cfg, uses, outcomes, k);
    SameSending(s, u);
    ConcludeTold(cfg, u, tale, uses, outcomes);
    ConcludeIs(cfg, u);
    WhileClosing(cfg, t, Tell(cfg, s.turns, tale, Record, t.turns));
  }

  lemma SameTell(cfg: Config, a: seq<Turn>, b: seq<Turn>, tale: Tale, after: seq<Turn>)
    ensures Tell(cfg, a, tale, Record, after) == Tell(cfg, b, tale, Record, after)
  {
  }

  lemma NoBeats()
    ensures Beats([]) == []
  {
  }

  lemma RecordIs(cfg: Config, s: State)
    requires Enabled(s, Record)
    ensures var (uses, outcomes, k) := (s.phase.uses, s.phase.outcomes, s.phase.next);
            && s.phase == Recording(uses, outcomes, k) && s.outbox == [] && k < |uses| == |outcomes|
            && var u := Stored(cfg, s, uses[k], outcomes[k]);
               RecordStep(cfg, s) ==
               if k + 1 < |uses| then
                 u.(phase := Recording(uses, outcomes, k + 1), outbox := Shown(cfg, uses[k + 1], outcomes[k + 1]))
               else Conclude(cfg, u)
  {
    hide Stored, Shown, Conclude;
  }

  lemma RecordTold(cfg: Config, s: State, tale: Tale)
    requires StreamInv(cfg, s, tale) && Enabled(s, Record)
    ensures var t := RecordStep(cfg, s); StreamInv(cfg, t, Tell(cfg, s.turns, tale, Record, t.turns))
  {
    RecordIs(cfg, s);
    var (uses, outcomes, k) := (s.phase.uses, s.phase.outcomes, s.phase.next);
    hide *;
    FlagsOf(cfg, s, uses[k], outcomes[k]);
    if k + 1 < |uses| {
      MiddleTold(cfg, s, RecordStep(cfg, s), tale, uses, outcomes, k);
    } else {
      LastTold(cfg, s, tale, uses, outcomes, k);
    }
  }

  // --- every run -------------------------------------------------------------------------------------------------

  lemma DeltaTold(cfg: Config, s: State, tale: Tale, a: Action)
    requires StreamInv(cfg, s, tale) && Enabled(s, a) && (a.Delta? || a.ModelFails?)
    ensures var t := Next(cfg, s, a); StreamInv(cfg, t, Tell(cfg, s.turns, tale, a, t.turns))
  {
    var t := Next(cfg, s, a);
    hide *;
    DeltaIs(cfg, s, tale, a);
    WhileCalling(cfg, s, tale);
    EventsRead([], "", false, if a.Delta? then a.text else "", "AGENT_UNAVAILABLE");
    SendMore(s, t);
    OneRead(t.outbox[0]);
    assert t.outbox == [t.outbox[0]];
    WhileClosing(cfg, t, Tell(cfg, s.turns, tale, a, t.turns));
  }

  lemma DeltaIs(cfg: Config, s: State, tale: Tale, a: Action)
    requires Enabled(s, a) && (a.Delta? || a.ModelFails?)
    ensures s.phase.Calling? && s.outbox == []
    ensures var t := Next(cfg, s, a);
            && t.emitted == s.emitted && t.authExpired == s.authExpired
            && (a.Delta? ==> t.phase.Calling? && t.outbox == [TextEvent(a.text)]
                             && Tell(cfg, s.turns, tale, a, t.turns).beats == tale.beats + [Words(Str(a.text))])
            && (a.ModelFails? ==>
                  t.phase.Closing? && t.outbox == [ErrorEvent("AGENT_UNAVAILABLE")]
                  && Tell(cfg, s.turns, tale, a, t.turns).beats == tale.beats + [Broken(Str("AGENT_UNAVAILABLE"))])
  {
    hide TextEvent, ErrorEvent;
  }

  lemma YieldTold(cfg: Config, s: State, tale: Tale)
    requires StreamInv(cfg, s, tale) && s.outbox != []
    ensures StreamInv(cfg, s.(emitted := s.emitted + [s.outbox[0]], outbox := s.outbox[1..]), tale)
  {
    var t := s.(emitted := s.emitted + [s.outbox[0]], outbox := s.outbox[1..]);
    assert Sending(t) == Sending(s);
    hide Beats, Sending, AllAnswered, Announces, RoundTold, LoginExpired, CardsOnly;
  }

  lemma BeginTold(cfg: Config, s: State, tale: Tale)
    requires StreamInv(cfg, s, tale) && s.phase.Arrived?
    ensures StreamInv(cfg, BeginStep(cfg, s), tale)
  {
    NoBeats();
    assert s.emitted + s.outbox == [];
    hide Beats, Sent, Appended;
  }

  /** The steps that tell nothing. */
  lemma SilentTold(cfg: Config, s: State, tale: Tale, a: Action)
    requires StreamInv(cfg, s, tale) && Enabled(s, a)
    requires a.Arrive? || a.Return? || a.Crash? || a.Abandon? || a.Flow?
    requires s.phase.Idle? ==> s.outbox == []
    ensures var t := Next(cfg, s, a); StreamInv(cfg, t, Tell(cfg, s.turns, tale, a, t.turns))
  {
    hide Beats, AllAnswered, Announces, RoundTold, LoginExpired, CardsOnly, Appended, AfterCrash;
  }

  lemma TellStep(cfg: Config, s: State, tale: Tale, a: Action)
    requires StreamInv(cfg, s, tale) && Enabled(s, a) && (s.phase.Idle? ==> s.outbox == [])
    ensures var t := Next(cfg, s, a); StreamInv(cfg, t, Tell(cfg, s.turns, tale, a, t.turns))
  {
    hide StreamInv, BeginStep, ReplyStep, RecordStep, GatheredStep, Tell;
    match a {
      case Begin =>
        BeginTold(cfg, s, tale);
        TellNothing(cfg, s.turns, tale, a, Next(cfg, s, a).turns);
      case Delta(_) => DeltaTold(cfg, s, tale, a);
      case ModelFails => DeltaTold(cfg, s, tale, a);
      case Reply(content, stop) =>
        WhileCalling(cfg, s, tale);
        ReplyTold(cfg, s, tale, content, stop);
      case Gathered(results) => GatheredTold(cfg, s, tale, results);
      case Record => RecordTold(cfg, s, tale);
      case Yield =>
        YieldTold(cfg, s, tale);
        TellNothing(cfg, s.turns, tale, a, s.turns);
      case _ => SilentTold(cfg, s, tale, a);
    }
  }

  lemma WhileCalling(cfg: Config, s: State, tale: Tale)
    requires StreamInv(cfg, s, tale) && s.phase.Calling?
    ensures Beats(Sending(s)) == tale.beats && !s.authExpired
  {
  }

  lemma TellNothing(cfg: Config, turns: seq<Turn>, tale: Tale, a: Action, after: seq<Turn>)
    requires a.Begin? || a.Yield?
    ensures Tell(cfg, turns, tale, a, after) == tale
  {
  }

  lemma {:induction false} StreamAlways(cfg: Config, acts: seq<Action>)
    ensures StreamInv(cfg, Exec(cfg, acts), Told(cfg, acts))
    decreases |acts|
  {
    hide StreamInv, Tell, Next;
    if acts == [] {
      NothingTold(cfg);
    } else {
      var init, a := acts[..|acts| - 1], acts[|acts| - 1];
      StreamAlways(cfg, init);
      IdleSendsNothing(cfg, init);
      if Enabled(Exec(cfg, init), a) {
        TellStep(cfg, Exec(cfg, init), Told(cfg, init), a);
      } else {
        NothingHappens(cfg, Exec(cfg, init), a);
      }
    }
  }

  lemma IdleSendsNothing(cfg: Config, acts: seq<Action>)
    ensures Exec(cfg, acts).phase.Idle? ==> Exec(cfg, acts).outbox == []
  {
    EventInvAlways(cfg, acts);
  }

  lemma NothingHappens(cfg: Config, s: State, a: Action)
    requires !Enabled(s, a)
    ensures Next(cfg, s, a) == s
  {
  }

  lemma NothingTold(cfg: Config)
    ensures StreamInv(cfg, Start(cfg), Tale([], [], [], [], 0))
  {
  }

  /**
   A stream that ran to its end tells all there is to tell and nothing else: every delta of the model, every call of
   every round announced, answered with its flag, and followed by its card when its tool makes one, and how the request
   ended, in this order.
   */
  lemma StreamTold(cfg: Config, acts: seq<Action>)
    requires Enabled(Exec(cfg, acts), Return)
    ensures Exec(cfg, acts + [Return]).finished == Exec(cfg, acts).finished + [Exec(cfg, acts).emitted]
    ensures Beats(Exec(cfg, acts).emitted) == Told(cfg, acts).beats
  {
    StreamAlways(cfg, acts);
    ReturnIs(cfg, acts);
    hide Told, Beats, Exec, AllAnswered;
  }

  lemma ReturnIs(cfg: Config, acts: seq<Action>)
    requires Enabled(Exec(cfg, acts), Return)
    ensures Exec(cfg, acts + [Return]).finished == Exec(cfg, acts).finished + [Exec(cfg, acts).emitted]
    ensures Exec(cfg, acts).phase.Closing? && Sending(Exec(cfg, acts)) == Exec(cfg, acts).emitted
  {
    assert (acts + [Return])[..|acts|] == acts;
  }

  /** One that an exception cut off tells the beginning of it, and behind that, unless it had ended, that it broke. */
  lemma CutStreamTold(cfg: Config, acts: seq<Action>)
    requires Enabled(Exec(cfg, acts), Crash)
    ensures Exec(cfg, acts + [Crash]).finished == Exec(cfg, acts).finished + [AfterCrash(Exec(cfg, acts).emitted)]
    ensures var es := Exec(cfg, acts).emitted;
            && Beats(es) <= Told(cfg, acts).beats
            && Beats(AfterCrash(es))
               == Beats(es) + if SawTerminal(es) then [] else [Broken(Str("AGENT_UNAVAILABLE"))]
  {
    CrashIs(cfg, acts);
    hide *;
    StreamAlways(cfg, acts);
    SentSoFar(cfg, Exec(cfg, acts), Told(cfg, acts));
    CrashReads(Exec(cfg, acts).emitted);
  }

  lemma CrashIs(cfg: Config, acts: seq<Action>)
    requires Enabled(Exec(cfg, acts), Crash)
    ensures !Exec(cfg, acts).phase.Idle?
    ensures Exec(cfg, acts + [Crash]).finished == Exec(cfg, acts).finished + [AfterCrash(Exec(cfg, acts).emitted)]
  {
    assert (acts + [Crash])[..|acts|] == acts;
    hide AfterCrash;
  }

  lemma CrashReads(es: seq<Event>)
    ensures Beats(AfterCrash(es)) == Beats(es) + if SawTerminal(es) then [] else [Broken(Str("AGENT_UNAVAILABLE"))]
  {
    var e := ErrorEvent("AGENT_UNAVAILABLE");
    EventsRead([], "", false, "", "AGENT_UNAVAILABLE");
    OneRead(e);
    BeatsConcat(es, [e]);
    hide Beats, SawTerminal, ReadEvent, ErrorEvent;
  }

  lemma SentSoFar(cfg: Config, s: State, tale: Tale)
    requires StreamInv(cfg, s, tale) && !s.phase.Idle?
    ensures Beats(s.emitted) <= tale.beats
  {
    if s.phase.Recording? {
      assert s.phase == Recording(s.phase.uses, s.phase.outcomes, s.phase.next);
      hide *;
      SentOfRound(cfg, s, tale, s.phase.uses, s.phase.outcomes, s.phase.next);
    } else {
      BeatsConcat(s.emitted, s.outbox);
      NoBeats();
      hide Beats, Announces, CardsOnly, LoginExpired;
    }
  }

  lemma SentOfRound(cfg: Config, s: State, tale: Tale, uses: seq<Block>, outcomes: seq<Outcome>, k: nat)
    requires s.phase == Recording(uses, outcomes, k) && StreamInv(cfg, s, tale)
    ensures Beats(s.emitted) <= tale.beats
  {
    assert Sending(s) == s.emitted + s.outbox;
    hide *;
    BeatsConcat(s.emitted, s.outbox);
    RecordingHas(cfg, s, tale, uses, outcomes, k);
    RoundIs(cfg, tale, uses, outcomes, k);
    AnswersGrow(cfg, uses, outcomes, k + 1);
    PrefixOf(Beats(s.emitted), Beats(s.outbox), tale.before, AllAnswered(cfg, uses, outcomes, k + 1),
             AllAnswered(cfg, uses, outcomes, |uses|));
  }

  lemma PrefixOf(a: seq<Beat>, b: seq<Beat>, before: seq<Beat>, some: seq<Beat>, all: seq<Beat>)
    requires a + b == before + some && some <= all
    ensures a <= before + all
  {
    assert a <= before + some;
  }

  lemma {:induction false} AnswersGrow(cfg: Config, uses: seq<Block>, outcomes: seq<Outcome>, n: nat)
    requires n <= |uses| == |outcomes|
    ensures AllAnswered(cfg, uses, outcomes, n) <= AllAnswered(cfg, uses, outcomes, |uses|)
    decreases |uses| - n
  {
    if n < |uses| {
      AnswersGrow(cfg, uses, outcomes, n + 1);
    }
  }

  // --- the round that is being answered --------------------------------------------------------------------------

  /** What was told since the last call was announced. */
  function SinceAnnounced(bs: seq<Beat>): seq<Beat> {
    if bs == [] || IsAnnouncement(bs[|bs| - 1]) then [] else SinceAnnounced(bs[..|bs| - 1]) + [bs[|bs| - 1]]
  }

  function Cards(bs: seq<Beat>): nat {
    if bs == [] then 0 else Cards(bs[..|bs| - 1]) + if bs[|bs| - 1].CardShown? then 1 else 0
  }

  function AnswerMarks(bs: seq<Beat>): nat {
    if bs == [] then 0
    else
      var b := bs[|bs| - 1];
      AnswerMarks(bs[..|bs| - 1]) + if b.ToolMark? && b.status == Str("finished") then 1 else 0
  }

  lemma {:induction false} SinceIs(before: seq<Beat>, bs: seq<Beat>)
    requires before != [] && IsAnnouncement(before[|before| - 1])
    requires forall i | 0 <= i < |bs| :: !IsAnnouncement(bs[i])
    ensures SinceAnnounced(before + bs) == bs
    decreases |bs|
  {
    if bs == [] {
      assert before + bs == before;
    } else {
      var n := |bs| - 1;
      SinceIs(before, bs[..n]);
      assert (before + bs)[..|before + bs| - 1] == before + bs[..n];
    }
  }

  predicate EachMakesCard(cfg: Config, uses: seq<Block>, outcomes: seq<Outcome>)
    requires |uses| == |outcomes|
  {
    forall i | 0 <= i < |uses| :: cfg.artifact(NameOf(uses[i]), outcomes[i]).Some?
  }

  lemma CountsOfRound(cfg: Config, uses: seq<Block>, outcomes: seq<Outcome>)
    requires |uses| == |outcomes|
    ensures var bs := AllAnswered(cfg, uses, outcomes, |uses|);
            && (forall i | 0 <= i < |bs| :: !IsAnnouncement(bs[i]))
            && AnswerMarks(bs) == |uses| && Cards(bs) <= |uses|
            && (Cards(bs) == |uses| <==> EachMakesCard(cfg, uses, outcomes))
  {
    CountsOf(cfg, uses, outcomes, |uses|);
    hide IsAnnouncement, AnswerMarks, Cards, AllAnswered;
  }

  lemma {:induction false} CountsOf(cfg: Config, uses: seq<Block>, outcomes: seq<Outcome>, n: nat)
    requires n <= |uses| == |outcomes|
    ensures var bs := AllAnswered(cfg, uses, outcomes, n);
            && (forall i | 0 <= i < |bs| :: !IsAnnouncement(bs[i]))
            && AnswerMarks(bs) == n && Cards(bs) <= n
            && (Cards(bs) == n <==> forall i | 0 <= i < n :: cfg.artifact(NameOf(uses[i]), outcomes[i]).Some?)
  {
    if n > 0 {
      CountsOf(cfg, uses, outcomes, n - 1);
      hide IsAnnouncement, AnswerMarks, Cards, Answered;
      CountsOfOne(cfg, AllAnswered(cfg, uses, outcomes, n - 1), uses[n - 1], outcomes[n - 1]);
    }
  }

  lemma CountsOfOne(cfg: Config, bs: seq<Beat>, use: Block, o: Outcome)
    ensures var call := Answered(cfg, use, o);
            && (forall i | 0 <= i < |call| :: !IsAnnouncement(call[i]))
            && AnswerMarks(bs + call) == AnswerMarks(bs) + 1
            && Cards(bs + call) == Cards(bs) + if cfg.artifact(NameOf(use), o).Some? then 1 else 0
  {
    var call := Answered(cfg, use, o);
    assert "finished"[0] != "started"[0];
    CountsMore(bs, call[0]);
    if |call| == 2 {
      CountsMore(bs + [call[0]], call[1]);
      assert bs + call == bs + [call[0]] + [call[1]];
    } else {
      assert bs + call == bs + [call[0]];
    }
  }

  lemma CountsMore(bs: seq<Beat>, b: Beat)
    ensures AnswerMarks(bs + [b]) == AnswerMarks(bs) + if b.ToolMark? && b.status == Str("finished") then 1 else 0
    ensures Cards(bs + [b]) == Cards(bs) + if b.CardShown? then 1 else 0
  {
    assert (bs + [b])[..|bs|] == bs;
  }

  /** Before the last result of a round is stored, the stream holds an answer to each of its calls, and their cards. */
  lemma RoundSent(cfg: Config, acts: seq<Action>)
    requires Enabled(Exec(cfg, acts), Record) && Exec(cfg, acts).phase.next == |Exec(cfg, acts).phase.uses| - 1
    ensures var s := Exec(cfg, acts); var (uses, outcomes) := (s.phase.uses, s.phase.outcomes);
            var round := SinceAnnounced(Beats(s.emitted));
            && AnswerMarks(round) == |uses| && Cards(round) <= |uses|
            && (Cards(round) == |uses| <==> EachMakesCard(cfg, uses, outcomes))
            && (s.artifactsOnly <==> CardsOnly(cfg, uses, outcomes, |uses| - 1))
  {
    hide *;
    var s := Exec(cfg, acts);
    RecordIs(cfg, s);
    var (uses, outcomes, k) := (s.phase.uses, s.phase.outcomes, s.phase.next);
    StreamAlways(cfg, acts);
    RoundSentOf(cfg, s, Told(cfg, acts), uses, outcomes, k);
    CountsOfRound(cfg, uses, outcomes);
  }

  lemma RoundSentOf(cfg: Config, s: State, tale: Tale, uses: seq<Block>, outcomes: seq<Outcome>, k: nat)
    requires k + 1 == |uses| == |outcomes| && s.phase == Recording(uses, outcomes, k) && s.outbox == []
    requires StreamInv(cfg, s, tale)
    ensures SinceAnnounced(Beats(s.emitted)) == AllAnswered(cfg, uses, outcomes, k + 1)
    ensures s.artifactsOnly == CardsOnly(cfg, uses, outcomes, k)
  {
    assert Sending(s) == s.emitted;
    hide *;
    RecordingHas(cfg, s, tale, uses, outcomes, k);
    RoundIs(cfg, tale, uses, outcomes, k);
    CountsOfRound(cfg, uses, outcomes);
    SinceIs(tale.before, AllAnswered(cfg, uses, outcomes, k + 1));
  }

  // --- the shape of what is told ---------------------------------------------------------------------------------

  /** Words are text, calls have a name and are started or finished, and there are two reasons to break off. */
  predicate BeatOk(b: Beat) {
    match b
    case Words(delta) => delta.Str?
    case ToolMark(name, status, failed) =>
      name.Str? && (status == Str("started") || status == Str("finished")) && failed.Bool?
    case Broken(code) => code == Str("AUTH_EXPIRED") || code == Str("AGENT_UNAVAILABLE")
    case _ => true
  }

  predicate BeatsOk(bs: seq<Beat>) {
    forall i | 0 <= i < |bs| :: BeatOk(bs[i])
  }

  predicate TaleOk(tale: Tale) {
    BeatsOk(tale.beats) && forall i | 0 <= i < |tale.asked| :: Get(tale.asked[i], "name").Str?
  }

  lemma {:induction false} UsesNamed(content: seq<Block>)
    requires ReplyOk(content)
    ensures forall i | 0 <= i < |Uses(content)| :: Get(Uses(content)[i], "name").Str?
  {
    if content != [] {
      assert content[0] in content && forall b | b in content[1..] :: b in content;
      UsesNamed(content[1..]);
    }
  }

  lemma {:induction false} AnswersOk(cfg: Config, calls: seq<Block>, outcomes: seq<Outcome>, n: nat)
    requires n <= |calls| == |outcomes| && forall i | 0 <= i < |calls| :: Get(calls[i], "name").Str?
    ensures BeatsOk(AllAnswered(cfg, calls, outcomes, n))
  {
    if n > 0 {
      AnswersOk(cfg, calls, outcomes, n - 1);
    }
  }

  lemma TellKeepsOk(cfg: Config, s: State, tale: Tale, a: Action, after: seq<Turn>)
    requires TaleOk(tale) && Enabled(s, a)
    ensures TaleOk(Tell(cfg, s.turns, tale, a, after))
  {
    hide Dispatch, AllAnswered, Uses, ReplyOk;
    match a {
      case Reply(content, stop) => UsesNamed(content);
      case Gathered(results) =>
        if |results| == |tale.asked| {
          AnswersOk(cfg, tale.asked, Tell(cfg, s.turns, tale, a, after).answered, |results|);
        }
      case _ =>
    }
  }

  lemma {:induction false} ToldOk(cfg: Config, acts: seq<Action>)
    ensures TaleOk(Told(cfg, acts))
    decreases |acts|
  {
    hide TaleOk, Tell, Next;
    if acts == [] {
      NothingIsOk();
    } else {
      var init, a := acts[..|acts| - 1], acts[|acts| - 1];
      ToldOk(cfg, init);
      if Enabled(Exec(cfg, init), a) {
        TellKeepsOk(cfg, Exec(cfg, init), Told(cfg, init), a, Next(cfg, Exec(cfg, init), a).turns);
      }
    }
  }

  lemma NothingIsOk()
    ensures TaleOk(Tale([], [], [], [], 0))
  {
  }

  /** Only the end of a request, and an exception, finish a stream. */
  lemma FinishedBy(cfg: Config, s: State, a: Action)
    ensures Next(cfg, s, a).finished ==
            if Enabled(s, a) && a.Return? then s.finished + [s.emitted]
            else if Enabled(s, a) && a.Crash? then s.finished + [AfterCrash(s.emitted)]
            else s.finished
  {
    hide Sent, Dispatch, Canonical, AfterCrash;
  }

  /** Every finished stream of every run reads so. */
  lemma {:induction false} FinishedOk(cfg: Config, acts: seq<Action>)
    ensures forall es | es in Exec(cfg, acts).finished :: BeatsOk(Beats(es))
    decreases |acts|
  {
    if acts != [] {
      var init, a := acts[..|acts| - 1], acts[|acts| - 1];
      var s := Exec(cfg, init);
      FinishedOk(cfg, init);
      FinishedBy(cfg, s, a);
      StreamAlways(cfg, init);
      ToldOk(cfg, init);
      hide BeatsOk, Beats, AfterCrash, StreamInv, Told, Next;
      if Enabled(s, a) && (a.Return? || a.Crash?) {
        SentSoFar(cfg, s, Told(cfg, init));
        SentOk(Beats(s.emitted), Told(cfg, init));
        CrashReads(s.emitted);
        BrokenOk(Beats(s.emitted));
      }
    }
  }

  lemma SentOk(bs: seq<Beat>, tale: Tale)
    requires TaleOk(tale) && bs <= tale.beats
    ensures BeatsOk(bs)
  {
    assert forall i | 0 <= i < |bs| :: bs[i] == tale.beats[i];
  }

  lemma BrokenOk(bs: seq<Beat>)
    requires BeatsOk(bs)
    ensures BeatsOk(bs + [Broken(Str("AGENT_UNAVAILABLE"))]) && bs + [] == bs
  {
  }
}
