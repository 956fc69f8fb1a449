/** What each model call sends, and how it relates to the calls before it. */
module RunCalls {
  import opened Json
  import opened Transcript
  import opened Curation
  import opened Breakpoints
  import opened Conversation
  import opened TurnInvariants
  import opened RunTurns
  import opened RunEvents

  // --- one history -----------------------------------------------------------------------------------

  function Mark(cfg: Config, turns: seq<Turn>): Option<nat> {
    if cfg.curating then Some(Watermark(turns)) else None
  }

  /** A projected array of parts has the shape of the stored one, and carries no marker. */
  lemma PartsLikeStored(cfg: Config, mark: Option<nat>, turns: seq<Turn>)
    requires TurnsOk(turns)
    ensures SameShape(StoredParts(turns), Parts(cfg.reg, mark, turns))
    ensures Unmarked(Parts(cfg.reg, mark, turns))
  {
    PartsOk(turns);
    var p, q := StoredParts(turns), Parts(cfg.reg, mark, turns);
    forall i | 0 <= i < |turns|
      ensures p[i].role == q[i].role && SameShapeBlocks(p[i].content, q[i].content)
      ensures forall j | 0 <= j < |q[i].content| :: !HasMarker(q[i].content[j])
    {
      assert turns[i] in turns && TurnOk(turns[i]);
      if mark.Some? {
        StubSameShape(cfg.reg, mark.value, turns[i]);
      }
      forall j | 0 <= j < |q[i].content| ensures !HasMarker(q[i].content[j]) {
        assert BlockOk(p[i].content[j]);
        assert SameButContent(p[i].content[j], q[i].content[j]) || p[i].content[j] == q[i].content[j];
      }
    }
  }

  lemma {:induction false} MergeUnmarked(parts: seq<Message>)
    requires Unmarked(parts)
    ensures Unmarked(Merge(parts))
    decreases |parts|
  {
    if parts != [] {
      var n := |parts| - 1;
      assert forall i | 0 <= i < n :: parts[..n][i] == parts[i];
      MergeUnmarked(parts[..n]);
      ExtendUnmarked(Merge(parts[..n]), parts[n]);
    }
  }

  lemma ExtendUnmarked(ms: seq<Message>, x: Message)
    requires Unmarked(ms) && forall j | 0 <= j < |x.content| :: !HasMarker(x.content[j])
    ensures Unmarked(Extend(ms, x))
  {
    hide HasMarker;
    if x.role == User && ms != [] && ms[|ms| - 1].role == User {
      FilterMembers(ms[|ms| - 1].content + x.content);
      var c := ResultsFirst(ms[|ms| - 1].content + x.content);
      forall j | 0 <= j < |c| ensures !HasMarker(c[j]) {
        assert c[j] in c;
        assert c[j] in ms[|ms| - 1].content + x.content;
      }
    }
  }

  /** A history has the shape of the lossless array and is what the markers leave when erased. */
  lemma HistoryFacts(cfg: Config, turns: seq<Turn>, entry: Option<int>, wrapup: bool)
    requires TurnsOk(turns)
    ensures Unmarked(History(cfg, turns))
    ensures SameShape(Lossless(turns), History(cfg, turns))
    ensures Erase(Sent(cfg, turns, entry, wrapup)) == History(cfg, turns)
    ensures |Sent(cfg, turns, entry, wrapup)| == |Lossless(turns)|
  {
    PartsLikeStored(cfg, Mark(cfg, turns), turns);
    MergeUnmarked(Parts(cfg.reg, Mark(cfg, turns), turns));
    MergeSameShape(StoredParts(turns), Parts(cfg.reg, Mark(cfg, turns), turns));
    BreakpointsAreAdditive(History(cfg, turns), entry);
  }

  // --- the calls of a run ------------------------------------------------------------------------------

  /** Only tool result turns of the user role contribute tool results. */
  predicate ResultsByKind(turns: seq<Turn>) {
    forall i | 0 <= i < |turns| && turns[i].role == User && Results(turns[i].content) != [] ::
      turns[i].kind == ToolResult
  }

  lemma ResultsAreByKind(turns: seq<Turn>)
    requires TurnsOk(turns)
    ensures ResultsByKind(turns)
  {
    forall i | 0 <= i < |turns| && turns[i].role == User && Results(turns[i].content) != []
      ensures turns[i].kind == ToolResult
    {
      assert TurnOk(turns[i]);
      OneBlock(turns[i]);
    }
  }

  /** A call sent the history of the turns it saw, and nothing can slip into what it sent. */
  ghost predicate CallOk(cfg: Config, turns: seq<Turn>, c: Call) {
    && 0 < c.turnCount <= |turns|
    && turns[c.turnCount - 1].role == User
    && c.history == Sent(cfg, turns[..c.turnCount], c.entry, c.wrapup)
    && NoLateResults(StoredParts(turns), c.turnCount)
    && (c.first ==> turns[c.turnCount - 1].kind == UserText && c.entry == UserTextMessage(turns[..c.turnCount - 1]))
  }

  ghost predicate AllCallsOk(cfg: Config, turns: seq<Turn>, calls: seq<Call>) {
    && (forall i | 0 <= i < |calls| :: CallOk(cfg, turns, calls[i]))
    && (forall i, j | 0 <= i < j < |calls| :: calls[i].turnCount <= calls[j].turnCount)
  }

  /** An assistant turn lies after everything the last call saw. */
  ghost predicate Answered(turns: seq<Turn>, calls: seq<Call>) {
    && calls != [] && calls[|calls| - 1].turnCount <= |turns|
    && AssistantIn(StoredParts(turns), calls[|calls| - 1].turnCount, |turns|)
  }

  ghost predicate CallsInv(cfg: Config, s: State) {
    && AllCallsOk(cfg, s.turns, s.calls)
    && (s.phase.Calling? ==> s.calls != [] && s.turns != [] && s.turns[|s.turns| - 1].role == User)
    && (s.phase.Gathering? || s.phase.Recording? ==> Answered(s.turns, s.calls))
  }

  /** The session goes on from well-formed turns, and from calls that saw some of them. */
  ghost predicate Resumed(cfg: Config) {
    TurnsOk(cfg.found) && AllCallsOk(cfg, cfg.found, cfg.before)
  }

  /** One append keeps a call's guarantee, as long as a result only follows an assistant turn. */
  lemma CallKept(cfg: Config, turns: seq<Turn>, t: Turn, c: Call)
    requires ResultsByKind(turns + [t]) && CallOk(cfg, turns, c)
    requires t.kind == ToolResult ==> AssistantIn(StoredParts(turns), c.turnCount, |turns|)
    ensures CallOk(cfg, turns + [t], c)
  {
    var all, n := turns + [t], c.turnCount;
    var p, q := StoredParts(turns), StoredParts(all);
    assert all[..n] == turns[..n] && all[..n - 1] == turns[..n - 1];
    assert forall k | 0 <= k < |turns| :: q[k] == p[k];
    forall k | n <= k < |q| && q[k].role == User && Results(q[k].content) != [] ensures AssistantIn(q, n, k) {
      assert k == |turns| ==> all[k].kind == ToolResult;
      assert AssistantIn(p, n, k);
      var j :| n <= j < k && p[j].role == Assistant;
      assert q[j].role == Assistant;
    }
  }

  lemma AllCallsKept(cfg: Config, turns: seq<Turn>, t: Turn, calls: seq<Call>)
    requires ResultsByKind(turns + [t]) && AllCallsOk(cfg, turns, calls)
    requires t.kind == ToolResult ==> Answered(turns, calls)
    ensures AllCallsOk(cfg, turns + [t], calls)
    ensures calls != [] && (t.role == Assistant || Answered(turns, calls)) ==> Answered(turns + [t], calls)
  {
    var p, q := StoredParts(turns), StoredParts(turns + [t]);
    assert forall k | 0 <= k < |turns| :: q[k] == p[k];
    forall i | 0 <= i < |calls| ensures CallOk(cfg, turns + [t], calls[i]) {
      assert CallOk(cfg, turns, calls[i]);
      if t.kind == ToolResult {
        var last := |calls| - 1;
        var j :| calls[last].turnCount <= j < |turns| && p[j].role == Assistant;
        assert i < last ==> calls[i].turnCount <= calls[last].turnCount;
      }
      CallKept(cfg, turns, t, calls[i]);
    }
    if calls != [] {
      assert CallOk(cfg, turns, calls[|calls| - 1]);
      if t.role == Assistant {
        assert q[|turns|].role == Assistant;
      } else if Answered(turns, calls) {
        var j :| calls[|calls| - 1].turnCount <= j < |turns| && p[j].role == Assistant;
        assert q[j].role == Assistant;
      }
    }
  }

  lemma NewCallOk(cfg: Config, s: State)
    requires s.turns != [] && s.turns[|s.turns| - 1].role == User
    requires s.callsNow == 0 ==>
               s.turns[|s.turns| - 1].kind == UserText && s.lastEntry == UserTextMessage(s.turns[..|s.turns| - 1])
    ensures var c := Issue(cfg, s).calls[|s.calls|]; c.turnCount == |s.turns| && CallOk(cfg, s.turns, c)
  {
    assert s.turns[..|s.turns|] == s.turns;
  }

  lemma IssueKeeps(cfg: Config, s: State)
    requires s.turns != [] && s.turns[|s.turns| - 1].role == User && AllCallsOk(cfg, s.turns, s.calls)
    requires s.callsNow == 0 ==>
               s.turns[|s.turns| - 1].kind == UserText && s.lastEntry == UserTextMessage(s.turns[..|s.turns| - 1])
    ensures CallsInv(cfg, Issue(cfg, s))
  {
    NewCallOk(cfg, s);
    AddCall(cfg, s.turns, s.calls, Issue(cfg, s).calls[|s.calls|]);
  }

  lemma AddCall(cfg: Config, turns: seq<Turn>, calls: seq<Call>, c: Call)
    requires AllCallsOk(cfg, turns, calls) && CallOk(cfg, turns, c) && c.turnCount == |turns|
    ensures AllCallsOk(cfg, turns, calls + [c])
  {
    var all := calls + [c];
    forall i | 0 <= i < |all| ensures CallOk(cfg, turns, all[i]) && all[i].turnCount <= |turns| {
      if i < |calls| {
        assert all[i] == calls[i];
        assert CallOk(cfg, turns, calls[i]);
      }
    }
  }

  lemma BeginCalls(cfg: Config, s: State)
    requires CallsInv(cfg, s) && s.phase.Arrived? && ResultsByKind(BeginStep(cfg, s).turns)
    ensures CallsInv(cfg, BeginStep(cfg, s))
  {
    var u := Appended(s.turns, User, UserText, [TextBlock(s.phase.text)], []);
    var t := s.(lastEntry := UserTextMessage(s.turns), turns := u,
                rounds := 0, authExpired := false, callsNow := 0, dishonoured := 0);
    AllCallsKept(cfg, s.turns, u[|s.turns|], s.calls);
    assert u[..|u| - 1] == s.turns;
    IssueKeeps(cfg, t);
  }

  lemma ReplyCalls(cfg: Config, s: State, content: seq<Block>, stop: string)
    requires CallsInv(cfg, s) && s.phase.Calling? && ResultsByKind(ReplyStep(cfg, s, content, stop).turns)
    ensures CallsInv(cfg, ReplyStep(cfg, s, content, stop))
  {
    AllCallsKept(cfg, s.turns, ReplyStep(cfg, s, content, stop).turns[|s.turns|], s.calls);
  }

  lemma GatheredCalls(cfg: Config, s: State, results: seq<HandlerResult>)
    requires CallsInv(cfg, s) && Enabled(s, Gathered(results))
    ensures CallsInv(cfg, GatheredStep(cfg, s, results))
  {
    hide AllCallsOk, Answered, Dispatch;
  }

  lemma FlowCalls(cfg: Config, s: State, memo: string, meta: Dict)
    requires CallsInv(cfg, s) && ResultsByKind(Appended(s.turns, User, FlowEvent, [TextBlock(memo)], meta))
    ensures CallsInv(cfg, s.(turns := Appended(s.turns, User, FlowEvent, [TextBlock(memo)], meta)))
  {
    AllCallsKept(cfg, s.turns, Appended(s.turns, User, FlowEvent, [TextBlock(memo)], meta)[|s.turns|], s.calls);
  }

  /** One or two appended turns after an answered call. */
  lemma CallsKeptTwice(cfg: Config, turns: seq<Turn>, t: seq<Turn>, calls: seq<Call>)
    requires AllCallsOk(cfg, turns, calls) && Answered(turns, calls)
    requires ResultsByKind(t) && turns < t && |t| <= |turns| + 2
    ensures AllCallsOk(cfg, t, calls) && Answered(t, calls)
  {
    assert calls != [];
    hide AllCallsOk, Answered, ResultsByKind;
    var n := |turns|;
    PrefixByKind(t, n + 1);
    assert t[..n + 1] == turns + [t[n]];
    AllCallsKept(cfg, turns, t[n], calls);
    if |t| == n + 2 {
      assert t == turns + [t[n]] + [t[n + 1]];
      AllCallsKept(cfg, turns + [t[n]], t[n + 1], calls);
    } else {
      assert t == turns + [t[n]];
    }
  }

  lemma PrefixByKind(turns: seq<Turn>, n: nat)
    requires n <= |turns| && ResultsByKind(turns)
    ensures ResultsByKind(turns[..n])
  {
    assert forall i | 0 <= i < n :: turns[..n][i] == turns[i];
  }

  /** What storing a result leaves behind, before the phase is set. */
  ghost predicate ResultIn(cfg: Config, t: State) {
    && AllCallsOk(cfg, t.turns, t.calls) && Answered(t.turns, t.calls)
    && t.turns != [] && t.turns[|t.turns| - 1].role == User && t.callsNow > 0
  }

  /** More results to record, or the end of the round. */
  ghost predicate RecordedFrom(cfg: Config, t: State, r: State) {
    (r.turns == t.turns && r.calls == t.calls && r.phase.Recording?) || r == Conclude(cfg, t)
  }

  lemma ConcludeCalls(cfg: Config, t: State)
    requires ResultIn(cfg, t)
    ensures CallsInv(cfg, Conclude(cfg, t))
  {
    if !t.artifactsOnly && !t.authExpired {
      IssueKeeps(cfg, t);
    }
  }

  lemma ResultStored(cfg: Config, s: State, use: Block, o: Outcome, t: State)
    requires CallsInv(cfg, s) && s.phase.Recording? && s.callsNow > 0 && t == Stored(cfg, s, use, o)
             && ResultsByKind(t.turns)
    ensures ResultIn(cfg, t)
  {
    StoredGrows(cfg, s, use, o, t);
    CallsKeptTwice(cfg, s.turns, t.turns, s.calls);
  }

  lemma RecordVia(cfg: Config, s: State, r: State) returns (t: State)
    requires CallsInv(cfg, s) && Enabled(s, Record) && s.callsNow > 0 && r == RecordStep(cfg, s)
             && ResultsByKind(r.turns)
    ensures ResultIn(cfg, t) && RecordedFrom(cfg, t, r)
  {
    t := Stored(cfg, s, s.phase.uses[s.phase.next], s.phase.outcomes[s.phase.next]);
    assert r.turns == t.turns;
    ResultStored(cfg, s, s.phase.uses[s.phase.next], s.phase.outcomes[s.phase.next], t);
  }

  lemma RecordCalls(cfg: Config, s: State, r: State)
    requires CallsInv(cfg, s) && Enabled(s, Record) && s.callsNow > 0 && r == RecordStep(cfg, s)
             && ResultsByKind(r.turns)
    ensures CallsInv(cfg, r)
  {
    var t := RecordVia(cfg, s, r);
    RecordedCalls(cfg, t, r);
  }

  lemma RecordedCalls(cfg: Config, t: State, r: State)
    requires ResultIn(cfg, t) && RecordedFrom(cfg, t, r)
    ensures CallsInv(cfg, r)
  {
    if r == Conclude(cfg, t) {
      ConcludeCalls(cfg, t);
    }
  }

  lemma CallsInvStep(cfg: Config, s: State, a: Action)
    requires CallsInv(cfg, s) && ResultsByKind(Next(cfg, s, a).turns)
    requires s.phase.Recording? ==> s.callsNow > 0
    ensures CallsInv(cfg, Next(cfg, s, a))
  {
    hide AllCallsOk, Answered, BeginStep, ReplyStep, RecordStep, GatheredStep;
    if Enabled(s, a) {
      match a {
        case Begin => BeginCalls(cfg, s);
        case Reply(content, stop) => ReplyCalls(cfg, s, content, stop);
        case Record => RecordCalls(cfg, s, RecordStep(cfg, s));
        case Flow(memo, meta) => FlowCalls(cfg, s, memo, meta);
        case Gathered(results) => GatheredCalls(cfg, s, results);
        case _ =>
      }
    }
  }

  lemma {:induction false} CallsInvAlways(cfg: Config, acts: seq<Action>)
    requires Resumed(cfg)
    ensures CallsInv(cfg, Exec(cfg, acts))
    decreases |acts|
  {
    if acts != [] {
      var init := acts[..|acts| - 1];
      CallsInvAlways(cfg, init);
      CallInvAlways(cfg, init);
      TurnInvAlways(cfg, acts);
      ResultsAreByKind(Exec(cfg, acts).turns);
      CallsInvStep(cfg, Exec(cfg, init), acts[|acts| - 1]);
    }
  }
}
