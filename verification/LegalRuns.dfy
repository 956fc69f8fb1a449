/**
 The exact condition under which the history of a model call is one the Messages API accepts, on every run:
 no earlier step left a tool call unanswered, every reply said something, and no reply used a call id again.
 */
module LegalRuns {
  import opened Json
  import opened Sorting
  import opened Transcript
  import opened Breakpoints
  import opened Conversation
  import opened TurnInvariants
  import opened RunTurns
  import opened RunEvents
  import opened RunCalls
  import opened LegalWire

  // --- empty messages ---------------------------------------------------------------------------------------

  /** Every assistant turn says something. */
  predicate Spoken(turns: seq<Turn>) {
    forall i | 0 <= i < |turns| && turns[i].role == Assistant :: turns[i].content != []
  }

  /** A reply of which nothing is kept leaves an assistant turn without content. */
  predicate SpokenStep(s: State, a: Action) {
    a.Reply? && Enabled(s, a) ==> Kept(a.content) != []
  }

  ghost predicate SpokenRun(cfg: Config, acts: seq<Action>) {
    if acts == [] then Spoken(cfg.found)
    else SpokenRun(cfg, acts[..|acts| - 1]) && SpokenStep(Exec(cfg, acts[..|acts| - 1]), acts[|acts| - 1])
  }

  lemma SpokenAfter(cfg: Config, s: State, a: Action)
    ensures Spoken(Next(cfg, s, a).turns) <==> Spoken(s.turns) && SpokenStep(s, a)
  {
    var t := Next(cfg, s, a).turns;
    if a.Reply? && Enabled(s, a) {
      ReplyMoves(cfg, s, a.content, a.stop, Next(cfg, s, a));
      SpokenSnoc(s.turns, t[|s.turns|]);
    } else {
      hide Next;
      TurnsOnlyGrow(cfg, s, a);
      SpokenUsers(s.turns, t);
    }
  }

  lemma SpokenSnoc(turns: seq<Turn>, t: Turn)
    ensures Spoken(turns + [t]) <==> Spoken(turns) && (t.role == Assistant ==> t.content != [])
  {
    assert forall i | 0 <= i < |turns| :: (turns + [t])[i] == turns[i];
    assert (turns + [t])[|turns|] == t;
  }

  lemma SpokenUsers(turns: seq<Turn>, more: seq<Turn>)
    requires turns <= more && UserFrom(more, |turns|)
    ensures Spoken(more) <==> Spoken(turns)
  {
    assert forall i | 0 <= i < |turns| :: more[i] == turns[i];
  }

  lemma {:induction false} SpokenAlways(cfg: Config, acts: seq<Action>)
    ensures Spoken(Exec(cfg, acts).turns) <==> SpokenRun(cfg, acts)
    decreases |acts|
  {
    if acts != [] {
      SpokenAlways(cfg, acts[..|acts| - 1]);
      SpokenAfter(cfg, Exec(cfg, acts[..|acts| - 1]), acts[|acts| - 1]);
    }
  }

  lemma SizeOfResultsFirst(bs: seq<Block>)
    ensures |ResultsFirst(bs)| == |bs|
  {
    FilterMembers(bs);
  }

  predicate UsersSpeak(ms: seq<Message>) {
    forall i | 0 <= i < |ms| && ms[i].role == User :: ms[i].content != []
  }

  /** Merging keeps user messages, none of them empty, and every assistant message as it is. */
  lemma {:induction false} MergeNoneEmpty(parts: seq<Message>)
    requires UsersSpeak(parts)
    ensures UsersSpeak(Merge(parts))
    ensures NoneEmpty(Merge(parts)) <==> NoneEmpty(parts)
    decreases |parts|
  {
    if parts != [] {
      var n := |parts| - 1;
      assert parts == parts[..n] + [parts[n]];
      NoneEmptySnoc(parts[..n], parts[n]);
      MergeNoneEmpty(parts[..n]);
      ExtendNoneEmpty(Merge(parts[..n]), parts[n]);
    }
  }

  lemma NoneEmptySnoc(ms: seq<Message>, m: Message)
    ensures NoneEmpty(ms + [m]) <==> NoneEmpty(ms) && m.content != []
  {
    var r := ms + [m];
    assert r[|ms|] == m;
    assert forall i | 0 <= i < |ms| :: r[i] == ms[i];
  }

  lemma ExtendNoneEmpty(ms: seq<Message>, next: Message)
    requires UsersSpeak(ms) && (next.role == User ==> next.content != [])
    ensures UsersSpeak(Extend(ms, next))
    ensures NoneEmpty(Extend(ms, next)) <==> NoneEmpty(ms) && next.content != []
  {
    if next.role == User && ms != [] && ms[|ms| - 1].role == User {
      var n := |ms| - 1;
      SizeOfResultsFirst(ms[n].content + next.content);
      assert ms == ms[..n] + [ms[n]] && Extend(ms, next) == ms[..n] + [Extend(ms, next)[n]];
      NoneEmptySnoc(ms[..n], ms[n]);
      NoneEmptySnoc(ms[..n], Extend(ms, next)[n]);
    } else {
      NoneEmptySnoc(ms, next);
    }
  }

  /** The array has an empty message exactly when a stored reply is empty. */
  lemma NoneEmptyIffSpoken(turns: seq<Turn>)
    requires TurnsOk(turns)
    ensures NoneEmpty(Lossless(turns)) <==> Spoken(turns)
  {
    var parts := StoredParts(turns);
    assert |parts| == |turns|;
    assert forall i | 0 <= i < |turns| :: parts[i] == StoredPart(turns[i]);
    forall i | 0 <= i < |turns| && turns[i].role == User ensures turns[i].content != [] {
      assert TurnOk(turns[i]);
    }
    assert NoneEmpty(parts) <==> forall i | 0 <= i < |turns| :: turns[i].content != [];
    MergeNoneEmpty(parts);
  }

  // --- repeated ids -------------------------------------------------------------------------------------------

  /** The ids of a reply are new: distinct, and none of them used by an earlier reply of the thread. */
  predicate FreshStep(s: State, a: Action) {
    a.Reply? && Enabled(s, a) ==>
      var ids := StoredIds(Uses(Kept(a.content)));
      Distinct(ids) && forall id | id in ids :: id !in CallIds(StoredParts(s.turns))
  }

  ghost predicate FreshRun(cfg: Config, acts: seq<Action>) {
    if acts == [] then Distinct(CallIds(StoredParts(cfg.found)))
    else FreshRun(cfg, acts[..|acts| - 1]) && FreshStep(Exec(cfg, acts[..|acts| - 1]), acts[|acts| - 1])
  }

  lemma CallIdsSnoc(ms: seq<Message>, m: Message)
    ensures CallIds(ms + [m]) == CallIds(ms) + if m.role == Assistant then UseIds(m.content) else []
  {
    assert (ms + [m])[..|ms|] == ms;
  }

  lemma CallIdsExtend(ms: seq<Message>, next: Message)
    ensures CallIds(Extend(ms, next)) == CallIds(ms) + if next.role == Assistant then UseIds(next.content) else []
  {
    if next.role == User && ms != [] && ms[|ms| - 1].role == User {
      assert Extend(ms, next)[..|ms| - 1] == ms[..|ms| - 1];
    } else {
      CallIdsSnoc(ms, next);
    }
  }

  /** Merging neither loses nor repeats a call. */
  lemma {:induction false} CallIdsMerge(parts: seq<Message>)
    ensures CallIds(Merge(parts)) == CallIds(parts)
    decreases |parts|
  {
    if parts != [] {
      CallIdsMerge(parts[..|parts| - 1]);
      CallIdsExtend(Merge(parts[..|parts| - 1]), parts[|parts| - 1]);
    }
  }

  /** User turns bring no calls. */
  lemma {:induction false} CallIdsUserTurns(turns: seq<Turn>, n: nat)
    requires n <= |turns| && UserFrom(turns, n)
    ensures CallIds(StoredParts(turns)) == CallIds(StoredParts(turns[..n]))
    decreases |turns|
  {
    if n == |turns| {
      assert turns[..n] == turns;
    } else {
      var k := |turns| - 1;
      CallIdsUserTurns(turns[..k], n);
      assert turns[..k][..n] == turns[..n];
      assert StoredParts(turns)[..k] == StoredParts(turns[..k]);
    }
  }

  lemma DistinctAppend(a: seq<Json>, b: seq<Json>)
    ensures Distinct(a + b) <==> Distinct(a) && Distinct(b) && forall id | id in b :: id !in a
  {
    var s := a + b;
    assert forall i | 0 <= i < |a| :: s[i] == a[i];
    assert forall j | 0 <= j < |b| :: s[|a| + j] == b[j];
    if Distinct(s) {
      forall i, j | 0 <= i < |a| && 0 <= j < |b| ensures a[i] != b[j] {
        assert s[i] != s[|a| + j];
      }
      forall i, j | 0 <= i < j < |b| ensures b[i] != b[j] {
        assert s[|a| + i] != s[|a| + j];
      }
    }
    if Distinct(a) && Distinct(b) && forall id | id in b :: id !in a {
      forall i, j | 0 <= i < j < |s| ensures s[i] != s[j] {
        assert i < |a| ==> s[i] in a;
        assert j >= |a| ==> s[j] in b;
        assert i >= |a| ==> b[i - |a|] != b[j - |a|];
      }
    }
  }

  lemma FreshReply(turns: seq<Turn>, t: Turn, content: seq<Block>)
    requires ReplyOk(content) && t.role == Assistant && t.content == CanonicalBlocks(Kept(content))
    ensures CallIds(StoredParts(turns + [t])) == CallIds(StoredParts(turns)) + StoredIds(Uses(Kept(content)))
  {
    ReplyIds(content, t.content);
    assert StoredParts(turns + [t]) == StoredParts(turns) + [StoredPart(t)];
    CallIdsSnoc(StoredParts(turns), StoredPart(t));
  }

  lemma FreshAfter(cfg: Config, s: State, a: Action)
    ensures Distinct(CallIds(StoredParts(Next(cfg, s, a).turns))) <==>
            Distinct(CallIds(StoredParts(s.turns))) && FreshStep(s, a)
  {
    var t := Next(cfg, s, a).turns;
    if a.Reply? && Enabled(s, a) {
      ReplyMoves(cfg, s, a.content, a.stop, Next(cfg, s, a));
      FreshReply(s.turns, t[|s.turns|], a.content);
      DistinctAppend(CallIds(StoredParts(s.turns)), StoredIds(Uses(Kept(a.content))));
    } else {
      TurnsOnlyGrow(cfg, s, a);
      CallIdsUserTurns(t, |s.turns|);
      assert t[..|s.turns|] == s.turns;
    }
  }

  lemma {:induction false} FreshAlways(cfg: Config, acts: seq<Action>)
    ensures Distinct(CallIds(StoredParts(Exec(cfg, acts).turns))) <==> FreshRun(cfg, acts)
    decreases |acts|
  {
    if acts != [] {
      FreshAlways(cfg, acts[..|acts| - 1]);
      FreshAfter(cfg, Exec(cfg, acts[..|acts| - 1]), acts[|acts| - 1]);
    }
  }

  // --- the condition ------------------------------------------------------------------------------------------

  /** Every step of the run answered its calls, said something and used new ids. */
  ghost predicate CleanRun(cfg: Config, acts: seq<Action>) {
    PairedRun(cfg, acts) && SpokenRun(cfg, acts) && FreshRun(cfg, acts)
  }

  lemma StoredLegalIff(cfg: Config, acts: seq<Action>)
    requires TurnsOk(cfg.found) && Exec(cfg, acts).phase.Calling?
    ensures Legal(Lossless(Exec(cfg, acts).turns)) <==> CleanRun(cfg, acts)
  {
    var turns := Exec(cfg, acts).turns;
    TurnInvAlways(cfg, acts);
    DebtsAlways(cfg, acts);
    SpokenAlways(cfg, acts);
    FreshAlways(cfg, acts);
    assert PairedRun(cfg, acts) <==> Owed(turns) == Some([]);
    assert turns != [] && turns[|turns| - 1].role == User;
    hide Owed, Spoken, Legal, Exec, PairedRun, SpokenRun, FreshRun, CallIds, TurnsOk;
    OwesNothingIffLegal(turns);
  }

  /** Stored turns that end with the user are legal if and only if they owe nothing, speak and repeat no id. */
  lemma OwesNothingIffLegal(turns: seq<Turn>)
    requires TurnsOk(turns) && turns != [] && turns[|turns| - 1].role == User
    ensures Legal(Lossless(turns)) <==>
            Owed(turns) == Some([]) && Spoken(turns) && Distinct(CallIds(StoredParts(turns)))
  {
    hide TurnsOk, Spoken, Distinct, Legal, CallIds, Owed, Partitioned, Good;
    OwedIsExact(turns, []);
    LastRole(turns);
    PartsOk(turns);
    MergePartitioned(StoredParts(turns));
    LegalIffGood(Lossless(turns));
    NoneEmptyIffSpoken(turns);
    CallIdsMerge(StoredParts(turns));
  }

  // --- with thinking enabled ------------------------------------------------------------------------------------

  /** Turn `k` is the newest reply. */
  predicate IsNewestReply(turns: seq<Turn>, k: int) {
    0 <= k < |turns| && turns[k].role == Assistant && UserFrom(turns, k + 1)
  }

  /** The newest reply made tool calls. */
  ghost predicate AfterTools(turns: seq<Turn>) {
    exists k :: IsNewestReply(turns, k) && UseIds(turns[k].content) != []
  }

  /** Behind a reply all user turns are one message. */
  lemma {:induction false} ReplyIsLastButOne(turns: seq<Turn>, k: nat)
    requires IsNewestReply(turns, k)
    ensures var ms := Lossless(turns);
            if k + 1 == |turns| then ms != [] && ms[|ms| - 1] == StoredPart(turns[k])
            else |ms| > 1 && ms[|ms| - 2] == StoredPart(turns[k]) && ms[|ms| - 1].role == User
    decreases |turns|
  {
    var n := |turns| - 1;
    assert turns == turns[..n] + [turns[n]];
    LosslessAppend(turns[..n], turns[n]);
    if k < n {
      ReplyIsLastButOne(turns[..n], k);
    }
  }

  lemma {:induction false} NoReplyOneMessage(turns: seq<Turn>)
    requires UserFrom(turns, 0)
    ensures |Lossless(turns)| <= 1 && (turns != [] ==> Lossless(turns) != [] && Lossless(turns)[0].role == User)
    decreases |turns|
  {
    if turns != [] {
      var n := |turns| - 1;
      assert turns == turns[..n] + [turns[n]];
      NoReplyOneMessage(turns[..n]);
      LosslessAppend(turns[..n], turns[n]);
    }
  }

  /** There is a newest reply, or none at all. */
  lemma NewestReply(turns: seq<Turn>) returns (k: int)
    ensures if k == -1 then UserFrom(turns, 0) else IsNewestReply(turns, k)
    ensures forall j | IsNewestReply(turns, j) :: j == k
  {
    k := |turns| - 1;
    while k >= 0 && turns[k].role == User
      invariant -1 <= k < |turns| && UserFrom(turns, k + 1)
    {
      k := k - 1;
    }
  }

  lemma AnswersToolsIff(turns: seq<Turn>)
    requires turns != [] && turns[|turns| - 1].role == User
    ensures AnswersTools(Lossless(turns)) <==> AfterTools(turns)
  {
    var k := NewestReply(turns);
    if k == -1 {
      NoReplyOneMessage(turns);
    } else {
      ReplyIsLastButOne(turns, k);
    }
  }

  // --- every call -----------------------------------------------------------------------------------------------

  /**
   The API accepts the history of the next model call exactly when the run was clean and, with thinking enabled, the
   newest reply made no tool calls: whatever widget events, ticket memos, parallel tools, failed calls or early exits
   came before, with curation on or off, and with the cache markers in place.
   */
  lemma LegalIffClean(cfg: Config, acts: seq<Action>, entry: Option<int>, wrapup: bool)
    requires TurnsOk(cfg.found) && Exec(cfg, acts).phase.Calling?
    ensures var turns := Exec(cfg, acts).turns;
            Accepted(cfg.thinkingEnabled, Sent(cfg, turns, entry, wrapup)) <==>
            CleanRun(cfg, acts) && !(cfg.thinkingEnabled && AfterTools(turns))
    ensures Legal(Sent(cfg, Exec(cfg, acts).turns, entry, wrapup)) <==> CleanRun(cfg, acts)
  {
    var turns := Exec(cfg, acts).turns;
    TurnInvAlways(cfg, acts);
    DebtsAlways(cfg, acts);
    StoredLegalIff(cfg, acts);
    hide Legal, CleanRun, Exec, AnswersTools, AfterTools, SameShape;
    AnswersToolsIff(turns);
    HistoryFacts(cfg, turns, entry, wrapup);
    SameShapeSameLegality(Lossless(turns), History(cfg, turns));
    BreakpointKeepsLegality(History(cfg, turns), entry);
  }

  /** So is what was actually sent, at the very step that sent it. */
  lemma CallIsLegalIffClean(cfg: Config, acts: seq<Action>, a: Action)
    requires TurnsOk(cfg.found) && |Next(cfg, Exec(cfg, acts), a).calls| > |Exec(cfg, acts).calls|
    ensures var t := Exec(cfg, acts + [a]);
            && t.calls != []
            && (Accepted(cfg.thinkingEnabled, LastCall(t).history) <==>
                CleanRun(cfg, acts + [a]) && !(cfg.thinkingEnabled && AfterTools(t.turns)))
  {
    NewCallSawAll(cfg, Exec(cfg, acts), a);
    RunOneMore(cfg, acts, a);
    var t := Exec(cfg, acts + [a]);
    LegalIffClean(cfg, acts + [a], LastCall(t).entry, LastCall(t).wrapup);
  }

  /** A round of tools leaves its reply the newest one until the model has spoken again. */
  ghost predicate ToolsInv(s: State) {
    s.phase.Gathering? || s.phase.Recording? || (s.phase.Calling? && s.rounds > 0) ==> AfterTools(s.turns)
  }

  lemma AfterToolsStays(turns: seq<Turn>, more: seq<Turn>)
    requires AfterTools(turns) && turns <= more && UserFrom(more, |turns|)
    ensures AfterTools(more)
  {
    var k :| IsNewestReply(turns, k) && UseIds(turns[k].content) != [];
    assert IsNewestReply(more, k) && more[k] == turns[k];
  }

  lemma ReplyTools(cfg: Config, s: State, content: seq<Block>, stop: string)
    requires ReplyOk(content)
    ensures ToolsInv(ReplyStep(cfg, s, content, stop))
  {
    var r := ReplyStep(cfg, s, content, stop);
    ReplyMoves(cfg, s, content, stop, r);
    ReplyIds(content, r.turns[|s.turns|].content);
    if r.phase.Gathering? {
      assert IsNewestReply(r.turns, |s.turns|) && |StoredIds(Uses(Kept(content)))| > 0;
    }
  }

  lemma ToolsStep(cfg: Config, s: State, a: Action)
    requires ToolsInv(s)
    ensures ToolsInv(Next(cfg, s, a))
  {
    var t := Next(cfg, s, a);
    if Enabled(s, a) {
      if a.Reply? {
        ReplyTools(cfg, s, a.content, a.stop);
      } else {
        TurnsOnlyGrow(cfg, s, a);
        ToolsPhase(cfg, s, a);
        if AfterTools(s.turns) {
          hide Next, AfterTools, UserFrom;
          AfterToolsStays(s.turns, t.turns);
        }
      }
    }
  }

  /** Only a reply starts a round of tools. */
  lemma ToolsPhase(cfg: Config, s: State, a: Action)
    requires Enabled(s, a) && !a.Reply?
    ensures var t := Next(cfg, s, a);
            t.phase.Gathering? || t.phase.Recording? || (t.phase.Calling? && t.rounds > 0) ==>
              s.phase.Gathering? || s.phase.Recording? || (s.phase.Calling? && s.rounds > 0)
  {
    hide Sent, Canonical, Dispatch;
  }

  lemma {:induction false} ToolsAlways(cfg: Config, acts: seq<Action>)
    ensures ToolsInv(Exec(cfg, acts))
    decreases |acts|
  {
    hide ToolsInv, Next;
    if acts == [] {
      NoToolsYet(cfg);
    } else {
      ToolsAlways(cfg, acts[..|acts| - 1]);
      ToolsStep(cfg, Exec(cfg, acts[..|acts| - 1]), acts[|acts| - 1]);
    }
  }

  lemma NoToolsYet(cfg: Config)
    ensures ToolsInv(Start(cfg))
  {
  }

  /** With thinking enabled every call that goes on from a round of tools is refused, however clean the run. */
  lemma ToolRoundRefused(cfg: Config, acts: seq<Action>, entry: Option<int>, wrapup: bool)
    requires TurnsOk(cfg.found) && cfg.thinkingEnabled
    requires Exec(cfg, acts).phase.Calling? && Exec(cfg, acts).rounds > 0
    ensures !Accepted(true, Sent(cfg, Exec(cfg, acts).turns, entry, wrapup))
  {
    ToolsAlways(cfg, acts);
    LegalIffClean(cfg, acts, entry, wrapup);
  }

  function LastCall(s: State): Call
    requires s.calls != []
  {
    s.calls[|s.calls| - 1]
  }

  lemma IssueSends(cfg: Config, s: State)
    ensures var t := Issue(cfg, s);
            && t.phase.Calling? && t.calls != []
            && LastCall(t).history == Sent(cfg, t.turns, LastCall(t).entry, LastCall(t).wrapup)
  {
  }

  /** Only the start of a request and the end of a round issue a call. */
  lemma WhoIssues(cfg: Config, s: State, a: Action)
    requires |Next(cfg, s, a).calls| > |s.calls|
    ensures exists u :: Next(cfg, s, a) == Issue(cfg, u)
  {
    match a
    case Begin =>
    case Record =>
      var t := Stored(cfg, s, s.phase.uses[s.phase.next], s.phase.outcomes[s.phase.next]);
      assert Next(cfg, s, a) == Issue(cfg, t);
    case _ =>
  }

  lemma NewCallSawAll(cfg: Config, s: State, a: Action)
    requires |Next(cfg, s, a).calls| > |s.calls|
    ensures var t := Next(cfg, s, a);
            t.phase.Calling? && LastCall(t).history == Sent(cfg, t.turns, LastCall(t).entry, LastCall(t).wrapup)
  {
    WhoIssues(cfg, s, a);
    var u :| Next(cfg, s, a) == Issue(cfg, u);
    IssueSends(cfg, u);
  }

  // --- what goes wrong, and for how long ----------------------------------------------------------------------

  lemma RunOneMore(cfg: Config, acts: seq<Action>, a: Action)
    ensures Exec(cfg, acts + [a]) == Next(cfg, Exec(cfg, acts), a)
    ensures CleanRun(cfg, acts + [a]) ==> CleanRun(cfg, acts)
    ensures CleanRun(cfg, acts + [a]) ==>
              PairedStep(Exec(cfg, acts), a) && SpokenStep(Exec(cfg, acts), a) && FreshStep(Exec(cfg, acts), a)
  {
    assert (acts + [a])[..|acts|] == acts;
  }

  /** Once unclean, a run stays unclean: the session never makes a legal call again. */
  lemma {:induction false} BrokenForGood(cfg: Config, acts: seq<Action>, more: seq<Action>, entry: Option<int>,
                                         wrapup: bool)
    requires TurnsOk(cfg.found)
    requires !CleanRun(cfg, acts)
    ensures !CleanRun(cfg, acts + more)
    ensures Exec(cfg, acts + more).phase.Calling? ==> !Legal(Sent(cfg, Exec(cfg, acts + more).turns, entry, wrapup))
    decreases |more|
  {
    if more == [] {
      assert acts + more == acts;
    } else {
      var init, last := more[..|more| - 1], more[|more| - 1];
      BrokenForGood(cfg, acts, init, entry, wrapup);
      RunOneMore(cfg, acts + init, last);
      assert acts + init + [last] == acts + more;
    }
    if Exec(cfg, acts + more).phase.Calling? {
      LegalIffClean(cfg, acts + more, entry, wrapup);
    }
  }

  /** The three ways in which a reply that the API may well give breaks its session for good. */
  predicate BreaksSession(s: State, content: seq<Block>, stop: string) {
    || (Uses(Kept(content)) != [] && stop != "tool_use")
    || Kept(content) == []
    || !FreshStep(s, Reply(content, stop))
  }

  lemma BreakingReply(cfg: Config, acts: seq<Action>, content: seq<Block>, stop: string)
    requires Enabled(Exec(cfg, acts), Reply(content, stop)) && BreaksSession(Exec(cfg, acts), content, stop)
    ensures !CleanRun(cfg, acts + [Reply(content, stop)])
  {
    RunOneMore(cfg, acts, Reply(content, stop));
  }

  /** A reply without calls to answer, or one that did not stop for them, ends the request. */
  lemma ReplyEnds(cfg: Config, acts: seq<Action>, content: seq<Block>, stop: string)
    requires Enabled(Exec(cfg, acts), Reply(content, stop)) && (Uses(Kept(content)) == [] || stop != "tool_use")
    ensures Exec(cfg, acts + [Reply(content, stop)] + [Yield] + [Return]).phase.Idle?
  {
    var one := acts + [Reply(content, stop)];
    RunOneMore(cfg, acts, Reply(content, stop));
    assert Exec(cfg, one).phase.Closing? && |Exec(cfg, one).outbox| == 1;
    RunOneMore(cfg, one, Yield);
    RunOneMore(cfg, one + [Yield], Return);
  }

  /**
   Where the code falls short: after a tool call cut off by, say, `max_tokens`, after an empty reply, or after
   one that repeats an id, the request ends normally, and the next message sends a history the API refuses.
   */
  lemma NextCallRefused(cfg: Config, acts: seq<Action>, content: seq<Block>, stop: string, text: string,
                        entry: Option<int>, wrapup: bool)
    requires TurnsOk(cfg.found)
    requires Enabled(Exec(cfg, acts), Reply(content, stop)) && (Uses(Kept(content)) == [] || stop != "tool_use")
    requires BreaksSession(Exec(cfg, acts), content, stop)
    ensures var t := Exec(cfg, acts + [Reply(content, stop)] + [Yield] + [Return] + [Arrive(text)] + [Begin]);
            t.phase.Calling? && !Legal(Sent(cfg, t.turns, entry, wrapup))
  {
    hide BreaksSession, CleanRun, Sent, Legal;
    var one := acts + [Reply(content, stop)];
    var ended := one + [Yield] + [Return];
    var more := [Yield] + [Return] + [Arrive(text)] + [Begin];
    ReplyEnds(cfg, acts, content, stop);
    RunOneMore(cfg, ended, Arrive(text));
    RunOneMore(cfg, ended + [Arrive(text)], Begin);
    BreakingReply(cfg, acts, content, stop);
    assert one + more == ended + [Arrive(text)] + [Begin];
    BrokenForGood(cfg, one, more, entry, wrapup);
  }

  lemma FirstCall(cfg: Config, text: string)
    ensures Exec(cfg, [Arrive(text)] + [Begin]).phase.Calling? && Exec(cfg, [Arrive(text)] + [Begin]).outbox == []
  {
    RunOneMore(cfg, [], Arrive(text));
    assert [] + [Arrive(text)] == [Arrive(text)];
    RunOneMore(cfg, [Arrive(text)], Begin);
  }

  /** One message, one call cut off by `max_tokens`, one more message: refused. */
  lemma TruncatedReplyExample(cfg: Config, text: string, use: Block, entry: Option<int>, wrapup: bool)
    requires TurnsOk(cfg.found)
    requires use == [("type", Str("tool_use")), ("id", Str("t1")), ("name", Str("get_holdings"))]
    ensures var t := Exec(cfg, [Arrive(text)] + [Begin] + [Reply([use], "max_tokens")] + [Yield] + [Return]
                               + [Arrive(text)] + [Begin]);
            t.phase.Calling? && !Legal(Sent(cfg, t.turns, entry, wrapup))
  {
    FirstCall(cfg, text);
    ExampleUse(use, "t1");
    NextCallRefused(cfg, [Arrive(text)] + [Begin], [use], "max_tokens", text, entry, wrapup);
  }

  /** One message, an empty reply, one more message: refused. */
  lemma EmptyReplyExample(cfg: Config, text: string, entry: Option<int>, wrapup: bool)
    requires TurnsOk(cfg.found)
    ensures var t := Exec(cfg, [Arrive(text)] + [Begin] + [Reply([], "end_turn")] + [Yield] + [Return]
                               + [Arrive(text)] + [Begin]);
            t.phase.Calling? && !Legal(Sent(cfg, t.turns, entry, wrapup))
  {
    FirstCall(cfg, text);
    NextCallRefused(cfg, [Arrive(text)] + [Begin], [], "end_turn", text, entry, wrapup);
  }

  lemma ExampleUse(use: Block, id: string)
    requires use == [("type", Str("tool_use")), ("id", Str(id)), ("name", Str("get_holdings"))]
    ensures ReplyOk([use]) && Uses(Kept([use])) == [use]
  {
    assert use[1..][0] == use[1] && use[1..][1..][0] == use[2];
    assert Get(use, "type") == Str("tool_use");
    assert Get(use[1..], "name") == Get(use[1..][1..], "name") == Str("get_holdings");
    assert Get(use, "name").Str?;
    assert use[1].0 == "id" && "id" in Keys(use);
    assert !HasMarker(use);
    assert DistinctKeys(use) && WellFormedDict(use);
    assert [use][1..] == [];
  }
}
