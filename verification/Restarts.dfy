/**
 The first request after a restart: when the history that was read back is one the Messages API accepts, whatever
 rows were lost (backend/app/agent/store.py, backend/app/agent/loop.py).
 */
module Restarts {
  import opened Json
  import opened Sorting
  import opened Transcript
  import opened Curation
  import opened Conversation
  import opened TurnInvariants
  import opened RunTurns
  import opened RunCalls
  import opened LegalWire
  import opened LegalRuns
  import opened CachePrefix
  import P = Persistence
  import R = Rehydration

  // --- the next request ---------------------------------------------------------------------------------------------

  /** The thread with the next message. */
  function Asking(turns: seq<Turn>, text: string): seq<Turn> {
    Appended(turns, User, UserText, [TextBlock(text)], [])
  }

  lemma AskingOwes(turns: seq<Turn>, text: string)
    ensures Owed(Asking(turns, text)) == Owed(turns)
  {
    var all := Asking(turns, text);
    assert all == turns + [all[|turns|]] && all[..|turns|] == turns;
    TextTurnIds(text);
    if Owed(turns).Some? {
      assert Owed(turns).value[0..] == Owed(turns).value;
    }
  }

  lemma AskingSpeaks(turns: seq<Turn>, text: string)
    ensures Spoken(Asking(turns, text)) <==> Spoken(turns)
  {
    assert forall i | 0 <= i < |turns| :: Asking(turns, text)[i] == turns[i];
  }

  lemma AskingCalls(turns: seq<Turn>, text: string)
    ensures CallIds(StoredParts(Asking(turns, text))) == CallIds(StoredParts(turns))
  {
    var t := Asking(turns, text)[|turns|];
    assert StoredParts(Asking(turns, text)) == StoredParts(turns) + [StoredPart(t)];
    CallIdsSnoc(StoredParts(turns), StoredPart(t));
  }

  lemma AskingLast(turns: seq<Turn>, text: string)
    ensures Asking(turns, text) != [] && Asking(turns, text)[|turns|].role == User
  {
  }

  lemma AskingTools(turns: seq<Turn>, text: string)
    ensures AfterTools(Asking(turns, text)) <==> AfterTools(turns)
  {
    var all := Asking(turns, text);
    assert all[..|turns|] == turns && forall i | 0 <= i < |turns| :: all[i] == turns[i];
    assert forall k :: IsNewestReply(all, k) <==> IsNewestReply(turns, k);
  }

  /**
   Any list of stored turns, followed by a user message, is a legal history if and only if every call in it is
   answered in its turn and nothing else is, no reply in it is empty and none repeats an id; and it is accepted
   unless, in addition, thinking is enabled and the newest reply made calls.
   */
  lemma NextRequestLegalIff(thinking: bool, turns: seq<Turn>, text: string)
    requires TurnsOk(turns)
    ensures Legal(Lossless(Asking(turns, text))) <==>
            Owed(turns) == Some([]) && Spoken(turns) && Distinct(CallIds(StoredParts(turns)))
    ensures Accepted(thinking, Lossless(Asking(turns, text))) <==>
            Legal(Lossless(Asking(turns, text))) && !(thinking && AfterTools(turns))
  {
    UserTextAppendOk(turns, UserText, text, []);
    AskingLast(turns, text);
    hide Asking, TurnsOk, Spoken, Distinct, Legal, CallIds, Owed, AfterTools, AnswersTools;
    AskingOwes(turns, text);
    AskingSpeaks(turns, text);
    AskingCalls(turns, text);
    AskingTools(turns, text);
    OwesNothingIffLegal(Asking(turns, text));
    AnswersToolsIff(Asking(turns, text));
  }

  // --- restarts -----------------------------------------------------------------------------------------------------

  lemma {:induction false} OwedFront(turns: seq<Turn>, k: nat)
    requires k <= |turns| && Owed(turns).Some?
    ensures Owed(turns[..k]).Some?
    decreases |turns|
  {
    if k < |turns| {
      OwedFront(turns[..|turns| - 1], k);
      assert turns[..|turns| - 1][..k] == turns[..k];
    } else {
      assert turns[..k] == turns;
    }
  }

  /** How many calls the turns make. */
  function Calls(turns: seq<Turn>): nat {
    if turns == [] then 0
    else
      var t := turns[|turns| - 1];
      Calls(turns[..|turns| - 1]) + if t.role == Assistant then |UseIds(t.content)| else 0
  }

  /** How many results they hold. */
  function Answered(turns: seq<Turn>): nat {
    if turns == [] then 0
    else
      var t := turns[|turns| - 1];
      Answered(turns[..|turns| - 1]) + if t.role == User then |ResultIds(t.content)| else 0
  }

  lemma {:induction false} OwedCount(turns: seq<Turn>)
    requires Owed(turns).Some?
    ensures Calls(turns) == Answered(turns) + |Owed(turns).value|
  {
    hide OwedNext, UseIds, ResultIds;
    if turns != [] {
      var n := |turns| - 1;
      OwedCount(turns[..n]);
      OwedNextCount(Owed(turns[..n]).value, n > 0 && turns[n - 1].role == User, turns[n]);
    }
  }

  lemma OwedNextCount(owed: seq<Json>, afterUser: bool, t: Turn)
    requires OwedNext(owed, afterUser, t).Some?
    ensures |owed| + (if t.role == Assistant then |UseIds(t.content)| else 0)
         == |OwedNext(owed, afterUser, t).value| + if t.role == User then |ResultIds(t.content)| else 0
  {
  }

  lemma {:induction false} CallIdsFront(turns: seq<Turn>, k: nat)
    requires k <= |turns|
    ensures CallIds(StoredParts(turns[..k])) <= CallIds(StoredParts(turns))
    decreases |turns|
  {
    if k < |turns| {
      var n := |turns| - 1;
      CallIdsFront(turns[..n], k);
      assert turns[..n][..k] == turns[..k];
      assert StoredParts(turns)[..n] == StoredParts(turns[..n]);
    } else {
      assert turns[..k] == turns;
    }
  }

  lemma DistinctFront(a: seq<Json>, b: seq<Json>)
    requires a <= b && Distinct(b)
    ensures Distinct(a)
  {
  }

  lemma FrontOk(turns: seq<Turn>, k: nat)
    requires TurnsOk(turns) && k <= |turns|
    ensures TurnsOk(turns[..k]) && (Spoken(turns) ==> Spoken(turns[..k]))
  {
    assert forall i | 0 <= i < k :: turns[..k][i] == turns[i];
  }

  /**
   A clean conversation cut off after any of its turns: the next request is legal if and only if as many results are
   left as calls, that is, unless the cut is inside a round of tools.
   */
  lemma CutLegalIff(cfg: Config, acts: seq<Action>, k: nat, text: string)
    requires TurnsOk(cfg.found) && CleanRun(cfg, acts) && k <= |Exec(cfg, acts).turns|
    ensures var kept := Exec(cfg, acts).turns[..k];
            Legal(Lossless(Asking(kept, text))) <==> Calls(kept) == Answered(kept)
  {
    var turns := Exec(cfg, acts).turns;
    TurnInvAlways(cfg, acts);
    SpokenAlways(cfg, acts);
    FreshAlways(cfg, acts);
    DebtsAlways(cfg, acts);
    assert Owed(turns).Some?;
    hide CleanRun, Asking, Legal, Owed, Calls, Answered, CallIds, Exec, TurnsOk, Spoken, Debts;
    hide PairedRun, SpokenRun, FreshRun;
    FrontOk(turns, k);
    OwedFront(turns, k);
    OwedCount(turns[..k]);
    CallIdsFront(turns, k);
    DistinctFront(CallIds(StoredParts(turns[..k])), CallIds(StoredParts(turns)));
    NextRequestLegalIff(false, turns[..k], text);
  }

  lemma ReadTurnsOk(turns: seq<Turn>, read: seq<Turn>)
    requires TurnsOk(turns) && Ascending(read) && forall x | x in read :: x in turns
    ensures TurnsOk(read)
  {
    forall i | 0 <= i < |read| ensures TurnOk(read[i]) && read[i].no > 0 {
      assert read[i] in turns;
      var j :| 0 <= j < |turns| && turns[j] == read[i];
      assert TurnOk(turns[j]);
    }
  }

  /**
   The session goes on in another process, from the rows that were written. Whatever was lost, its next request is
   legal exactly if the turns read back owe nothing, say something each and repeat no id. When no write was refused or
   failed and the run was clean, that is so unless the queue still held a result of a call already written.
   */
  lemma RestartLegalIff(s: P.Store, writes: seq<P.Action>, t: P.ThreadId, read: seq<Turn>, cfg: Config,
                        acts: seq<Action>, text: string)
    requires TurnsOk(cfg.found) && P.Started(s) && t in P.Exec(s, writes).memory
    requires P.Exec(s, writes).memory[t] == Exec(cfg, acts).turns && R.Selected(P.Exec(s, writes).rows, t, read)
    ensures var r := R.Rehydrated(read);
            Legal(Lossless(Asking(r, text))) <==>
            Owed(r) == Some([]) && Spoken(r) && Distinct(CallIds(StoredParts(r)))
    ensures var r := R.Rehydrated(read);
            Accepted(cfg.thinkingEnabled, Lossless(Asking(r, text))) <==>
            Legal(Lossless(Asking(r, text))) && !(cfg.thinkingEnabled && AfterTools(r))
    ensures P.Exec(s, writes).rejected + P.Exec(s, writes).failed == 0 && CleanRun(cfg, acts) ==>
            var r := R.Rehydrated(read);
            (Legal(Lossless(Asking(r, text))) <==> Calls(r) == Answered(r))
  {
    hide P.Started, R.Selected, R.Rehydrated, Asking, Legal, Accepted, Owed, CleanRun, TurnsOk, Exec, P.Exec;
    R.RestartReadsOnlyStoredTurns(s, writes, t, read);
    TurnInvAlways(cfg, acts);
    var r, turns := R.Rehydrated(read), Exec(cfg, acts).turns;
    ReadTurnsOk(turns, r);
    NextRequestLegalIff(cfg.thinkingEnabled, r, text);
    if P.Exec(s, writes).rejected + P.Exec(s, writes).failed == 0 && CleanRun(cfg, acts) {
      R.RestartReadsPrefix(s, writes, t, read);
      FrontOf(r, R.TurnsOf(R.Outstanding(P.Exec(s, writes)), t), turns);
      CutLegalIff(cfg, acts, |r|, text);
    }
  }

  lemma FrontOf(a: seq<Turn>, b: seq<Turn>, all: seq<Turn>)
    requires a + b == all
    ensures |a| <= |all| && a == all[..|a|]
  {
  }

  // --- lost rows ----------------------------------------------------------------------------------------------------

  function Without(turns: seq<Turn>, p: nat): (r: seq<Turn>)
    requires p < |turns|
    ensures |r| == |turns| - 1
  {
    turns[..p] + turns[p + 1..]
  }

  lemma CountsSnoc(turns: seq<Turn>, t: Turn)
    ensures Calls(turns + [t]) == Calls(turns) + if t.role == Assistant then |UseIds(t.content)| else 0
    ensures Answered(turns + [t]) == Answered(turns) + if t.role == User then |ResultIds(t.content)| else 0
  {
    assert (turns + [t])[..|turns|] == turns;
  }

  lemma {:induction false} CountsWithout(turns: seq<Turn>, p: nat)
    requires p < |turns|
    ensures Calls(turns)
            == Calls(Without(turns, p)) + if turns[p].role == Assistant then |UseIds(turns[p].content)| else 0
    ensures Answered(turns)
            == Answered(Without(turns, p)) + if turns[p].role == User then |ResultIds(turns[p].content)| else 0
    decreases |turns|
  {
    var n := |turns| - 1;
    hide UseIds, ResultIds, Calls, Answered;
    assert turns == turns[..n] + [turns[n]];
    CountsSnoc(turns[..n], turns[n]);
    if p == n {
      assert Without(turns, p) == turns[..n];
    } else {
      CountsWithout(turns[..n], p);
      assert Without(turns, p) == Without(turns[..n], p) + [turns[n]];
      CountsSnoc(Without(turns[..n], p), turns[n]);
    }
  }

  /** One lost row breaks the session wherever it is: without a turn that made calls, or held results, it is refused. */
  lemma {:induction false} LostRowRefused(turns: seq<Turn>, p: nat, text: string)
    requires Owed(turns) == Some([]) && p < |turns| && TurnsOk(Without(turns, p))
    requires if turns[p].role == Assistant then UseIds(turns[p].content) != [] else ResultIds(turns[p].content) != []
    ensures !Legal(Lossless(Asking(Without(turns, p), text)))
  {
    CountsWithout(turns, p);
    OwedCount(turns);
    NextRequestLegalIff(false, Without(turns, p), text);
    if Owed(Without(turns, p)) == Some([]) {
      OwedCount(Without(turns, p));
    }
  }

  // --- going on after a restart -------------------------------------------------------------------------------------

  /** The calls that saw no more than the first `n` turns. */
  function CallsWithin(calls: seq<Call>, n: nat): (r: seq<Call>)
    ensures r <= calls
  {
    if calls == [] || calls[|calls| - 1].turnCount <= n then calls else CallsWithin(calls[..|calls| - 1], n)
  }

  lemma {:induction false} WithinSorted(calls: seq<Call>, n: nat)
    requires forall i, j | 0 <= i < j < |calls| :: calls[i].turnCount <= calls[j].turnCount
    ensures forall i | 0 <= i < |calls| :: i < |CallsWithin(calls, n)| <==> calls[i].turnCount <= n
    decreases |calls|
  {
    if calls != [] {
      var last := |calls| - 1;
      if calls[last].turnCount > n {
        WithinSorted(calls[..last], n);
        assert forall i | 0 <= i < last :: calls[..last][i] == calls[i];
      }
    }
  }

  lemma WithinAre(cfg: Config, turns: seq<Turn>, calls: seq<Call>, n: nat)
    requires AllCallsOk(cfg, turns, calls)
    ensures forall i | 0 <= i < |calls| :: i < |CallsWithin(calls, n)| <==> calls[i].turnCount <= n
  {
    hide CallOk, CallsWithin;
    WithinSorted(calls, n);
  }

  /** The session taken up again: the turns that were read back, and the calls before that saw no others. */
  function Again(cfg: Config, read: seq<Turn>, calls: seq<Call>): Config {
    cfg.(found := read, before := CallsWithin(calls, |read|))
  }

  /** What a call sent over the first turns it would send over them alone. */
  lemma CallOnFront(cfg: Config, again: Config, turns: seq<Turn>, n: nat, c: Call)
    requires CallOk(cfg, turns, c) && c.turnCount <= n <= |turns|
    requires again == cfg.(found := again.found, before := again.before)
    ensures CallOk(again, turns[..n], c)
  {
    var front := turns[..n];
    assert front[..c.turnCount] == turns[..c.turnCount];
    assert front[..c.turnCount - 1] == turns[..c.turnCount - 1];
    assert Sent(again, turns[..c.turnCount], c.entry, c.wrapup) == Sent(cfg, turns[..c.turnCount], c.entry, c.wrapup);
    var p, q := StoredParts(turns), StoredParts(front);
    assert forall k | 0 <= k < n :: q[k] == p[k];
    forall k | c.turnCount <= k < |q| && q[k].role == User && Results(q[k].content) != []
      ensures AssistantIn(q, c.turnCount, k)
    {
      assert AssistantIn(p, c.turnCount, k);
      var j :| c.turnCount <= j < k && p[j].role == Assistant;
      assert q[j].role == Assistant;
    }
  }

  lemma CallsOnFront(cfg: Config, turns: seq<Turn>, calls: seq<Call>, n: nat)
    requires n <= |turns| && TurnsOk(turns) && AllCallsOk(cfg, turns, calls)
    ensures Resumed(Again(cfg, turns[..n], calls))
  {
    var again := Again(cfg, turns[..n], calls);
    FrontOk(turns, n);
    WithinAre(cfg, turns, calls, n);
    forall i | 0 <= i < |again.before|
      ensures again.before[i] == calls[i] && CallOk(again, turns[..n], again.before[i])
    {
      assert CallOk(cfg, turns, calls[i]);
      CallOnFront(cfg, again, turns, n, calls[i]);
    }
  }

  /**
   A session whose rows were neither refused nor failed goes on after a restart as a run from what was read: a front of
   its turns, and exactly the calls that saw no more than them.
   */
  lemma RestartResumes(s: P.Store, writes: seq<P.Action>, t: P.ThreadId, read: seq<Turn>, cfg: Config,
                       acts: seq<Action>)
    requires Resumed(cfg) && P.Started(s) && t in P.Exec(s, writes).memory
    requires P.Exec(s, writes).memory[t] == Exec(cfg, acts).turns && R.Selected(P.Exec(s, writes).rows, t, read)
    requires P.Exec(s, writes).rejected + P.Exec(s, writes).failed == 0
    ensures var r, was := R.Rehydrated(read), Exec(cfg, acts);
            && r <= was.turns && Resumed(Again(cfg, r, was.calls))
            && (forall i | 0 <= i < |was.calls| ::
                  i < |CallsWithin(was.calls, |r|)| <==> was.calls[i].turnCount <= |r|)
  {
    var r, was := R.Rehydrated(read), Exec(cfg, acts);
    R.RestartReadsPrefix(s, writes, t, read);
    CallsInvAlways(cfg, acts);
    TurnInvAlways(cfg, acts);
    hide Exec, P.Exec, R.Rehydrated, R.Selected, AllCallsOk, Resumed, TurnsOk, Again, CallsWithin;
    FrontOf(r, R.TurnsOf(R.Outstanding(P.Exec(s, writes)), t), was.turns);
    CallsOnFront(cfg, was.turns, was.calls, |r|);
    WithinAre(cfg, was.turns, was.calls, |r|);
  }

  lemma {:induction false} CallsOnlyGrow(cfg: Config, acts: seq<Action>)
    ensures cfg.before <= Exec(cfg, acts).calls
    decreases |acts|
  {
    if acts != [] {
      CallsOnlyGrow(cfg, acts[..|acts| - 1]);
      CallsGrowStep(cfg, Exec(cfg, acts[..|acts| - 1]), acts[|acts| - 1]);
    }
  }

  lemma CallsGrowStep(cfg: Config, s: State, a: Action)
    ensures s.calls <= Next(cfg, s, a).calls
  {
    hide Sent, Canonical, Dispatch;
  }

  /**
   The prompt cache outlives the process: what the first call for a message sent before the restart is a prefix of
   what every call after it sends, provided the turns it saw were read back; so is what any call sent, without
   curation, or while no newer user text is seen.
   */
  lemma PrefixSurvivesRestart(s: P.Store, writes: seq<P.Action>, t: P.ThreadId, read: seq<Turn>, cfg: Config,
                              acts: seq<Action>, later: seq<Action>, i: nat, j: nat)
    requires Resumed(cfg) && P.Started(s) && t in P.Exec(s, writes).memory
    requires P.Exec(s, writes).memory[t] == Exec(cfg, acts).turns && R.Selected(P.Exec(s, writes).rows, t, read)
    requires P.Exec(s, writes).rejected + P.Exec(s, writes).failed == 0
    requires i < |Exec(cfg, acts).calls| && Exec(cfg, acts).calls[i].turnCount <= |read|
    requires var again := Again(cfg, R.Rehydrated(read), Exec(cfg, acts).calls);
             |again.before| <= j < |Exec(again, later).calls|
    requires var again := Again(cfg, R.Rehydrated(read), Exec(cfg, acts).calls);
             var c, d, turns := Exec(cfg, acts).calls[i], Exec(again, later).calls[j], Exec(again, later).turns;
             || !cfg.curating || c.first
             || (c.turnCount <= d.turnCount <= |turns| && SameMessage(turns, c.turnCount, d.turnCount))
    ensures var again := Again(cfg, R.Rehydrated(read), Exec(cfg, acts).calls);
            Wired(Exec(cfg, acts).calls[i]) <= Wired(Exec(again, later).calls[j])
  {
    var again := Again(cfg, R.Rehydrated(read), Exec(cfg, acts).calls);
    RestartResumes(s, writes, t, read, cfg, acts);
    CallsOnlyGrow(again, later);
    hide Exec, P.Exec, R.Selected, Resumed, Wired, SameMessage, CallsWithin;
    assert i < |again.before| && again.before[i] == Exec(cfg, acts).calls[i];
    SentStaysPrefix(again, later, i, j);
  }
}
