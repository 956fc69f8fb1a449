/**
 Runs of the store: writes counted as dropped although nothing is lost, and sessions that a restart breaks, with a
 result still queued or with one row lost (backend/app/agent/store.py).
 */
module StoreExamples {
  import opened Json
  import opened Transcript
  import opened Curation
  import opened Conversation
  import opened TurnInvariants
  import opened RunTurns
  import opened LegalWire
  import opened LegalRuns
  import opened Restarts
  import opened RunExamples
  import P = Persistence
  import Q = PersistenceProofs
  import R = Rehydration

  // --- the writer ---------------------------------------------------------------------------------------------------

  /** A process with an empty database. */
  function NewStore(queueMax: nat): P.Store {
    P.Store(map[], [], queueMax, P.Waiting, [], 0, map[], [], [], 0, 0, 0, None)
  }

  lemma WritesOneMore(s: P.Store, acts: seq<P.Action>, a: P.Action)
    ensures P.Exec(s, acts + [a]) == P.Next(P.Exec(s, acts), a)
  {
    assert (acts + [a])[..|acts|] == acts;
  }

  function Works(jobs: seq<P.Job>): (r: seq<P.Item>)
    ensures |r| == |jobs|
  {
    seq(|jobs|, i requires 0 <= i < |jobs| => P.Work(jobs[i]))
  }

  lemma {:induction false} JobsOfWorks(jobs: seq<P.Job>)
    ensures P.JobsOf(Works(jobs)) == jobs
  {
    if jobs != [] {
      JobsOfWorks(jobs[1..]);
      assert Works(jobs)[1..] == Works(jobs[1..]);
    }
  }

  /** The writer wakes up, takes a queue of jobs alone, and gets its connection. */
  lemma TakeAll(e: P.Store, jobs: seq<P.Job>)
    requires e.writer.Waiting? && e.queue == Works(jobs) && 0 < |jobs| <= P.BATCH_MAX
    ensures P.Next(P.Next(e, P.Take), P.Acquire(true))
            == e.(queue := [], batch := jobs, writer := P.Writing(false, |jobs|))
  {
    JobsOfWorks(jobs);
    assert e.queue[..P.TakeSize(e)] == e.queue && e.queue[P.TakeSize(e)..] == [];
    hide P.JobsOf;
    assert P.Next(e, P.Take) == e.(queue := [], batch := jobs, writer := P.Acquiring(false));
  }

  lemma FirstWrite(s: P.Store, a: P.Action)
    ensures P.Exec(s, [a]) == P.Next(s, a)
  {
    assert [a][..0] == [];
  }

  /** `dropped_writes` counts a batch that was written completely, when its connection cannot be released. */
  lemma DroppedWithoutLoss(queueMax: nat)
    requires queueMax > 0
    ensures var e := P.Exec(NewStore(queueMax),
                            [P.Enqueue(0)] + [P.Take] + [P.Acquire(true)] + [P.Write(true, true)] + [P.Release(false)]);
            && P.Started(NewStore(queueMax)) && e.attempted == e.accepted == [P.OtherJob(0)]
            && e.rejected + e.failed == 0 && e.dropped == 1
  {
    var s, one, job := NewStore(queueMax), [P.Enqueue(0)], P.OtherJob(0);
    FirstWrite(s, P.Enqueue(0));
    WritesOneMore(s, one, P.Take);
    WritesOneMore(s, one + [P.Take], P.Acquire(true));
    WritesOneMore(s, one + [P.Take] + [P.Acquire(true)], P.Write(true, true));
    WritesOneMore(s, one + [P.Take] + [P.Acquire(true)] + [P.Write(true, true)], P.Release(false));
    TakeAll(s.(queue := Works([job]), accepted := [job]), [job]);
    assert P.Next(s, P.Enqueue(0)) == s.(queue := Works([job]), accepted := [job]);
    hide P.Exec, P.JobsOf, P.TakeStep;
  }

  // --- restarts in a broken state -----------------------------------------------------------------------------------

  function JobsFor(turns: seq<Turn>): seq<P.Job> {
    [P.OtherJob(0)] + seq(|turns|, i requires 0 <= i < |turns| => P.TurnJob(0, turns[i]))
  }

  /** The writer has not begun: a new thread and these turns are queued. */
  function Fed(queueMax: nat, turns: seq<Turn>): P.Store {
    NewStore(queueMax).(memory := map[0 := turns], queue := Works(JobsFor(turns)), accepted := JobsFor(turns))
  }

  lemma Feed(queueMax: nat, turns: seq<Turn>, role: Role, kind: Kind, content: seq<Block>, meta: Dict)
    requires |turns| + 1 < queueMax && WellFormedDict(meta) && forall b | b in content :: WellFormedDict(b)
    ensures P.Next(Fed(queueMax, turns), P.AppendTurn(0, role, kind, content, meta))
            == Fed(queueMax, Appended(turns, role, kind, content, meta))
  {
    hide CanonicalBlocks, CanonicalDict, WellFormedDict;
    var more := Appended(turns, role, kind, content, meta);
    var job := P.TurnJob(0, more[|turns|]);
    assert JobsFor(more) == JobsFor(turns) + [job];
    assert Works(JobsFor(more)) == Works(JobsFor(turns)) + [P.Work(job)];
    assert map[0 := turns][0 := more] == map[0 := more];
  }

  /** The message and the reply of a first round. */
  function Asked(text: string): seq<Turn> {
    Appended(Appended([], User, UserText, [TextBlock(text)], []),
             Assistant, AssistantToolUse, [Use(0)], [("stop_reason", Str("tool_use"))])
  }

  /** `get_thread` and the two appends. */
  function AskedActs(text: string): seq<P.Action> {
    [P.NewThread(0)] + [P.AppendTurn(0, User, UserText, [TextBlock(text)], [])]
    + [P.AppendTurn(0, Assistant, AssistantToolUse, [Use(0)], [("stop_reason", Str("tool_use"))])]
  }

  function ResultAct(cfg: Config): P.Action {
    P.AppendTurn(0, User, ToolResult, [ResultBlock(Get(Use(0), "id"), Answer(cfg).content, true)],
                 ResultMeta(Use(0), Answer(cfg)))
  }

  lemma UseFields(n: nat)
    ensures WellFormedDict(Use(n)) && Get(Use(n), "id").Str? && Get(Use(n), "name").Str?
  {
    var use := Use(n);
    ExampleUse(use, seq(n + 1, _ => 't'));
    assert use in [use];
    NameOfUse(n);
    assert use[1..][0] == use[1];
    assert Get(use, "id") == Get(use[1..], "id");
  }

  lemma TwoFields(a: (string, Json), b: (string, Json))
    requires a.0 != b.0 && WellFormed(a.1) && WellFormed(b.1)
    ensures WellFormedDict([a, b]) && WellFormedDict([a])
  {
  }

  lemma PartsWellFormed(cfg: Config, text: string)
    ensures WellFormedDict(TextBlock(text)) && WellFormedDict(Use(0)) && WellFormedDict([])
    ensures WellFormedDict([("stop_reason", Str("tool_use"))]) && WellFormedDict(ResultMeta(Use(0), Answer(cfg)))
    ensures WellFormedDict(ResultBlock(Get(Use(0), "id"), Answer(cfg).content, true))
  {
    TextBlockOk(text);
    UseFields(0);
    hide Use, Get;
    ResultBlockOk(Get(Use(0), "id"), Answer(cfg).content, true);
    hide WellFormedDict, ResultBlock, TextBlock;
    var name, error := ("tool_name", Get(Use(0), "name")), ("is_error", Bool(Answer(cfg).isError));
    assert name.0[0] != error.0[0];
    TwoFields(name, error);
    TwoFields(("stop_reason", Str("tool_use")), error);
    EmptyWellFormed();
  }

  lemma EmptyWellFormed()
    ensures WellFormedDict([])
  {
  }

  lemma AskedFed(queueMax: nat, cfg: Config, text: string)
    requires queueMax > 3
    ensures P.Exec(NewStore(queueMax), AskedActs(text)) == Fed(queueMax, Asked(text))
    ensures P.Exec(NewStore(queueMax), AskedActs(text) + [ResultAct(cfg)]) == Fed(queueMax, RoundTurns(cfg, text))
  {
    PartsWellFormed(cfg, text);
    hide WellFormedDict, Use, ResultBlock, TextBlock, ResultMeta, Answer, CanonicalBlocks, CanonicalDict, P.Exec;
    var s, n := NewStore(queueMax), [P.NewThread(0)];
    var a, b := P.AppendTurn(0, User, UserText, [TextBlock(text)], []),
                P.AppendTurn(0, Assistant, AssistantToolUse, [Use(0)], [("stop_reason", Str("tool_use"))]);
    FirstWrite(s, P.NewThread(0));
    assert P.Next(s, P.NewThread(0)) == Fed(queueMax, []);
    WritesOneMore(s, n, a);
    Feed(queueMax, [], User, UserText, [TextBlock(text)], []);
    WritesOneMore(s, n + [a], b);
    Feed(queueMax, Asked(text)[..1], Assistant, AssistantToolUse, [Use(0)], [("stop_reason", Str("tool_use"))]);
    WritesOneMore(s, n + [a] + [b], ResultAct(cfg));
    Feed(queueMax, Asked(text), User, ToolResult, [ResultBlock(Get(Use(0), "id"), Answer(cfg).content, true)],
         ResultMeta(Use(0), Answer(cfg)));
  }

  /** The writer takes what is queued, and these of its jobs get through. */
  function Drained(acts: seq<P.Action>, oks: seq<bool>): seq<P.Action> {
    Writes(acts + [P.Take] + [P.Acquire(true)], oks) + [P.Release(true)]
  }

  function Writes(acts: seq<P.Action>, oks: seq<bool>): seq<P.Action> {
    if oks == [] then acts
    else Writes(acts, oks[..|oks| - 1]) + [P.Write(oks[|oks| - 1], oks[|oks| - 1])]
  }

  /** The rows of a batch, without the jobs that did not get through. */
  function RowsOf(jobs: seq<P.Job>, oks: seq<bool>): map<(P.ThreadId, nat), Turn>
    requires |jobs| == |oks|
  {
    if jobs == [] then map[]
    else
      var n := |jobs| - 1;
      if oks[n] then P.Insert(RowsOf(jobs[..n], oks[..n]), jobs[n]) else RowsOf(jobs[..n], oks[..n])
  }

  /** A store in the middle of such a batch, and behind it. */
  ghost predicate Writing(e: P.Store, f: P.Store, jobs: seq<P.Job>, oks: seq<bool>)
    requires |oks| <= |jobs|
  {
    && f.writer == P.Writing(false, |jobs|) && f.batch == jobs[|oks|..] && f.queue == []
    && f.rows == RowsOf(jobs[..|oks|], oks) && f.memory == e.memory && f.queueMax == e.queueMax
    && f.rejected == e.rejected && f.failed == multiset(oks)[false]
  }

  lemma WriteStep(e: P.Store, f: P.Store, jobs: seq<P.Job>, oks: seq<bool>, ok: bool)
    requires |oks| < |jobs| && Writing(e, f, jobs, oks)
    ensures Writing(e, P.Next(f, P.Write(ok, ok)), jobs, oks + [ok])
  {
    hide P.TakeStep, P.NewTurn, P.Insert, P.JobsOf;
    var n := |oks|;
    assert jobs[..n + 1][..n] == jobs[..n] && (oks + [ok])[..n] == oks;
    assert jobs[n..][1..] == jobs[n + 1..] && jobs[n..][0] == jobs[n];
    assert multiset(oks + [ok]) == multiset(oks) + multiset{ok};
  }

  lemma {:induction false} WritesRun(s: P.Store, acts: seq<P.Action>, e: P.Store, jobs: seq<P.Job>, oks: seq<bool>)
    requires |oks| <= |jobs| && Writing(e, P.Exec(s, acts), jobs, [])
    ensures Writing(e, P.Exec(s, Writes(acts, oks)), jobs, oks)
    decreases |oks|
  {
    hide P.Exec, P.Next, Writing;
    if oks != [] {
      var n := |oks| - 1;
      var ok := oks[n];
      WritesRun(s, acts, e, jobs, oks[..n]);
      WritesOneMore(s, Writes(acts, oks[..n]), P.Write(ok, ok));
      WriteStep(e, P.Exec(s, Writes(acts, oks[..n])), jobs, oks[..n], ok);
      assert oks == oks[..n] + [ok];
    }
  }

  lemma Begun(e: P.Store, jobs: seq<P.Job>)
    requires e.writer.Waiting? && e.queue == Works(jobs) && 0 < |jobs| <= P.BATCH_MAX
    requires e.rows == map[] && e.failed == 0
    ensures Writing(e, P.Next(P.Next(e, P.Take), P.Acquire(true)), jobs, [])
  {
    TakeAll(e, jobs);
    hide P.Next, Works;
    assert jobs[0..] == jobs && jobs[..0] == [];
  }

  lemma Released(e: P.Store, f: P.Store, jobs: seq<P.Job>, oks: seq<bool>)
    requires |oks| == |jobs| && Writing(e, f, jobs, oks)
    ensures var g := P.Next(f, P.Release(true));
            g == f.(writer := P.Waiting) && f.batch == [] && f.rows == RowsOf(jobs, oks)
  {
    hide P.TakeStep, P.NewTurn, RowsOf;
    assert jobs[..|jobs|] == jobs;
  }

  lemma DrainedRun(s: P.Store, acts: seq<P.Action>, jobs: seq<P.Job>, oks: seq<bool>)
    requires 0 < |oks| == |jobs| <= P.BATCH_MAX
    requires var e := P.Exec(s, acts);
             e.writer.Waiting? && e.queue == Works(jobs) && e.rows == map[] && e.failed == 0
    ensures var e, f := P.Exec(s, acts), P.Exec(s, Drained(acts, oks));
            && f.writer.Waiting? && f.batch == [] && f.queue == [] && f.rows == RowsOf(jobs, oks)
            && f.memory == e.memory
            && f.queueMax == e.queueMax && f.rejected == e.rejected && f.failed == multiset(oks)[false]
  {
    hide P.Exec, P.Next, Works, Writes, RowsOf;
    var e, taken := P.Exec(s, acts), acts + [P.Take] + [P.Acquire(true)];
    WritesOneMore(s, acts, P.Take);
    WritesOneMore(s, acts + [P.Take], P.Acquire(true));
    Begun(e, jobs);
    WritesRun(s, taken, e, jobs, oks);
    Released(e, P.Exec(s, Writes(taken, oks)), jobs, oks);
    WritesOneMore(s, Writes(taken, oks), P.Release(true));
  }

  /** The database holds exactly the rows of the turns that were written. */
  ghost predicate RowsFor(turns: seq<Turn>, written: seq<bool>, rows: map<(P.ThreadId, nat), Turn>)
    requires |written| == |turns|
  {
    && (forall i | 0 <= i < |turns| && written[i] :: (0, turns[i].no) in rows && rows[(0, turns[i].no)] == turns[i])
    && (forall k | k in rows :: k.0 == 0 && exists i :: 0 <= i < |turns| && written[i] && turns[i].no == k.1)
  }

  lemma {:induction false} RowsForTurns(turns: seq<Turn>, written: seq<bool>)
    requires |written| == |turns| && Ascending(turns)
    ensures RowsFor(turns, written, RowsOf(JobsFor(turns), [true] + written))
    decreases |turns|
  {
    var jobs, oks := JobsFor(turns), [true] + written;
    if turns == [] {
      assert jobs == [P.OtherJob(0)] && jobs[..0] == [] && oks[..0] == [];
    } else {
      var n := |turns| - 1;
      RowsForTurns(turns[..n], written[..n]);
      assert jobs[..n + 1] == JobsFor(turns[..n]) && oks[..n + 1] == [true] + written[..n];
      assert jobs[n + 1] == P.TurnJob(0, turns[n]) && oks[n + 1] == written[n];
      OneRow(turns, written, RowsOf(JobsFor(turns[..n]), [true] + written[..n]), RowsOf(jobs, oks));
    }
  }

  lemma OneRow(turns: seq<Turn>, written: seq<bool>, before: map<(P.ThreadId, nat), Turn>,
               after: map<(P.ThreadId, nat), Turn>)
    requires |written| == |turns| > 0 && Ascending(turns)
    requires RowsFor(turns[..|turns| - 1], written[..|turns| - 1], before)
    requires var n := |turns| - 1;
             after == if written[n] then P.Insert(before, P.TurnJob(0, turns[n])) else before
    ensures RowsFor(turns, written, after)
  {
    var n := |turns| - 1;
    assert (0, turns[n].no) !in before;
    forall k | k in after ensures k.0 == 0 && exists i :: 0 <= i < |turns| && written[i] && turns[i].no == k.1 {
      if k in before {
        var i :| 0 <= i < n && written[..n][i] && turns[..n][i].no == k.1;
        assert written[i] && turns[i].no == k.1;
      } else {
        assert written[n] && turns[n].no == k.1;
      }
    }
    forall i | 0 <= i < |turns| && written[i]
      ensures (0, turns[i].no) in after && after[(0, turns[i].no)] == turns[i]
    {
      if i < n {
        assert written[..n][i] && turns[..n][i] == turns[i];
      }
    }
  }

  lemma SameAsItself(x: Turn)
    requires P.StoredOk(x)
    ensures R.SameRow(x, x) && x.(content := CanonicalBlocks(x.content), meta := CanonicalDict(x.meta)) == x
  {
    ItselfSame(x);
    R.RowRead(x, x);
  }

  lemma ItselfSame(x: Turn)
    requires P.StoredOk(x)
    ensures R.SameRow(x, x)
  {
    CanonicalKeepsData(Obj(x.meta));
    forall i | 0 <= i < |x.content| ensures R.SameDict(x.content[i], x.content[i]) {
      assert x.content[i] in x.content;
      CanonicalKeepsData(Obj(x.content[i]));
    }
  }

  ghost predicate AllBut(turns: seq<Turn>, p: nat, rows: map<(P.ThreadId, nat), Turn>)
    requires p < |turns|
  {
    && (forall j | 0 <= j < |turns| && j != p :: (0, turns[j].no) in rows && rows[(0, turns[j].no)] == turns[j])
    && (forall k | k in rows :: k.0 == 0 && exists j :: 0 <= j < |turns| && j != p && turns[j].no == k.1)
  }

  lemma WithoutAt(turns: seq<Turn>, p: nat, i: nat)
    requires p < |turns| && i < |turns| - 1
    ensures Without(turns, p)[i] == turns[if i < p then i else i + 1]
  {
  }

  lemma WithoutAscends(turns: seq<Turn>, p: nat)
    requires p < |turns| && Ascending(turns)
    ensures Ascending(Without(turns, p))
  {
  }

  lemma KeptRead(turns: seq<Turn>, p: nat, rows: map<(P.ThreadId, nat), Turn>, i: nat)
    requires p < |turns| && i < |turns| - 1 && AllBut(turns, p, rows) && P.ThreadOk(turns)
    ensures var x := Without(turns, p)[i];
            && (0, x.no) in rows && R.SameRow(rows[(0, x.no)], x)
            && x.(content := CanonicalBlocks(x.content), meta := CanonicalDict(x.meta)) == x
  {
    WithoutAt(turns, p, i);
    hide R.SameRow, P.StoredOk, CanonicalBlocks, CanonicalDict, Without;
    var j := if i < p then i else i + 1;
    assert j != p && P.StoredOk(turns[j]);
    SameAsItself(turns[j]);
  }

  lemma RowKept(turns: seq<Turn>, p: nat, rows: map<(P.ThreadId, nat), Turn>, k: (P.ThreadId, nat))
    requires p < |turns| && AllBut(turns, p, rows) && k in rows
    ensures exists i :: 0 <= i < |Without(turns, p)| && Without(turns, p)[i].no == k.1
  {
    var j :| 0 <= j < |turns| && j != p && turns[j].no == k.1;
    var i := if j < p then j else j - 1;
    WithoutAt(turns, p, i);
    assert Without(turns, p)[i].no == k.1;
  }

  lemma WithoutRehydrated(turns: seq<Turn>, p: nat, rows: map<(P.ThreadId, nat), Turn>)
    requires p < |turns| && AllBut(turns, p, rows) && P.ThreadOk(turns)
    ensures R.Rehydrated(Without(turns, p)) == Without(turns, p)
  {
    var kept := Without(turns, p);
    hide R.SameRow, CanonicalBlocks, CanonicalDict, AllBut, Without, P.ThreadOk;
    forall i | 0 <= i < |kept| ensures R.Rehydrated(kept)[i] == kept[i] {
      KeptRead(turns, p, rows, i);
    }
  }

  lemma WithoutSelected(turns: seq<Turn>, p: nat, rows: map<(P.ThreadId, nat), Turn>)
    requires p < |turns| && AllBut(turns, p, rows) && P.ThreadOk(turns)
    ensures R.Selected(rows, 0, Without(turns, p))
  {
    var kept := Without(turns, p);
    WithoutAscends(turns, p);
    hide R.SameRow, CanonicalBlocks, CanonicalDict, AllBut, Without, Ascending, P.ThreadOk;
    forall i | 0 <= i < |kept| ensures (0, kept[i].no) in rows && R.SameRow(rows[(0, kept[i].no)], kept[i]) {
      KeptRead(turns, p, rows, i);
    }
    forall k | k in rows ensures exists i :: 0 <= i < |kept| && kept[i].no == k.1 {
      RowKept(turns, p, rows, k);
    }
  }

  /** What a restart reads when the rows of all turns but one are in the database. */
  lemma AllButOneRead(turns: seq<Turn>, p: nat, rows: map<(P.ThreadId, nat), Turn>)
    requires p < |turns| && AllBut(turns, p, rows) && P.ThreadOk(turns)
    ensures R.Selected(rows, 0, Without(turns, p)) && R.Rehydrated(Without(turns, p)) == Without(turns, p)
  {
    hide R.Selected, R.Rehydrated, AllBut, Without, P.ThreadOk;
    WithoutSelected(turns, p, rows);
    WithoutRehydrated(turns, p, rows);
  }

  /** The three turns of a first round. */
  function RoundTurns(cfg: Config, text: string): seq<Turn> {
    AfterRound(cfg, Appended([], User, UserText, [TextBlock(text)], []), 0)
  }

  lemma RoundTurnsAre(cfg: Config, text: string)
    ensures |RoundTurns(cfg, text)| == 3 && Ascending(RoundTurns(cfg, text))
    ensures |Asked(text)| == 2 && Ascending(Asked(text))
    ensures RoundTurns(cfg, text)[..2] == Asked(text)
  {
    hide CanonicalBlocks, CanonicalDict, Use, Answer, TextBlock, ResultBlock, ResultMeta;
  }

  lemma RoundTurnsEnd(cfg: Config, text: string)
    ensures RoundTurns(cfg, text)
            == Appended(Asked(text), User, ToolResult, [ResultBlock(Get(Use(0), "id"), Answer(cfg).content, true)],
                        ResultMeta(Use(0), Answer(cfg)))
  {
    hide CanonicalBlocks, CanonicalDict, Use, Answer, TextBlock, ResultBlock, ResultMeta;
  }

  lemma RoundIds(cfg: Config, text: string)
    ensures UseIds(CanonicalBlocks([Use(0)])) != []
    ensures ResultIds(CanonicalBlocks([ResultBlock(Get(Use(0), "id"), Answer(cfg).content, true)])) != []
  {
    UseFields(0);
    ExampleUse(Use(0), seq(1, _ => 't'));
    hide Use, ResultBlock, Get, WellFormedDict, UseIds, ResultIds, CanonicalBlocks;
    assert Kept([Use(0)]) == [Use(0)];
    ReplyIds([Use(0)], CanonicalBlocks([Use(0)]));
    ResultTurnIds(Get(Use(0), "id"), Answer(cfg).content, true);
    assert |StoredIds([Use(0)])| == 1;
  }

  /** The second turn makes the call, the third answers it. */
  lemma RoundTurnsCall(cfg: Config, text: string, p: nat)
    requires 1 <= p <= 2
    ensures var turns := RoundTurns(cfg, text);
            && |turns| == 3
            && if turns[p].role == Assistant then UseIds(turns[p].content) != [] else ResultIds(turns[p].content) != []
  {
    RoundIds(cfg, text);
    hide CanonicalBlocks, CanonicalDict, Use, Answer, TextBlock, ResultBlock, ResultMeta, UseIds, ResultIds;
  }

  lemma SessionTurns(cfg: Config, text: string)
    requires cfg.found == []
    ensures Exec(cfg, Rounds(text, 1)).phase.Calling? && CleanRun(cfg, Rounds(text, 1))
    ensures Exec(cfg, Rounds(text, 1)).turns == RoundTurns(cfg, text) && TurnsOk(RoundTurns(cfg, text))
  {
    assert TurnsOk(cfg.found);
    OneRoundClean(cfg, text);
    FirstCall(cfg, text);
    FirstRound(cfg, text);
    hide Exec, CleanRun, Appended, AfterRound, TextBlock, Use, Answer, TurnsOk, OneRound;
    NotExpired(cfg, Rounds(text, 0));
    RoundMoves(cfg, Rounds(text, 0), 0);
    TurnInvAlways(cfg, Rounds(text, 1));
    assert Rounds(text, 0) == [Arrive(text)] + [Begin] && Rounds(text, 1) == OneRound(Rounds(text, 0), 0);
  }

  /** Without the row of the call, or of its result, the next request is refused. */
  lemma EitherRowMatters(cfg: Config, text: string, next: string, p: nat)
    requires cfg.found == [] && 1 <= p <= 2
    ensures |RoundTurns(cfg, text)| == 3 && !Legal(Lossless(Asking(Without(RoundTurns(cfg, text), p), next)))
  {
    var turns := RoundTurns(cfg, text);
    assert TurnsOk(cfg.found);
    hide *;
    SessionTurns(cfg, text);
    RoundTurnsCall(cfg, text, p);
    NothingOwed(cfg, Rounds(text, 1));
    WithoutOk(turns, p);
    LostRowRefused(turns, p, next);
  }

  lemma NothingOwed(cfg: Config, acts: seq<Action>)
    requires TurnsOk(cfg.found) && CleanRun(cfg, acts) && Exec(cfg, acts).phase.Calling?
    ensures Owed(Exec(cfg, acts).turns) == Some([])
  {
    hide Owed, Exec, PairedRun;
    DebtsAlways(cfg, acts);
  }

  lemma WithoutOk(turns: seq<Turn>, p: nat)
    requires p < |turns| && TurnsOk(turns)
    ensures TurnsOk(Without(turns, p))
  {
    hide TurnOk;
    forall i | 0 <= i < |turns| - 1 ensures Without(turns, p)[i] == turns[if i < p then i else i + 1] {
      WithoutAt(turns, p, i);
    }
  }

  /** The result is appended while the writer has nothing else to do. */
  lemma ResultQueued(cfg: Config, f: P.Store, held: seq<Turn>)
    requires f.queue == [] && f.batch == [] && 0 < f.queueMax && f.memory == map[0 := held]
    ensures var turns := Appended(held, User, ToolResult, [ResultBlock(Get(Use(0), "id"), Answer(cfg).content, true)],
                                  ResultMeta(Use(0), Answer(cfg)));
            var e := P.Next(f, ResultAct(cfg));
            && e == f.(memory := map[0 := turns], queue := [P.Work(P.TurnJob(0, turns[|held|]))],
                       accepted := f.accepted + [P.TurnJob(0, turns[|held|])])
            && R.Outstanding(e) == [P.TurnJob(0, turns[|held|])]
  {
    PartsWellFormed(cfg, "");
    hide CanonicalBlocks, CanonicalDict, WellFormedDict, Use, ResultBlock, ResultMeta, Answer;
    var turns := Appended(held, User, ToolResult, [ResultBlock(Get(Use(0), "id"), Answer(cfg).content, true)],
                          ResultMeta(Use(0), Answer(cfg)));
    var job := P.TurnJob(0, turns[|held|]);
    assert map[0 := held][0 := turns] == map[0 := turns];
    assert f.queue + [P.Work(job)] == [P.Work(job)] && [P.Work(job)][1..] == [];
    assert P.Enabled(f, ResultAct(cfg));
    assert P.Next(f, ResultAct(cfg)) == P.Put(f.(memory := map[0 := turns]), job);
    assert P.JobsOf([P.Work(job)]) == [job];
    assert R.Outstanding(P.Next(f, ResultAct(cfg))) == [] + [job];
  }

  lemma FedIs(queueMax: nat, turns: seq<Turn>)
    ensures var e, jobs := Fed(queueMax, turns), JobsFor(turns);
            && e.writer.Waiting? && e.queue == Works(jobs) && |jobs| == |turns| + 1 && e.memory == map[0 := turns]
            && e.rows == map[] && e.rejected == e.failed == 0 && e.queueMax == queueMax
  {
  }

  /** Every write gets through. */
  function AllOk(n: nat): (r: seq<bool>)
    ensures |r| == n
  {
    seq(n, _ => true)
  }

  lemma AllOkIs(n: nat)
    ensures [true] + AllOk(n) == AllOk(n + 1) && multiset(AllOk(n))[false] == 0
  {
    assert false !in AllOk(n);
  }

  /** The message and the call are written, and the writer waits. */
  lemma AskedDrained(cfg: Config, text: string, queueMax: nat)
    requires queueMax > 3
    ensures var f := P.Exec(NewStore(queueMax), Drained(AskedActs(text), AllOk(3)));
            && f.queue == [] && f.batch == [] && f.rejected == f.failed == 0 && f.queueMax == queueMax
            && f.memory == map[0 := Asked(text)] && |Asked(text)| == 2 && RowsFor(Asked(text), AllOk(2), f.rows)
  {
    var acts, oks, held := AskedActs(text), AllOk(3), Asked(text);
    assert P.BATCH_MAX == 50;
    hide *;
    AskedFed(queueMax, cfg, text);
    FedIs(queueMax, held);
    RoundTurnsAre(cfg, text);
    RowsForTurns(held, AllOk(2));
    AllOkIs(2);
    AllOkIs(3);
    DrainedRun(NewStore(queueMax), acts, JobsFor(held), oks);
  }

  /** The queued example, on the side of the store. */
  lemma QueuedStore(cfg: Config, text: string, queueMax: nat)
    requires queueMax > 3
    ensures var turns := RoundTurns(cfg, text);
            var e := P.Exec(NewStore(queueMax), Drained(AskedActs(text), AllOk(3)) + [ResultAct(cfg)]);
            && e.rejected + e.failed == 0 && e.memory == map[0 := turns] && |turns| == 3
            && R.Outstanding(e) == [P.TurnJob(0, turns[2])] && RowsFor(turns[..2], AllOk(2), e.rows)
  {
    var s, acts := NewStore(queueMax), Drained(AskedActs(text), AllOk(3));
    hide *;
    AskedDrained(cfg, text, queueMax);
    RoundTurnsAre(cfg, text);
    RoundTurnsEnd(cfg, text);
    WritesOneMore(s, acts, ResultAct(cfg));
    ResultQueued(cfg, P.Exec(s, acts), Asked(text));
  }

  lemma HeldThread(queueMax: nat, acts: seq<P.Action>, turns: seq<Turn>)
    requires P.Exec(NewStore(queueMax), acts).memory == map[0 := turns]
    ensures P.Started(NewStore(queueMax)) && P.ThreadOk(turns)
  {
    assert P.Started(NewStore(queueMax));
    hide P.Exec, P.ThreadOk, NewStore;
    Q.RowsAlways(NewStore(queueMax), acts);
    assert P.Exec(NewStore(queueMax), acts).memory[0] == turns;
  }

  lemma QueuedIsAllButOne(turns: seq<Turn>, rows: map<(P.ThreadId, nat), Turn>)
    requires |turns| == 3 && RowsFor(turns[..2], AllOk(2), rows)
    ensures AllBut(turns, 2, rows) && Without(turns, 2) == turns[..2]
  {
    forall j | 0 <= j < 3 && j != 2
      ensures (0, turns[j].no) in rows && rows[(0, turns[j].no)] == turns[j]
    {
      assert turns[..2][j] == turns[j] && AllOk(2)[j];
    }
    forall k | k in rows ensures k.0 == 0 && exists j :: 0 <= j < |turns| && j != 2 && turns[j].no == k.1 {
      var i :| 0 <= i < 2 && AllOk(2)[i] && turns[..2][i].no == k.1;
      assert turns[i].no == k.1;
    }
  }

  /**
   A restart in the middle of a round, with nothing lost: the call is in the database and its result still in the
   queue, and the next request is refused, although the session could have gone on.
   */
  lemma QueuedResultExample(cfg: Config, text: string, next: string, queueMax: nat)
    requires cfg.found == [] && queueMax > 3
    ensures CleanRun(cfg, Rounds(text, 1)) && P.Started(NewStore(queueMax))
    ensures var turns := Exec(cfg, Rounds(text, 1)).turns;
            var e := P.Exec(NewStore(queueMax), Drained(AskedActs(text), AllOk(3)) + [ResultAct(cfg)]);
            && e.rejected + e.failed == 0 && e.memory == map[0 := turns] && |turns| == 3
            && R.Outstanding(e) == [P.TurnJob(0, turns[2])]
            && R.Selected(e.rows, 0, turns[..2]) && R.Rehydrated(turns[..2]) == turns[..2]
            && !Legal(Lossless(Asking(turns[..2], next)))
  {
    var turns := RoundTurns(cfg, text);
    var s, acts := NewStore(queueMax), Drained(AskedActs(text), AllOk(3)) + [ResultAct(cfg)];
    hide *;
    QueuedStore(cfg, text, queueMax);
    SessionTurns(cfg, text);
    EitherRowMatters(cfg, text, next, 2);
    HeldThread(queueMax, acts, turns);
    QueuedIsAllButOne(turns, P.Exec(s, acts).rows);
    AllButOneRead(turns, 2, P.Exec(s, acts).rows);
  }

  /** What gets through of the three turns when the write of turn `p` fails. */
  function LosingOne(p: nat): seq<bool> {
    [true, p != 0, p != 1, p != 2]
  }

  lemma LostStore(cfg: Config, text: string, queueMax: nat, p: nat)
    requires queueMax > 3 && 1 <= p <= 2
    ensures var turns := RoundTurns(cfg, text);
            var e := P.Exec(NewStore(queueMax), Drained(AskedActs(text) + [ResultAct(cfg)], LosingOne(p)));
            && e.rejected == 0 && e.failed == 1 && e.memory == map[0 := turns] && |turns| == 3
            && R.Outstanding(e) == [] && RowsFor(turns, LosingOne(p)[1..], e.rows)
  {
    var s, acts, oks := NewStore(queueMax), AskedActs(text) + [ResultAct(cfg)], LosingOne(p);
    var turns := RoundTurns(cfg, text);
    assert P.BATCH_MAX == 50;
    LosingOneIs(p);
    hide *;
    AskedFed(queueMax, cfg, text);
    FedIs(queueMax, turns);
    RoundTurnsAre(cfg, text);
    RowsForTurns(turns, oks[1..]);
    DrainedRun(s, acts, JobsFor(turns), oks);
  }

  lemma LosingOneIs(p: nat)
    requires 1 <= p <= 2
    ensures var oks := LosingOne(p); |oks| == 4 && [true] + oks[1..] == oks && multiset(oks)[false] == 1
  {
    if p == 1 {
      assert LosingOne(p) == [true, true, false, true];
    } else {
      assert LosingOne(p) == [true, true, true, false];
    }
  }

  lemma LosingIsAllBut(turns: seq<Turn>, p: nat, rows: map<(P.ThreadId, nat), Turn>)
    requires |turns| == 3 && p < 3 && RowsFor(turns, LosingOne(p)[1..], rows)
    ensures AllBut(turns, p, rows)
  {
    var written := LosingOne(p)[1..];
    assert forall j | 0 <= j < 3 :: written[j] <==> j != p;
    forall k | k in rows ensures k.0 == 0 && exists j :: 0 <= j < |turns| && j != p && turns[j].no == k.1 {
      var i :| 0 <= i < |turns| && written[i] && turns[i].no == k.1;
    }
  }

  /**
   One failed write, of the call or of its result: after a restart the next request is refused, although all that the
   queue held was written and the session could have gone on.
   */
  lemma LostRowExample(cfg: Config, text: string, next: string, queueMax: nat, p: nat)
    requires cfg.found == [] && queueMax > 3 && 1 <= p <= 2
    ensures CleanRun(cfg, Rounds(text, 1)) && P.Started(NewStore(queueMax))
    ensures var turns := Exec(cfg, Rounds(text, 1)).turns;
            var e := P.Exec(NewStore(queueMax), Drained(AskedActs(text) + [ResultAct(cfg)], LosingOne(p)));
            && e.rejected == 0 && e.failed == 1 && R.Outstanding(e) == [] && e.memory == map[0 := turns] && |turns| == 3
            && R.Selected(e.rows, 0, Without(turns, p)) && R.Rehydrated(Without(turns, p)) == Without(turns, p)
            && !Legal(Lossless(Asking(Without(turns, p), next)))
  {
    var turns := RoundTurns(cfg, text);
    var s, acts := NewStore(queueMax), Drained(AskedActs(text) + [ResultAct(cfg)], LosingOne(p));
    hide *;
    LostStore(cfg, text, queueMax, p);
    SessionTurns(cfg, text);
    EitherRowMatters(cfg, text, next, p);
    HeldThread(queueMax, acts, turns);
    LosingIsAllBut(turns, p, P.Exec(s, acts).rows);
    AllButOneRead(turns, p, P.Exec(s, acts).rows);
  }
}
