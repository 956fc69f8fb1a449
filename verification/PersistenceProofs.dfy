/** What every run of the persistence protocol keeps, and what a restart reads back. */
module PersistenceProofs {
  import opened Json
  import opened Transcript
  import opened Curation
  import opened Persistence

  // --- order and counts ---------------------------------------------------------------------------------

  lemma {:induction false} JobsConcat(a: seq<Item>, b: seq<Item>)
    ensures JobsOf(a + b) == JobsOf(a) + JobsOf(b)
  {
    if a == [] {
      assert a + b == b;
    } else {
      assert (a + b)[1..] == a[1..] + b;
      JobsConcat(a[1..], b);
    }
  }

  /** Attempted, in hand, queued: exactly the accepted jobs, in the order they were accepted. */
  predicate Fifo(s: Store) {
    && s.accepted == s.attempted + s.batch + JobsOf(s.queue)
    && (s.writer.Waiting? || s.writer.Stopped? ==> s.batch == [])
  }

  predicate Counts(s: Store) {
    s.dropped == s.rejected + s.failed + s.releaseFailures
  }

  lemma PutFifo(s: Store, job: Job)
    requires Fifo(s) && Counts(s)
    ensures Fifo(Put(s, job)) && Counts(Put(s, job))
  {
    JobsConcat(s.queue, [Work(job)]);
    assert [Work(job)][1..] == [];
  }

  lemma TakeFifo(s: Store)
    requires Fifo(s) && Counts(s) && s.writer.Waiting? && s.queue != []
    ensures Fifo(TakeStep(s)) && Counts(TakeStep(s))
  {
    var n := TakeSize(s);
    assert s.queue == s.queue[..n] + s.queue[n..];
    JobsConcat(s.queue[..n], s.queue[n..]);
  }

  lemma CloseFifo(s: Store)
    requires Fifo(s) && Counts(s) && Enabled(s, Close)
    ensures Fifo(Next(s, Close)) && Counts(Next(s, Close))
  {
    JobsConcat(s.queue, [Shutdown]);
    assert [Shutdown][1..] == [];
  }

  lemma WriteFifo(s: Store, ok: bool, applied: bool)
    requires Fifo(s) && Counts(s) && Enabled(s, Write(ok, applied))
    ensures Fifo(Next(s, Write(ok, applied))) && Counts(Next(s, Write(ok, applied)))
  {
    assert s.batch == [s.batch[0]] + s.batch[1..];
  }

  lemma OrderStep(s: Store, a: Action)
    requires Fifo(s) && Counts(s)
    ensures Fifo(Next(s, a)) && Counts(Next(s, a))
  {
    if Enabled(s, a) {
      match a {
        case NewThread(t) => PutFifo(s.(memory := s.memory[t := []]), OtherJob(t));
        case AppendTurn(t, role, kind, content, meta) =>
          var turn := NewTurn(s.memory[t], role, kind, content, meta);
          PutFifo(s.(memory := s.memory[t := s.memory[t] + [turn]]), TurnJob(t, turn));
        case Enqueue(id) => PutFifo(s, OtherJob(id));
        case Close => CloseFifo(s);
        case Take => TakeFifo(s);
        case Acquire(ok) =>
        case Write(ok, applied) => WriteFifo(s, ok, applied);
        case Release(ok) =>
      }
    }
  }

  /**
   In every reachable state jobs leave in the order they came, and `dropped_writes` is the rejections
   plus the failed writes exactly when no connection failed to be released after its batch.
   */
  lemma {:induction false} WriterSafety(s: Store, acts: seq<Action>)
    requires Started(s)
    ensures Fifo(Exec(s, acts)) && Counts(Exec(s, acts))
    ensures Exec(s, acts).dropped == Exec(s, acts).rejected + Exec(s, acts).failed <==>
            Exec(s, acts).releaseFailures == 0
    decreases |acts|
  {
    if acts != [] {
      WriterSafety(s, acts[..|acts| - 1]);
      OrderStep(Exec(s, acts[..|acts| - 1]), acts[|acts| - 1]);
    }
  }

  /** An action that offers a job to the queue. */
  predicate Offers(s: Store, a: Action) {
    Enabled(s, a) && (a.NewThread? || a.AppendTurn? || a.Enqueue?)
  }

  /** How many jobs a run offered, all of them or those that met a full queue. */
  ghost function Offered(s: Store, acts: seq<Action>, fullOnly: bool): nat {
    if acts == [] then 0
    else
      var init, a := acts[..|acts| - 1], acts[|acts| - 1];
      var t := Exec(s, init);
      Offered(s, init, fullOnly) + if Offers(t, a) && (fullOnly ==> |t.queue| == t.queueMax) then 1 else 0
  }

  lemma {:induction false} FewerJobs(items: seq<Item>)
    ensures |JobsOf(items)| <= |items|
  {
    if items != [] {
      FewerJobs(items[1..]);
    }
  }

  lemma OfferStep(s: Store, a: Action)
    requires |s.queue| <= s.queueMax && |s.batch| <= 50
    ensures var t := Next(s, a);
            && |t.queue| <= t.queueMax == s.queueMax && |t.batch| <= 50
            && t.rejected == s.rejected + (if Offers(s, a) && |s.queue| == s.queueMax then 1 else 0)
            && |t.accepted| + t.rejected == |s.accepted| + s.rejected + (if Offers(s, a) then 1 else 0)
  {
    if a.Take? && Enabled(s, a) {
      FewerJobs(s.queue[..TakeSize(s)]);
    }
    hide CanonicalDict, CanonicalBlocks, WellFormedDict;
  }

  /**
   No write is refused but by a full queue: the jobs of a run are the accepted ones and the refused ones, the refused
   are exactly those that met `queueMax` items, the queue holds no more than that, and a batch no more than 50 jobs.
   */
  lemma {:induction false} RefusedIffFull(s: Store, acts: seq<Action>)
    requires Started(s)
    ensures var t := Exec(s, acts);
            && |t.queue| <= t.queueMax == s.queueMax && |t.batch| <= 50
            && t.rejected == Offered(s, acts, true) && |t.accepted| + t.rejected == Offered(s, acts, false)
    decreases |acts|
  {
    if acts == [] {
      hide MemoryOk, RowsMatch;
    } else {
      RefusedIffFull(s, acts[..|acts| - 1]);
      hide Next, Offers, Started;
      OfferStep(Exec(s, acts[..|acts| - 1]), acts[|acts| - 1]);
    }
  }

  // --- shutdown -----------------------------------------------------------------------------------------------

  /** Jobs in front of the sentinel. */
  function Ahead(items: seq<Item>): nat {
    if items == [] || items[0].Shutdown? then 0 else 1 + Ahead(items[1..])
  }

  predicate Stopping(w: Writer) {
    w.Stopped? || ((w.Acquiring? || w.Writing?) && w.stop)
  }

  /** Until the sentinel is taken the jobs ahead of it are still to do; once it is, they are in hand or done. */
  predicate CloseInv(s: Store) {
    match s.closedAt
    case None => Shutdown !in s.queue && !Stopping(s.writer)
    case Some(n) =>
      if Shutdown in s.queue then !Stopping(s.writer) && |s.attempted| + |s.batch| + Ahead(s.queue) == n
      else Stopping(s.writer) && |s.attempted| + |s.batch| >= n
  }

  lemma {:induction false} AheadAppend(items: seq<Item>, job: Job)
    ensures Ahead(items + [Work(job)]) == if Shutdown in items then Ahead(items) else Ahead(items) + 1
    ensures Shutdown !in items ==> Ahead(items + [Shutdown]) == Ahead(items) == |JobsOf(items)|
    ensures Shutdown in items + [Work(job)] <==> Shutdown in items
  {
    if items == [] {
      assert items + [Work(job)] == [Work(job)] && [Work(job)][1..] == [];
      assert items + [Shutdown] == [Shutdown];
    } else {
      assert (items + [Work(job)])[1..] == items[1..] + [Work(job)];
      assert (items + [Shutdown])[1..] == items[1..] + [Shutdown];
      assert items == [items[0]] + items[1..];
      AheadAppend(items[1..], job);
    }
  }

  lemma AheadCons(first: Item, rest: seq<Item>)
    ensures Ahead([first] + rest) == if first.Shutdown? then 0 else 1 + Ahead(rest)
    ensures JobsOf([first] + rest) == (if first.Work? then [first.job] else []) + JobsOf(rest)
    ensures Shutdown in [first] + rest <==> first.Shutdown? || Shutdown in rest
  {
    assert ([first] + rest)[1..] == rest;
  }

  lemma RestOneSentinel(items: seq<Item>)
    requires items != [] && OneSentinel(items)
    ensures OneSentinel(items[1..]) && (items[0].Shutdown? ==> Shutdown !in items[1..])
  {
    assert forall i | 0 <= i < |items| - 1 :: items[1..][i] == items[i + 1];
  }

  /** Taking the first `n` items either takes the sentinel and all jobs ahead of it, or only such jobs. */
  lemma {:induction false} AheadTake(items: seq<Item>, n: nat)
    requires n <= |items| && Shutdown in items && OneSentinel(items)
    ensures if Shutdown in items[..n] then Shutdown !in items[n..] && |JobsOf(items[..n])| >= Ahead(items)
            else Shutdown in items[n..] && |JobsOf(items[..n])| + Ahead(items[n..]) == Ahead(items)
  {
    if n > 0 {
      var first, rest := items[0], items[1..];
      assert items == [first] + rest;
      assert items[..n] == [first] + rest[..n - 1] && items[n..] == rest[n - 1..];
      AheadCons(first, rest);
      AheadCons(first, rest[..n - 1]);
      RestOneSentinel(items);
      hide Ahead, JobsOf, OneSentinel;
      if first.Shutdown? {
        assert rest == rest[..n - 1] + rest[n - 1..];
      } else {
        AheadTake(rest, n - 1);
      }
    } else {
      assert items[n..] == items;
    }
  }

  predicate OneSentinel(items: seq<Item>) {
    forall i, j | 0 <= i < j < |items| :: !(items[i].Shutdown? && items[j].Shutdown?)
  }

  predicate Closing(s: Store) {
    CloseInv(s) && OneSentinel(s.queue)
  }

  lemma PutClosing(s: Store, job: Job)
    requires Closing(s)
    ensures Closing(Put(s, job))
  {
    AheadAppend(s.queue, job);
  }

  lemma ClosingStep(s: Store, a: Action)
    requires Closing(s) && Fifo(s)
    ensures Closing(Next(s, a))
  {
    if Enabled(s, a) {
      match a {
        case NewThread(t) => PutClosing(s.(memory := s.memory[t := []]), OtherJob(t));
        case AppendTurn(t, role, kind, content, meta) =>
          var turn := NewTurn(s.memory[t], role, kind, content, meta);
          PutClosing(s.(memory := s.memory[t := s.memory[t] + [turn]]), TurnJob(t, turn));
        case Enqueue(id) => PutClosing(s, OtherJob(id));
        case Close => AheadAppend(s.queue, OtherJob(0));
        case Take => TakeClosing(s);
        case Acquire(ok) =>
        case Write(ok, applied) =>
        case Release(ok) =>
      }
    }
  }

  lemma TakeClosing(s: Store)
    requires Closing(s) && s.writer.Waiting? && s.batch == [] && s.queue != []
    ensures Closing(TakeStep(s))
  {
    var n := TakeSize(s);
    var front, rest := s.queue[..n], s.queue[n..];
    assert forall i | 0 <= i < |rest| :: rest[i] == s.queue[n + i];
    if Shutdown in s.queue {
      AheadTake(s.queue, n);
    } else {
      assert Shutdown !in front && Shutdown !in rest;
    }
  }

  /** When the writer has returned, every job that was accepted before `close()` has been attempted. */
  lemma DrainedOnClose(s: Store, acts: seq<Action>)
    requires Started(s) && Exec(s, acts).writer.Stopped?
    ensures var t := Exec(s, acts); t.closedAt.Some? && t.closedAt.value <= |t.attempted| && t.attempted <= t.accepted
  {
    ClosingAlways(s, acts);
    WriterSafety(s, acts);
  }

  lemma {:induction false} ClosingAlways(s: Store, acts: seq<Action>)
    requires Started(s)
    ensures Closing(Exec(s, acts))
    decreases |acts|
  {
    if acts != [] {
      ClosingAlways(s, acts[..|acts| - 1]);
      WriterSafety(s, acts[..|acts| - 1]);
      ClosingStep(Exec(s, acts[..|acts| - 1]), acts[|acts| - 1]);
    }
  }

  // --- rows ------------------------------------------------------------------------------------------------------

  /** Every accepted turn job carries a turn that memory holds. */
  ghost predicate JobsMatch(memory: map<ThreadId, seq<Turn>>, jobs: seq<Job>) {
    forall j | j in jobs && j.TurnJob? :: j.thread in memory && j.turn in memory[j.thread]
  }

  /** A stored turn is in the database, or its job is still on the way, or some write was lost. */
  ghost predicate NothingLost(s: Store) {
    s.rejected + s.failed == 0 ==>
      forall t, i | t in s.memory && 0 <= i < |s.memory[t]| ::
        (t, s.memory[t][i].no) in s.rows || TurnJob(t, s.memory[t][i]) in s.batch + JobsOf(s.queue)
  }

  ghost predicate RowInv(s: Store) {
    MemoryOk(s.memory) && RowsMatch(s.memory, s.rows) && JobsMatch(s.memory, s.accepted) && NothingLost(s)
  }

  lemma CanonicalStays(d: Dict)
    requires WellFormedDict(d)
    ensures WellFormedDict(CanonicalDict(d)) && CanonicalDict(CanonicalDict(d)) == CanonicalDict(d)
  {
    CanonicalKeepsData(Obj(d));
    CanonicalIdempotent(Obj(d));
  }

  lemma NewTurnStored(turns: seq<Turn>, role: Role, kind: Kind, content: seq<Block>, meta: Dict)
    requires WellFormedDict(meta) && forall b | b in content :: WellFormedDict(b)
    ensures StoredOk(NewTurn(turns, role, kind, content, meta))
  {
    var t := NewTurn(turns, role, kind, content, meta);
    CanonicalStays(meta);
    forall i | 0 <= i < |content|
      ensures WellFormedDict(t.content[i]) && CanonicalDict(t.content[i]) == t.content[i]
    {
      assert content[i] in content;
      CanonicalStays(content[i]);
    }
  }

  lemma NewTurnOk(turns: seq<Turn>, role: Role, kind: Kind, content: seq<Block>, meta: Dict)
    requires ThreadOk(turns) && WellFormedDict(meta) && forall b | b in content :: WellFormedDict(b)
    ensures ThreadOk(turns + [NewTurn(turns, role, kind, content, meta)])
  {
    var t := NewTurn(turns, role, kind, content, meta);
    NewTurnStored(turns, role, kind, content, meta);
    IncreasingAppend(turns, t);
    forall i | 0 <= i < |turns| + 1 ensures StoredOk((turns + [t])[i]) {
      assert i < |turns| ==> (turns + [t])[i] == turns[i];
    }
  }

  lemma PutRows(s: Store, job: Job)
    requires RowInv(s) && (job.TurnJob? ==> job.thread in s.memory && job.turn in s.memory[job.thread])
    ensures RowInv(Put(s, job))
  {
    JobsConcat(s.queue, [Work(job)]);
    var t := Put(s, job);
    forall j | j in t.accepted && j.TurnJob? ensures j.thread in t.memory && j.turn in t.memory[j.thread] {
      assert j in s.accepted || j == job;
    }
  }

  lemma AppendRows(s: Store, t: ThreadId, turn: Turn)
    requires RowInv(s) && t in s.memory && ThreadOk(s.memory[t] + [turn])
    ensures RowInv(Put(s.(memory := s.memory[t := s.memory[t] + [turn]]), TurnJob(t, turn)))
  {
    var u := s.(memory := s.memory[t := s.memory[t] + [turn]]);
    var v := Put(u, TurnJob(t, turn));
    assert turn in u.memory[t];
    JobsConcat(s.queue, [Work(TurnJob(t, turn))]);
    assert [Work(TurnJob(t, turn))][1..] == [];
    forall j | j in v.accepted && j.TurnJob? ensures j.thread in v.memory && j.turn in v.memory[j.thread] {
      assert j in s.accepted || j == TurnJob(t, turn);
    }
    if v.rejected + v.failed == 0 {
      forall k, i | k in v.memory && 0 <= i < |v.memory[k]|
        ensures (k, v.memory[k][i].no) in v.rows || TurnJob(k, v.memory[k][i]) in v.batch + JobsOf(v.queue)
      {
        if k != t || i < |s.memory[t]| {
          assert v.memory[k][i] == s.memory[k][i];
          assert (k, s.memory[k][i].no) in s.rows || TurnJob(k, s.memory[k][i]) in s.batch + JobsOf(s.queue);
        }
      }
    }
  }

  lemma WriteRows(s: Store, ok: bool, applied: bool)
    requires RowInv(s) && Fifo(s) && Enabled(s, Write(ok, applied))
    ensures RowInv(Next(s, Write(ok, applied)))
  {
    var job := s.batch[0];
    var t := Next(s, Write(ok, applied));
    assert s.batch == [job] + s.batch[1..];
    assert job in s.accepted;
    forall k | k in t.rows && k.0 in t.memory ensures t.rows[k].no == k.1 && t.rows[k] in t.memory[k.0] {
      assert k in s.rows || k == (job.thread, job.turn.no);
    }
    if t.rejected + t.failed == 0 {
      forall k, i | k in t.memory && 0 <= i < |t.memory[k]|
        ensures (k, t.memory[k][i].no) in t.rows || TurnJob(k, t.memory[k][i]) in t.batch + JobsOf(t.queue)
      {
        assert (k, s.memory[k][i].no) in s.rows || TurnJob(k, s.memory[k][i]) in s.batch + JobsOf(s.queue);
      }
    }
  }

  lemma TakeRows(s: Store)
    requires RowInv(s) && s.writer.Waiting? && s.batch == [] && s.queue != []
    ensures RowInv(TakeStep(s))
  {
    var n := TakeSize(s);
    var t := TakeStep(s);
    assert s.queue == s.queue[..n] + s.queue[n..];
    JobsConcat(s.queue[..n], s.queue[n..]);
    assert t.batch + JobsOf(t.queue) == s.batch + JobsOf(s.queue);
  }

  lemma RowStep(s: Store, a: Action)
    requires RowInv(s) && Fifo(s)
    ensures RowInv(Next(s, a))
  {
    if Enabled(s, a) {
      match a {
        case NewThread(t) => PutRows(s.(memory := s.memory[t := []]), OtherJob(t));
        case AppendTurn(t, role, kind, content, meta) =>
          NewTurnOk(s.memory[t], role, kind, content, meta);
          AppendRows(s, t, NewTurn(s.memory[t], role, kind, content, meta));
        case Enqueue(id) => PutRows(s, OtherJob(id));
        case Close =>
          JobsConcat(s.queue, [Shutdown]);
          assert [Shutdown][1..] == [];
        case Take => TakeRows(s);
        case Acquire(ok) =>
        case Write(ok, applied) => WriteRows(s, ok, applied);
        case Release(ok) =>
      }
    }
  }

  lemma {:induction false} RowsAlways(s: Store, acts: seq<Action>)
    requires Started(s)
    ensures RowInv(Exec(s, acts))
    decreases |acts|
  {
    if acts != [] {
      RowsAlways(s, acts[..|acts| - 1]);
      WriterSafety(s, acts[..|acts| - 1]);
      RowStep(Exec(s, acts[..|acts| - 1]), acts[|acts| - 1]);
    }
  }
}
