/**
 The queue and the writer task of `ThreadStore` as written (backend/app/agent/store.py). Wherever the writer waits,
 producers enqueue, threads are opened and `close()` comes or gets through. Every execution is a run of `Persistence`.
 */
module WriteQueue {
  import opened Json
  import opened Transcript
  import opened Persistence
  import opened PersistenceProofs

  lemma ExecStep(s: Store, acts: seq<Action>, a: Action)
    ensures Exec(s, acts + [a]) == Next(Exec(s, acts), a)
  {
    assert (acts + [a])[..|acts|] == acts;
  }

  /** The items drained without waiting are those that `Take` takes. */
  lemma TakeIs(s: Store, jobs: seq<Item>, rest: seq<Item>)
    requires s.writer.Waiting? && s.queue == jobs + rest
    requires 0 < |jobs| <= BATCH_MAX && (|jobs| == BATCH_MAX || rest == [])
    ensures var stop := Shutdown in jobs;
            Next(s, Take) == s.(queue := rest, batch := JobsOf(jobs),
                                writer := if JobsOf(jobs) != [] then Acquiring(stop) else After(stop))
  {
    assert TakeSize(s) == |jobs|;
    assert s.queue[..|jobs|] == jobs && s.queue[|jobs|..] == rest;
  }

  lemma AcquireIs(s: Store, ok: bool)
    requires s.writer.Acquiring?
    ensures Next(s, Acquire(ok)) ==
            if ok then s.(writer := Writing(s.writer.stop, |s.batch|))
            else s.(dropped := s.dropped + |s.batch|, failed := s.failed + |s.batch|,
                    attempted := s.attempted + s.batch, batch := [], writer := After(s.writer.stop))
  {
  }

  lemma ReleaseIs(s: Store, ok: bool)
    requires s.writer.Writing? && s.batch == []
    ensures var lost := if ok then 0 else s.writer.size;
            Next(s, Release(ok)) == s.(writer := After(s.writer.stop), dropped := s.dropped + lost,
                                       releaseFailures := s.releaseFailures + lost)
  {
  }

  /** Every row belongs to a thread with one of these ids, or to one in memory. */
  ghost predicate RowsKnown(s: Store, ids: set<ThreadId>) {
    forall k | k in s.rows :: k.0 in ids || k.0 in s.memory
  }

  lemma KnownStep(s: Store, a: Action, ids: set<ThreadId>)
    requires RowsKnown(s, ids) && Fifo(s) && JobsMatch(s.memory, s.accepted)
    ensures RowsKnown(Next(s, a), ids)
  {
    if Enabled(s, a) {
      match a {
        case Write(ok, applied) => assert s.batch[0] in s.accepted;
        case AppendTurn(t, role, kind, content, meta) =>
        case _ =>
      }
    }
  }

  lemma {:induction false} KnownAlways(s: Store, acts: seq<Action>, ids: set<ThreadId>)
    requires Started(s) && RowsKnown(s, ids)
    ensures RowsKnown(Exec(s, acts), ids)
    decreases |acts|
  {
    hide Started, RowsKnown, Fifo, JobsMatch, Next;
    if acts != [] {
      KnownAlways(s, acts[..|acts| - 1], ids);
      RowsAlways(s, acts[..|acts| - 1]);
      WriterSafety(s, acts[..|acts| - 1]);
      KnownStep(Exec(s, acts[..|acts| - 1]), acts[|acts| - 1], ids);
    }
  }

  // --- what goes on beside the writer --------------------------------------------------------------------------

  predicate RowsKept(rows: map<(ThreadId, nat), Turn>, more: map<(ThreadId, nat), Turn>) {
    forall k | k in rows :: k in more && more[k] == rows[k]
  }

  predicate MemoryKept(memory: map<ThreadId, seq<Turn>>, more: map<ThreadId, seq<Turn>>) {
    forall t | t in memory :: t in more && memory[t] <= more[t]
  }

  /** Nothing held, accepted, attempted or written is gone, and no count goes back. */
  predicate Kept(s: Store, u: Store) {
    && s.accepted <= u.accepted && s.attempted <= u.attempted
    && s.rejected <= u.rejected && s.failed <= u.failed && s.releaseFailures <= u.releaseFailures
    && MemoryKept(s.memory, u.memory) && RowsKept(s.rows, u.rows)
  }

  lemma KeptStep(s: Store, a: Action)
    ensures Kept(s, Next(s, a))
  {
    hide WellFormed, Canonical;
  }

  /** So along every run. */
  lemma {:induction false} KeptAlways(s: Store, acts: seq<Action>, more: seq<Action>)
    requires acts <= more
    ensures Kept(Exec(s, acts), Exec(s, more))
    decreases |more|
  {
    hide Next;
    if acts != more {
      var init := more[..|more| - 1];
      KeptAlways(s, acts, init);
      KeptStep(Exec(s, init), more[|more| - 1]);
    } else {
      KeptItself(Exec(s, acts));
    }
  }

  lemma KeptItself(s: Store)
    ensures Kept(s, s)
  {
  }

  /** Steps of others: the writer's side stands still, and the queue grows at its end. */
  predicate Beside(s: Store, u: Store) {
    && u.writer == s.writer && u.batch == s.batch && u.attempted == s.attempted && u.rows == s.rows
    && u.failed == s.failed && u.releaseFailures == s.releaseFailures
    && s.queue <= u.queue && s.accepted <= u.accepted && MemoryKept(s.memory, u.memory)
    && s.rejected <= u.rejected && u.dropped - s.dropped == u.rejected - s.rejected
  }

  lemma BesideItself(s: Store)
    ensures Beside(s, s)
  {
  }

  lemma BesideTwice(s: Store, t: Store, u: Store)
    requires Beside(s, t) && Beside(t, u)
    ensures Beside(s, u)
  {
  }

  lemma BesideAppend(s: Store, t: ThreadId, role: Role, kind: Kind, content: seq<Block>, meta: Dict)
    ensures Beside(s, Next(s, AppendTurn(t, role, kind, content, meta)))
  {
    hide WellFormed, NewTurn;
  }

  // --- the outcomes of a batch -----------------------------------------------------------------------------------

  function Failures(written: seq<bool>): nat {
    if written == [] then 0
    else Failures(written[..|written| - 1]) + if written[|written| - 1] then 0 else 1
  }

  /** A written turn has its row. */
  predicate IsWritten(rows: map<(ThreadId, nat), Turn>, job: Job) {
    job.TurnJob? ==> (job.thread, job.turn.no) in rows
  }

  predicate AllWritten(rows: map<(ThreadId, nat), Turn>, jobs: seq<Job>, written: seq<bool>) {
    forall i | 0 <= i < |jobs| && i < |written| && written[i] :: IsWritten(rows, jobs[i])
  }

  lemma OneMoreWritten(rows: map<(ThreadId, nat), Turn>, more: map<(ThreadId, nat), Turn>, jobs: seq<Job>,
                       written: seq<bool>, job: Job, ok: bool)
    requires |written| == |jobs| && RowsKept(rows, more) && AllWritten(rows, jobs, written)
    requires ok ==> IsWritten(more, job)
    ensures AllWritten(more, jobs + [job], written + [ok])
    ensures Failures(written + [ok]) == Failures(written) + if ok then 0 else 1
  {
    assert (written + [ok])[..|written|] == written;
  }

  lemma {:induction false} NoneWritten(rows: map<(ThreadId, nat), Turn>, jobs: seq<Job>)
    ensures AllWritten(rows, jobs, seq(|jobs|, _ => false)) && Failures(seq(|jobs|, _ => false)) == |jobs|
  {
    if jobs != [] {
      var n := |jobs| - 1;
      NoneWritten(rows, jobs[..n]);
      assert seq(|jobs|, _ => false)[..n] == seq(n, _ => false);
    }
  }

  /** How far the call of `close()` has come. */
  datatype CloseCall = NotCalled | AwaitsRoom | SentinelIn

  class ThreadStore {
    const queueMax: nat
    /** The threads the database held at the start; `uuid4` gives none of them again. */
    const stored: set<ThreadId>
    var memory: map<ThreadId, seq<Turn>>
    var queue: seq<Item>
    var droppedWrites: nat
    var closing: CloseCall
    ghost const started: Store
    ghost var acts: seq<Action>

    constructor (queueMax: nat, memory: map<ThreadId, seq<Turn>>, stored: set<ThreadId>, ghost started: Store)
      requires Started(started) && started.queueMax == queueMax && started.memory == memory
      requires RowsKnown(started, stored)
      ensures Valid() && Now() == started
    {
      this.queueMax, this.stored, this.memory, this.started := queueMax, stored, memory, started;
      queue, droppedWrites, closing, acts := [], 0, NotCalled, [];
    }

    /** The protocol state that the fields are part of. */
    ghost function Now(): Store
      reads this
    {
      Exec(started, acts)
    }

    ghost predicate Valid()
      reads this
    {
      && Started(started) && RowsKnown(started, stored)
      && var s := Now();
         && queue == s.queue && droppedWrites == s.dropped && queueMax == s.queueMax && memory == s.memory
         && (closing.SentinelIn? <==> s.closedAt.Some?)
    }

    /** A step of the protocol happens. */
    ghost method Record(a: Action)
      modifies `acts
      ensures acts == old(acts) + [a] && Now() == Next(old(Now()), a)
    {
      ExecStep(started, acts, a);
      acts := acts + [a];
    }

    /** The queue's side of `_enqueue`. */
    method PutNowait(job: Job)
      modifies `queue, `droppedWrites
      ensures |old(queue)| < queueMax ==> queue == old(queue) + [Work(job)] && droppedWrites == old(droppedWrites)
      ensures |old(queue)| >= queueMax ==> queue == old(queue) && droppedWrites == old(droppedWrites) + 1
    {
      if |queue| < queueMax {
        queue := queue + [Work(job)];
      } else {
        droppedWrites := droppedWrites + 1;
      }
    }

    /** `_enqueue` of a job that is not a turn. */
    method Enqueue(id: nat)
      requires Valid()
      modifies this
      ensures Valid() && Now() == Put(old(Now()), OtherJob(id))
      ensures memory == old(memory) && closing == old(closing) && acts == old(acts) + [Action.Enqueue(id)]
    {
      hide Exec, Started;
      PutNowait(OtherJob(id));
      Record(Action.Enqueue(id));
    }

    /** `append_turn`: the seq is assigned and the write enqueued without a suspension in between. */
    method AppendTurn(t: ThreadId, role: Role, kind: Kind, content: seq<Block>, meta: Dict)
      requires Valid() && t in memory && WellFormedDict(meta) && forall b | b in content :: WellFormedDict(b)
      modifies this
      ensures Valid() && closing == old(closing)
      ensures Now() == Next(old(Now()), Action.AppendTurn(t, role, kind, content, meta))
      ensures acts == old(acts) + [Action.AppendTurn(t, role, kind, content, meta)]
    {
      hide Exec, Started;
      var turn := NewTurn(memory[t], role, kind, content, meta);
      memory := memory[t := memory[t] + [turn]];
      PutNowait(TurnJob(t, turn));
      Record(Action.AppendTurn(t, role, kind, content, meta));
    }

    /** `get_thread` for a session that has none: an empty thread under a new id, and its row enqueued. */
    method OpenThread(t: ThreadId)
      requires Valid() && t !in memory && t !in stored
      modifies this
      ensures Valid() && Now() == Put(old(Now()).(memory := memory), OtherJob(t))
      ensures memory == old(memory)[t := []] && closing == old(closing) && acts == old(acts) + [NewThread(t)]
    {
      KnownAlways(started, acts, stored);
      hide Exec, Started;
      memory := memory[t := []];
      PutNowait(OtherJob(t));
      Record(NewThread(t));
    }

    /** `close`, up to its first wait: the sentinel joins the queue, or `close` waits for room. */
    method Close()
      requires Valid() && closing.NotCalled?
      modifies this
      ensures Valid() && memory == old(memory)
      ensures closing == if |old(queue)| < queueMax then SentinelIn else AwaitsRoom
      ensures queue == if closing.SentinelIn? then old(queue) + [Shutdown] else old(queue)
      ensures Now() == old(Now()).(queue := queue,
                                   closedAt := if closing.SentinelIn? then Some(|old(Now()).accepted|) else None)
      ensures old(acts) <= acts
    {
      closing := AwaitsRoom;
      LetSentinelIn();
    }

    /** `await queue.put(_SHUTDOWN)`: behind every job accepted so far, as soon as there is room. */
    method LetSentinelIn()
      requires Valid() && closing.AwaitsRoom?
      modifies this
      ensures Valid() && memory == old(memory)
      ensures closing == if |old(queue)| < queueMax then SentinelIn else AwaitsRoom
      ensures queue == if closing.SentinelIn? then old(queue) + [Shutdown] else old(queue)
      ensures Now() == old(Now()).(queue := queue,
                                   closedAt := if closing.SentinelIn? then Some(|old(Now()).accepted|) else None)
      ensures old(acts) <= acts
    {
      hide Exec, Started;
      if |queue| < queueMax {
        queue, closing := queue + [Shutdown], SentinelIn;
        Record(Action.Close);
      }
    }

    /** Anything else that happens while the writer waits. */
    method Other()
      requires Valid()
      modifies this
      ensures Valid() && old(acts) <= acts && Beside(old(Now()), Now())
    {
      hide Exec, Started, WellFormed;
      var t: ThreadId, role: Role, kind: Kind, content: seq<Block>, meta: Dict := *, *, *, *, *;
      if
      case t in memory && WellFormedDict(meta) && forall b | b in content :: WellFormedDict(b) =>
        BesideAppend(Now(), t, role, kind, content, meta);
        AppendTurn(t, role, kind, content, meta);
      case t !in memory && t !in stored =>
        OpenThread(t);
      case closing.NotCalled? =>
        Close();
      case closing.AwaitsRoom? =>
        LetSentinelIn();
      case true =>
        Enqueue(t);
    }

    /** A point where the writer waits: the rest of the program may do anything any number of times. */
    method Others()
      requires Valid()
      modifies this
      ensures Valid() && old(acts) <= acts && Beside(old(Now()), Now())
    {
      var n: nat :| true;
      BesideItself(Now());
      for i := 0 to n
        invariant Valid() && old(acts) <= acts && Beside(old(Now()), Now())
      {
        hide Beside, Exec, Started;
        ghost var before := Now();
        Other();
        BesideTwice(old(Now()), before, Now());
      }
    }

    /**
     One turn of `_writer_loop`: the items it takes are the first ones of the queue, up to a batch; their jobs have
     been attempted, and it tells whether the sentinel was among them. What is behind them stays queued.
     */
    method WakeUp() returns (stop: bool)
      requires Valid() && queue != [] && Now().writer.Waiting? && Now().batch == []
      modifies this
      ensures Valid() && old(acts) <= acts && Now().writer == After(stop) && Now().batch == []
      ensures var n := TakeSize(old(Now()));
              && stop == (Shutdown in old(queue)[..n])
              && old(queue)[n..] <= queue
              && Now().attempted == old(Now()).attempted + JobsOf(old(queue)[..n])
    {
      hide Exec, Started, Next;
      var jobs := [queue[0]];
      queue := queue[1..];
      while |jobs| < BATCH_MAX && queue != []
        invariant jobs + queue == old(queue) && 0 < |jobs| <= BATCH_MAX
        invariant unchanged(`droppedWrites) && unchanged(`memory) && unchanged(`closing) && unchanged(`acts)
        decreases |queue|
      {
        jobs, queue := jobs + [queue[0]], queue[1..];
      }
      TakeIs(Now(), jobs, queue);
      assert |jobs| == TakeSize(Now()) && jobs == old(queue)[..|jobs|] && queue == old(queue)[|jobs|..];
      stop := Shutdown in jobs;
      Record(Take);
      if JobsOf(jobs) != [] {
        ghost var written, released := WriteBatch(JobsOf(jobs));
      }
    }

    /**
     `_write_batch`: every job of the batch is attempted, in order. `written` tells which writes came back without an
     error: their rows are there, and each of the others is counted as dropped once. A connection that fails to be
     released (`released`) counts the batch once more. None of this stops the writer.
     */
    method WriteBatch(jobs: seq<Job>) returns (ghost written: seq<bool>, ghost released: bool)
      requires Valid() && Now().writer.Acquiring? && Now().batch == jobs
      modifies this
      ensures Valid() && old(acts) <= acts && Now().writer == After(old(Now()).writer.stop) && Now().batch == []
      ensures Now().attempted == old(Now()).attempted + jobs && old(queue) <= queue
      ensures |written| == |jobs| && AllWritten(Now().rows, jobs, written)
      ensures Now().failed == old(Now()).failed + Failures(written)
      ensures Now().releaseFailures == old(Now()).releaseFailures + if released then 0 else |jobs|
      ensures droppedWrites == old(droppedWrites) + (Now().rejected - old(Now()).rejected)
                               + Failures(written) + if released then 0 else |jobs|
    {
      hide Exec, Started, Next, AllWritten, Failures;
      Others();
      var acquired: bool := *;
      AcquireIs(Now(), acquired);
      Record(Acquire(acquired));
      released := true;
      if acquired {
        written := WriteJobs(jobs);
        var release: bool := *;
        released := release;
        ReleaseIs(Now(), release);
        Record(Release(release));
        if !release {
          droppedWrites := droppedWrites + |jobs|;
        }
      } else {
        droppedWrites := droppedWrites + |jobs|;
        written := seq(|jobs|, _ => false);
        NoneWritten(Now().rows, jobs);
      }
    }

    /** The loop over the jobs of a batch, with a connection in hand. */
    method WriteJobs(jobs: seq<Job>) returns (ghost written: seq<bool>)
      requires Valid() && Now().writer.Writing? && Now().batch == jobs
      modifies this
      ensures Valid() && old(acts) <= acts && Now().writer == old(Now()).writer && Now().batch == []
      ensures Now().attempted == old(Now()).attempted + jobs && old(queue) <= queue
      ensures |written| == |jobs| && AllWritten(Now().rows, jobs, written)
      ensures Now().failed == old(Now()).failed + Failures(written)
      ensures Now().releaseFailures == old(Now()).releaseFailures
      ensures droppedWrites == old(droppedWrites) + (Now().rejected - old(Now()).rejected) + Failures(written)
    {
      written := [];
      NoneWritten(Now().rows, []);
      assert AllWritten(Now().rows, jobs[..0], []) && Failures([]) == 0;
      hide Exec, Started, Next, AllWritten, Failures, RowsKept;
      for i := 0 to |jobs|
        invariant Valid() && Now().writer == old(Now()).writer && Now().batch == jobs[i..]
        invariant old(acts) <= acts && old(queue) <= queue && Now().attempted == old(Now()).attempted + jobs[..i]
        invariant |written| == i && AllWritten(Now().rows, jobs[..i], written)
        invariant Now().failed == old(Now()).failed + Failures(written)
        invariant Now().releaseFailures == old(Now()).releaseFailures
        invariant droppedWrites == old(droppedWrites) + (Now().rejected - old(Now()).rejected) + Failures(written)
      {
        ghost var before := Now();
        var ok := WriteNext();
        OneMoreWritten(before.rows, Now().rows, jobs[..i], written, jobs[i], ok);
        assert jobs[..i + 1] == jobs[..i] + [jobs[i]];
        written := written + [ok];
      }
      assert jobs[..|jobs|] == jobs;
    }

    /** One turn of that loop: whatever else happens first, then the next job. */
    method WriteNext() returns (ok: bool)
      requires Valid() && Now().writer.Writing? && Now().batch != []
      modifies this
      ensures Valid() && old(acts) <= acts && old(queue) <= queue
      ensures var s, u := old(Now()), Now();
              && u.writer == s.writer && u.batch == s.batch[1..] && u.attempted == s.attempted + [s.batch[0]]
              && u.failed == s.failed + (if ok then 0 else 1) && u.releaseFailures == s.releaseFailures
              && RowsKept(s.rows, u.rows) && (ok ==> IsWritten(u.rows, s.batch[0]))
      ensures droppedWrites == old(droppedWrites) + (Now().rejected - old(Now()).rejected) + if ok then 0 else 1
    {
      hide Exec, Started;
      Others();
      ok := ApplyOne();
    }

    /** `_apply` of the next job, which may fail before or after the database took it. */
    method ApplyOne() returns (ok: bool)
      requires Valid() && Now().writer.Writing? && Now().batch != []
      modifies `droppedWrites, `acts
      ensures Valid() && old(acts) <= acts
      ensures var s, u := old(Now()), Now();
              && u == s.(batch := s.batch[1..], attempted := s.attempted + [s.batch[0]], rows := u.rows,
                         dropped := u.dropped, failed := u.failed)
              && u.failed == s.failed + (if ok then 0 else 1) && u.dropped == s.dropped + (if ok then 0 else 1)
              && RowsKept(s.rows, u.rows) && (ok ==> IsWritten(u.rows, s.batch[0]))
    {
      hide Exec, Started;
      var applied: bool := *;
      ok := *;
      applied := ok || applied;
      Record(Write(ok, applied));
      if !ok {
        droppedWrites := droppedWrites + 1;
      }
    }

    /**
     `_writer_loop`, for as many turns as it is given. It goes on from where it was: nothing that memory held, the queue
     had accepted or the database had is gone. Attempted and queued are the accepted jobs in order; `dropped_writes`
     counts what was refused or failed; and when the loop has returned, `close()` came and every job accepted before its
     sentinel was attempted.
     */
    method WriterLoop(turns: nat) returns (stopped: bool)
      requires Valid() && Now().writer.Waiting?
      modifies this
      ensures Valid() && old(acts) <= acts && Now().writer == After(stopped) && Kept(old(Now()), Now())
      ensures var s := Now();
              && droppedWrites == s.rejected + s.failed + s.releaseFailures
              && s.accepted == s.attempted + JobsOf(queue)
              && (stopped ==> closing.SentinelIn? && s.closedAt.value <= |s.attempted|)
    {
      hide Exec;
      stopped := false;
      WriterSafety(started, acts);
      for i := 0 to turns
        invariant Valid() && old(acts) <= acts && Now().writer == After(stopped) && Now().batch == []
      {
        if !stopped {
          Others();
          if queue != [] {
            stopped := WakeUp();
          }
        }
      }
      WriterSafety(started, acts);
      KeptAlways(started, old(acts), acts);
      if stopped {
        DrainedOnClose(started, acts);
      }
    }
  }
}
