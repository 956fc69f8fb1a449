/** A restart: what `_rehydrate` builds from rows whose JSON keys the database has reordered. */
module Rehydration {
  import opened Json
  import opened Transcript
  import opened Curation
  import opened Persistence
  import opened PersistenceProofs

  /** The turns `_rehydrate` builds from the selected rows. */
  function Rehydrated(read: seq<Turn>): (r: seq<Turn>)
    ensures |r| == |read|
  {
    seq(|read|, i requires 0 <= i < |read| =>
      read[i].(content := CanonicalBlocks(read[i].content), meta := CanonicalDict(read[i].meta)))
  }

  ghost predicate SameDict(a: Dict, b: Dict) {
    WellFormedDict(b) && SameData(Obj(a), Obj(b))
  }

  /** The same row, up to the order of keys inside its JSON columns. */
  ghost predicate SameRow(stored: Turn, read: Turn) {
    && read.no == stored.no && read.role == stored.role && read.kind == stored.kind
    && SameDict(stored.meta, read.meta)
    && |read.content| == |stored.content|
    && forall i | 0 <= i < |stored.content| :: SameDict(stored.content[i], read.content[i])
  }

  /** A possible answer of `SELECT ... WHERE thread_id = t ORDER BY seq`. */
  ghost predicate Selected(rows: map<(ThreadId, nat), Turn>, t: ThreadId, read: seq<Turn>) {
    && Ascending(read)
    && (forall i | 0 <= i < |read| :: (t, read[i].no) in rows && SameRow(rows[(t, read[i].no)], read[i]))
    && (forall k | k in rows && k.0 == t :: exists i :: 0 <= i < |read| && read[i].no == k.1)
  }

  lemma DictRead(stored: Dict, read: Dict)
    requires WellFormedDict(stored) && CanonicalDict(stored) == stored && SameDict(stored, read)
    ensures CanonicalDict(read) == stored
  {
    ReorderedThenCanonical(Obj(stored), Obj(read));
  }

  /** Reading a row back gives the very turn that was stored. */
  lemma RowRead(stored: Turn, read: Turn)
    requires StoredOk(stored) && SameRow(stored, read)
    ensures read.(content := CanonicalBlocks(read.content), meta := CanonicalDict(read.meta)) == stored
  {
    DictRead(stored.meta, read.meta);
    forall i | 0 <= i < |stored.content| ensures CanonicalDict(read.content[i]) == stored.content[i] {
      assert stored.content[i] in stored.content;
      DictRead(stored.content[i], read.content[i]);
    }
    assert CanonicalBlocks(read.content) == stored.content;
  }

  /** Two ascending lists with the same members are the same list. */
  lemma {:induction false} AscendingUnique(a: seq<Turn>, b: seq<Turn>)
    requires Ascending(a) && Ascending(b)
    requires forall x :: x in a <==> x in b
    ensures a == b
  {
    NonEmpty(a, b);
    NonEmpty(b, a);
    if a != [] {
      var n, m := |a| - 1, |b| - 1;
      LastIsNewest(a, b[m]);
      LastIsNewest(b, a[n]);
      assert a[n] == b[m] by {
        assert a[n] in b && b[m] in a;
      }
      forall x ensures x in a[..n] <==> x in b[..m] {
        assert a == a[..n] + [a[n]] && b == b[..m] + [b[m]];
        assert x in a <==> x in a[..n] || x == a[n];
        assert x in b <==> x in b[..m] || x == b[m];
        assert forall i | 0 <= i < n :: a[i].no < a[n].no;
        assert forall j | 0 <= j < m :: b[j].no < b[m].no;
      }
      AscendingUnique(a[..n], b[..m]);
      assert a == a[..n] + [a[n]] && b == b[..m] + [b[m]];
    }
  }

  lemma NonEmpty(a: seq<Turn>, b: seq<Turn>)
    requires forall x :: x in a ==> x in b
    ensures a != [] ==> b != []
  {
    if a != [] {
      assert a[0] in b;
    }
  }

  lemma LastIsNewest(a: seq<Turn>, x: Turn)
    requires Ascending(a) && x in a
    ensures x.no <= a[|a| - 1].no && (x.no == a[|a| - 1].no ==> x == a[|a| - 1])
  {
    var i :| 0 <= i < |a| && a[i] == x;
  }

  lemma ReadIsStored(s: Store, t: ThreadId, read: seq<Turn>, i: nat)
    requires RowInv(s) && t in s.memory && Selected(s.rows, t, read) && i < |read|
    ensures Rehydrated(read)[i] == s.rows[(t, read[i].no)] && Rehydrated(read)[i] in s.memory[t]
  {
    var stored := s.rows[(t, read[i].no)];
    assert stored in s.memory[t];
    var j :| 0 <= j < |s.memory[t]| && s.memory[t][j] == stored;
    assert ThreadOk(s.memory[t]);
    RowRead(stored, read[i]);
  }

  /**
   Whatever writes were lost, a restart never reads back a turn that the conversation did not hold, nor another order.
   */
  lemma RestartReadsOnlyStoredTurns(s: Store, acts: seq<Action>, t: ThreadId, read: seq<Turn>)
    requires Started(s) && t in Exec(s, acts).memory && Selected(Exec(s, acts).rows, t, read)
    ensures Ascending(Rehydrated(read)) && forall x | x in Rehydrated(read) :: x in Exec(s, acts).memory[t]
  {
    RowsAlways(s, acts);
    forall i | 0 <= i < |read| ensures Rehydrated(read)[i] in Exec(s, acts).memory[t] {
      ReadIsStored(Exec(s, acts), t, read, i);
    }
  }

  // --- what is on its way is the end of the conversation -----------------------------------------------------------

  /** The jobs that are still to be written, in order. */
  function Outstanding(s: Store): seq<Job> {
    s.batch + JobsOf(s.queue)
  }

  /** The turns of one thread among them. */
  function TurnsOf(jobs: seq<Job>, t: ThreadId): seq<Turn> {
    if jobs == [] then []
    else (if jobs[0].TurnJob? && jobs[0].thread == t then [jobs[0].turn] else []) + TurnsOf(jobs[1..], t)
  }

  lemma {:induction false} TurnsOfConcat(a: seq<Job>, b: seq<Job>, t: ThreadId)
    ensures TurnsOf(a + b, t) == TurnsOf(a, t) + TurnsOf(b, t)
  {
    if a == [] {
      assert a + b == b;
    } else {
      assert (a + b)[1..] == a[1..] + b;
      TurnsOfConcat(a[1..], b, t);
    }
  }

  lemma {:induction false} TurnsOfNone(jobs: seq<Job>, t: ThreadId)
    requires forall j | j in jobs && j.TurnJob? :: j.thread != t
    ensures TurnsOf(jobs, t) == []
  {
    if jobs != [] {
      assert jobs[0] in jobs && forall j | j in jobs[1..] :: j in jobs;
      TurnsOfNone(jobs[1..], t);
    }
  }

  /** The first `k` turns have their rows, the others have none. */
  ghost predicate Written(turns: seq<Turn>, rows: map<(ThreadId, nat), Turn>, t: ThreadId, k: nat) {
    forall i | 0 <= i < |turns| :: (t, turns[i].no) in rows <==> i < k
  }

  /** The turns of `turns` still to be written are its last ones, and the others are in the database. */
  ghost predicate TailOut(turns: seq<Turn>, out: seq<Turn>, rows: map<(ThreadId, nat), Turn>, t: ThreadId) {
    |out| <= |turns| && out == turns[|turns| - |out|..] && Written(turns, rows, t, |turns| - |out|)
  }

  ghost predicate TailInv(s: Store) {
    s.rejected + s.failed == 0 ==>
      forall t | t in s.memory :: TailOut(s.memory[t], TurnsOf(Outstanding(s), t), s.rows, t)
  }

  lemma PutOut(s: Store, job: Job)
    requires Put(s, job).rejected == s.rejected
    ensures Outstanding(Put(s, job)) == Outstanding(s) + [job]
  {
    JobsConcat(s.queue, [Work(job)]);
    assert [Work(job)][1..] == [];
  }

  lemma OtherPutTail(s: Store, job: Job)
    requires TailInv(s) && job.OtherJob?
    ensures TailInv(Put(s, job))
  {
    if Put(s, job).rejected == s.rejected {
      PutOut(s, job);
      assert [job][1..] == [];
      forall t | t in s.memory ensures TurnsOf(Outstanding(s) + [job], t) == TurnsOf(Outstanding(s), t) {
        TurnsOfConcat(Outstanding(s), [job], t);
      }
    }
  }

  lemma NewThreadTail(s: Store, t: ThreadId)
    requires TailInv(s) && Fifo(s) && JobsMatch(s.memory, s.accepted) && Enabled(s, NewThread(t))
    ensures TailInv(Next(s, NewThread(t)))
  {
    forall j | j in Outstanding(s) && j.TurnJob? ensures j.thread != t {
      assert j in s.accepted;
    }
    TurnsOfNone(Outstanding(s), t);
    OtherPutTail(s.(memory := s.memory[t := []]), OtherJob(t));
  }

  lemma AppendOut(turns: seq<Turn>, out: seq<Turn>, rows: map<(ThreadId, nat), Turn>, t: ThreadId, turn: Turn)
    requires TailOut(turns, out, rows, t) && (t, turn.no) !in rows
    ensures TailOut(turns + [turn], out + [turn], rows, t)
  {
  }

  lemma AppendTail(s: Store, t: ThreadId, turn: Turn)
    requires TailInv(s) && RowsMatch(s.memory, s.rows) && t in s.memory && StrictlyIncreasing(s.memory[t] + [turn])
    ensures TailInv(Put(s.(memory := s.memory[t := s.memory[t] + [turn]]), TurnJob(t, turn)))
  {
    var u, job := s.(memory := s.memory[t := s.memory[t] + [turn]]), TurnJob(t, turn);
    if Put(u, job).rejected == s.rejected && s.rejected + s.failed == 0 {
      PutOut(u, job);
      hide TailOut, TurnsOf, Outstanding, StrictlyIncreasing, RowsMatch;
      forall k | k in u.memory
        ensures TailOut(u.memory[k], TurnsOf(Outstanding(s) + [job], k), s.rows, k)
      {
        OneMoreOut(Outstanding(s), t, turn, k);
        assert TailOut(s.memory[k], TurnsOf(Outstanding(s), k), s.rows, k);
        if k == t {
          NoRowYet(s, t, turn);
          AppendOut(s.memory[t], TurnsOf(Outstanding(s), t), s.rows, t, turn);
        }
      }
    }
  }

  lemma OneMoreOut(jobs: seq<Job>, t: ThreadId, turn: Turn, k: ThreadId)
    ensures TurnsOf(jobs + [TurnJob(t, turn)], k) == TurnsOf(jobs, k) + if k == t then [turn] else []
  {
    var job := TurnJob(t, turn);
    TurnsOfConcat(jobs, [job], k);
    assert [job][1..] == [];
  }

  lemma NoRowYet(s: Store, t: ThreadId, turn: Turn)
    requires RowsMatch(s.memory, s.rows) && t in s.memory && StrictlyIncreasing(s.memory[t] + [turn])
    ensures (t, turn.no) !in s.rows
  {
    var turns := s.memory[t];
    forall x | x in turns ensures x.no < turn.no {
      var i :| 0 <= i < |turns| && turns[i] == x;
      assert (turns + [turn])[i] == x && (turns + [turn])[|turns|] == turn;
    }
  }

  lemma WriteOut(turns: seq<Turn>, out: seq<Turn>, rows: map<(ThreadId, nat), Turn>, t: ThreadId)
    requires StrictlyIncreasing(turns) && out != [] && TailOut(turns, out, rows, t)
    ensures TailOut(turns, out[1..], Insert(rows, TurnJob(t, out[0])), t)
  {
    var k := |turns| - |out|;
    assert out[0] == turns[k];
    forall i | 0 <= i < |turns| ensures (t, turns[i].no) in Insert(rows, TurnJob(t, out[0])) <==> i < k + 1 {
      assert i != k ==> turns[i].no != turns[k].no;
    }
  }

  lemma WriteTail(s: Store, ok: bool, applied: bool)
    requires TailInv(s) && MemoryOk(s.memory) && Enabled(s, Write(ok, applied))
    ensures TailInv(Next(s, Write(ok, applied)))
  {
    var u, job := Next(s, Write(ok, applied)), s.batch[0];
    if u.rejected + u.failed == 0 {
      assert Outstanding(s)[0] == job && Outstanding(s)[1..] == Outstanding(u);
      forall t | t in s.memory ensures TailOut(s.memory[t], TurnsOf(Outstanding(u), t), u.rows, t) {
        var out := TurnsOf(Outstanding(s), t);
        assert TailOut(s.memory[t], out, s.rows, t);
        if job.TurnJob? && job.thread == t {
          assert out[0] == job.turn && out[1..] == TurnsOf(Outstanding(u), t);
          assert ThreadOk(s.memory[t]);
          WriteOut(s.memory[t], out, s.rows, t);
        }
      }
    }
  }

  /** The steps that leave memory, rows and what is outstanding as they are. */
  lemma SameOutTail(s: Store, u: Store)
    requires TailInv(s) && u.memory == s.memory && u.rows == s.rows
    requires u.rejected + u.failed == 0 ==> s.rejected + s.failed == 0 && Outstanding(u) == Outstanding(s)
    ensures TailInv(u)
  {
  }

  lemma TailStep(s: Store, a: Action)
    requires TailInv(s) && RowInv(s) && Fifo(s)
    ensures TailInv(Next(s, a))
  {
    if Enabled(s, a) {
      match a {
        case NewThread(t) => NewThreadTail(s, t);
        case AppendTurn(t, role, kind, content, meta) =>
          NewTurnOk(s.memory[t], role, kind, content, meta);
          AppendTail(s, t, NewTurn(s.memory[t], role, kind, content, meta));
        case Enqueue(id) => OtherPutTail(s, OtherJob(id));
        case Close =>
          JobsConcat(s.queue, [Shutdown]);
          assert [Shutdown][1..] == [];
          SameOutTail(s, Next(s, a));
        case Take =>
          var n := TakeSize(s);
          assert s.queue == s.queue[..n] + s.queue[n..];
          JobsConcat(s.queue[..n], s.queue[n..]);
          SameOutTail(s, Next(s, a));
        case Acquire(ok) => SameOutTail(s, Next(s, a));
        case Write(ok, applied) => WriteTail(s, ok, applied);
        case Release(ok) => SameOutTail(s, Next(s, a));
      }
    }
  }

  lemma {:induction false} TailAlways(s: Store, acts: seq<Action>)
    requires Started(s)
    ensures TailInv(Exec(s, acts))
    decreases |acts|
  {
    if acts != [] {
      TailAlways(s, acts[..|acts| - 1]);
      RowsAlways(s, acts[..|acts| - 1]);
      WriterSafety(s, acts[..|acts| - 1]);
      TailStep(Exec(s, acts[..|acts| - 1]), acts[|acts| - 1]);
    }
  }

  /**
   As long as no write was refused or failed, a restart at any moment, with any number of writes still queued, reads
   back the conversation up to some turn: no hole, and the end that is missing is what the queue held.
   */
  lemma RestartReadsPrefix(s: Store, acts: seq<Action>, t: ThreadId, read: seq<Turn>)
    requires Started(s) && t in Exec(s, acts).memory && Selected(Exec(s, acts).rows, t, read)
    requires Exec(s, acts).rejected + Exec(s, acts).failed == 0
    ensures var e := Exec(s, acts);
            Rehydrated(read) + TurnsOf(Outstanding(e), t) == e.memory[t]
  {
    RowsAlways(s, acts);
    TailAlways(s, acts);
    RestartReadsOnlyStoredTurns(s, acts, t, read);
    FrontIsRead(Exec(s, acts), t, read);
  }

  lemma FrontIsRead(e: Store, t: ThreadId, read: seq<Turn>)
    requires RowInv(e) && TailInv(e) && e.rejected + e.failed == 0
    requires t in e.memory && Selected(e.rows, t, read) && Ascending(Rehydrated(read))
    ensures Rehydrated(read) + TurnsOf(Outstanding(e), t) == e.memory[t]
  {
    hide RowInv, Selected, Written, Rehydrated, TurnsOf, Outstanding, Ascending;
    var turns, out := e.memory[t], TurnsOf(Outstanding(e), t);
    assert TailOut(turns, out, e.rows, t);
    ReadIsFront(e, t, read, |turns| - |out|);
    assert turns[..|turns| - |out|] + turns[|turns| - |out|..] == turns;
  }

  lemma ReadIsFront(e: Store, t: ThreadId, read: seq<Turn>, k: nat)
    requires RowInv(e) && t in e.memory && Selected(e.rows, t, read) && Ascending(Rehydrated(read))
    requires k <= |e.memory[t]| && Written(e.memory[t], e.rows, t, k)
    ensures Rehydrated(read) == e.memory[t][..k]
  {
    var front := e.memory[t][..k];
    assert Ascending(front) by {
      assert ThreadOk(e.memory[t]);
    }
    hide RowInv, Selected, Written, Rehydrated, Ascending;
    forall x ensures x in Rehydrated(read) <==> x in front {
      ReadIffWritten(e, t, read, k, x);
    }
    AscendingUnique(Rehydrated(read), front);
  }

  lemma ReadIffWritten(e: Store, t: ThreadId, read: seq<Turn>, k: nat, x: Turn)
    requires RowInv(e) && t in e.memory && Selected(e.rows, t, read)
    requires k <= |e.memory[t]| && Written(e.memory[t], e.rows, t, k)
    ensures x in Rehydrated(read) <==> x in e.memory[t][..k]
  {
    var turns := e.memory[t];
    assert ThreadOk(turns);
    if x in Rehydrated(read) {
      var i :| 0 <= i < |read| && Rehydrated(read)[i] == x;
      ReadIsStored(e, t, read, i);
      var j :| 0 <= j < |turns| && turns[j] == x;
      assert (t, turns[j].no) in e.rows;
      assert turns[..k][j] == x;
    }
    if x in turns[..k] {
      var j :| 0 <= j < k && turns[j] == x;
      assert (t, x.no) in e.rows;
      var i :| 0 <= i < |read| && read[i].no == x.no;
      ReadIsStored(e, t, read, i);
      SameNoSameTurn(turns, Rehydrated(read)[i], x);
    }
  }

  /**
   Persist and rehydrate is the identity: when no write was dropped and nothing is left to write, the
   rehydrated thread has the same turns, and its messages array is the one in memory, byte for byte.
   */
  lemma RestartIsIdentity(s: Store, acts: seq<Action>, t: ThreadId, read: seq<Turn>)
    requires Started(s) && t in Exec(s, acts).memory && Selected(Exec(s, acts).rows, t, read)
    requires Exec(s, acts).rejected + Exec(s, acts).failed == 0
    requires JobsOf(Exec(s, acts).queue) == [] && Exec(s, acts).batch == []
    ensures Rehydrated(read) == Exec(s, acts).memory[t]
    ensures Lossless(Rehydrated(read)) == Lossless(Exec(s, acts).memory[t])
  {
    RestartReadsPrefix(s, acts, t, read);
    assert TurnsOf(Outstanding(Exec(s, acts)), t) == [];
  }

  lemma SameNoSameTurn(turns: seq<Turn>, x: Turn, y: Turn)
    requires StrictlyIncreasing(turns) && x in turns && y in turns && x.no == y.no
    ensures x == y
  {
    var i :| 0 <= i < |turns| && turns[i] == x;
    var j :| 0 <= j < |turns| && turns[j] == y;
    assert i == j;
  }
}
