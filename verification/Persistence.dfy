/**
 The persistence protocol of `ThreadStore` (backend/app/agent/store.py): producers that never wait,
 a bounded queue, and one batching writer, as a state machine over their interleavings. An action that
 the state does not allow changes nothing, so a run is any list of actions.
 */
module Persistence {
  import opened Json
  import opened Transcript
  import opened Curation

  const BATCH_MAX := 50

  type ThreadId = nat

  datatype Job = TurnJob(thread: ThreadId, turn: Turn) | OtherJob(id: nat)

  datatype Item = Work(job: Job) | Shutdown

  datatype Writer = Waiting | Acquiring(stop: bool) | Writing(stop: bool, size: nat) | Stopped

  datatype Store = Store(
    memory: map<ThreadId, seq<Turn>>,
    queue: seq<Item>,
    queueMax: nat,
    writer: Writer,
    batch: seq<Job>,
    dropped: nat,
    rows: map<(ThreadId, nat), Turn>,
    // what happened so far
    accepted: seq<Job>,
    attempted: seq<Job>,
    rejected: nat,
    failed: nat,
    releaseFailures: nat,
    closedAt: Option<nat>)

  datatype Action =
    | NewThread(thread: ThreadId)
    | AppendTurn(thread: ThreadId, role: Role, kind: Kind, content: seq<Block>, meta: Dict)
    | Enqueue(id: nat)
    | Close
    | Take
    | Acquire(ok: bool)
    | Write(ok: bool, applied: bool)
    | Release(ok: bool)

  function JobsOf(items: seq<Item>): seq<Job> {
    if items == [] then []
    else if items[0].Work? then [items[0].job] + JobsOf(items[1..])
    else JobsOf(items[1..])
  }

  /** `_enqueue`: `put_nowait`, or one more dropped write when the queue is full. */
  function Put(s: Store, job: Job): Store {
    if |s.queue| < s.queueMax then s.(queue := s.queue + [Work(job)], accepted := s.accepted + [job])
    else s.(dropped := s.dropped + 1, rejected := s.rejected + 1)
  }

  function NewTurn(turns: seq<Turn>, role: Role, kind: Kind, content: seq<Block>, meta: Dict): Turn {
    Turn(NextNo(turns), role, kind, CanonicalBlocks(content), CanonicalDict(meta))
  }

  /** `INSERT ... ON CONFLICT (thread_id, seq) DO NOTHING`. */
  function Insert(rows: map<(ThreadId, nat), Turn>, job: Job): map<(ThreadId, nat), Turn> {
    if job.OtherJob? || (job.thread, job.turn.no) in rows then rows
    else rows[(job.thread, job.turn.no) := job.turn]
  }

  function TakeSize(s: Store): nat {
    if |s.queue| < BATCH_MAX then |s.queue| else BATCH_MAX
  }

  /** One wake-up of the writer: it drains what is there, up to the batch limit, without waiting. */
  function TakeStep(s: Store): Store
    requires s.writer.Waiting? && s.queue != []
  {
    var items := s.queue[..TakeSize(s)];
    var stop := Shutdown in items;
    var jobs := JobsOf(items);
    s.(queue := s.queue[TakeSize(s)..], batch := jobs,
       writer := if jobs != [] then Acquiring(stop) else if stop then Stopped else Waiting)
  }

  function After(stop: bool): Writer {
    if stop then Stopped else Waiting
  }

  predicate Enabled(s: Store, a: Action) {
    match a
    case NewThread(t) => t !in s.memory && forall k | k in s.rows :: k.0 != t
    case AppendTurn(t, _, _, content, meta) =>
      t in s.memory && WellFormedDict(meta) && forall b | b in content :: WellFormedDict(b)
    case Enqueue(_) => true
    case Close => s.closedAt.None? && |s.queue| < s.queueMax
    case Take => s.writer.Waiting? && s.queue != []
    case Acquire(_) => s.writer.Acquiring?
    case Write(ok, applied) => s.writer.Writing? && s.batch != [] && (ok ==> applied)
    case Release(_) => s.writer.Writing? && s.batch == []
  }

  function Next(s: Store, a: Action): Store {
    if !Enabled(s, a) then s
    else
      match a
      case NewThread(t) => Put(s.(memory := s.memory[t := []]), OtherJob(t))
      case AppendTurn(t, role, kind, content, meta) =>
        var turn := NewTurn(s.memory[t], role, kind, content, meta);
        Put(s.(memory := s.memory[t := s.memory[t] + [turn]]), TurnJob(t, turn))
      case Enqueue(id) => Put(s, OtherJob(id))
      case Close => s.(queue := s.queue + [Shutdown], closedAt := Some(|s.accepted|))
      case Take => TakeStep(s)
      case Acquire(ok) =>
        if ok then s.(writer := Writing(s.writer.stop, |s.batch|))
        else s.(dropped := s.dropped + |s.batch|, failed := s.failed + |s.batch|,
                attempted := s.attempted + s.batch, batch := [], writer := After(s.writer.stop))
      case Write(ok, applied) =>
        var t := s.(batch := s.batch[1..], attempted := s.attempted + [s.batch[0]],
                    rows := if applied then Insert(s.rows, s.batch[0]) else s.rows);
        if ok then t else t.(dropped := t.dropped + 1, failed := t.failed + 1)
      case Release(ok) =>
        var t := s.(writer := After(s.writer.stop));
        if ok then t else t.(dropped := t.dropped + s.writer.size, releaseFailures := t.releaseFailures + s.writer.size)
  }

  /** A process that just started: what memory holds of a thread is what the database holds. */
  ghost predicate Started(s: Store) {
    && s.queue == [] && s.batch == [] && s.writer.Waiting? && s.closedAt.None?
    && s.accepted == [] && s.attempted == [] && s.dropped == s.rejected == s.failed == s.releaseFailures == 0
    && MemoryOk(s.memory) && RowsMatch(s.memory, s.rows)
    && forall t | t in s.memory :: forall i | 0 <= i < |s.memory[t]| :: (t, s.memory[t][i].no) in s.rows
  }

  ghost function Exec(s: Store, acts: seq<Action>): Store {
    if acts == [] then s else Next(Exec(s, acts[..|acts| - 1]), acts[|acts| - 1])
  }

  /** What `append_turn` stores is canonical. */
  predicate StoredOk(t: Turn) {
    && WellFormedDict(t.meta) && CanonicalDict(t.meta) == t.meta
    && forall b | b in t.content :: WellFormedDict(b) && CanonicalDict(b) == b
  }

  predicate MemoryOk(memory: map<ThreadId, seq<Turn>>) {
    forall t | t in memory :: ThreadOk(memory[t])
  }

  predicate ThreadOk(turns: seq<Turn>) {
    StrictlyIncreasing(turns) && forall i | 0 <= i < |turns| :: StoredOk(turns[i])
  }

  /** Every row of a thread in memory is the in-memory turn with that seq. */
  ghost predicate RowsMatch(memory: map<ThreadId, seq<Turn>>, rows: map<(ThreadId, nat), Turn>) {
    forall k | k in rows && k.0 in memory :: rows[k].no == k.1 && rows[k] in memory[k.0]
  }
}
