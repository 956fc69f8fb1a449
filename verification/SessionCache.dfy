/**
 `get_thread` (backend/app/agent/store.py) for one session: any number of calls, interleaved at the
 rehydrate they wait for. Objects are told apart by the order in which they are created.
 */
module SessionCache {
  import opened Json

  datatype CallState = Waiting | Returned(thread: nat)

  /** `cached` is the session's entry in `_threads`; `newRows` counts enqueued new-thread rows. */
  datatype Cache = Cache(cached: Option<nat>, created: nat, calls: map<nat, CallState>, newRows: nat)

  datatype Action =
    | Call(id: nat)
    | Resume(id: nat, found: bool)

  /**
   `found`: the rehydrate read a thread from the database. It builds its object before the second look at the cache.
   */
  function Next(s: Cache, a: Action): Cache {
    match a
    case Call(id) =>
      if id in s.calls then s
      else s.(calls := s.calls[id := if s.cached.Some? then Returned(s.cached.value) else Waiting])
    case Resume(id, found) =>
      if id !in s.calls || !s.calls[id].Waiting? then s
      else
        var rehydrated := if found then 1 else 0;
        if s.cached.Some? then s.(created := s.created + rehydrated, calls := s.calls[id := Returned(s.cached.value)])
        else
          s.(cached := Some(s.created), created := s.created + 1, calls := s.calls[id := Returned(s.created)],
             newRows := s.newRows + 1 - rehydrated)
  }

  const EMPTY := Cache(None, 0, map[], 0)

  ghost function Exec(acts: seq<Action>): Cache {
    if acts == [] then EMPTY else Next(Exec(acts[..|acts| - 1]), acts[|acts| - 1])
  }

  /**
   However the calls interleave, all of them return the one cached object, and at most one new-thread row is enqueued.
   */
  lemma {:induction false} OneThreadPerSession(acts: seq<Action>)
    ensures var s := Exec(acts);
            && (forall c | c in s.calls && s.calls[c].Returned? :: s.cached == Some(s.calls[c].thread))
            && s.newRows <= 1 && (s.cached.None? ==> s.newRows == 0)
    decreases |acts|
  {
    if acts != [] {
      OneThreadPerSession(acts[..|acts| - 1]);
    }
  }

  /** The cached object never changes once it is there. */
  lemma {:induction false} CachedForGood(acts: seq<Action>, more: seq<Action>)
    requires Exec(acts).cached.Some?
    ensures Exec(acts + more).cached == Exec(acts).cached
    decreases |more|
  {
    if more == [] {
      assert acts + more == acts;
    } else {
      assert (acts + more)[..|acts + more| - 1] == acts + more[..|more| - 1];
      CachedForGood(acts, more[..|more| - 1]);
    }
  }
}
