/**
 * The persistence contract every session store satisfies (src/tdd_mcp/repository/base.py).
 * A store is, observably, two independent maps: each session's ordered event log, and each
 * session's lock metadata. The functions here say what each of the six operations does to
 * that pair; `Run` replays a whole series of operations from the empty store, and the
 * lemmas say what any such series leaves behind.
 */
module Repository {
  import opened Events

  /** Lock metadata: `locked_by`, `locked_at` and whatever else the caller passes. */
  type LockMeta = map<string, string>

  datatype StoreState = StoreState(events: map<string, seq<TDDEvent>>, locks: map<string, LockMeta>)

  const EmptyStore: StoreState := StoreState(map[], map[])

  /** `load_events`: the session's events in append order; `[]` for an unknown session. */
  function LoadEvents(s: StoreState, id: string): seq<TDDEvent> {
    if id in s.events then s.events[id] else []
  }

  /** `append_event`: one more event at the end of this session's log, and nothing else. */
  function AppendEvent(s: StoreState, id: string, e: TDDEvent): (t: StoreState)
    ensures LoadEvents(t, id) == LoadEvents(s, id) + [e]
    ensures forall other :: other != id ==> LoadEvents(t, other) == LoadEvents(s, other)
    ensures t.events.Keys == s.events.Keys + {id}
    ensures t.locks == s.locks
  {
    StoreState(s.events[id := LoadEvents(s, id) + [e]], s.locks)
  }

  /** `session_exists`. */
  predicate SessionExists(s: StoreState, id: string) {
    id in s.events
  }

  /** `is_locked`: the presence of a lock record, whatever it holds. */
  predicate IsLocked(s: StoreState, id: string) {
    id in s.locks
  }

  /** `create_lock`: sets (or overwrites) this session's lock record and touches no log. */
  function CreateLock(s: StoreState, id: string, meta: LockMeta): (t: StoreState)
    ensures IsLocked(t, id) && t.locks[id] == meta
    ensures forall other :: other != id ==> (IsLocked(t, other) <==> IsLocked(s, other))
    ensures forall other :: other != id && other in s.locks ==> other in t.locks && t.locks[other] == s.locks[other]
    ensures t.events == s.events
  {
    StoreState(s.events, s.locks[id := meta])
  }

  /** `remove_lock`: drops this session's lock record if there is one; a no-op otherwise. */
  function RemoveLock(s: StoreState, id: string): (t: StoreState)
    ensures !IsLocked(t, id)
    ensures forall other :: other != id ==> (IsLocked(t, other) <==> IsLocked(s, other))
    ensures forall other :: other != id && other in s.locks ==> other in t.locks && t.locks[other] == s.locks[other]
    ensures t.events == s.events
    ensures !IsLocked(s, id) ==> t == s
  {
    StoreState(s.events, s.locks - {id})
  }

  /** The state-changing calls a client can make on a store. */
  datatype Op =
    | Append(id: string, event: TDDEvent)
    | Lock(id: string, meta: LockMeta)
    | Unlock(id: string)

  function Perform(s: StoreState, op: Op): StoreState {
    match op
    case Append(id, e) => AppendEvent(s, id, e)
    case Lock(id, m) => CreateLock(s, id, m)
    case Unlock(id) => RemoveLock(s, id)
  }

  /** The store after performing `ops`, in order, on a fresh store. */
  function Run(ops: seq<Op>): StoreState {
    if ops == [] then EmptyStore else Perform(Run(ops[..|ops| - 1]), ops[|ops| - 1])
  }

  /** The events `ops` appended to session `id`, in call order, duplicates kept. */
  function AppendedTo(ops: seq<Op>, id: string): seq<TDDEvent> {
    if ops == [] then []
    else
      var last := ops[|ops| - 1];
      AppendedTo(ops[..|ops| - 1], id) + (if last.Append? && last.id == id then [last.event] else [])
  }

  /** Whether the last lock call on `id` in `ops`, if any, was a `create_lock`. */
  function LockedAfter(ops: seq<Op>, id: string): bool {
    if ops == [] then false
    else
      var last := ops[|ops| - 1];
      if last.Lock? && last.id == id then true
      else if last.Unlock? && last.id == id then false
      else LockedAfter(ops[..|ops| - 1], id)
  }

  /** A session's log holds exactly the events appended to it, in chronological order, with
      no reordering and no deduplication; lock calls never change a log. */
  lemma {:induction false} LoadIsAppendOrder(ops: seq<Op>, id: string)
    ensures LoadEvents(Run(ops), id) == AppendedTo(ops, id)
  {
    if ops != [] {
      LoadIsAppendOrder(ops[..|ops| - 1], id);
    }
  }

  /** A session exists exactly when at least one event was appended to it, and then its log
      is not empty. */
  lemma {:induction false} ExistsIffAppended(ops: seq<Op>, id: string)
    ensures SessionExists(Run(ops), id) <==> AppendedTo(ops, id) != []
    ensures SessionExists(Run(ops), id) <==> LoadEvents(Run(ops), id) != []
  {
    LoadIsAppendOrder(ops, id);
    if ops != [] {
      ExistsIffAppended(ops[..|ops| - 1], id);
    }
  }

  /** A session is locked exactly when its latest lock call was `create_lock`: removing a lock
      that is not there leaves the session unlocked, and a second `create_lock` keeps it locked. */
  lemma {:induction false} LockedIffLastLockCall(ops: seq<Op>, id: string)
    ensures IsLocked(Run(ops), id) <==> LockedAfter(ops, id)
  {
    if ops != [] {
      LockedIffLastLockCall(ops[..|ops| - 1], id);
    }
  }

  /** Every log present in a store reached through these calls is non-empty. */
  lemma {:induction false} LogsNonEmpty(ops: seq<Op>)
    ensures forall id :: id in Run(ops).events ==> Run(ops).events[id] != []
  {
    forall id | id in Run(ops).events
      ensures Run(ops).events[id] != []
    {
      ExistsIffAppended(ops, id);
    }
  }
}
