/**
 * The volatile store (src/tdd_mcp/repository/memory.py): a dictionary of event lists that
 * `append_event` extends in place, and a dictionary of lock records that `create_lock`
 * assigns and `remove_lock` pops. Each method is proved against the store contract.
 */
module Memory {
  import opened Events
  import opened Repository

  class InMemoryRepository {
    var events: map<string, seq<TDDEvent>>
    var locks: map<string, LockMeta>

    /** A key of `events` is only ever created by an append, so no stored log is empty. */
    ghost predicate Valid()
      reads this
    {
      forall id :: id in events ==> events[id] != []
    }

    /** The store as the contract sees it. */
    function Model(): StoreState
      reads this
    {
      StoreState(events, locks)
    }

    constructor ()
      ensures Valid() && Model() == EmptyStore
    {
      events := map[];
      locks := map[];
    }

    method LoadEvents(id: string) returns (r: seq<TDDEvent>)
      ensures r == Repository.LoadEvents(Model(), id)
      ensures Valid() && r == [] ==> !Repository.SessionExists(Model(), id)
    {
      if id in events {
        r := events[id];
      } else {
        r := [];
      }
    }

    method AppendEvent(id: string, e: TDDEvent)
      requires Valid()
      modifies this
      ensures Valid()
      ensures Model() == Repository.AppendEvent(old(Model()), id, e)
    {
      if id !in events {
        events := events[id := []];
      }
      events := events[id := events[id] + [e]];
    }

    /** True exactly when the session's log is non-empty, that is, after its first append. */
    method SessionExists(id: string) returns (b: bool)
      requires Valid()
      ensures b == Repository.SessionExists(Model(), id)
      ensures b <==> Repository.LoadEvents(Model(), id) != []
    {
      b := id in events;
    }

    method CreateLock(id: string, meta: LockMeta)
      modifies this`locks
      ensures Model() == Repository.CreateLock(old(Model()), id, meta)
    {
      locks := locks[id := meta];
    }

    method RemoveLock(id: string)
      modifies this`locks
      ensures Model() == Repository.RemoveLock(old(Model()), id)
    {
      if id in locks {
        locks := locks - {id};
      }
    }

    method IsLocked(id: string) returns (b: bool)
      ensures b == Repository.IsLocked(Model(), id)
    {
      b := id in locks;
    }
  }
}
