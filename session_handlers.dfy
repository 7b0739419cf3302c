/**
 * The session lifecycle (src/tdd_mcp/handlers/session_handlers.py): start, update, resume,
 * pause and end, over one store and the registry of active sessions. The source keeps the
 * registry and the store in module globals; here an `Engine` object owns both. The registry
 * is a dictionary in insertion order, so it is an ordered sequence of distinct ids, and every
 * operation that needs "the" active session takes the first one.
 */
module SessionHandlers {
  import opened Wrappers
  import opened Text
  import opened Exceptions
  import opened Events
  import opened Repository
  import opened Memory
  import opened Session

  /** The lock record a handler writes: held by "current_agent" since `lockedAt`. */
  function AgentLock(lockedAt: string): LockMeta {
    map["locked_by" := "current_agent", "locked_at" := lockedAt]
  }

  /** The holder named in a locked error: the record's "locked_by", or "unknown_agent". */
  function LockHolder(meta: LockMeta): string {
    if "locked_by" in meta then meta["locked_by"] else "unknown_agent"
  }

  /** A record this engine writes names "current_agent" as its holder and keeps `lockedAt`;
      a record without "locked_by" is reported as held by "unknown_agent". */
  lemma AgentLockHolder(lockedAt: string, meta: LockMeta)
    ensures LockHolder(AgentLock(lockedAt)) == "current_agent"
    ensures AgentLock(lockedAt).Keys == {"locked_by", "locked_at"}
    ensures AgentLock(lockedAt)["locked_at"] == lockedAt
    ensures "locked_by" !in meta ==> LockHolder(meta) == "unknown_agent"
    ensures "locked_by" in meta ==> LockHolder(meta) == meta["locked_by"]
  {
  }

  /** The registry after `get_or_create_session(id)`: a new id goes at the end, a known one
      leaves it as it is. */
  function Registered(registry: seq<string>, id: string): (r: seq<string>)
    ensures id in r && (forall x :: x in r <==> x in registry || x == id)
    ensures NoDuplicates(registry) ==> NoDuplicates(r)
    ensures registry != [] ==> r[0] == registry[0]
  {
    if id in registry then registry else registry + [id]
  }

  predicate NoDuplicates(s: seq<string>) {
    forall i, j :: 0 <= i < j < |s| ==> s[i] != s[j]
  }

  ghost predicate StoreWellFormed(events: map<string, seq<TDDEvent>>) {
    forall id :: id in events ==> AllWellFormed(events[id])
  }

  lemma AppendKeepsWellFormed(s: StoreState, id: string, e: TDDEvent)
    requires StoreWellFormed(s.events) && WellFormed(e)
    ensures StoreWellFormed(AppendEvent(s, id, e).events)
  {
    var t := AppendEvent(s, id, e);
    forall x | x in t.events
      ensures AllWellFormed(t.events[x])
    {
      assert t.events[x] == LoadEvents(t, x);
    }
  }

  /** Decimal rendering of an integer, as `str(n)`. */
  function IntText(n: int): string {
    if n < 0 then "-" + NatText(-n) else NatText(n)
  }

  function NatText(n: nat): string {
    var digit := ["0123456789"[n % 10]];
    if n < 10 then digit else NatText(n / 10) + digit
  }

  /** The text `handle_end_session` returns for a session with a state. */
  function SummaryText(st: TDDSessionState, totalEvents: nat): string {
    "Session completed: " + st.goal + "\n"
    + "Final phase: " + st.currentPhase + "\n"
    + "Cycles completed: " + IntText(st.cycleNumber) + "\n"
    + "Total events: " + IntText(totalEvents)
  }

  /** Appending pieces keeps whatever a text already contains. */
  lemma {:induction false} ContainsThroughTail(s: string, t: string, c1: string, c2: string,
                                               c3: string, c4: string, c5: string, c6: string)
    requires Contains(s, t)
    ensures Contains(s + c1 + c2 + c3 + c4 + c5 + c6, t)
  {
    ContainsExtend(s, t, c1);
    ContainsExtend(s + c1, t, c2);
    ContainsExtend(s + c1 + c2, t, c3);
    ContainsExtend(s + c1 + c2 + c3, t, c4);
    ContainsExtend(s + c1 + c2 + c3 + c4, t, c5);
    ContainsExtend(s + c1 + c2 + c3 + c4 + c5, t, c6);
  }

  /** The summary's shape over its pieces: a head, the goal, two more pieces, the phase, and
      six pieces after it. */
  lemma {:induction false} PiecesContain(head: string, goal: string, c1: string, c2: string,
                                         phase: string, t1: string, t2: string, t3: string,
                                         t4: string, t5: string, t6: string)
    ensures var r := head + goal + c1 + c2 + phase + t1 + t2 + t3 + t4 + t5 + t6;
      r[..|head|] == head && Contains(r, goal) && Contains(r, phase)
  {
    var s1 := head + goal;
    var s3 := s1 + c1 + c2 + phase;
    var r := s3 + t1 + t2 + t3 + t4 + t5 + t6;
    ContainsSuffix(head, goal);
    ContainsExtend(s1, goal, c1);
    ContainsExtend(s1 + c1, goal, c2);
    ContainsExtend(s1 + c1 + c2, goal, phase);
    ContainsSuffix(s1 + c1 + c2, phase);
    ContainsThroughTail(s3, goal, t1, t2, t3, t4, t5, t6);
    ContainsThroughTail(s3, phase, t1, t2, t3, t4, t5, t6);
    assert r == head + (r[|head|..]);
  }

  /** The summary starts with the goal and names the final phase. */
  lemma SummaryMentions(st: TDDSessionState, totalEvents: nat)
    ensures var r := SummaryText(st, totalEvents);
      && r[..|"Session completed: "|] == "Session completed: "
      && Contains(r, st.goal)
      && Contains(r, st.currentPhase)
  {
    PiecesContain("Session completed: ", st.goal, "\n", "Final phase: ", st.currentPhase,
                  "\n", "Cycles completed: ", IntText(st.cycleNumber), "\n", "Total events: ",
                  IntText(totalEvents));
  }

  class Engine {
    const repository: InMemoryRepository
    var activeSessions: seq<string>

    /** Registered ids are distinct, stored and locked; every stored event has the shape the
        handlers give it. */
    ghost predicate Valid()
      reads this, repository
    {
      && repository.Valid()
      && NoDuplicates(activeSessions)
      && (forall k :: 0 <= k < |activeSessions| ==>
            activeSessions[k] in repository.events && activeSessions[k] in repository.locks)
      && StoreWellFormed(repository.events)
    }

    /** The state of the first active session. */
    function ActiveState(): Option<TDDSessionState>
      reads this, repository
      requires activeSessions != []
    {
      CurrentState(repository.Model(), activeSessions[0])
    }

    /** In a valid engine the first active session always has a state, with a known phase and
        a cycle of at least 1. */
    lemma ActiveStateKnown()
      requires Valid() && activeSessions != []
      ensures ActiveState().Some?
      ensures IsPhase(ActiveState().value.currentPhase) && ActiveState().value.cycleNumber >= 1
    {
      assert activeSessions[0] in repository.events;
      StateAfterWellFormed(activeSessions[0], repository.events[activeSessions[0]]);
    }

    /** A fresh volatile store and an empty registry. */
    constructor ()
      ensures Valid() && fresh(repository)
      ensures repository.Model() == EmptyStore && activeSessions == []
    {
      repository := new InMemoryRepository();
      activeSessions := [];
    }

    /** `get_or_create_session`: registers `id` unless it is registered already. */
    method GetOrCreateSession(id: string) returns (session: TDDSession)
      modifies this`activeSessions
      ensures activeSessions == Registered(old(activeSessions), id)
      ensures session.sessionId == id && session.repository == repository
    {
      if id !in activeSessions {
        activeSessions := activeSessions + [id];
      }
      session := new TDDSession(id, repository);
    }

    /** `handle_start_session`. The payload is validated before anything else happens; then
        the id is registered, the genesis event appended and the lock created. `sessionId`
        stands for the fresh `uuid4()`, `now` and `lockedAt` for the two clock readings. */
    method StartSession(goal: string, testFiles: seq<string>, implementationFiles: seq<string>,
                        runTests: seq<string>, customRules: seq<string>,
                        sessionId: string, now: Timestamp, lockedAt: string)
      returns (r: Result<string, Error>)
      requires Valid()
      modifies this, repository
      ensures Valid()
      ensures var p := SessionStartedEvent(goal, testFiles, implementationFiles, runTests, customRules);
        && (r.Success? <==> ValidSessionStarted(p))
        && (r.Failure? ==>
              && r.error == ValidationError("SessionStartedEvent")
              && activeSessions == old(activeSessions)
              && repository.Model() == old(repository.Model()))
        && (r.Success? ==>
              && r.value == sessionId
              && activeSessions == Registered(old(activeSessions), sessionId)
              && repository.Model() == CreateLock(
                   AppendEvent(old(repository.Model()), sessionId, TDDEvent(now, SessionStartedType, Started(p))),
                   sessionId, AgentLock(lockedAt)))
      ensures r.Success? && sessionId !in old(repository.events) ==>
        LoadEvents(repository.Model(), sessionId)
          == [TDDEvent(now, SessionStartedType, Started(SessionStartedEvent(goal, testFiles, implementationFiles, runTests, customRules)))]
      ensures r.Success? ==>
        var st := StateAfter(sessionId, LoadEvents(repository.Model(), sessionId));
        st.currentPhase == WriteTest && st.cycleNumber == 1 && st.goal == goal
    {
      var p := SessionStartedEvent(goal, testFiles, implementationFiles, runTests, customRules);
      var data := Construct(Started(p));
      if data.Failure? {
        return Failure(data.error);
      }
      var e := TDDEvent(now, SessionStartedType, data.value);
      ghost var before := repository.Model();
      var session := GetOrCreateSession(sessionId);
      var _ := session.Update(e);
      AppendKeepsWellFormed(before, sessionId, e);
      repository.CreateLock(sessionId, AgentLock(lockedAt));
      StartedResets(sessionId, LoadEvents(before, sessionId), now, p);
      r := Success(sessionId);
    }

    /** `handle_update_session`: needs an active session; records one `session_updated` event
        holding exactly the arguments given (`None` means "unchanged"). */
    method UpdateSession(goal: Option<string>, testFiles: Option<seq<string>>,
                         implementationFiles: Option<seq<string>>, runTests: Option<seq<string>>,
                         customRules: Option<seq<string>>, now: Timestamp)
      returns (r: Result<bool, Error>)
      requires Valid()
      modifies repository
      ensures Valid()
      ensures old(activeSessions) == [] ==>
        r == Failure(InvalidSession("No active session to update"))
        && repository.Model() == old(repository.Model())
      ensures old(activeSessions) != [] ==>
        && r == Success(true)
        && repository.Model() == AppendEvent(old(repository.Model()), activeSessions[0],
             TDDEvent(now, SessionUpdatedType,
               Updated(SessionUpdatedEvent(goal, testFiles, implementationFiles, runTests, customRules))))
    {
      if activeSessions == [] {
        return Failure(InvalidSession("No active session to update"));
      }
      var sessionId := activeSessions[0];
      var session := new TDDSession(sessionId, repository);
      var current := session.GetCurrentState();
      if current.None? {
        return Failure(InvalidSession("Cannot update session without existing state"));
      }
      var e := TDDEvent(now, SessionUpdatedType,
        Updated(SessionUpdatedEvent(goal, testFiles, implementationFiles, runTests, customRules)));
      ghost var before := repository.Model();
      var _ := session.Update(e);
      AppendKeepsWellFormed(before, sessionId, e);
      r := Success(true);
    }

    /** `handle_resume_session`: not found when the store has no events for `id`; locked,
        naming the holder, when a lock record exists; otherwise lock, register and return the
        replayed state. Both failures change nothing. */
    method ResumeSession(sessionId: string, lockedAt: string) returns (r: Result<TDDSessionState, Error>)
      requires Valid()
      modifies this, repository
      ensures Valid()
      ensures !SessionExists(old(repository.Model()), sessionId) ==>
        r == Failure(InvalidSession("Session '" + sessionId + "' does not exist"))
      ensures SessionExists(old(repository.Model()), sessionId) && IsLocked(old(repository.Model()), sessionId) ==>
        r == Failure(SessionLocked(sessionId, LockHolder(old(repository.locks[sessionId]))))
      ensures r.Failure? ==>
        repository.Model() == old(repository.Model()) && activeSessions == old(activeSessions)
      ensures SessionExists(old(repository.Model()), sessionId) && !IsLocked(old(repository.Model()), sessionId) ==>
        && r == Success(StateAfter(sessionId, LoadEvents(old(repository.Model()), sessionId)))
        && repository.Model() == CreateLock(old(repository.Model()), sessionId, AgentLock(lockedAt))
        && activeSessions == Registered(old(activeSessions), sessionId)
      ensures sessionId in old(activeSessions) ==> r.Failure? && r.error.SessionLocked?
    {
      var found := repository.SessionExists(sessionId);
      if !found {
        return Failure(InvalidSession("Session '" + sessionId + "' does not exist"));
      }
      var locked := repository.IsLocked(sessionId);
      if locked {
        return Failure(SessionLocked(sessionId, LockHolder(repository.locks[sessionId])));
      }
      repository.CreateLock(sessionId, AgentLock(lockedAt));
      ghost var locked' := repository.Model();
      var session := GetOrCreateSession(sessionId);
      var state := session.LoadFromDisk();
      if state.None? {
        return Failure(InvalidSession("Session '" + sessionId + "' has no valid state"));
      }
      assert repository.Model() == locked';
      assert LoadEvents(repository.Model(), sessionId) == LoadEvents(old(repository.Model()), sessionId);
      assert forall k :: 0 <= k < |activeSessions| ==>
        activeSessions[k] in repository.events && activeSessions[k] in repository.locks;
      r := Success(state.value);
    }

    /** `handle_pause_session`: unlocks the first active session, empties the whole registry
        and returns that id; no event is touched. */
    method PauseSession() returns (r: Result<string, Error>)
      requires Valid()
      modifies this, repository
      ensures Valid()
      ensures old(activeSessions) == [] ==>
        r == Failure(InvalidSession("No active session to pause"))
        && activeSessions == [] && repository.Model() == old(repository.Model())
      ensures old(activeSessions) != [] ==>
        && r == Success(old(activeSessions[0]))
        && repository.Model() == RemoveLock(old(repository.Model()), old(activeSessions[0]))
        && activeSessions == []
    {
      if activeSessions == [] {
        return Failure(InvalidSession("No active session to pause"));
      }
      var sessionId := activeSessions[0];
      repository.RemoveLock(sessionId);
      activeSessions := [];
      r := Success(sessionId);
    }

    /** `handle_end_session`: summarises the first active session (its goal, phase, cycle and
        number of history lines, which is its number of events), then unlocks it and empties
        the registry. */
    method EndSession(fmt: Timestamp -> string) returns (r: Result<string, Error>)
      requires Valid()
      modifies this, repository
      ensures Valid()
      ensures old(activeSessions) == [] ==>
        r == Failure(InvalidSession("No active session to end"))
        && activeSessions == [] && repository.Model() == old(repository.Model())
      ensures old(activeSessions) != [] ==>
        var id := old(activeSessions[0]);
        var log := LoadEvents(old(repository.Model()), id);
        && r == Success(SummaryText(StateAfter(id, log), |log|))
        && repository.Model() == RemoveLock(old(repository.Model()), id)
        && activeSessions == []
    {
      if activeSessions == [] {
        return Failure(InvalidSession("No active session to end"));
      }
      var sessionId := activeSessions[0];
      var session := new TDDSession(sessionId, repository);
      var state := session.GetCurrentState();
      var history := session.GetHistory(fmt);
      var summary;
      if state.Some? {
        summary := SummaryText(state.value, |history|);
      } else {
        summary := "Session ended without valid state";
      }
      repository.RemoveLock(sessionId);
      activeSessions := [];
      r := Success(summary);
    }
  }
}
