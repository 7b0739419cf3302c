/**
 * Session state by event sourcing (src/tdd_mcp/domain/session.py). The state of a session
 * is never stored: it is the strict left fold of its whole event log, starting from fixed
 * defaults. `StateAfter` is that fold as a function; `TDDSession.CalculateStateFromEvents`
 * is the source's loop, proved equal to it.
 */
module Session {
  import opened Wrappers
  import opened Exceptions
  import opened Events
  import opened Repository
  import opened Memory

  datatype TDDSessionState = TDDSessionState(
    sessionId: string,
    currentPhase: string,
    cycleNumber: int,
    goal: string,
    testFiles: seq<string>,
    implementationFiles: seq<string>,
    runTests: seq<string>,
    customRules: seq<string>)

  /** The files the agent may edit in the current phase. */
  function AllowedFiles(st: TDDSessionState): seq<string> {
    if st.currentPhase == WriteTest then st.testFiles
    else if st.currentPhase == Implement then st.implementationFiles
    else if st.currentPhase == Refactor then st.testFiles + st.implementationFiles
    else []
  }

  const GlobalRules: seq<string> := [
    "Write ONE failing test per cycle",
    "Write minimal code to make test pass",
    "Refactor only after tests pass",
    "Evidence required for phase transitions"
  ]

  /** The rules shown to the agent: the four global rules, then the session's own, in order. */
  function RulesReminder(st: TDDSessionState): (r: seq<string>)
    ensures |r| == |GlobalRules| + |st.customRules|
    ensures r[..|GlobalRules|] == GlobalRules && r[|GlobalRules|..] == st.customRules
  {
    GlobalRules + st.customRules
  }

  /** Refactoring may touch both kinds of file, tests first; the other two phases only one
      kind; an unknown phase none. */
  lemma AllowedFilesByPhase(st: TDDSessionState)
    ensures st.currentPhase == WriteTest ==> AllowedFiles(st) == st.testFiles
    ensures st.currentPhase == Implement ==> AllowedFiles(st) == st.implementationFiles
    ensures st.currentPhase == Refactor ==>
      && |AllowedFiles(st)| == |st.testFiles| + |st.implementationFiles|
      && AllowedFiles(st)[..|st.testFiles|] == st.testFiles
      && AllowedFiles(st)[|st.testFiles|..] == st.implementationFiles
    ensures !IsPhase(st.currentPhase) ==> AllowedFiles(st) == []
  {
  }

  /** The values the fold starts from. */
  function Defaults(id: string): TDDSessionState {
    TDDSessionState(id, WriteTest, 1, "", [], [], [], [])
  }

  function Overwrite<T>(present: Option<T>, current: T): T {
    if present.Some? then present.value else current
  }

  /** One step of the fold, dispatched on `event_type`, reading the fields that branch needs
      from whatever payload the envelope carries. A `log_entry`, an unknown type, or a payload
      lacking those fields leaves the state as it is. */
  function ApplyEvent(st: TDDSessionState, e: TDDEvent): TDDSessionState {
    if e.eventType == SessionStartedType && StartFields(e.data).Some? then
      var p := StartFields(e.data).value;
      st.(goal := p.goal, testFiles := p.testFiles, implementationFiles := p.implementationFiles,
          runTests := p.runTests, customRules := p.customRules,
          currentPhase := WriteTest, cycleNumber := 1)
    else if e.eventType == SessionUpdatedType && UpdateFields(e.data).Some? then
      var p := UpdateFields(e.data).value;
      st.(goal := Overwrite(p.goal, st.goal),
          testFiles := Overwrite(p.testFiles, st.testFiles),
          implementationFiles := Overwrite(p.implementationFiles, st.implementationFiles),
          runTests := Overwrite(p.runTests, st.runTests),
          customRules := Overwrite(p.customRules, st.customRules))
    else if (e.eventType == PhaseChangedType || e.eventType == RollbackType) && TargetOf(e.data).Some? then
      st.(currentPhase := TargetOf(e.data).value.0, cycleNumber := TargetOf(e.data).value.1)
    else st
  }

  /** The derived state after the whole log: a left fold of `ApplyEvent` over it. */
  function StateAfter(id: string, log: seq<TDDEvent>): (st: TDDSessionState)
    ensures st.sessionId == id
  {
    if log == [] then Defaults(id)
    else ApplyEvent(StateAfter(id, log[..|log| - 1]), log[|log| - 1])
  }

  /** Over a log of recorded events the phase is always one of the three and the cycle at
      least 1. */
  lemma {:induction false} StateAfterWellFormed(id: string, log: seq<TDDEvent>)
    requires AllWellFormed(log)
    ensures IsPhase(StateAfter(id, log).currentPhase) && StateAfter(id, log).cycleNumber >= 1
  {
    if log != [] {
      var init, last := log[..|log| - 1], log[|log| - 1];
      assert AllWellFormed(init) && WellFormed(last);
      StateAfterWellFormed(id, init);
    }
  }

  /** `_calculate_state_from_events`: replaying no events at all is an error, distinct from the
      state of any log. */
  function Replay(id: string, log: seq<TDDEvent>): (r: Result<TDDSessionState, Error>)
    ensures r.Failure? <==> log == []
    ensures r.Failure? ==> r.error.ValueError?
    ensures r.Success? ==> r.value == StateAfter(id, log)
  {
    if log == [] then Failure(ValueError("Cannot calculate state from empty event list"))
    else Success(StateAfter(id, log))
  }

  /** `load_from_disk` / `get_current_state`: no state while the store holds no events. */
  function CurrentState(s: StoreState, id: string): (r: Option<TDDSessionState>)
    ensures r.None? <==> LoadEvents(s, id) == []
    ensures r.Some? <==> Replay(id, LoadEvents(s, id)).Success?
    ensures r.Some? ==> r.value == StateAfter(id, LoadEvents(s, id)) && r.value.sessionId == id
  {
    var log := LoadEvents(s, id);
    if log == [] then None else Some(StateAfter(id, log))
  }

  /** The fold extends one event at a time, so one append changes the state by one step. */
  lemma StateAfterAppend(id: string, log: seq<TDDEvent>, e: TDDEvent)
    ensures StateAfter(id, log + [e]) == ApplyEvent(StateAfter(id, log), e)
  {
    assert (log + [e])[..|log|] == log;
  }

  /** A `session_started` event, wherever it occurs, resets the goal, the file and command
      lists and the rules to its own and forces (write_test, 1). */
  lemma StartedResets(id: string, log: seq<TDDEvent>, ts: Timestamp, p: SessionStartedEvent)
    ensures var st := StateAfter(id, log + [TDDEvent(ts, SessionStartedType, Started(p))]);
      && st.currentPhase == WriteTest && st.cycleNumber == 1
      && st.goal == p.goal && st.testFiles == p.testFiles
      && st.implementationFiles == p.implementationFiles
      && st.runTests == p.runTests && st.customRules == p.customRules
  {
    StateAfterAppend(id, log, TDDEvent(ts, SessionStartedType, Started(p)));
  }

  /** Consequently, whatever came before a `session_started` event is forgotten. */
  lemma {:induction false} StartedForgetsPrefix(id: string, before: seq<TDDEvent>, start: TDDEvent, after: seq<TDDEvent>)
    requires start.eventType == SessionStartedType && start.data.Started?
    ensures StateAfter(id, before + [start] + after) == StateAfter(id, [start] + after)
  {
    if after == [] {
      StateAfterAppend(id, before, start);
      StateAfterAppend(id, [], start);
      assert [] + [start] == [start];
    } else {
      var init, last := after[..|after| - 1], after[|after| - 1];
      StartedForgetsPrefix(id, before, start, init);
      assert before + [start] + after == (before + [start] + init) + [last];
      assert [start] + after == ([start] + init) + [last];
      StateAfterAppend(id, before + [start] + init, last);
      StateAfterAppend(id, [start] + init, last);
    }
  }

  /** A `session_updated` event overwrites exactly the fields it carries and leaves the phase
      and cycle alone. */
  lemma UpdatedMerges(st: TDDSessionState, ts: Timestamp, u: SessionUpdatedEvent)
    ensures var st' := ApplyEvent(st, TDDEvent(ts, SessionUpdatedType, Updated(u)));
      && st'.currentPhase == st.currentPhase && st'.cycleNumber == st.cycleNumber
      && st'.sessionId == st.sessionId
      && st'.goal == (if u.goal.Some? then u.goal.value else st.goal)
      && st'.testFiles == (if u.testFiles.Some? then u.testFiles.value else st.testFiles)
      && st'.implementationFiles == (if u.implementationFiles.Some? then u.implementationFiles.value else st.implementationFiles)
      && st'.runTests == (if u.runTests.Some? then u.runTests.value else st.runTests)
      && st'.customRules == (if u.customRules.Some? then u.customRules.value else st.customRules)
    ensures u == SessionUpdatedEvent() ==> ApplyEvent(st, TDDEvent(ts, SessionUpdatedType, Updated(u))) == st
  {
  }

  /** A phase change or a rollback sets the phase and cycle from its payload and nothing else. */
  lemma TransitionsSetPhase(st: TDDSessionState, ts: Timestamp, c: PhaseChangedEvent, b: RollbackEvent)
    ensures ApplyEvent(st, TDDEvent(ts, PhaseChangedType, Changed(c)))
      == st.(currentPhase := c.toPhase, cycleNumber := c.cycleNumber)
    ensures ApplyEvent(st, TDDEvent(ts, RollbackType, RolledBack(b)))
      == st.(currentPhase := b.toPhase, cycleNumber := b.cycleNumber)
  {
  }

  /** Fields are read by name, so a payload of another class that declares them is read the
      same way: a rollback payload under `phase_changed` (and the reverse) sets the phase and
      cycle, a start payload under `session_updated` overwrites all five fields, and an update
      payload with every field present under `session_started` starts the session over. */
  lemma PayloadsReadByName(st: TDDSessionState, ts: Timestamp, c: PhaseChangedEvent, b: RollbackEvent,
                           p: SessionStartedEvent)
    ensures ApplyEvent(st, TDDEvent(ts, PhaseChangedType, RolledBack(b)))
      == st.(currentPhase := b.toPhase, cycleNumber := b.cycleNumber)
    ensures ApplyEvent(st, TDDEvent(ts, RollbackType, Changed(c)))
      == st.(currentPhase := c.toPhase, cycleNumber := c.cycleNumber)
    ensures ApplyEvent(st, TDDEvent(ts, SessionUpdatedType, Started(p)))
      == st.(goal := p.goal, testFiles := p.testFiles, implementationFiles := p.implementationFiles,
             runTests := p.runTests, customRules := p.customRules)
    ensures var u := SessionUpdatedEvent(Some(p.goal), Some(p.testFiles), Some(p.implementationFiles),
                                         Some(p.runTests), Some(p.customRules));
      ApplyEvent(st, TDDEvent(ts, SessionStartedType, Updated(u)))
        == ApplyEvent(st, TDDEvent(ts, SessionStartedType, Started(p)))
  {
    TypeNamesDistinct();
  }

  /** The log with every `log_entry` event taken out. */
  function WithoutLogEntries(log: seq<TDDEvent>): (r: seq<TDDEvent>)
    ensures |r| <= |log|
  {
    if log == [] then []
    else
      var last := log[|log| - 1];
      WithoutLogEntries(log[..|log| - 1]) + (if last.eventType == LogEntryType then [] else [last])
  }

  /** A `log_entry` event is a no-op on the state. */
  lemma LogEntryNoOp(st: TDDSessionState, e: TDDEvent)
    requires e.eventType == LogEntryType
    ensures ApplyEvent(st, e) == st
  {
  }

  /** Log entries are invisible to replay: however many are interleaved, and wherever, the
      derived state is that of the log without them. */
  lemma {:induction false} LogEntriesInvisible(id: string, log: seq<TDDEvent>)
    ensures StateAfter(id, log) == StateAfter(id, WithoutLogEntries(log))
  {
    if log != [] {
      var init, last := log[..|log| - 1], log[|log| - 1];
      LogEntriesInvisible(id, init);
      assert log == init + [last];
      StateAfterAppend(id, init, last);
      if last.eventType == LogEntryType {
        assert WithoutLogEntries(log) == WithoutLogEntries(init);
        LogEntryNoOp(StateAfter(id, init), last);
      } else {
        assert WithoutLogEntries(log) == WithoutLogEntries(init) + [last];
        StateAfterAppend(id, WithoutLogEntries(init), last);
      }
    }
  }

  /** The history text of an optional field, as an f-string renders it. */
  function OptionText(o: Option<string>): string {
    if o.Some? then o.value else "None"
  }

  /** One line of `get_history`; `fmt` renders a timestamp as `%Y-%m-%d %H:%M:%S`. Each
      branch reads its fields by name: only the start branch's one field, `goal`, is also
      declared by another payload, an update's. */
  function HistoryLine(fmt: Timestamp -> string, e: TDDEvent): string {
    var t := fmt(e.timestamp) + " - ";
    if e.eventType == SessionStartedType && e.data.Started? then
      t + "Session started: " + e.data.started.goal
    else if e.eventType == SessionStartedType && e.data.Updated? then
      t + "Session started: " + OptionText(e.data.updated.goal)
    else if e.eventType == PhaseChangedType && e.data.Changed? then
      var p := e.data.changed;
      t + "Phase " + OptionText(p.fromPhase) + " -> " + p.toPhase + ": " + p.evidence
    else if e.eventType == LogEntryType && e.data.Logged? then
      t + "Log: " + e.data.logged.message
    else if e.eventType == RollbackType && e.data.RolledBack? then
      var p := e.data.rolledBack;
      t + "Rollback " + p.fromPhase + " -> " + p.toPhase + ": " + p.reason
    else t + e.eventType
  }

  /** Every line starts with the formatted timestamp; `session_updated` and unknown types only
      get the generic "{timestamp} - {event_type}" line. */
  lemma HistoryLineShape(fmt: Timestamp -> string, e: TDDEvent)
    ensures var prefix := fmt(e.timestamp) + " - ";
      HistoryLine(fmt, e)[..|prefix|] == prefix
    ensures e.eventType != SessionStartedType && e.eventType != PhaseChangedType
         && e.eventType != LogEntryType && e.eventType != RollbackType
         ==> HistoryLine(fmt, e) == fmt(e.timestamp) + " - " + e.eventType
    ensures e.eventType == SessionUpdatedType
         ==> HistoryLine(fmt, e) == fmt(e.timestamp) + " - session_updated"
  {
    TypeNamesDistinct();
  }

  /** A session handle: an id and the store its events live in. It holds no state of its own. */
  class TDDSession {
    const sessionId: string
    const repository: InMemoryRepository

    constructor (sessionId: string, repository: InMemoryRepository)
      ensures this.sessionId == sessionId && this.repository == repository
    {
      this.sessionId := sessionId;
      this.repository := repository;
    }

    /** The replay loop: eight locals, reassigned event by event, start from the defaults. */
    method CalculateStateFromEvents(log: seq<TDDEvent>) returns (r: Result<TDDSessionState, Error>)
      ensures r == Replay(sessionId, log)
      ensures r.Success? ==> r.value.sessionId == sessionId
    {
      if log == [] {
        return Failure(ValueError("Cannot calculate state from empty event list"));
      }
      var currentPhase := WriteTest;
      var cycleNumber := 1;
      var goal := "";
      var testFiles: seq<string> := [];
      var implementationFiles: seq<string> := [];
      var runTests: seq<string> := [];
      var customRules: seq<string> := [];
      for i := 0 to |log|
        invariant StateAfter(sessionId, log[..i]) == TDDSessionState(sessionId, currentPhase,
          cycleNumber, goal, testFiles, implementationFiles, runTests, customRules)
      {
        var e := log[i];
        StateAfterAppend(sessionId, log[..i], e);
        assert log[..i + 1] == log[..i] + [e];
        if e.eventType == SessionStartedType && StartFields(e.data).Some? {
          var p := StartFields(e.data).value;
          goal := p.goal;
          testFiles := p.testFiles;
          implementationFiles := p.implementationFiles;
          runTests := p.runTests;
          customRules := p.customRules;
          currentPhase := WriteTest;
          cycleNumber := 1;
        } else if e.eventType == SessionUpdatedType && UpdateFields(e.data).Some? {
          var p := UpdateFields(e.data).value;
          if p.goal.Some? { goal := p.goal.value; }
          if p.testFiles.Some? { testFiles := p.testFiles.value; }
          if p.implementationFiles.Some? { implementationFiles := p.implementationFiles.value; }
          if p.runTests.Some? { runTests := p.runTests.value; }
          if p.customRules.Some? { customRules := p.customRules.value; }
        } else if (e.eventType == PhaseChangedType || e.eventType == RollbackType) && TargetOf(e.data).Some? {
          currentPhase := TargetOf(e.data).value.0;
          cycleNumber := TargetOf(e.data).value.1;
        }
      }
      assert log[..|log|] == log;
      r := Success(TDDSessionState(sessionId, currentPhase, cycleNumber, goal, testFiles,
                                   implementationFiles, runTests, customRules));
    }

    /** `load_from_disk`: `None` when the store holds no events for this session, otherwise
        the replay of its whole log. */
    method LoadFromDisk() returns (r: Option<TDDSessionState>)
      ensures r == CurrentState(repository.Model(), sessionId)
      ensures r.Some? ==> r.value.sessionId == sessionId
    {
      var log := repository.LoadEvents(sessionId);
      if log == [] {
        return None;
      }
      var st := CalculateStateFromEvents(log);
      r := Some(st.value);
    }

    /** `get_current_state`. */
    method GetCurrentState() returns (r: Option<TDDSessionState>)
      ensures r == CurrentState(repository.Model(), sessionId)
    {
      r := LoadFromDisk();
    }

    /** `update`: append exactly one event, then re-derive the state from the whole log. */
    method Update(e: TDDEvent) returns (st: TDDSessionState)
      requires repository.Valid()
      modifies repository
      ensures repository.Valid()
      ensures repository.Model() == AppendEvent(old(repository.Model()), sessionId, e)
      ensures st == StateAfter(sessionId, old(LoadEvents(repository.Model(), sessionId)) + [e])
      ensures st == ApplyEvent(old(StateAfter(sessionId, LoadEvents(repository.Model(), sessionId))), e)
    {
      ghost var before := LoadEvents(repository.Model(), sessionId);
      repository.AppendEvent(sessionId, e);
      var log := repository.LoadEvents(sessionId);
      var r := CalculateStateFromEvents(log);
      st := r.value;
      StateAfterAppend(sessionId, before, e);
    }

    /** `get_history`: exactly one line per stored event, in log order. */
    method GetHistory(fmt: Timestamp -> string) returns (history: seq<string>)
      ensures |history| == |LoadEvents(repository.Model(), sessionId)|
      ensures forall k :: 0 <= k < |history| ==>
        history[k] == HistoryLine(fmt, LoadEvents(repository.Model(), sessionId)[k])
    {
      var log := repository.LoadEvents(sessionId);
      history := [];
      for i := 0 to |log|
        invariant |history| == i
        invariant forall k :: 0 <= k < i ==> history[k] == HistoryLine(fmt, log[k])
      {
        history := history + [HistoryLine(fmt, log[i])];
      }
    }
  }
}
