# tdd-mcp session engine in Dafny

This project models the event-sourced core of tdd-mcp. tdd-mcp is a server that walks an AI
agent through a strict Test-Driven-Development cycle: write a failing test, implement,
refactor. The model covers four parts of the core:

- **Events** (`events.dfy`). The five payload records, their pydantic field checks, and the
  `TDDEvent` envelope.
- **Replay** (`session.dfy`). A session's state is never stored. It is the strict left fold of
  its event log, starting from fixed defaults. `StateAfter` is the fold as a function.
  `TDDSession.CalculateStateFromEvents` is the source's loop, proved equal to it. The module
  also holds the per-phase allowed files, the rules reminder and the history lines.
- **Transitions** (`workflow_handlers.dfy`). The forward table and the rollback table, and the
  handlers that check their input, append one event and return the replayed state.
- **Store and lifecycle**:
  - `repository.dfy` holds the store contract as functions over a pair of maps:
    logs and lock records.
  - `memory.dfy` holds the in-memory store as a class whose methods are proved against that
    contract.
  - `session_handlers.dfy` holds the start / update / resume / pause / end lifecycle. It is an
    `Engine` object that owns one store and the ordered registry of active sessions.
  - `logging_handlers.dfy` holds log entries and history.

`wrappers.dfy` holds `Option` and `Result`. `text.dfy` holds Python's `str.strip()`, using the
exact `str.isspace()` character set, and substring containment. `exceptions.dfy` holds the
error taxonomy. `scenarios.dfy` holds client methods. They walk the engine through the
documented scenarios using the handlers' contracts. One exception is `Scenarios.Released`: it
calls the store's `CreateLock` and `RemoveLock` directly, standing for another agent that holds
the lock and then releases it.

The `Engine` class keeps an object invariant, `Engine.Valid`, which every handler preserves and
which, among other things, keeps every stored event well-formed (`Events.WellFormed`). From it
the model proves three facts:

- the derived phase is always one of the three phases;
- the cycle is always at least 1;
- the first active session always has a state.

The handlers that return a state (`HandleGetCurrentState`, `HandleNextPhase`, `HandleRollback`
and `ResumeSession`) return `StateAfter` of the session's log after the call. No refused call
changes the store.

## Model

| member | source | states |
|---|---|---|
| Text.StripIsTrimmedSlice | src/tdd_mcp/handlers/workflow_handlers.py:52-53 | `str.strip()` gives the contiguous slice of the input that starts after its leading whitespace. Everything it removes from either end is whitespace. |
| Text.StripEndsVisible | src/tdd_mcp/handlers/workflow_handlers.py:61 | What `str.strip()` returns is empty or starts and ends with a non-space character. |
| Text.BlankIffAllSpace | src/tdd_mcp/handlers/logging_handlers.py:24-25 | The guard `not s or not s.strip()` holds exactly when every character is whitespace, so both the empty text and a whitespace-only text are refused. |
| Text.StripIdempotent | src/tdd_mcp/handlers/workflow_handlers.py:61 | Stripping the already stripped evidence changes nothing. |
| Exceptions.Message | src/tdd_mcp/domain/exceptions.py:12-50 | Defines the text `str(error)` shows for each error class. It carries no contract of its own: the four lemmas below state what each message contains. |
| Exceptions.LockedMessageMentionsFields | src/tdd_mcp/domain/exceptions.py:12-15 | A `SessionLockedError` message contains both the session id and the lock holder. |
| Exceptions.InvalidSessionMessageMentionsField | src/tdd_mcp/domain/exceptions.py:21-23 | An `InvalidSessionError` message embeds its one string verbatim, whatever free text it is. |
| Exceptions.CorruptedMessageMentionsFields | src/tdd_mcp/domain/exceptions.py:29-32 | A `CorruptedDataError` message contains the session id and the reason. |
| Exceptions.TransitionMessageMentionsFields | src/tdd_mcp/domain/exceptions.py:38-42 | An `InvalidPhaseTransitionError` message contains the from phase, the to phase and the reason. |
| Events.Construct | src/tdd_mcp/domain/events.py:8-49 | Building a payload record either returns it unchanged or raises `ValidationError` naming the model. It raises exactly when a field constraint fails. |
| Events.SessionStartedChecks | src/tdd_mcp/domain/events.py:11-15 | The goal and the three lists need at least one element each. A one-space goal is accepted, because nothing is trimmed. `custom_rules` defaults to `[]`. |
| Events.PhaseTargetChecks | src/tdd_mcp/domain/events.py:18-49 | For all inputs: a `PhaseChangedEvent` is valid exactly when its to phase is one of the three, its evidence is non-empty and its cycle is at least 1. A `RollbackEvent` is valid exactly when its reason is non-empty and its cycle is at least 1, whatever its phases say. So "done" is refused as a phase change and accepted as a rollback. |
| Events.TypeNamesDistinct | src/tdd_mcp/domain/session.py:162-192 | The five `event_type` names are pairwise distinct, so replay and history pick exactly one branch per envelope. |
| Events.UpdatedAlwaysValid | src/tdd_mcp/domain/events.py:36-40 | Every `SessionUpdatedEvent` passes validation, and all its fields default to `None`. |
| Repository.LoadEvents | src/tdd_mcp/repository/base.py:13-22 | Defines `load_events` as the session's log, or `[]` for an unknown id. It carries no contract of its own: `Repository.LoadIsAppendOrder` states what a series of calls leaves in it. |
| Repository.SessionExists | src/tdd_mcp/repository/base.py:35-44 | Defines `session_exists` as the presence of a log. It carries no contract of its own: `Repository.ExistsIffAppended` states when it holds. |
| Repository.IsLocked | src/tdd_mcp/repository/base.py:66-75 | Defines `is_locked` as the presence of a lock record. It carries no contract of its own: `Repository.LockedIffLastLockCall` states when it holds. |
| Repository.AppendEvent | src/tdd_mcp/repository/base.py:25-32 | An append adds exactly one event at the end of that session's log. Every other log and every lock record stays as it was. |
| Repository.CreateLock | src/tdd_mcp/repository/base.py:47-54 | After `create_lock`, the session is locked with the given metadata, overwriting any earlier record. No log and no other lock changes. |
| Repository.RemoveLock | src/tdd_mcp/repository/base.py:57-63 | After `remove_lock`, the session is unlocked. Nothing else changes, and the call is a no-op when there was no lock. |
| Repository.LoadIsAppendOrder | src/tdd_mcp/repository/base.py:13-22 | After any series of store calls, a session's log is exactly the events appended to it, in call order, with duplicates kept. Lock calls never change a log. |
| Repository.ExistsIffAppended | src/tdd_mcp/repository/base.py:35-44 | After any series of store calls, a session exists exactly when at least one event was appended to it. That is also exactly when its log is non-empty. |
| Repository.LockedIffLastLockCall | src/tdd_mcp/repository/base.py:66-75 | After any series of store calls, a session is locked exactly when its latest lock call was `create_lock`. |
| Repository.LogsNonEmpty | src/tdd_mcp/repository/memory.py:21-25 | No log that a series of store calls creates is empty. |
| Memory.InMemoryRepository.constructor | src/tdd_mcp/repository/memory.py:12-15 | A new store holds no logs and no locks. |
| Memory.InMemoryRepository.LoadEvents | src/tdd_mcp/repository/memory.py:17-19 | Returns the session's log, or `[]` for an id that was never appended to. |
| Memory.InMemoryRepository.AppendEvent | src/tdd_mcp/repository/memory.py:21-25 | Creating the list when it is missing and then appending yields exactly the contract's `AppendEvent`. |
| Memory.InMemoryRepository.SessionExists | src/tdd_mcp/repository/memory.py:27-29 | True exactly when the id is a key of the log map, which is exactly when its log is non-empty. |
| Memory.InMemoryRepository.CreateLock | src/tdd_mcp/repository/memory.py:31-33 | Assigning the record yields exactly the contract's `CreateLock`. |
| Memory.InMemoryRepository.RemoveLock | src/tdd_mcp/repository/memory.py:35-37 | Popping with a default yields exactly the contract's `RemoveLock`, with no error when the record is missing. |
| Memory.InMemoryRepository.IsLocked | src/tdd_mcp/repository/memory.py:39-41 | True exactly when a lock record exists, whatever it holds. |
| Session.RulesReminder | src/tdd_mcp/domain/session.py:48-57 | The four global rules come first, then the session's custom rules, in order. |
| Session.AllowedFiles | src/tdd_mcp/domain/session.py:24-34 | Defines the allowed-files property. It carries no contract of its own: `Session.AllowedFilesByPhase` states it phase by phase. |
| Session.AllowedFilesByPhase | src/tdd_mcp/domain/session.py:24-34 | The allowed files are the test files in write_test and the implementation files in implement. In refactor they are the test files followed by the implementation files. For any other phase they are `[]`. |
| Session.StateAfter | src/tdd_mcp/domain/session.py:150-206 | The fold over the log keeps the session id it starts from. |
| Session.ApplyEvent | src/tdd_mcp/domain/session.py:160-195 | Defines one step of the replay. Like the source, it reads each field by name from whatever payload the envelope carries (`Events.StartFields`, `Events.UpdateFields`, `Events.TargetOf`). It carries no contract of its own: the `Session` lemmas below state each branch. |
| Session.PayloadsReadByName | src/tdd_mcp/domain/session.py:161-193 | Step by step, a `phase_changed` envelope with a rollback payload and a `rollback` envelope with a phase-change payload both move to the payload's phase and cycle. A `session_updated` envelope with a start payload overwrites all five fields. A `session_started` envelope with an update payload whose fields are all present resets exactly as a start payload would. |
| Session.Replay | src/tdd_mcp/domain/session.py:147-148 | Replaying an empty list fails with `ValueError`, and only an empty list does. Any other log gives its `StateAfter`. |
| Session.CurrentState | src/tdd_mcp/domain/session.py:73-83 | There is no state exactly when the store holds no events for the id, which is exactly when replay would fail. Otherwise it is the replay of the stored log, under the same id. |
| Session.StateAfterWellFormed | src/tdd_mcp/domain/session.py:185-193 | Over events of the shape the handlers record, the derived phase is always one of the three and the cycle is always at least 1. |
| Session.StateAfterAppend | src/tdd_mcp/domain/session.py:160-195 | Replaying `log + [e]` applies one more step to the replay of `log`. |
| Session.StartedResets | src/tdd_mcp/domain/session.py:162-170 | A `session_started` event sets the goal, the files, the commands and the rules from its payload, and forces (write_test, 1), even in the middle of a log. |
| Session.StartedForgetsPrefix | src/tdd_mcp/domain/session.py:162-170 | Everything before a `session_started` event has no effect on the replayed state. |
| Session.UpdatedMerges | src/tdd_mcp/domain/session.py:172-183 | A `session_updated` event overwrites exactly the fields that are not `None` and leaves the phase and the cycle alone. An all-`None` update changes nothing. |
| Session.TransitionsSetPhase | src/tdd_mcp/domain/session.py:185-193 | `phase_changed` and `rollback` set the phase and the cycle from the payload, and nothing else. |
| Session.LogEntryNoOp | src/tdd_mcp/domain/session.py:195 | A `log_entry` leaves the state unchanged. |
| Session.LogEntriesInvisible | src/tdd_mcp/domain/session.py:160-195 | However many log entries are interleaved, and wherever they sit, a log replays to the same state as the log without them. |
| Session.HistoryLine | src/tdd_mcp/domain/session.py:118-134 | Defines one history line per event type, reading fields by name, so a `session_started` envelope with an update payload prints its goal. It carries no contract of its own: `Session.HistoryLineShape` states its shape. |
| Session.HistoryLineShape | src/tdd_mcp/domain/session.py:118-134 | Every history line starts with "{timestamp} - ". `session_updated` and unknown types fall back to "{timestamp} - {event_type}". |
| Session.TDDSession.constructor | src/tdd_mcp/domain/session.py:63-71 | A session handle is an id plus the store it uses. |
| Session.TDDSession.CalculateStateFromEvents | src/tdd_mcp/domain/session.py:138-206 | The eight-variable replay loop returns `StateAfter` of the log. It raises `ValueError` on an empty list. |
| Session.TDDSession.LoadFromDisk | src/tdd_mcp/domain/session.py:73-83 | Returns `None` when the store has no events for the session, and otherwise the replay of the whole log. |
| Session.TDDSession.GetCurrentState | src/tdd_mcp/domain/session.py:101-107 | The same as `load_from_disk`. |
| Session.TDDSession.Update | src/tdd_mcp/domain/session.py:85-99 | Appends exactly one event. Returns `StateAfter(old log + [e])`, which is one more step on the old state. |
| Session.TDDSession.GetHistory | src/tdd_mcp/domain/session.py:109-136 | Exactly one line per stored event, in log order, each formatted by its type's template. |
| SessionHandlers.Registered | src/tdd_mcp/handlers/session_handlers.py:29-32 | After registering, the id is in the registry, and the registry holds exactly the old ids plus this one. Ids that were distinct stay distinct, and a non-empty registry keeps its first entry. |
| SessionHandlers.AgentLock | src/tdd_mcp/handlers/session_handlers.py:188-191 | Defines the lock record the handlers write. It carries no contract of its own: `SessionHandlers.AgentLockHolder` states what it holds. |
| SessionHandlers.LockHolder | src/tdd_mcp/handlers/session_handlers.py:176-184 | Defines the holder a locked error names. It carries no contract of its own: `SessionHandlers.AgentLockHolder` states it. |
| SessionHandlers.AgentLockHolder | src/tdd_mcp/handlers/session_handlers.py:83-86 | A record the handlers write holds exactly `locked_by` and `locked_at`, keeps the given `locked_at`, and names "current_agent" as the holder. A record without `locked_by` is reported as held by "unknown_agent", and any other record by its `locked_by`. |
| SessionHandlers.SummaryText | src/tdd_mcp/handlers/session_handlers.py:254-258 | Defines the text `end_session` returns. It carries no contract of its own: `SessionHandlers.SummaryMentions` states what it contains. |
| SessionHandlers.SummaryMentions | src/tdd_mcp/handlers/session_handlers.py:254-258 | The summary starts with "Session completed: " and contains the session's goal and its final phase, whatever text they are. |
| SessionHandlers.Engine.constructor | src/tdd_mcp/handlers/session_handlers.py:13-14 | The engine starts with an empty registry and an empty in-memory store. |
| SessionHandlers.Engine.ActiveStateKnown | src/tdd_mcp/handlers/workflow_handlers.py:31-33 | In a valid engine, the first active session always has a state. Its phase is one of the three and its cycle is at least 1. |
| SessionHandlers.Engine.GetOrCreateSession | src/tdd_mcp/handlers/session_handlers.py:17-32 | Returns a handle for the id and registers the id unless it is already registered. |
| SessionHandlers.Engine.StartSession | src/tdd_mcp/handlers/session_handlers.py:35-89 | An invalid payload raises `ValidationError` and changes nothing. Otherwise one `session_started` event is appended, the lock is created and the id is registered. A fresh id's log is exactly `[session_started]`. The state is (write_test, 1) with the given goal. |
| SessionHandlers.Engine.UpdateSession | src/tdd_mcp/handlers/session_handlers.py:92-149 | Fails with an empty registry. Otherwise appends one `session_updated` event to the first active session, carrying exactly the arguments that are not `None`. |
| SessionHandlers.Engine.ResumeSession | src/tdd_mcp/handlers/session_handlers.py:152-201 | Raises not-found when the session has no events. Raises locked, naming the record's `locked_by` or "unknown_agent", when a lock exists. Neither failure changes anything. Otherwise it locks and registers the session and returns its replayed state. Resuming a session this engine holds always fails as locked. |
| SessionHandlers.Engine.PauseSession | src/tdd_mcp/handlers/session_handlers.py:204-228 | Needs an active session. Unlocks only the first one, empties the whole registry, returns that id and touches no event. |
| SessionHandlers.Engine.EndSession | src/tdd_mcp/handlers/session_handlers.py:231-269 | Needs an active session. Returns the summary of the goal, the final phase, the cycle and the event count, then unlocks the session and empties the registry. |
| WorkflowHandlers.CalculateNextPhase | src/tdd_mcp/handlers/workflow_handlers.py:134-157 | A known phase always steps to a different known phase. The cycle rises by one when leaving refactor and stays the same otherwise. It fails exactly when the phase is unknown, with an invalid transition to "unknown". The table itself is pinned down by `OneFullCycle` and the two inverse lemmas. |
| WorkflowHandlers.CalculatePreviousPhase | src/tdd_mcp/handlers/workflow_handlers.py:160-186 | implement goes back to write_test and refactor to implement. write_test at cycle > 1 goes to refactor at cycle − 1. The result is `None` exactly at (write_test, 1). An unknown phase raises. |
| WorkflowHandlers.RollbackUndoesAdvance | src/tdd_mcp/handlers/workflow_handlers.py:134-186 | From any phase at any cycle ≥ 1, an advance followed by a rollback returns to the start. |
| WorkflowHandlers.AdvanceUndoesRollback | src/tdd_mcp/handlers/workflow_handlers.py:134-186 | Whenever a rollback is allowed, a rollback followed by an advance returns to the start. |
| WorkflowHandlers.CycleMonotone | src/tdd_mcp/handlers/workflow_handlers.py:145-151 | Advancing never lowers the cycle. Rolling back never raises it, and the cycle stays at least 1. |
| WorkflowHandlers.OneFullCycle | tests/handlers/test_workflow_handlers.py:169-181 | Three advances from (write_test, 1) reach (write_test, 2). A rollback from there reaches (refactor, 1). |
| WorkflowHandlers.HandleGetCurrentState | src/tdd_mcp/handlers/workflow_handlers.py:15-35 | Fails when the registry is empty or when the first session has no state. Otherwise returns that session's replayed state. A valid engine never hits the second failure, and the state it returns has a known phase and a cycle of at least 1. |
| WorkflowHandlers.AppendToActive | src/tdd_mcp/handlers/workflow_handlers.py:75-80 | Appends the event to the first active session's log and nothing else, keeps the engine invariant, and returns the state replayed from the new log, which is one more step on the old state. |
| WorkflowHandlers.HandleNextPhase | src/tdd_mcp/handlers/workflow_handlers.py:38-80 | Blank evidence is refused before the registry is checked. A success appends one `phase_changed` event from the current phase, with the trimmed evidence and the table's next phase and cycle. It returns the replayed state. A refused call appends nothing. |
| WorkflowHandlers.AdvanceFrom | src/tdd_mcp/handlers/workflow_handlers.py:58-80 | From the first session's current state, the forward table always has a step. The one recorded `phase_changed` event carries it, and the returned state is the old one with only the phase and the cycle replaced. |
| WorkflowHandlers.HandleRollback | src/tdd_mcp/handlers/workflow_handlers.py:83-131 | A blank reason is refused first. At (write_test, 1) it raises an invalid transition to "none" and appends nothing. Otherwise it appends one `rollback` event with the table's previous phase and cycle and returns the replayed state. |
| WorkflowHandlers.RollbackFrom | src/tdd_mcp/handlers/workflow_handlers.py:103-131 | From the origin the rollback is refused and nothing changes. From any other current state, one `rollback` event records the table's previous step, and the returned state is the old one with only the phase and the cycle replaced. |
| LoggingHandlers.HandleLog | src/tdd_mcp/handlers/logging_handlers.py:11-43 | A blank message is refused before the registry is checked, and an empty registry is refused next. A success appends one `log_entry` with the trimmed message and returns true. The derived state, phase and cycle included, is unchanged. |
| LoggingHandlers.HandleHistory | src/tdd_mcp/handlers/logging_handlers.py:46-63 | Fails with an empty registry. Otherwise returns one history line per event of the first active session and changes nothing. |
| Scenarios.AdvanceThenRollback | tests/handlers/test_workflow_handlers.py:144-154 | From the origin, an advance reaches implement at cycle 1, and a rollback returns to (write_test, 1). |

## Left out

- `src/tdd_mcp/repository/filesystem.py` is not part of this model. It does JSON file I/O and
  calls the datetime library. Its observable behaviour is the store contract in
  `repository.dfy`. One difference goes unmodelled: a corrupted file raises a plain
  `Exception` there, not a `CorruptedDataError`.
- The abstract base class `TDDSessionRepository` is a module of contract functions over a store
  value, not an interface that classes implement. `InMemoryRepository` is proved against those
  functions.
- Resume reads the lock holder from the lock file. The model reads `locked_by` from the lock
  record, defaulting to "unknown_agent", which is what the file-backed store yields. With the
  in-memory store, the source's lookup of `session_dir` fails and its bare `except` always
  names "unknown_agent". The model does not reproduce that.
- `RuntimeError("Repository not initialized")`: the engine always owns a store.
- Parameters stand in for:
  - session-id generation with `uuid4()`: the caller passes the id and nothing checks that it
    is fresh;
  - `datetime.now()`: a `Timestamp`, which is an integer with no calendar meaning, plus a
    `locked_at` string;
  - `strftime`: a formatter function that `GetHistory` receives.
- `ValidationError`'s wording: only the model's name is kept.
- Pydantic serialisation round trips. They are library behaviour.
- `suggested_next_action`, the guidance handlers, the configuration and logging utilities, and
  the server bootstrap. They are text and glue outside the core.
- Storage failures such as `OSError` in the middle of a handler, and so the partial state a
  failed start leaves behind. The model's store cannot fail.
- Concurrency and cross-process lock races. Every call runs to completion, one at a time.
- Envelopes whose payload lacks a field their `event_type` reads. Replay and history read fields
  by name, as the source does, so a payload that declares the fields is read wherever it
  appears. The source raises `AttributeError` when a field is missing. The model makes such a
  replay step a no-op and gives such an event the generic history line. This covers:
  - `session_started` with a phase-change, log or rollback payload;
  - `session_updated` with a phase-change, log or rollback payload;
  - `phase_changed` or `rollback` with a start, update or log payload;
  - in history, `phase_changed` without evidence, `rollback` without a reason, and `log_entry`
    without a message.

  The handlers never build such an envelope, because `Events.Consistent` is part of the engine
  invariant.
- A `session_started` envelope with an update payload that has a `None` field. The source
  stores `None` in the state. The model's state fields are not optional, so this step is a
  no-op.
- Aliasing:
  - `load_events` in the source returns the store's own list, and the model returns a value;
  - `get_or_create_session` returns the registered object, and the model returns a fresh
    handle. Handles hold no state, so no caller can tell the difference.
- `handle_update_session` does not call `Events.Construct`, because `SessionUpdatedEvent` has no
  field constraints. `Events.UpdatedAlwaysValid` proves that validation could never fail.
- `FileNotFoundError` and `CorruptedDataError` appear in the error datatype, but the modelled
  core never raises them.
