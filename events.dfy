/**
 * The event model (src/tdd_mcp/domain/events.py): the five payload records with their
 * field constraints, and the envelope every stored event is wrapped in.
 */
module Events {
  import opened Wrappers
  import opened Exceptions

  /** `datetime` values are opaque to the core: only the history formatter looks inside. */
  type Timestamp = int

  const WriteTest: string := "write_test"
  const Implement: string := "implement"
  const Refactor: string := "refactor"

  /** The three TDD phases: the only values `PhaseChangedEvent.to_phase` accepts. */
  predicate IsPhase(p: string) {
    p == WriteTest || p == Implement || p == Refactor
  }

  const SessionStartedType: string := "session_started"
  const SessionUpdatedType: string := "session_updated"
  const PhaseChangedType: string := "phase_changed"
  const LogEntryType: string := "log_entry"
  const RollbackType: string := "rollback"

  /** The five type names are pairwise distinct. */
  lemma TypeNamesDistinct()
    ensures SessionStartedType != SessionUpdatedType && SessionStartedType != PhaseChangedType
    ensures SessionStartedType != LogEntryType && SessionStartedType != RollbackType
    ensures SessionUpdatedType != PhaseChangedType && SessionUpdatedType != LogEntryType
    ensures SessionUpdatedType != RollbackType && PhaseChangedType != LogEntryType
    ensures PhaseChangedType != RollbackType && LogEntryType != RollbackType
  {
    assert SessionStartedType[8] != SessionUpdatedType[8];
  }

  datatype SessionStartedEvent = SessionStartedEvent(
    goal: string,
    testFiles: seq<string>,
    implementationFiles: seq<string>,
    runTests: seq<string>,
    customRules: seq<string> := [])

  /** Every field is optional; `None` means "leave unchanged". */
  datatype SessionUpdatedEvent = SessionUpdatedEvent(
    goal: Option<string> := None,
    testFiles: Option<seq<string>> := None,
    implementationFiles: Option<seq<string>> := None,
    runTests: Option<seq<string>> := None,
    customRules: Option<seq<string>> := None)

  datatype PhaseChangedEvent = PhaseChangedEvent(
    fromPhase: Option<string>,
    toPhase: string,
    evidence: string,
    cycleNumber: int)

  datatype LogEntryEvent = LogEntryEvent(message: string)

  datatype RollbackEvent = RollbackEvent(
    fromPhase: string,
    toPhase: string,
    reason: string,
    cycleNumber: int)

  /** The `data` field of the envelope: exactly one of the five payload records. */
  datatype Payload =
    | Started(started: SessionStartedEvent)
    | Updated(updated: SessionUpdatedEvent)
    | Changed(changed: PhaseChangedEvent)
    | Logged(logged: LogEntryEvent)
    | RolledBack(rolledBack: RollbackEvent)

  /** The common envelope. `eventType` is a free string, as in the source; the handlers
      always pair it with the payload of the same name (see `Consistent`). */
  datatype TDDEvent = TDDEvent(timestamp: Timestamp, eventType: string, data: Payload)

  /** Pydantic's field checks: `min_length=1` on strings and lists (no trimming), `ge=1` on
      cycle numbers, and the phase pattern on `PhaseChangedEvent.to_phase` only. */
  predicate ValidSessionStarted(p: SessionStartedEvent) {
    |p.goal| >= 1 && |p.testFiles| >= 1 && |p.implementationFiles| >= 1 && |p.runTests| >= 1
  }

  predicate ValidPhaseChanged(p: PhaseChangedEvent) {
    IsPhase(p.toPhase) && |p.evidence| >= 1 && p.cycleNumber >= 1
  }

  predicate ValidLogEntry(p: LogEntryEvent) {
    |p.message| >= 1
  }

  predicate ValidRollback(p: RollbackEvent) {
    |p.reason| >= 1 && p.cycleNumber >= 1
  }

  predicate ValidPayload(d: Payload) {
    match d
    case Started(p) => ValidSessionStarted(p)
    case Updated(_) => true
    case Changed(p) => ValidPhaseChanged(p)
    case Logged(p) => ValidLogEntry(p)
    case RolledBack(p) => ValidRollback(p)
  }

  /** The pydantic class name of a payload, as `ValidationError` reports it. */
  function ModelName(d: Payload): string {
    match d
    case Started(_) => "SessionStartedEvent"
    case Updated(_) => "SessionUpdatedEvent"
    case Changed(_) => "PhaseChangedEvent"
    case Logged(_) => "LogEntryEvent"
    case RolledBack(_) => "RollbackEvent"
  }

  /** Replay and history read payload fields by attribute name, so a field is found in any
      payload record that declares one of that name. These three functions are those reads. */

  /** The five fields the `session_started` branch reads, when every one of them holds a
      value: a start payload always, an update payload only when none of them is `None`. */
  function StartFields(d: Payload): Option<SessionStartedEvent> {
    match d
    case Started(p) => Some(p)
    case Updated(u) =>
      if u.goal.Some? && u.testFiles.Some? && u.implementationFiles.Some? && u.runTests.Some?
         && u.customRules.Some?
      then Some(SessionStartedEvent(u.goal.value, u.testFiles.value, u.implementationFiles.value,
                                    u.runTests.value, u.customRules.value))
      else None
    case _ => None
  }

  /** The five fields the `session_updated` branch reads, as options: an update payload as it
      is, a start payload with every field present. */
  function UpdateFields(d: Payload): Option<SessionUpdatedEvent> {
    match d
    case Updated(u) => Some(u)
    case Started(p) =>
      Some(SessionUpdatedEvent(Some(p.goal), Some(p.testFiles), Some(p.implementationFiles),
                               Some(p.runTests), Some(p.customRules)))
    case _ => None
  }

  /** `to_phase` and `cycle_number`, which a phase change and a rollback both declare. */
  function TargetOf(d: Payload): Option<(string, int)> {
    match d
    case Changed(c) => Some((c.toPhase, c.cycleNumber))
    case RolledBack(b) => Some((b.toPhase, b.cycleNumber))
    case _ => None
  }

  /** The `event_type` the handlers write next to each payload shape. */
  function TypeName(d: Payload): string {
    match d
    case Started(_) => SessionStartedType
    case Updated(_) => SessionUpdatedType
    case Changed(_) => PhaseChangedType
    case Logged(_) => LogEntryType
    case RolledBack(_) => RollbackType
  }

  /** Instantiating a payload model: pydantic either returns the record unchanged or raises
      `ValidationError` naming the model; it raises exactly when a field constraint fails. */
  function Construct(d: Payload): (r: Result<Payload, Error>)
    ensures r.Success? <==> ValidPayload(d)
    ensures r.Success? ==> r.value == d
    ensures r.Failure? ==> r.error == ValidationError(ModelName(d))
  {
    if ValidPayload(d) then Success(d) else Failure(ValidationError(ModelName(d)))
  }

  predicate Consistent(e: TDDEvent) {
    e.eventType == TypeName(e.data)
  }

  /** The shape of every event the handlers record: a valid payload under its own type name,
      and a rollback whose target is one of the three phases (the model does not check that
      target, but the handlers only ever roll back to a phase). */
  predicate WellFormed(e: TDDEvent) {
    && ValidPayload(e.data)
    && Consistent(e)
    && (e.data.RolledBack? ==> IsPhase(e.data.rolledBack.toPhase))
  }

  predicate AllWellFormed(log: seq<TDDEvent>) {
    forall k :: 0 <= k < |log| ==> WellFormed(log[k])
  }

  /** The goal check is a length check only: a goal of one space is accepted, the empty goal
      and empty file or command lists are not, and custom rules may be left out. */
  lemma SessionStartedChecks(goal: string, tests: seq<string>, impls: seq<string>, runs: seq<string>)
    ensures ValidSessionStarted(SessionStartedEvent(" ", ["t"], ["i"], ["r"]))
    ensures SessionStartedEvent(goal, tests, impls, runs).customRules == []
    ensures !ValidSessionStarted(SessionStartedEvent("", tests, impls, runs))
    ensures |goal| >= 1 ==> (ValidSessionStarted(SessionStartedEvent(goal, tests, impls, runs))
                             <==> tests != [] && impls != [] && runs != [])
  {
  }

  /** Only a phase change's target is restricted to the three phases: for every source,
      target, text and cycle, a phase change is valid exactly when its target is a phase, its
      evidence non-empty and its cycle at least 1, while a rollback is valid exactly when its
      reason is non-empty and its cycle at least 1, whatever strings its phases are. */
  lemma PhaseTargetChecks(fromPhase: Option<string>, toPhase: string, evidence: string,
                          rollbackFrom: string, rollbackTo: string, reason: string, cycle: int)
    ensures ValidPhaseChanged(PhaseChangedEvent(fromPhase, toPhase, evidence, cycle))
      <==> IsPhase(toPhase) && |evidence| >= 1 && cycle >= 1
    ensures ValidRollback(RollbackEvent(rollbackFrom, rollbackTo, reason, cycle))
      <==> |reason| >= 1 && cycle >= 1
    ensures !ValidPhaseChanged(PhaseChangedEvent(fromPhase, "done", evidence, cycle))
    ensures |reason| >= 1 && cycle >= 1 ==> ValidRollback(RollbackEvent("anything", "done", reason, cycle))
  {
  }

  /** An update payload passes validation whatever it holds, and its defaults are all `None`. */
  lemma UpdatedAlwaysValid(u: SessionUpdatedEvent)
    ensures ValidPayload(Updated(u))
    ensures SessionUpdatedEvent() == SessionUpdatedEvent(None, None, None, None, None)
  {
  }
}
