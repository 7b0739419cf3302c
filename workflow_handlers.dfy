/**
 * Phase transitions (src/tdd_mcp/handlers/workflow_handlers.py): the forward and rollback
 * tables, and the handlers that validate their input, look up the step for the first active
 * session, append one event and return the state replayed from the whole log.
 */
module WorkflowHandlers {
  import opened Wrappers
  import opened Text
  import opened Exceptions
  import opened Events
  import opened Repository
  import opened Session
  import opened SessionHandlers

  /** `_calculate_next_phase`: write_test -> implement -> refactor -> write_test of the next
      cycle. The evidence text is accepted but never consulted. An unknown phase is an
      invalid transition to "unknown". */
  function CalculateNextPhase(phase: string, cycle: int, evidence: string): (r: Result<(string, int), Error>)
    ensures r.Failure? <==> !IsPhase(phase)
    ensures r.Failure? ==> r.error == InvalidPhaseTransition(phase, "unknown", "Unknown current phase: " + phase)
    ensures r.Success? ==> IsPhase(r.value.0) && r.value.0 != phase
    ensures r.Success? ==> r.value.1 == (if phase == Refactor then cycle + 1 else cycle)
  {
    if phase == WriteTest then Success((Implement, cycle))
    else if phase == Implement then Success((Refactor, cycle))
    else if phase == Refactor then Success((WriteTest, cycle + 1))
    else Failure(InvalidPhaseTransition(phase, "unknown", "Unknown current phase: " + phase))
  }

  /** `_calculate_previous_phase`: implement -> write_test, refactor -> implement, and
      write_test -> refactor of the previous cycle, except at the very start (write_test,
      cycle 1), where there is no previous phase (`None`). */
  function CalculatePreviousPhase(phase: string, cycle: int): (r: Result<Option<(string, int)>, Error>)
    ensures r.Failure? <==> !IsPhase(phase)
    ensures r.Failure? ==> r.error == InvalidPhaseTransition(phase, "unknown", "Unknown current phase: " + phase)
    ensures r == Success(None) <==> phase == WriteTest && cycle == 1
    ensures r.Success? && r.value.Some? ==>
      && IsPhase(r.value.value.0) && r.value.value.0 != phase
      && r.value.value.1 == (if phase == WriteTest then cycle - 1 else cycle)
  {
    if phase == Implement then Success(Some((WriteTest, cycle)))
    else if phase == Refactor then Success(Some((Implement, cycle)))
    else if phase == WriteTest then
      if cycle == 1 then Success(None) else Success(Some((Refactor, cycle - 1)))
    else Failure(InvalidPhaseTransition(phase, "unknown", "Unknown current phase: " + phase))
  }

  /** A rollback undoes an advance: from any phase and any cycle of at least 1, stepping
      forward and then back returns to where it started. */
  lemma RollbackUndoesAdvance(phase: string, cycle: int, evidence: string)
    requires IsPhase(phase) && cycle >= 1
    ensures var next := CalculateNextPhase(phase, cycle, evidence).value;
      CalculatePreviousPhase(next.0, next.1) == Success(Some((phase, cycle)))
  {
  }

  /** An advance undoes a rollback: whenever a rollback is allowed, stepping back and then
      forward returns to where it started. */
  lemma AdvanceUndoesRollback(phase: string, cycle: int, evidence: string)
    requires CalculatePreviousPhase(phase, cycle).Success?
    requires CalculatePreviousPhase(phase, cycle).value.Some?
    ensures var prev := CalculatePreviousPhase(phase, cycle).value.value;
      CalculateNextPhase(prev.0, prev.1, evidence) == Success((phase, cycle))
  {
  }

  /** Cycles never decrease going forward and never increase going back, and stay at least 1
      from any cycle of at least 1. */
  lemma CycleMonotone(phase: string, cycle: int, evidence: string)
    requires IsPhase(phase) && cycle >= 1
    ensures CalculateNextPhase(phase, cycle, evidence).value.1 >= cycle
    ensures var prev := CalculatePreviousPhase(phase, cycle).value;
      prev.Some? ==> 1 <= prev.value.1 <= cycle
  {
  }

  /** Three advances from the start complete one cycle, and a rollback from there goes back
      to the refactor phase of cycle 1. */
  lemma OneFullCycle(e1: string, e2: string, e3: string)
    ensures CalculateNextPhase(WriteTest, 1, e1) == Success((Implement, 1))
    ensures CalculateNextPhase(Implement, 1, e2) == Success((Refactor, 1))
    ensures CalculateNextPhase(Refactor, 1, e3) == Success((WriteTest, 2))
    ensures CalculatePreviousPhase(WriteTest, 2) == Success(Some((Refactor, 1)))
    ensures CalculatePreviousPhase(WriteTest, 1) == Success(None)
  {
  }

  /** `handle_get_current_state`: the replayed state of the first active session. Fails when
      nothing is active, or when that session has no state (which a valid engine rules out). */
  method HandleGetCurrentState(eng: Engine) returns (r: Result<TDDSessionState, Error>)
    ensures eng.activeSessions == [] ==> r == Failure(InvalidSession("No active session"))
    ensures eng.activeSessions != [] ==>
      r == match eng.ActiveState()
           case None => Failure(InvalidSession("Active session has no valid state"))
           case Some(st) => Success(st)
    ensures eng.Valid() && eng.activeSessions != [] ==>
      r.Success? && IsPhase(r.value.currentPhase) && r.value.cycleNumber >= 1
  {
    if eng.activeSessions == [] {
      return Failure(InvalidSession("No active session"));
    }
    var sessionId := eng.activeSessions[0];
    var session := new TDDSession(sessionId, eng.repository);
    var state := session.GetCurrentState();
    if state.None? {
      return Failure(InvalidSession("Active session has no valid state"));
    }
    if eng.Valid() {
      eng.ActiveStateKnown();
    }
    r := Success(state.value);
  }

  /** The step both transition handlers end with: the first active session takes `e`, and
      the state replayed from its whole log is returned. */
  method AppendToActive(eng: Engine, e: TDDEvent) returns (st: TDDSessionState)
    requires eng.Valid() && eng.activeSessions != [] && WellFormed(e)
    modifies eng.repository
    ensures eng.Valid()
    ensures var id := eng.activeSessions[0];
      eng.repository.Model() == AppendEvent(old(eng.repository.Model()), id, e)
    ensures var id := eng.activeSessions[0];
      && st == StateAfter(id, LoadEvents(eng.repository.Model(), id))
      && st == ApplyEvent(old(StateAfter(id, LoadEvents(eng.repository.Model(), id))), e)
  {
    var sessionId := eng.activeSessions[0];
    var session := new TDDSession(sessionId, eng.repository);
    ghost var before := eng.repository.Model();
    st := session.Update(e);
    AppendKeepsWellFormed(before, sessionId, e);
  }

  /** `handle_next_phase`. Blank evidence is refused before the active session is looked up;
      otherwise one `phase_changed` event is appended, from the current phase to the table's
      next phase, with the stripped evidence and the new cycle, and the replayed state is
      returned. A refused call appends nothing. */
  method HandleNextPhase(eng: Engine, evidence: string, now: Timestamp) returns (r: Result<TDDSessionState, Error>)
    requires eng.Valid()
    modifies eng.repository
    ensures eng.Valid()
    ensures Blank(evidence) ==>
      r == Failure(ValueError("Evidence description is required for phase transitions"))
    ensures !Blank(evidence) && eng.activeSessions == [] ==>
      r == Failure(InvalidSession("No active session"))
    ensures r.Failure? ==> eng.repository.Model() == old(eng.repository.Model())
    ensures !Blank(evidence) && eng.activeSessions != [] ==>
      var id := eng.activeSessions[0];
      var cur := old(StateAfter(id, LoadEvents(eng.repository.Model(), id)));
      && r.Success?
      && CalculateNextPhase(cur.currentPhase, cur.cycleNumber, Strip(evidence))
           == Success((r.value.currentPhase, r.value.cycleNumber))
      && eng.repository.Model() == AppendEvent(old(eng.repository.Model()), id,
           TDDEvent(now, PhaseChangedType, Changed(PhaseChangedEvent(
             Some(cur.currentPhase), r.value.currentPhase, Strip(evidence), r.value.cycleNumber))))
      && r.value == StateAfter(id, LoadEvents(eng.repository.Model(), id))
      && r.value == cur.(currentPhase := r.value.currentPhase, cycleNumber := r.value.cycleNumber)
  {
    if Blank(evidence) {
      return Failure(ValueError("Evidence description is required for phase transitions"));
    }
    var current :- HandleGetCurrentState(eng);
    ghost var id := eng.activeSessions[0];
    assert current == StateAfter(id, LoadEvents(eng.repository.Model(), id));
    r := AdvanceFrom(eng, current, Strip(evidence), now);
  }

  /** The part of `handle_next_phase` after the lookup: the table's next step from the
      current state, recorded as one `phase_changed` event. */
  method AdvanceFrom(eng: Engine, current: TDDSessionState, evidence: string, now: Timestamp)
    returns (r: Result<TDDSessionState, Error>)
    requires eng.Valid() && eng.activeSessions != [] && eng.ActiveState() == Some(current)
    requires |evidence| >= 1
    modifies eng.repository
    ensures eng.Valid()
    ensures var id := eng.activeSessions[0];
      && r.Success?
      && CalculateNextPhase(current.currentPhase, current.cycleNumber, evidence)
           == Success((r.value.currentPhase, r.value.cycleNumber))
      && eng.repository.Model() == AppendEvent(old(eng.repository.Model()), id,
           TDDEvent(now, PhaseChangedType, Changed(PhaseChangedEvent(
             Some(current.currentPhase), r.value.currentPhase, evidence, r.value.cycleNumber))))
      && r.value == StateAfter(id, LoadEvents(eng.repository.Model(), id))
      && r.value == current.(currentPhase := r.value.currentPhase, cycleNumber := r.value.cycleNumber)
  {
    eng.ActiveStateKnown();
    var next := CalculateNextPhase(current.currentPhase, current.cycleNumber, evidence);
    match next {
      case Failure(err) => return Failure(err);
      case Success(_) =>
    }
    var step := next.value;
    var payload := PhaseChangedEvent(Some(current.currentPhase), step.0, evidence, step.1);
    var built := Construct(Changed(payload));
    match built {
      case Failure(err) => return Failure(err);
      case Success(_) =>
    }
    var e := TDDEvent(now, PhaseChangedType, Changed(payload));
    var st := AppendToActive(eng, e);
    TransitionsSetPhase(current, now, payload, RollbackEvent("", "", "", 1));
    r := Success(st);
  }

  /** `handle_rollback`. Blank reasons are refused first; at (write_test, cycle 1) the call is
      an invalid transition to "none"; otherwise one `rollback` event is appended, from the
      current phase to the table's previous phase, with the stripped reason and the resulting
      cycle, and the replayed state is returned. A refused call appends nothing. */
  method HandleRollback(eng: Engine, reason: string, now: Timestamp) returns (r: Result<TDDSessionState, Error>)
    requires eng.Valid()
    modifies eng.repository
    ensures eng.Valid()
    ensures Blank(reason) ==>
      r == Failure(ValueError("Reason is required for rollback operations"))
    ensures !Blank(reason) && eng.activeSessions == [] ==>
      r == Failure(InvalidSession("No active session"))
    ensures r.Failure? ==> eng.repository.Model() == old(eng.repository.Model())
    ensures !Blank(reason) && eng.activeSessions != [] ==>
      var id := eng.activeSessions[0];
      var cur := old(StateAfter(id, LoadEvents(eng.repository.Model(), id)));
      if cur.currentPhase == WriteTest && cur.cycleNumber == 1 then
        r == Failure(InvalidPhaseTransition(WriteTest, "none", "Cannot rollback from initial write_test phase"))
      else
        && r.Success?
        && CalculatePreviousPhase(cur.currentPhase, cur.cycleNumber)
             == Success(Some((r.value.currentPhase, r.value.cycleNumber)))
        && eng.repository.Model() == AppendEvent(old(eng.repository.Model()), id,
             TDDEvent(now, RollbackType, RolledBack(RollbackEvent(
               cur.currentPhase, r.value.currentPhase, Strip(reason), r.value.cycleNumber))))
        && r.value == StateAfter(id, LoadEvents(eng.repository.Model(), id))
        && r.value == cur.(currentPhase := r.value.currentPhase, cycleNumber := r.value.cycleNumber)
  {
    if Blank(reason) {
      return Failure(ValueError("Reason is required for rollback operations"));
    }
    var current :- HandleGetCurrentState(eng);
    ghost var id := eng.activeSessions[0];
    assert current == StateAfter(id, LoadEvents(eng.repository.Model(), id));
    r := RollbackFrom(eng, current, Strip(reason), now);
  }

  /** The part of `handle_rollback` after the lookup: refused at the origin, otherwise the
      table's previous step from the current state, recorded as one `rollback` event. */
  method RollbackFrom(eng: Engine, current: TDDSessionState, reason: string, now: Timestamp)
    returns (r: Result<TDDSessionState, Error>)
    requires eng.Valid() && eng.activeSessions != [] && eng.ActiveState() == Some(current)
    requires |reason| >= 1
    modifies eng.repository
    ensures eng.Valid()
    ensures r.Failure? ==> eng.repository.Model() == old(eng.repository.Model())
    ensures var id := eng.activeSessions[0];
      if current.currentPhase == WriteTest && current.cycleNumber == 1 then
        r == Failure(InvalidPhaseTransition(WriteTest, "none", "Cannot rollback from initial write_test phase"))
      else
        && r.Success?
        && CalculatePreviousPhase(current.currentPhase, current.cycleNumber)
             == Success(Some((r.value.currentPhase, r.value.cycleNumber)))
        && eng.repository.Model() == AppendEvent(old(eng.repository.Model()), id,
             TDDEvent(now, RollbackType, RolledBack(RollbackEvent(
               current.currentPhase, r.value.currentPhase, reason, r.value.cycleNumber))))
        && r.value == StateAfter(id, LoadEvents(eng.repository.Model(), id))
        && r.value == current.(currentPhase := r.value.currentPhase, cycleNumber := r.value.cycleNumber)
  {
    eng.ActiveStateKnown();
    var prev := CalculatePreviousPhase(current.currentPhase, current.cycleNumber);
    match prev {
      case Failure(err) => return Failure(err);
      case Success(_) =>
    }
    var previous := prev.value;
    if previous.None? {
      return Failure(InvalidPhaseTransition(current.currentPhase, "none", "Cannot rollback from initial write_test phase"));
    }
    var step := previous.value;
    var payload := RollbackEvent(current.currentPhase, step.0, reason, step.1);
    var built := Construct(RolledBack(payload));
    match built {
      case Failure(err) => return Failure(err);
      case Success(_) =>
    }
    var e := TDDEvent(now, RollbackType, RolledBack(payload));
    var st := AppendToActive(eng, e);
    TransitionsSetPhase(current, now, PhaseChangedEvent(None, step.0, "x", step.1), payload);
    r := Success(st);
  }
}
