/**
 * Logging and history (src/tdd_mcp/handlers/logging_handlers.py): free-text log entries,
 * which never affect the workflow state, and the formatted history of the active session.
 */
module LoggingHandlers {
  import opened Wrappers
  import opened Text
  import opened Exceptions
  import opened Events
  import opened Repository
  import opened Session
  import opened SessionHandlers

  /** `handle_log`. A blank message is refused before the active-session check; otherwise one
      `log_entry` holding the stripped message is appended to the first active session, whose
      derived state (phase and cycle included) stays exactly what it was. */
  method HandleLog(eng: Engine, message: string, now: Timestamp) returns (r: Result<bool, Error>)
    requires eng.Valid()
    modifies eng.repository
    ensures eng.Valid()
    ensures Blank(message) ==> r == Failure(ValueError("Log message cannot be empty"))
    ensures !Blank(message) && eng.activeSessions == [] ==>
      r == Failure(InvalidSession("No active session to log to"))
    ensures r.Failure? ==> eng.repository.Model() == old(eng.repository.Model())
    ensures !Blank(message) && eng.activeSessions != [] ==>
      var id := eng.activeSessions[0];
      && r == Success(true)
      && eng.repository.Model() == AppendEvent(old(eng.repository.Model()), id,
           TDDEvent(now, LogEntryType, Logged(LogEntryEvent(Strip(message)))))
      && StateAfter(id, LoadEvents(eng.repository.Model(), id))
           == old(StateAfter(id, LoadEvents(eng.repository.Model(), id)))
  {
    if Blank(message) {
      return Failure(ValueError("Log message cannot be empty"));
    }
    if eng.activeSessions == [] {
      return Failure(InvalidSession("No active session to log to"));
    }
    var sessionId := eng.activeSessions[0];
    var session := new TDDSession(sessionId, eng.repository);
    var built := Construct(Logged(LogEntryEvent(Strip(message))));
    match built {
      case Failure(err) => return Failure(err);
      case Success(_) =>
    }
    var e := TDDEvent(now, LogEntryType, built.value);
    ghost var before := eng.repository.Model();
    var _ := session.Update(e);
    AppendKeepsWellFormed(before, sessionId, e);
    LogEntryNoOp(StateAfter(sessionId, LoadEvents(before, sessionId)), e);
    r := Success(true);
  }

  /** `handle_history`: the history of the first active session, one line per event in log
      order; it changes nothing. */
  method HandleHistory(eng: Engine, fmt: Timestamp -> string) returns (r: Result<seq<string>, Error>)
    ensures eng.activeSessions == [] ==>
      r == Failure(InvalidSession("No active session to get history from"))
    ensures eng.activeSessions != [] ==>
      var log := LoadEvents(eng.repository.Model(), eng.activeSessions[0]);
      && r.Success?
      && |r.value| == |log|
      && forall k :: 0 <= k < |log| ==> r.value[k] == HistoryLine(fmt, log[k])
  {
    if eng.activeSessions == [] {
      return Failure(InvalidSession("No active session to get history from"));
    }
    var session := new TDDSession(eng.activeSessions[0], eng.repository);
    var history := session.GetHistory(fmt);
    r := Success(history);
  }
}
