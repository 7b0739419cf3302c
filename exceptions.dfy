/**
 * The exceptions the core raises (src/tdd_mcp/domain/exceptions.py), with the fields each
 * one carries and the message it formats, plus the two built-in exceptions the handlers
 * raise: `ValueError` for blank input and pydantic's `ValidationError` for a payload whose
 * field constraints fail.
 */
module Exceptions {
  import opened Text

  datatype Error =
    | SessionLocked(sessionId: string, lockedBy: string)
    | InvalidSession(sessionId: string)
    | CorruptedData(sessionId: string, reason: string)
    | InvalidPhaseTransition(fromPhase: string, toPhase: string, reason: string)
    | FileNotFound(filePath: string)
    | ValueError(message: string)
    | ValidationError(model: string)

  /** The text `str(error)` shows. For `ValidationError` only the model's name is kept of
      pydantic's report. */
  function Message(e: Error): string {
    match e
    case SessionLocked(id, holder) => "Session '" + id + "' is locked by '" + holder + "'"
    case InvalidSession(id) => "Session '" + id + "' does not exist or is invalid"
    case CorruptedData(id, why) => "Session '" + id + "' data is corrupted: " + why
    case InvalidPhaseTransition(fromP, toP, why) =>
      "Invalid transition from '" + fromP + "' to '" + toP + "': " + why
    case FileNotFound(path) => "Required file not found: " + path
    case ValueError(msg) => msg
    case ValidationError(model) => "validation error for " + model
  }

  /** A locked error names both the session and the holder of its lock. */
  lemma LockedMessageMentionsFields(id: string, holder: string)
    ensures Contains(Message(SessionLocked(id, holder)), id)
    ensures Contains(Message(SessionLocked(id, holder)), holder)
  {
    var m := Message(SessionLocked(id, holder));
    assert m == "Session '" + id + ("' is locked by '" + holder + "'");
    ContainsMiddle("Session '", id, "' is locked by '" + holder + "'");
    assert m == "Session '" + id + "' is locked by '" + holder + "'";
    ContainsMiddle("Session '" + id + "' is locked by '", holder, "'");
  }

  /** An invalid-session error embeds its one string verbatim, whatever free text it is. */
  lemma InvalidSessionMessageMentionsField(id: string)
    ensures Contains(Message(InvalidSession(id)), id)
  {
    ContainsMiddle("Session '", id, "' does not exist or is invalid");
  }

  lemma CorruptedMessageMentionsFields(id: string, why: string)
    ensures Contains(Message(CorruptedData(id, why)), id)
    ensures Contains(Message(CorruptedData(id, why)), why)
  {
    var m := Message(CorruptedData(id, why));
    assert m == "Session '" + id + ("' data is corrupted: " + why);
    ContainsMiddle("Session '", id, "' data is corrupted: " + why);
    assert m == "Session '" + id + "' data is corrupted: " + why + "";
    ContainsMiddle("Session '" + id + "' data is corrupted: ", why, "");
  }

  /** An invalid-transition error names the phase, the target and the reason. */
  lemma TransitionMessageMentionsFields(fromP: string, toP: string, why: string)
    ensures Contains(Message(InvalidPhaseTransition(fromP, toP, why)), fromP)
    ensures Contains(Message(InvalidPhaseTransition(fromP, toP, why)), toP)
    ensures Contains(Message(InvalidPhaseTransition(fromP, toP, why)), why)
  {
    var m := Message(InvalidPhaseTransition(fromP, toP, why));
    assert m == "Invalid transition from '" + fromP + ("' to '" + toP + "': " + why);
    ContainsMiddle("Invalid transition from '", fromP, "' to '" + toP + "': " + why);
    assert m == "Invalid transition from '" + fromP + "' to '" + toP + ("': " + why);
    ContainsMiddle("Invalid transition from '" + fromP + "' to '", toP, "': " + why);
    assert m == "Invalid transition from '" + fromP + "' to '" + toP + "': " + why + "";
    ContainsMiddle("Invalid transition from '" + fromP + "' to '" + toP + "': ", why, "");
  }
}
