/**
 * Client-side walks through the engine, proved from the handlers' contracts alone: the
 * start / advance / rollback scenario, the refused rollback at the origin, and the three
 * ways a resume can end.
 */
module Scenarios {
  import opened Wrappers
  import opened Text
  import opened Exceptions
  import opened Events
  import opened Repository
  import opened Session
  import opened SessionHandlers
  import opened WorkflowHandlers
  import opened LoggingHandlers

  lemma NotBlank(s: string)
    requires s != [] && !IsSpace(s[0])
    ensures !Blank(s)
  {
    BlankIffAllSpace(s);
  }

  method StartAdvanceRollback() {
    var eng := new Engine();
    var started := eng.StartSession("G", ["t.py"], ["i.py"], ["run"], [], "s1", 0, "t0");
    assert started == Success("s1");
    assert eng.activeSessions == ["s1"];

    var state := HandleGetCurrentState(eng);
    assert state.Success?;
    assert state.value.currentPhase == WriteTest && state.value.cycleNumber == 1;
    assert state.value.goal == "G";

    AdvanceThenRollback(eng);
    AtTheOrigin(eng);
  }

  /** From the origin, one advance reaches implement and a rollback returns to the origin. */
  method AdvanceThenRollback(eng: Engine)
    requires eng.Valid() && eng.activeSessions != []
    requires eng.ActiveState().Some?
    requires eng.ActiveState().value.currentPhase == WriteTest && eng.ActiveState().value.cycleNumber == 1
    modifies eng.repository
    ensures eng.Valid() && eng.activeSessions != [] && eng.ActiveState().Some?
    ensures eng.ActiveState().value.currentPhase == WriteTest && eng.ActiveState().value.cycleNumber == 1
  {
    NotBlank("wrote test");
    var advanced := HandleNextPhase(eng, "wrote test", 1);
    assert advanced.Success? && advanced.value.currentPhase == Implement && advanced.value.cycleNumber == 1;
    assert eng.ActiveState() == Some(advanced.value);

    NotBlank("bad test");
    var back := HandleRollback(eng, "bad test", 2);
    assert back.Success? && back.value.currentPhase == WriteTest && back.value.cycleNumber == 1;
    assert eng.ActiveState() == Some(back.value);
  }

  /** At the origin a rollback is refused, a log entry changes nothing, and blank evidence is
      refused before anything else. */
  method AtTheOrigin(eng: Engine)
    requires eng.Valid() && eng.activeSessions != []
    requires eng.ActiveState().Some?
    requires eng.ActiveState().value.currentPhase == WriteTest && eng.ActiveState().value.cycleNumber == 1
    modifies eng.repository
  {
    NotBlank("again");
    var refused := HandleRollback(eng, "again", 3);
    assert refused == Failure(InvalidPhaseTransition(WriteTest, "none", "Cannot rollback from initial write_test phase"));

    NotBlank("note");
    var logged := HandleLog(eng, "note", 4);
    assert logged == Success(true);
    var after := HandleGetCurrentState(eng);
    assert after.Success? && after.value.currentPhase == WriteTest && after.value.cycleNumber == 1;

    BlankIffAllSpace("");
    var blank := HandleNextPhase(eng, "", 5);
    assert blank.Failure? && blank.error.ValueError?;
  }

  /** The three ways a resume can end: not found, locked (by this process or another agent),
      and resumed once the lock is gone. */
  method ResumeOutcomes() {
    var eng := new Engine();
    var missing := eng.ResumeSession("never-started", "t0");
    assert missing == Failure(InvalidSession("Session '" + "never-started" + "' does not exist"));

    var started := eng.StartSession("G", ["t.py"], ["i.py"], ["run"], [], "s1", 0, "t0");
    assert started.Success?;
    HeldThenReleased(eng);
  }

  /** A session this process holds cannot be resumed; after a pause, a lock taken by another
      agent blocks the resume and names that agent; once it is removed the resume succeeds. */
  method HeldThenReleased(eng: Engine)
    requires eng.Valid() && eng.activeSessions == ["s1"]
    requires CurrentState(eng.repository.Model(), "s1").Some?
    requires CurrentState(eng.repository.Model(), "s1").value.goal == "G"
    modifies eng, eng.repository
  {
    var own := eng.ResumeSession("s1", "t1");
    assert own.Failure? && own.error.SessionLocked?;

    var paused := eng.PauseSession();
    assert paused == Success("s1") && eng.activeSessions == [];
    Released(eng);
  }

  method Released(eng: Engine)
    requires eng.Valid() && eng.activeSessions == []
    requires CurrentState(eng.repository.Model(), "s1").Some?
    requires CurrentState(eng.repository.Model(), "s1").value.goal == "G"
    modifies eng, eng.repository
  {
    eng.repository.CreateLock("s1", map["locked_by" := "agent_2"]);
    var other := eng.ResumeSession("s1", "t2");
    assert other == Failure(SessionLocked("s1", "agent_2"));

    eng.repository.RemoveLock("s1");
    var resumed := eng.ResumeSession("s1", "t3");
    assert resumed.Success? && resumed.value.goal == "G";
    assert eng.activeSessions == ["s1"];
  }

  /** A start never clears the registry, and a pause only unlocks the first active session:
      after two starts and a pause the second session is still locked, by "current_agent",
      so this process cannot resume it. */
  method TwoStartsThenPause() {
    var eng := new Engine();
    var first := eng.StartSession("A", ["t.py"], ["i.py"], ["run"], [], "s1", 0, "t0");
    assert first.Success? && eng.activeSessions == ["s1"];
    SecondStart(eng);
  }

  /** A second start appends to the registry instead of replacing its entry. */
  method SecondStart(eng: Engine)
    requires eng.Valid() && eng.activeSessions == ["s1"]
    modifies eng, eng.repository
  {
    var second := eng.StartSession("B", ["t.py"], ["i.py"], ["run"], [], "s2", 1, "t1");
    assert second.Success? && eng.activeSessions == ["s1", "s2"];
    assert eng.repository.locks["s2"] == AgentLock("t1");
    PauseFirstOfTwo(eng);
  }

  /** The pause releases "s1" only; "s2" stays locked by this process. */
  method PauseFirstOfTwo(eng: Engine)
    requires eng.Valid() && eng.activeSessions == ["s1", "s2"]
    requires "s2" in eng.repository.locks && LockHolder(eng.repository.locks["s2"]) == "current_agent"
    modifies eng, eng.repository
  {
    assert eng.activeSessions[1] == "s2";
    assert "s2" in eng.repository.events;
    var paused := eng.PauseSession();
    assert paused == Success("s1") && eng.activeSessions == [];
    assert IsLocked(eng.repository.Model(), "s2") && !IsLocked(eng.repository.Model(), "s1");
    assert LockHolder(eng.repository.locks["s2"]) == "current_agent";
    assert SessionExists(eng.repository.Model(), "s2");

    var resumed := eng.ResumeSession("s2", "t2");
    assert resumed == Failure(SessionLocked("s2", "current_agent"));
  }
}
