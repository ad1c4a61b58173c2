/**
 * The single command slot behind the /commands/run and /commands/stop handlers and the
 * waiter goroutine (app.go:23-26, 140-202). The slot is a package-level pointer that is
 * either nil or the one started `make` process; every handler body and the waiter's reset
 * hold the slot's mutex throughout, so each is one atomic step here. What the operating
 * system does (whether the process starts, whether the kill succeeds, and the error text
 * when it does not) arrives as parameters.
 */
module Commands {
  import opened Wrappers
  import opened Http

  /** Identity of one started process: the *exec.Cmd pointer the slot holds. */
  type CmdId = nat

  /** A started command: its identity and the argument vector it was launched with. */
  datatype Cmd = Cmd(id: CmdId, args: seq<string>)

  /** The slot after one handler call, and the handler's reply. */
  datatype Step = Step(slot: Option<Cmd>, response: Response)

  const AlreadyRunning := Response(StatusConflict, Error("A command is already running"))
  const NoCommand := Response(StatusBadRequest, Error("No command provided"))
  const Started := Response(StatusOK, Message("Command started"))
  const NothingRunning := Response(StatusOK, Message("No command is running"))
  const Stopped := Response(StatusOK, Message("Command stopped"))

  /** One call of /commands/run: `startErr` is what cmd.Start() returned, `id` the new process. */
  function RunStep(slot: Option<Cmd>, name: string, startErr: Option<string>, id: CmdId): (r: Step)
    // occupancy is decided before the form is read: an occupied slot answers conflict for any name
    ensures slot.Some? ==> r == Step(slot, AlreadyRunning)
    ensures slot.None? && name == "" ==> r == Step(None, NoCommand)
    ensures slot.None? && name != "" && startErr.Some? ==>
              r == Step(None, Response(StatusInternalServerError, Error(startErr.value)))
    // the slot changes exactly when a command started, and then holds exactly `make <name>`
    ensures r.slot != slot <==> r.response == Started
    ensures r.response == Started <==> slot.None? && name != "" && startErr.None?
    ensures r.response == Started ==> r.slot == Some(Cmd(id, ["make", name]))
  {
    if slot.Some? then Step(slot, AlreadyRunning)
    else if name == "" then Step(slot, NoCommand)
    else if startErr.Some? then Step(slot, Response(StatusInternalServerError, Error(startErr.value)))
    else Step(Some(Cmd(id, ["make", name])), Started)
  }

  /** One call of /commands/stop: `killErr` is what Process.Kill() returned. */
  function StopStep(slot: Option<Cmd>, killErr: Option<string>): (r: Step)
    ensures slot.None? ==> r == Step(None, NothingRunning)
    ensures slot.Some? && killErr.None? ==> r == Step(None, Stopped)
    ensures slot.Some? && killErr.Some? ==>
              r == Step(slot, Response(StatusInternalServerError, Error(killErr.value)))
    // the slot ends empty exactly when it was empty or the kill succeeded; stop never installs a command
    ensures r.slot.None? <==> slot.None? || killErr.None?
    ensures r.slot.Some? ==> r.slot == slot
    ensures r.response.status == StatusOK <==> r.slot.None?
  {
    if slot.None? then Step(slot, NothingRunning)
    else if killErr.Some? then Step(slot, Response(StatusInternalServerError, Error(killErr.value)))
    else Step(None, Stopped)
  }

  /** A successful run followed by a successful stop leaves the slot as it found it. */
  lemma StopUndoesRun(name: string, id: CmdId)
    requires name != ""
    ensures var run := RunStep(None, name, None, id);
            run.response == Started && StopStep(run.slot, None) == Step(None, Stopped)
  {
  }

  /**
   * The package-level state of app.go: `currentCmd`, guarded by `currentCmdMutex`.
   * Each method is one critical section.
   */
  class Panel {
    var current: Option<Cmd>

    /** The slot starts empty when the program starts. */
    constructor ()
      ensures current == None
    {
      current := None;
    }

    /** The /commands/run handler (app.go:140-182). */
    method Run(name: string, startErr: Option<string>, id: CmdId) returns (response: Response)
      modifies this
      ensures var r := RunStep(old(current), name, startErr, id);
              current == r.slot && response == r.response
    {
      if current.Some? {
        return AlreadyRunning;
      }
      if name == "" {
        return NoCommand;
      }
      var cmd := Cmd(id, ["make", name]);
      if startErr.Some? {
        return Response(StatusInternalServerError, Error(startErr.value));
      }
      current := Some(cmd);
      // here app.go spawns the waiter goroutine, which later calls ResetAfterWait
      response := Started;
    }

    /** The /commands/stop handler (app.go:184-202). */
    method Stop(killErr: Option<string>) returns (response: Response)
      modifies this
      ensures var r := StopStep(old(current), killErr);
              current == r.slot && response == r.response
    {
      if current.None? {
        return NothingRunning;
      }
      if killErr.Some? {
        return Response(StatusInternalServerError, Error(killErr.value));
      }
      current := None;
      response := Stopped;
    }

    /**
     * The waiter goroutine's reset once cmd.Wait() returns (app.go:176-178): it empties the
     * slot whatever the slot holds at that moment.
     */
    method ResetAfterWait()
      modifies this
      ensures current == None
    {
      current := None;
    }
  }
}
