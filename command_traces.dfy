/**
 * The command slot together with the processes and waiter goroutines around it. Handler
 * calls and waiter resets interleave in any order, each one atomic under the slot's mutex,
 * so an execution is a sequence of events. The world records, besides the slot, which
 * started commands are still alive and which still have a waiter that has not yet reset.
 */
module CommandTraces {
  import opened Wrappers
  import opened Http
  import opened Commands

  /** The form of one /commands/run request and the operating system's answer to it. */
  datatype RunArgs = RunArgs(name: string, startErr: Option<string>, id: CmdId)

  datatype Event =
    | RunRequest(args: RunArgs)
    | StopRequest(killErr: Option<string>)
    /** The process `id` has exited and its waiter goroutine takes the mutex to reset the slot. */
    | WaiterDone(id: CmdId)

  /**
   * `live`: started commands that have not been killed or exited.
   * `waiting`: started commands whose waiter has not yet reset the slot.
   */
  datatype World = World(slot: Option<Cmd>, live: set<CmdId>, waiting: set<CmdId>)

  /** How a waiter resets the slot: as app.go does it, or only when it still holds its own command. */
  datatype ResetRule = ClearAlways | ClearIfOwner

  const Init := World(None, {}, {})

  function WaiterReset(slot: Option<Cmd>, id: CmdId, rule: ResetRule): (r: Option<Cmd>)
    ensures rule == ClearAlways ==> r == None
    ensures rule == ClearIfOwner ==> (r == None <==> slot.None? || slot.value.id == id)
    ensures r.Some? ==> r == slot
  {
    match rule
    case ClearAlways => None
    case ClearIfOwner => if slot.Some? && slot.value.id == id then None else slot
  }

  /** Events that can occur in `w`: a start yields a process not yet known, a waiter belongs to a started command. */
  predicate Enabled(w: World, e: Event)
  {
    match e
    case RunRequest(a) => a.id !in w.waiting
    case StopRequest(_) => true
    case WaiterDone(id) => id in w.waiting
  }

  function Next(w: World, e: Event, rule: ResetRule): World
  {
    match e
    case RunRequest(a) =>
      var r := RunStep(w.slot, a.name, a.startErr, a.id);
      if r.response == Started then World(r.slot, w.live + {a.id}, w.waiting + {a.id})
      else w.(slot := r.slot)
    case StopRequest(err) =>
      var r := StopStep(w.slot, err);
      // Process.Kill signals the held process only
      var killed := if w.slot.Some? && err.None? then {w.slot.value.id} else {};
      World(r.slot, w.live - killed, w.waiting)
    case WaiterDone(id) =>
      World(WaiterReset(w.slot, id, rule), w.live - {id}, w.waiting - {id})
  }

  /** The world after `events`, or None when some event cannot occur where it is placed. */
  function Execute(w: World, events: seq<Event>, rule: ResetRule): Option<World>
    decreases |events|
  {
    if events == [] then Some(w)
    else if !Enabled(w, events[0]) then None
    else Execute(Next(w, events[0], rule), events[1..], rule)
  }

  /**
   * Single flight: the slot is empty only when no command is alive, a held command has a
   * pending waiter, and nothing but the held command is alive.
   */
  predicate SingleFlight(w: World)
  {
    && w.live <= w.waiting
    && (w.slot.None? ==> w.live == {})
    && (w.slot.Some? ==> w.slot.value.id in w.waiting && w.live <= {w.slot.value.id})
  }

  lemma AtMostOneLive(w: World)
    requires SingleFlight(w)
    ensures |w.live| <= 1
  {
    if w.slot.Some? {
      var id := w.slot.value.id;
      assert w.live == {} || w.live == {id} by {
        if w.live != {} {
          var x :| x in w.live;
          assert x == id;
          assert w.live == {id};
        }
      }
    }
  }

  /** Every handler call keeps single flight, and so does a waiter that resets only its own command. */
  lemma NextKeepsSingleFlight(w: World, e: Event, rule: ResetRule)
    requires SingleFlight(w) && Enabled(w, e)
    requires rule == ClearIfOwner || !e.WaiterDone? || w.slot.None? || w.slot.value.id == e.id
    ensures SingleFlight(Next(w, e, rule))
  {
    match e
    case RunRequest(a) =>
    case StopRequest(err) =>
    case WaiterDone(id) =>
  }

  /** With owner-only resets, every execution from the initial world keeps single flight. */
  lemma {:induction false} OwnerResetKeepsSingleFlight(w: World, events: seq<Event>)
    requires SingleFlight(w)
    requires Execute(w, events, ClearIfOwner).Some?
    ensures SingleFlight(Execute(w, events, ClearIfOwner).value)
    ensures |Execute(w, events, ClearIfOwner).value.live| <= 1
    decreases |events|
  {
    if events == [] {
      AtMostOneLive(w);
    } else {
      NextKeepsSingleFlight(w, events[0], ClearIfOwner);
      OwnerResetKeepsSingleFlight(Next(w, events[0], ClearIfOwner), events[1..]);
    }
  }


  /**
   * No permanent lockout: while single flight holds, the held command's waiter can always
   * still run, and once it has reset the slot a well-formed run starts again.
   */
  lemma WaiterUnblocksRun(w: World, rule: ResetRule, a: RunArgs)
    requires SingleFlight(w) && w.slot.Some?
    requires a.name != "" && a.startErr.None?
    ensures Enabled(w, WaiterDone(w.slot.value.id))
    ensures RunStep(Next(w, WaiterDone(w.slot.value.id), rule).slot, a.name, a.startErr, a.id).response == Started
  {
  }

  /** The replies to run requests that take the mutex one after another with no stop or waiter between them. */
  function RunReplies(slot: Option<Cmd>, reqs: seq<RunArgs>): (r: seq<Response>)
    ensures |r| == |reqs|
    decreases |reqs|
  {
    if reqs == [] then []
    else
      var step := RunStep(slot, reqs[0].name, reqs[0].startErr, reqs[0].id);
      [step.response] + RunReplies(step.slot, reqs[1..])
  }

  lemma {:induction false} OccupiedRefusesAll(slot: Option<Cmd>, reqs: seq<RunArgs>)
    requires slot.Some?
    ensures forall i :: 0 <= i < |reqs| ==> RunReplies(slot, reqs)[i] == AlreadyRunning
    decreases |reqs|
  {
    if reqs != [] {
      OccupiedRefusesAll(slot, reqs[1..]);
    }
  }

  /**
   * Concurrent starts: of run requests racing for the slot, at most one starts its command and
   * every later one is refused with a conflict; on an empty slot, if every request names a
   * command and every start succeeds, the first one is the one that starts.
   */
  lemma {:induction false} RacingRunsStartAtMostOne(slot: Option<Cmd>, reqs: seq<RunArgs>)
    ensures forall i, j :: 0 <= i < j < |reqs| && RunReplies(slot, reqs)[i] == Started ==>
              RunReplies(slot, reqs)[j] == AlreadyRunning
    ensures slot.Some? ==> forall i :: 0 <= i < |reqs| ==> RunReplies(slot, reqs)[i] != Started
    ensures slot.None? && reqs != [] && reqs[0].name != "" && reqs[0].startErr.None? ==>
              RunReplies(slot, reqs)[0] == Started &&
              forall j :: 0 < j < |reqs| ==> RunReplies(slot, reqs)[j] == AlreadyRunning
    decreases |reqs|
  {
    if slot.Some? {
      OccupiedRefusesAll(slot, reqs);
    } else if reqs != [] {
      var step := RunStep(slot, reqs[0].name, reqs[0].startErr, reqs[0].id);
      var r := RunReplies(slot, reqs);
      assert r == [step.response] + RunReplies(step.slot, reqs[1..]);
      RacingRunsStartAtMostOne(step.slot, reqs[1..]);
      if step.response == Started {
        OccupiedRefusesAll(step.slot, reqs[1..]);
      }
    }
  }

  /**
   * As app.go is written, a run that started, was stopped and was replaced by a second run
   * lets the first command's waiter empty the slot under the second command; a third run then
   * starts while the second is still alive.
   */
  lemma StaleWaiterRunsTwoCommands()
    ensures var events := [
              RunRequest(RunArgs("build", None, 1)),
              StopRequest(None),
              RunRequest(RunArgs("build", None, 2)),
              WaiterDone(1),
              RunRequest(RunArgs("test", None, 3))];
            var end := Execute(Init, events, ClearAlways);
            end.Some? && end.value.live == {2, 3} && !SingleFlight(end.value)
  {
  }

  /** The same events with owner-only resets: the third run is refused and only the second command is alive. */
  lemma OwnerResetRefusesThirdRun()
    ensures var events := [
              RunRequest(RunArgs("build", None, 1)),
              StopRequest(None),
              RunRequest(RunArgs("build", None, 2)),
              WaiterDone(1),
              RunRequest(RunArgs("test", None, 3))];
            var end := Execute(Init, events, ClearIfOwner);
            end.Some? && end.value.live == {2} && end.value.slot == Some(Cmd(2, ["make", "build"]))
  {
  }
}
