// The server side of local execution: a device is offered a run under a 90 second lease, claims it,
// renews the lease, appends events and finishes the run.
module LeaseCommands {
  import opened Options
  import opened Tables
  import opened RunCommands
  import opened TaskCommands
  import R = RunStates

  const LEASE_SECONDS: int := 90

  function SetDispatch(s: Tables, run: Id, d: Dispatch): Tables {
    s.(dispatches := s.dispatches[run := d])
  }

  predicate Offerable(s: Tables, run: Id, device: Id) {
    && run in s.dispatches && s.dispatches[run].device == device
    && (s.dispatches[run].state == Pending || (s.dispatches[run].state == Offered && s.dispatches[run].expiresAt <= s.clock))
    && run in s.runs && s.runs[run].agent in s.agents && s.agents[s.runs[run].agent].localDirect
  }

  // The first run of the device that is pending or whose offer has lapsed is marked as offered, under a
  // fresh lease.
  ghost function OfferLocalRun(s: Tables, device: Id): (Tables, Option<(Id, Id)>) {
    var waiting := set run | run in s.dispatches && Offerable(s, run, device);
    if waiting == {} then (s, None)
    else
      var run := Min(waiting);
      var d := s.dispatches[run].(state := Offered, lease := Some(s.nextId), expiresAt := s.clock + LEASE_SECONDS);
      (SetDispatch(s, run, d).(nextId := s.nextId + 1), Some((run, s.nextId)))
  }

  // What the device is told of it: nothing when the run was frozen in another mode than its agent has
  // now, although it is marked.
  function OfferAnswer(marked: Option<(Id, Id)>, frozenLocal: set<Id>): Option<(Id, Id)> {
    if marked.Some? && marked.value.0 in frozenLocal then marked else None
  }

  // The run is held by this device under this lease, in this state, and the lease has not lapsed.
  predicate HoldsLease(s: Tables, run: Id, device: Id, lease: Id, state: ExecutorState) {
    && run in s.dispatches
    && s.dispatches[run].device == device
    && s.dispatches[run].lease == Some(lease)
    && s.dispatches[run].state == state
    && s.dispatches[run].expiresAt > s.clock
  }

  // Losing the race for the run rolls the claim back.
  function ClaimLocalRun(s: Tables, run: Id, device: Id, lease: Id, session: string): (Tables, bool) {
    if !HoldsLease(s, run, device, lease, Offered) then (s, false)
    else if !(run in s.runs && s.runs[run].state == R.Queued) then (s, false)
    else
      var s1 := SetDispatch(s, run, s.dispatches[run].(state := Claimed, session := Some(session)));
      var s2 := s1.(runs := s1.runs[run := Started(s1.runs[run])]);
      (SyncTaskRunState(s2, run, R.Running), true)
  }

  // None when the lease is not valid; otherwise whether the run was cancelled meanwhile.
  function RenewLocalLease(s: Tables, run: Id, device: Id, lease: Id): (Tables, Option<bool>) {
    if !HoldsLease(s, run, device, lease, Claimed) then (s, None)
    else
      (SetDispatch(s, run, s.dispatches[run].(expiresAt := s.clock + LEASE_SECONDS)),
       Some(run in s.runs && s.runs[run].state == R.Cancelled))
  }

  function AppendLocalRunEvent(
    s: Tables, run: Id, device: Id, lease: Id, sequence: int, kind: string): (Tables, Option<nat>)
  {
    if !HoldsLease(s, run, device, lease, Claimed) || sequence <= s.dispatches[run].lastAcked then (s, None)
    else AddEvent(SetDispatch(s, run, s.dispatches[run].(lastAcked := sequence)), run, kind)
  }

  // A completed run with some text delivers it as the task's result, if it still may.
  function SubmitLocalTaskResult(s: Tables, run: Id, content: string): (Tables, bool) {
    if content == "" || run !in s.runs || s.runs[run].task.None? || s.runs[run].task.value !in s.tasks ||
       s.runs[run].assignment.None?
    then (s, false)
    else
      var task := s.runs[run].task.value;
      var (s1, reply) := SubmitTaskResult(
        s, task, s.tasks[task].owner, s.runs[run].assignment.value, CloudAgent(s.runs[run].agent), content);
      (s1, reply.ToolOk?)
  }

  function FinishLocalRun(
    s: Tables, run: Id, device: Id, lease: Id, state: R.RunState, content: string): (Tables, bool)
  {
    if !R.Terminal(state) then (s, false)
    else if !HoldsLease(s, run, device, lease, Claimed) then (s, false)
    else
      var (s1, updated) := UpdateRun(s, run, state);
      if !updated then (s, false)
      else
        var (s2, submitted) := SubmitLocalTaskResult(s1, run, content);
        var s3 := if state == R.Completed && submitted then s2 else SyncTaskRunState(s1, run, state);
        (SetDispatch(s3, run, s3.dispatches[run].(state := Finished(state))), true)
  }
}
