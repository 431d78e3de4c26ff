// Commands on runs: creation, start, state changes, usage, tool invocations and trace events.
module RunCommands {
  import opened Options
  import opened Tables
  import R = RunStates

  // What create_run learns from outside the store: whether the agent's daily and monthly token
  // budgets leave room, and whether the bound device and workspace of a local agent are usable.
  datatype RunEnv = RunEnv(tokenBudgetOk: bool, localReady: bool)

  // The task-side guards of create_run.
  ghost predicate TaskAllowsRun(s: Tables, conversation: Id, owner: nat, task: Id, assignment: Option<Id>) {
    && OwnsTask(s, task, owner)
    && s.tasks[task].conversation == Some(conversation)
    && assignment.Some? && assignment.value in s.assignments
    && (var a := s.assignments[assignment.value];
        a.task == task && a.state == Assigned &&
        conversation in s.conversations && a.executor == s.conversations[conversation].agent)
    && !BudgetSpent(s, task, true)
  }

  predicate AgentAllowsRun(s: Tables, agent: Id, env: RunEnv) {
    && agent in s.agents
    && s.agents[agent].active
    && |ActiveAgentRuns(s, agent)| < (if s.agents[agent].maxConcurrentRuns < 1 then 1 else s.agents[agent].maxConcurrentRuns)
    && env.tokenBudgetOk
    && (s.agents[agent].onDevice ==> s.agents[agent].device.Some? && env.localReady)
  }

  ghost predicate MayCreateRun(
    s: Tables, conversation: Id, owner: nat, task: Option<Id>, assignment: Option<Id>, env: RunEnv)
  {
    && conversation in s.conversations && s.conversations[conversation].owner == owner
    && (task.Some? ==> TaskAllowsRun(s, conversation, owner, task.value, assignment))
    && AgentAllowsRun(s, s.conversations[conversation].agent, env)
  }

  // A refused run leaves nothing behind: the local branch rolls its inserts back.
  ghost function CreateRun(
    s: Tables, conversation: Id, owner: nat, task: Option<Id>, assignment: Option<Id>, env: RunEnv): (Tables, Option<Id>)
  {
    if !MayCreateRun(s, conversation, owner, task, assignment, env) then (s, None)
    else
      var agent := s.conversations[conversation].agent;
      var run := s.nextId;
      var row := Run(conversation, agent, owner, task, assignment, R.Queued, 0, 0, 0);
      var s1 := s.(nextId := run + 1, runs := s.runs[run := row]);
      if s.agents[agent].onDevice then
        var d := Dispatch(s.agents[agent].device.value, Pending, None, 0, None, 0);
        (s1.(dispatches := s1.dispatches[run := d]), Some(run))
      else
        (s1.(outbox := s1.outbox + [OutboxRow(RunQueued, run)]), Some(run))
  }

  predicate StartAllowed(state: R.RunState, recover: bool, resume: bool) {
    if recover then state == R.Queued || state == R.Running
    else if resume then state == R.WaitingConfirmation
    else state == R.Queued
  }

  function Started(row: Run): Run {
    row.(state := R.Running, attempt := row.attempt + 1)
  }

  function TryStartRun(s: Tables, run: Id, recover: bool, resume: bool): (Tables, bool) {
    if run in s.runs && StartAllowed(s.runs[run].state, recover, resume)
    then (s.(runs := s.runs[run := Started(s.runs[run])]), true)
    else (s, false)
  }

  // False where update_run raises ValueError.
  function UpdateRun(s: Tables, run: Id, state: R.RunState): (Tables, bool) {
    if run in s.runs && R.CanTransition(s.runs[run].state, state)
    then (s.(runs := s.runs[run := s.runs[run].(state := state)]), true)
    else (s, false)
  }

  ghost predicate AllowsToolCall(s: Tables, run: Id) {
    run in s.runs && s.runs[run].task.Some? ==>
      s.runs[run].task.value in s.tasks && !BudgetSpent(s, s.runs[run].task.value, false)
  }

  ghost function RecordToolInvocation(s: Tables, run: Id): (Tables, bool) {
    if AllowsToolCall(s, run)
    then (s.(nextId := s.nextId + 1, invocations := s.invocations[s.nextId := run]), true)
    else (s, false)
  }

  function AddEvent(s: Tables, run: Id, kind: string): (Tables, Option<nat>) {
    if run !in s.runs then (s, None)
    else
      var sequence := s.runs[run].eventSequence + 1;
      (s.(runs := s.runs[run := s.runs[run].(eventSequence := sequence)],
          trace := s.trace + [TraceEvent(run, sequence, kind)]), Some(sequence))
  }

  // The trace rows of one run in the order they were written.
  function TraceOf(trace: seq<TraceEvent>, run: Id): seq<TraceEvent> {
    if trace == [] then []
    else
      var rest := TraceOf(trace[..|trace| - 1], run);
      if trace[|trace| - 1].run == run then rest + [trace[|trace| - 1]] else rest
  }

  function EnqueueConfirmationResume(s: Tables, run: Id): Tables {
    s.(outbox := s.outbox + [OutboxRow(RunConfirmed, run)])
  }

  // A conversation may be erased when it has no active run and no task points at it.
  predicate MayDelete(s: Tables, conversation: Id, owner: nat) {
    && conversation in s.conversations && s.conversations[conversation].owner == owner
    && (forall r :: r in s.runs && s.runs[r].conversation == conversation ==> !R.Active(s.runs[r].state))
    && (forall t :: t in s.tasks ==> s.tasks[t].conversation != Some(conversation))
  }

  function TraceWithout(trace: seq<TraceEvent>, gone: set<Id>): seq<TraceEvent> {
    if trace == [] then []
    else
      var rest := TraceWithout(trace[..|trace| - 1], gone);
      if trace[|trace| - 1].run in gone then rest else rest + [trace[|trace| - 1]]
  }

  function DeleteConversation(s: Tables, conversation: Id, owner: nat): (Tables, bool) {
    if !MayDelete(s, conversation, owner) then (s, false)
    else
      var gone := set r | r in s.runs && s.runs[r].conversation == conversation;
      (s.(runs := s.runs - gone,
          dispatches := s.dispatches - gone,
          invocations := map i | i in s.invocations && s.invocations[i] !in gone :: s.invocations[i],
          trace := TraceWithout(s.trace, gone),
          conversations := s.conversations - {conversation}), true)
  }
}
