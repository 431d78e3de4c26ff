// Everything the service's endpoints, workers and devices can ask of the store, as one command each,
// and the states that sequences of commands reach. Each command is one uninterrupted method call.
module Commands {
  import opened Options
  import opened Tables
  import opened RunCommands
  import opened LeaseCommands
  import K = TaskCommands
  import T = TaskStates
  import R = RunStates

  // The transitions a proposer can request over HTTP.
  datatype ProposerVerb = StartTask | CloseTask | CancelTask

  function TargetOf(verb: ProposerVerb): T.TaskState {
    match verb
    case StartTask => T.InProgress
    case CloseTask => T.Closed
    case CancelTask => T.Cancelled
  }

  // The states the orchestrator, the cancel endpoint and a rejected confirmation report for a run.
  datatype RunReport = Waiting | Done | Broke | Stopped

  function StateOf(report: RunReport): R.RunState {
    match report
    case Waiting => R.WaitingConfirmation
    case Done => R.Completed
    case Broke => R.Failed
    case Stopped => R.Cancelled
  }

  datatype Command =
    | Tick(seconds: nat)
    | PutAgent(agent: Id, row: Agent)
    | NewConversation(owner: nat, agent: Id)
    | DeleteConversation(conversation: Id, owner: nat)
    | CreateTask(owner: nat, assignee: Option<Id>, budget: Budget, key: string, env: RunEnv)
    | AssignTask(task: Id, owner: nat, agent: Id, key: string, expected: Option<nat>, env: RunEnv)
    | ReopenTask(task: Id, owner: nat, key: string, expected: Option<nat>, env: RunEnv)
    | ProposerTransition(task: Id, owner: nat, verb: ProposerVerb, key: string, expected: Option<nat>)
    | TaskTool(run: Id, callId: string, call: K.ToolCall, env: RunEnv)
    | ChatRun(conversation: Id, owner: nat, env: RunEnv)
    | StartRun(run: Id, recover: bool, resume: bool)
    | ReportRun(run: Id, report: RunReport)
    | SyncTask(run: Id, state: R.RunState)
    | RecordUsage(run: Id, tokens: nat)
    | RecordInvocation(run: Id)
    | RecordEvent(run: Id, kind: string)
    | EnqueueResume(run: Id)
    | Offer(device: Id)
    | Claim(run: Id, device: Id, lease: Id, session: string)
    | Renew(run: Id, device: Id, lease: Id)
    | Append(run: Id, device: Id, lease: Id, sequence: int, kind: string)
    | Finish(run: Id, device: Id, lease: Id, state: R.RunState, content: string)

  // An agent's row may be edited at will, but it is never deleted and never changes hands.
  function SetAgent(s: Tables, id: Id, row: Agent): Tables {
    if id in s.agents && s.agents[id].owner != row.owner then s else s.(agents := s.agents[id := row])
  }

  function NewConversationRow(s: Tables, owner: nat, agent: Id): Tables {
    if OwnsAgent(s, agent, owner) then K.OpenConversation(s, agent, owner) else s
  }

  // Nobody can name an id before it was handed out.
  ghost function InvocationRow(s: Tables, run: Id): Tables {
    if run < s.nextId then RecordToolInvocation(s, run).0 else s
  }

  ghost function Step(s: Tables, c: Command): Tables {
    match c
    case Tick(n) => s.(clock := s.clock + n)
    case PutAgent(id, row) => SetAgent(s, id, row)
    case NewConversation(owner, agent) => NewConversationRow(s, owner, agent)
    case DeleteConversation(conversation, owner) => RunCommands.DeleteConversation(s, conversation, owner).0
    case CreateTask(owner, agent, budget, key, env) => K.CreateTask(s, owner, agent, budget, key, env).0
    case AssignTask(task, owner, agent, key, expected, env) => K.AssignCloudTask(s, task, owner, agent, key, expected, env).0
    case ReopenTask(task, owner, key, expected, env) => K.ResumeTask(s, task, owner, key, expected, env).0
    case ProposerTransition(task, owner, verb, key, expected) =>
      K.TransitionTask(s, task, owner, TargetOf(verb), key, expected).0
    case TaskTool(run, callId, call, env) => K.ExecuteTaskTool(s, run, callId, call, env).0
    case ChatRun(conversation, owner, env) => CreateRun(s, conversation, owner, None, None, env).0
    case StartRun(run, recover, resume) => TryStartRun(s, run, recover, resume).0
    case ReportRun(run, report) => UpdateRun(s, run, StateOf(report)).0
    case SyncTask(run, state) => K.SyncTaskRunState(s, run, state)
    case RecordUsage(run, tokens) => K.UpdateUsage(s, run, tokens)
    case RecordInvocation(run) => InvocationRow(s, run)
    case RecordEvent(run, kind) => AddEvent(s, run, kind).0
    case EnqueueResume(run) => EnqueueConfirmationResume(s, run)
    case Offer(device) => OfferLocalRun(s, device).0
    case Claim(run, device, lease, session) => ClaimLocalRun(s, run, device, lease, session).0
    case Renew(run, device, lease) => RenewLocalLease(s, run, device, lease).0
    case Append(run, device, lease, sequence, kind) => AppendLocalRunEvent(s, run, device, lease, sequence, kind).0
    case Finish(run, device, lease, state, content) => FinishLocalRun(s, run, device, lease, state, content).0
  }

  // The state after a history of commands, starting from an empty database.
  ghost function Exec(history: seq<Command>): Tables {
    if history == [] then Empty
    else Step(Exec(history[..|history| - 1]), history[|history| - 1])
  }
}
