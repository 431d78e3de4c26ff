// Commands on tasks: creation, assignment, rework, the proposer's transitions, the projection of
// run states, and the task tools an executing agent may call.
module TaskCommands {
  import opened Options
  import opened Tables
  import opened RunCommands
  import MapSums
  import T = TaskStates
  import R = RunStates

  // ---------------------------------------------------------------- shared row updates

  function Remembered(s: Tables, ck: CommandKey): Option<Reply> {
    if ck.key != "" && ck in s.dedup then Some(s.dedup[ck]) else None
  }

  function Remember(s: Tables, ck: CommandKey, reply: Reply): Tables {
    if ck.key == "" then s else s.(dedup := s.dedup[ck := reply])
  }

  function SetTask(s: Tables, task: Id, row: Task): Tables {
    s.(tasks := s.tasks[task := row])
  }

  function SetAssignmentState(s: Tables, assignment: Id, state: AssignmentState): Tables
    requires assignment in s.assignments
  {
    s.(assignments := s.assignments[assignment := s.assignments[assignment].(state := state)])
  }

  function SupersededRow(a: Assignment, task: Id): Assignment {
    if a.task == task && Open(a.state) then a.(state := Superseded) else a
  }

  function SupersedeOpenAssignments(s: Tables, task: Id): Tables {
    s.(assignments := map a | a in s.assignments :: SupersededRow(s.assignments[a], task))
  }

  // INSERT INTO task_assignments with the next attempt number.
  ghost function CreateAssignment(s: Tables, task: Id, agent: Id): Tables {
    var attempt := Max(Attempts(s.assignments, task)) + 1;
    s.(nextId := s.nextId + 1,
       assignments := s.assignments[s.nextId := Assignment(task, agent, Assigned, attempt)])
  }

  function OpenConversation(s: Tables, agent: Id, owner: nat): Tables {
    s.(nextId := s.nextId + 1, conversations := s.conversations[s.nextId := Conversation(agent, owner)])
  }

  // The row a task command answers with.
  function TaskReplyOf(s: Tables, task: Id, assignment: Option<Id>, run: Option<Id>): Reply
    requires task in s.tasks
  {
    TaskReply(task, s.tasks[task].state, s.tasks[task].version, assignment, run)
  }

  // A move that always counts as a new version.
  function Moved(row: Task, target: T.TaskState): Task {
    row.(state := target, version := row.version + 1)
  }

  // ---------------------------------------------------------------- commands of the proposing user

  // An execution attempt of a task: a new assignment, a new conversation and a new run.
  ghost function StartAttempt(s: Tables, task: Id, owner: nat, agent: Id, version: nat, env: RunEnv): (r: (Tables, Reply))
    requires task in s.tasks
    ensures r.1.TaskReply?
  {
    var assignment := s.nextId;
    var s1 := CreateAssignment(s, task, agent);
    var conversation := s1.nextId;
    var s2 := OpenConversation(s1, agent, owner);
    var row := s2.tasks[task].(state := T.Assigned, assignedAgent := Some(agent),
                               conversation := Some(conversation), version := version);
    var s3 := SetTask(s2, task, row);
    var (s4, run) := CreateRun(s3, conversation, owner, Some(task), Some(assignment), env);
    (s4, TaskReplyOf(s4, task, Some(assignment), run))
  }

  function RootTask(id: Id, owner: nat, agent: Option<Id>, budget: Budget): Task {
    Task(id, None, owner, User(owner), budget, if agent.Some? then T.Assigned else T.Queued, 1, agent, None, None)
  }

  ghost function InsertTask(s: Tables, owner: nat, agent: Option<Id>, budget: Budget, env: RunEnv): (Tables, Reply) {
    var task := s.nextId;
    var s1 := SetTask(s, task, RootTask(task, owner, agent, budget)).(nextId := task + 1);
    if agent.None? then (s1, TaskReplyOf(s1, task, None, None))
    else StartAttempt(s1, task, owner, agent.value, 1, env)
  }

  ghost function CreateTask(
    s: Tables, owner: nat, agent: Option<Id>, budget: Budget, key: string, env: RunEnv): (Tables, Reply)
  {
    var ck := CommandKey(owner, None, User(owner), OpCreate, key);
    if agent.Some? && !OwnsAgent(s, agent.value, owner) then (s, Conflict)
    else if !ValidBudget(budget) then (s, Conflict)
    else if Remembered(s, ck).Some? then (s, Remembered(s, ck).value)
    else
      var (s1, reply) := InsertTask(s, owner, agent, budget, env);
      (Remember(s1, ck, reply), reply)
  }

  predicate StaleVersion(row: Task, expected: Option<nat>) {
    expected.Some? && expected.value != row.version
  }

  // An agent the owner does not have is only noticed after the open assignments were superseded.
  ghost function AssignCloudTask(
    s: Tables, task: Id, owner: nat, agent: Id, key: string, expected: Option<nat>, env: RunEnv): (Tables, Reply)
  {
    var ck := CommandKey(owner, Some(task), User(owner), OpAssign, key);
    if !OwnsTask(s, task, owner) then (s, NotFound)
    else if !IsProposer(s.tasks[task], User(owner)) then (s, Forbidden)
    else if Remembered(s, ck).Some? then (s, Remembered(s, ck).value)
    else if StaleVersion(s.tasks[task], expected) then (s, Conflict)
    else if !T.CanTransition(s.tasks[task].state, T.Assigned) then (s, Conflict)
    else
      var s1 := SupersedeOpenAssignments(s, task);
      if !OwnsAgent(s1, agent, owner) then (s1, Conflict)
      else
        var version := s.tasks[task].version + (if s.tasks[task].state == T.Assigned then 0 else 1);
        var (s2, reply) := StartAttempt(s1, task, owner, agent, version, env);
        (Remember(s2, ck, reply), reply)
  }

  ghost function ResumeTask(
    s: Tables, task: Id, owner: nat, key: string, expected: Option<nat>, env: RunEnv): (Tables, Reply)
  {
    var ck := CommandKey(owner, Some(task), User(owner), OpReopen, key);
    if !OwnsTask(s, task, owner) then (s, NotFound)
    else if !IsProposer(s.tasks[task], User(owner)) then (s, Forbidden)
    else if Remembered(s, ck).Some? then (s, Remembered(s, ck).value)
    else if StaleVersion(s.tasks[task], expected) then (s, Conflict)
    else if s.tasks[task].state != T.AwaitingProposerClose && s.tasks[task].state != T.AttentionRequired then (s, Conflict)
    else if s.tasks[task].assignedAgent.None? || !OwnsAgent(s, s.tasks[task].assignedAgent.value, owner) then (s, Conflict)
    else
      var s1 := SupersedeOpenAssignments(s, task);
      var (s2, reply) := StartAttempt(s1, task, owner, s.tasks[task].assignedAgent.value, s.tasks[task].version + 1, env);
      (Remember(s2, ck, reply), reply)
  }

  function Requested(row: Task, target: T.TaskState, owner: nat): Task {
    row.(state := target,
         version := row.version + (if row.state == target then 0 else 1),
         closedBy := if T.Terminal(target) then Some(User(owner)) else None)
  }

  function TransitionTask(
    s: Tables, task: Id, owner: nat, target: T.TaskState, key: string, expected: Option<nat>): (Tables, Reply)
  {
    var ck := CommandKey(owner, Some(task), User(owner), OpTransition(target), key);
    if !OwnsTask(s, task, owner) then (s, NotFound)
    else if !IsProposer(s.tasks[task], User(owner)) then (s, Forbidden)
    else if Remembered(s, ck).Some? then (s, Remembered(s, ck).value)
    else if StaleVersion(s.tasks[task], expected) then (s, Conflict)
    else if !T.CanTransition(s.tasks[task].state, target) then (s, Conflict)
    else
      var s1 := SetTask(s, task, Requested(s.tasks[task], target, owner));
      var reply := TaskReplyOf(s1, task, None, None);
      (Remember(s1, ck, reply), reply)
  }

  // ---------------------------------------------------------------- projections of a run

  // The task state a run state maps to; a completed run proposes nothing.
  function ProjectedState(state: R.RunState): Option<T.TaskState> {
    match state
    case Running => Some(T.InProgress)
    case WaitingConfirmation => Some(T.WaitingConfirmation)
    case Failed => Some(T.AttentionRequired)
    case Cancelled => Some(T.AttentionRequired)
    case Completed => None
    case Queued => None
  }

  function ProjectedAssignment(a: AssignmentState, state: R.RunState): AssignmentState {
    if state == R.Running && a == Assigned then Accepted
    else if state == R.Failed && Open(a) then Expired
    else if state == R.Cancelled && Open(a) then Cancelled
    else a
  }

  // The task of a run, when both rows exist.
  predicate HasTask(s: Tables, run: Id) {
    run in s.runs && s.runs[run].task.Some? && s.runs[run].task.value in s.tasks
  }

  // Whether the projection changes the task: not a terminal one, and only along the table.
  predicate Projects(s: Tables, run: Id, state: R.RunState) {
    HasTask(s, run) && ProjectedState(state).Some? &&
    var row, target := s.tasks[s.runs[run].task.value], ProjectedState(state).value;
    !T.Terminal(row.state) && row.state != target && T.CanTransition(row.state, target)
  }

  function SyncAssignment(s: Tables, assignment: Option<Id>, state: R.RunState): Tables {
    if assignment.None? || assignment.value !in s.assignments then s
    else
      var a := assignment.value;
      SetAssignmentState(s, a, ProjectedAssignment(s.assignments[a].state, state))
  }

  function SyncTaskRunState(s: Tables, run: Id, state: R.RunState): Tables {
    if !Projects(s, run, state) then s
    else
      var task := s.runs[run].task.value;
      var s1 := SetTask(s, task, Moved(s.tasks[task], ProjectedState(state).value));
      SyncAssignment(s1, s.runs[run].assignment, state)
  }

  // The task whose budget a run uses is sent back to its proposer once that budget is spent.
  ghost function MarkBudgetExhausted(s: Tables, run: Id): Tables {
    if !HasTask(s, run) then s
    else
      var task := s.runs[run].task.value;
      var row := s.tasks[task];
      if !BudgetSpent(s, task, false) then s
      else if T.Terminal(row.state) || row.state == T.AttentionRequired || !T.CanTransition(row.state, T.AttentionRequired) then s
      else SetTask(s, task, Moved(row, T.AttentionRequired))
  }

  ghost function UpdateUsage(s: Tables, run: Id, tokens: nat): Tables {
    if run !in s.runs then s
    else MarkBudgetExhausted(s.(runs := s.runs[run := s.runs[run].(tokens := tokens)]), run)
  }

  // ---------------------------------------------------------------- task tools

  function SubmitTaskResult(
    s: Tables, task: Id, owner: nat, assignment: Id, p: Principal, content: string): (Tables, Reply)
  {
    if !OwnsTask(s, task, owner) then (s, NotFound)
    else if !VisibleTask(s, task, owner, p) then (s, Forbidden)
    else if !(p.CloudAgent? && OpenAssignment(s, assignment, task, p.id)) then (s, Forbidden)
    else if !T.CanTransition(s.tasks[task].state, T.AwaitingProposerClose) then (s, Conflict)
    else
      var row := s.tasks[task];
      var s1 := s.(nextId := s.nextId + 1, results := s.results[s.nextId := TaskResult(task, assignment, p, content)]);
      var s2 := SetTask(s1, task, Moved(row, T.AwaitingProposerClose));
      (SetAssignmentState(s2, assignment, Completed), ToolOk(task, T.AwaitingProposerClose))
  }

  // Every guard of a delegation that depends on the store.
  ghost predicate MayDelegate(s: Tables, parent: Id, owner: nat, p: Principal, agent: Id, budget: Budget) {
    && ValidBudget(budget)
    && VisibleTask(s, parent, owner, p)
    && (s.tasks[parent].state == T.InProgress || s.tasks[parent].state == T.AttentionRequired)
    && (exists a :: a in s.assignments && s.assignments[a].task == parent && s.assignments[a].state == Accepted &&
                    p == CloudAgent(s.assignments[a].executor))
    && OwnsAgent(s, agent, owner)
    && WalkUp(s.tasks, parent, [parent], 0).Chain?
    && (var chain := WalkUp(s.tasks, parent, [parent], 0);
        var limits := s.tasks[parent].budget;
        && chain.depth + 1 <= Limit(limits, MaxDepth, 3)
        && |Subtasks(s.tasks, chain.root)| < Limit(limits, MaxSubtasks, 4)
        && (Limit(limits, MaxConcurrentRuns, 0) != 0 ==>
              |ActiveTreeRuns(s, chain.root)| < Limit(limits, MaxConcurrentRuns, 0)))
    && Tokens(s.tasks[parent].budget) != 0 && Tokens(budget) != 0
    && Tokens(budget) <= Tokens(s.tasks[parent].budget) - TokensUsed(s, parent) - TokensAllocated(s.tasks, parent)
  }

  predicate DelegationForbidden(s: Tables, parent: Id, owner: nat, p: Principal) {
    || !VisibleTask(s, parent, owner, p)
    || ((s.tasks[parent].state == T.InProgress || s.tasks[parent].state == T.AttentionRequired) &&
        !exists a :: a in s.assignments && s.assignments[a].task == parent && s.assignments[a].state == Accepted &&
                     p == CloudAgent(s.assignments[a].executor))
  }

  ghost function DelegateTask(
    s: Tables, parent: Id, owner: nat, p: Principal, agent: Id, budget: Budget, blank: bool, env: RunEnv): (Tables, Reply)
  {
    if !ValidBudget(budget) || blank then (s, ToolError)
    else if DelegationForbidden(s, parent, owner, p) then (s, ToolDenied)
    else if !MayDelegate(s, parent, owner, p, agent, budget) then (s, ToolError)
    else
      var child := s.nextId;
      var root := WalkUp(s.tasks, parent, [parent], 0).root;
      var proposer := match p case User(u) => AgentProposer(u) case AgentProposer(a) => p case CloudAgent(a) => AgentProposer(a);
      var row := Task(root, Some(parent), owner, proposer, budget, T.Assigned, 1, Some(agent), None, None);
      var s1 := SetTask(s, child, row).(nextId := child + 1);
      var (s2, reply) := StartAttempt(s1, child, owner, agent, 1, env);
      (s2, ToolChild(child, reply.run))
  }

  predicate DirectChild(s: Tables, parent: Id, child: Id, owner: nat, p: Principal) {
    VisibleTask(s, parent, owner, p) && VisibleTask(s, child, owner, p) && s.tasks[child].parent == Some(parent)
  }

  // ORDER BY created_at DESC LIMIT 1: ids are handed out in creation order.
  predicate LatestResult(s: Tables, task: Id, r: Id) {
    r in s.results && s.results[r].task == task &&
    forall q :: q in s.results && s.results[q].task == task ==> q <= r
  }

  ghost function CollectChildResult(s: Tables, parent: Id, child: Id, owner: nat, p: Principal): Reply {
    if !DirectChild(s, parent, child, owner, p) then Forbidden
    else if !IsProposer(s.tasks[child], p) then Forbidden
    else if s.tasks[child].state != T.AwaitingProposerClose && s.tasks[child].state != T.Closed then Conflict
    else if !exists r :: LatestResult(s, child, r) then Conflict
    else
      var r :| LatestResult(s, child, r);
      ToolResult(child, s.results[r].content)
  }

  function CloseDelegatedTask(s: Tables, parent: Id, child: Id, owner: nat, p: Principal): (Tables, Reply) {
    if !DirectChild(s, parent, child, owner, p) then (s, Forbidden)
    else if !IsProposer(s.tasks[child], p) then (s, Forbidden)
    else if !T.CanTransition(s.tasks[child].state, T.Closed) then (s, Conflict)
    else
      var row := s.tasks[child];
      var closer := match p case User(u) => AgentProposer(u) case AgentProposer(a) => p case CloudAgent(a) => AgentProposer(a);
      (SetTask(s, child, Moved(row, T.Closed).(closedBy := Some(closer))),
       ToolOk(child, T.Closed))
  }

  function RequestProposerDecision(s: Tables, task: Id): (Tables, Reply)
    requires task in s.tasks
  {
    if !T.CanTransition(s.tasks[task].state, T.AttentionRequired) then (s, Conflict)
    else (SetTask(s, task, Moved(s.tasks[task], T.AttentionRequired)), ToolOk(task, T.AttentionRequired))
  }

  function AcceptAssignment(s: Tables, assignment: Id): Tables
    requires assignment in s.assignments
  {
    if s.assignments[assignment].state == Assigned then SetAssignmentState(s, assignment, Accepted) else s
  }

  function DeclineAssignment(s: Tables, task: Id, assignment: Id): (Tables, Reply)
    requires task in s.tasks && assignment in s.assignments
  {
    var row := s.tasks[task];
    var s1 := SetAssignmentState(s, assignment, Declined);
    if T.Terminal(row.state) || row.state == T.AttentionRequired then (s1, ToolStop(task))
    else if !T.CanTransition(row.state, T.AttentionRequired) then (s1, Conflict)
    else (SetTask(s1, task, Moved(row, T.AttentionRequired)), ToolStop(task))
  }

  // The arguments of a task tool; `valid` is the outcome of their type checks.
  datatype ToolCall =
    | Progress(valid: bool)
    | Submit(valid: bool, content: string)
    | AskProposer(valid: bool)
    | Delegate(valid: bool, agent: Id, budget: Budget, blank: bool)
    | Accept
    | Decline(valid: bool)
    | Collect(valid: bool, child: Id)
    | CloseChild(valid: bool, child: Id)

  function NameOf(call: ToolCall): ToolName {
    match call
    case Progress(_) => PostProgress
    case Submit(_, _) => SubmitResult
    case AskProposer(_) => ToolName.RequestProposerDecision
    case Delegate(_, _, _, _) => ToolName.DelegateTask
    case Accept => ToolName.AcceptAssignment
    case Decline(_) => ToolName.DeclineAssignment
    case Collect(_, _) => ToolName.CollectChildResult
    case CloseChild(_, _) => ToolName.CloseDelegatedTask
  }

  // Whether a tool's reply is stored for replay: failed type checks and raised errors are not.
  predicate Stored(call: ToolCall, reply: Reply) {
    && (call.Accept? || call.valid)
    && reply != Forbidden && reply != Conflict && reply != NotFound
  }

  ghost function RunTool(s: Tables, task: Id, assignment: Id, p: Principal, call: ToolCall, env: RunEnv): (Tables, Reply)
    requires task in s.tasks && assignment in s.assignments
  {
    var row := s.tasks[task];
    match call
    case Progress(valid) => (s, if valid then ToolOk(task, row.state) else ToolError)
    case Submit(valid, content) =>
      if !valid then (s, ToolError) else SubmitTaskResult(s, task, row.owner, assignment, p, content)
    case AskProposer(valid) =>
      if !valid then (s, ToolError) else RequestProposerDecision(s, task)
    case Accept => (AcceptAssignment(s, assignment), ToolAccepted(task))
    case Decline(valid) =>
      if !valid then (s, ToolError) else DeclineAssignment(s, task, assignment)
    case Delegate(valid, agent, budget, blank) =>
      if !valid then (s, ToolError) else DelegateTask(s, task, row.owner, p, agent, budget, blank, env)
    case Collect(valid, child) =>
      (s, if valid then CollectChildResult(s, task, child, row.owner, p) else ToolError)
    case CloseChild(valid, child) =>
      if !valid then (s, ToolError) else CloseDelegatedTask(s, task, child, row.owner, p)
  }

  // The open assignment a run speaks for.
  predicate BoundToOpenAssignment(s: Tables, run: Id) {
    && run in s.runs && s.runs[run].task.Some? && s.runs[run].task.value in s.tasks
    && s.runs[run].assignment.Some?
    && OpenAssignment(s, s.runs[run].assignment.value, s.runs[run].task.value, s.runs[run].agent)
  }

  ghost function ExecuteTaskTool(s: Tables, run: Id, callId: string, call: ToolCall, env: RunEnv): (Tables, Reply) {
    if !BoundToOpenAssignment(s, run) then (s, ToolDenied)
    else
      var task, p := s.runs[run].task.value, CloudAgent(s.runs[run].agent);
      var ck := CommandKey(s.tasks[task].owner, Some(task), p, OpTool(NameOf(call)), callId);
      if Remembered(s, ck).Some? then (s, Remembered(s, ck).value)
      else
        var (s1, reply) := RunTool(s, task, s.runs[run].assignment.value, p, call, env);
        (if Stored(call, reply) then Remember(s1, ck, reply) else s1, reply)
  }
}
