// What one command can do to the task rows, and what follows for whole histories.
module TaskHistory {
  import opened Options
  import opened Tables
  import opened RunCommands
  import opened LeaseCommands
  import opened Commands
  import opened DelegationTree
  import K = TaskCommands
  import T = TaskStates
  import R = RunStates

  // ---------------------------------------------------------------- effect of one command

  // A row's next value: its head stays, its state moves along the table, the version records every
  // change of state, and only a closing command ends the task, naming its proposer as the closer.
  predicate Evolves(x: Task, y: Task, closing: bool) {
    && SameHead(x, y)
    && T.CanTransition(x.state, y.state)
    && x.version <= y.version && (x.state != y.state ==> x.version < y.version)
    && (T.Terminal(y.state) ==> closing || T.Terminal(x.state))
    && (if T.Terminal(y.state) then y.closedBy == Some(x.proposer) || (x.state == y.state && y.closedBy == x.closedBy)
        else y.closedBy == None || y.closedBy == x.closedBy)
  }

  predicate Born(y: Task) {
    (y.state == T.Queued || y.state == T.Assigned) && y.version == 1 && y.closedBy == None && !y.proposer.CloudAgent?
  }

  ghost predicate RowsStep(a: map<Id, Task>, b: map<Id, Task>, newId: Id, closing: bool) {
    && (forall t {:trigger a[t]} {:trigger b[t]} :: t in a ==> t in b && Evolves(a[t], b[t], closing))
    && (b.Keys == a.Keys || (newId !in a && b.Keys == a.Keys + {newId} && Born(b[newId])))
  }

  // Everything a command may do to the task table, with ids handed out in order.
  ghost predicate TasksStep(s: Tables, s': Tables, closing: bool) {
    && ForestStep(s.tasks, s'.tasks, s.nextId)
    && RowsStep(s.tasks, s'.tasks, s.nextId, closing)
    && s.nextId <= s'.nextId
    && (s'.tasks.Keys == s.tasks.Keys || s.nextId < s'.nextId)
  }

  lemma UnchangedTasks(s: Tables, s': Tables, closing: bool)
    requires s'.tasks == s.tasks && s.nextId <= s'.nextId
    ensures TasksStep(s, s', closing)
  {
  }

  lemma OneTaskMoves(s: Tables, s': Tables, t: Id, row: Task, closing: bool)
    requires t in s.tasks && s'.tasks == s.tasks[t := row] && Evolves(s.tasks[t], row, closing) && s.nextId <= s'.nextId
    ensures TasksStep(s, s', closing)
  {
  }

  lemma MovedEvolves(row: Task, target: T.TaskState)
    requires T.CanTransition(row.state, target) && !T.Terminal(target)
    ensures Evolves(row, K.Moved(row, target), false)
  {
  }

  lemma RequestedEvolves(row: Task, target: T.TaskState, owner: nat)
    requires T.CanTransition(row.state, target) && row.proposer == User(owner)
    ensures Evolves(row, K.Requested(row, target, owner), T.Terminal(target))
  {
  }

  lemma AssignedEvolves(row: Task, agent: Id, conversation: Id, version: nat)
    requires T.CanTransition(row.state, T.Assigned)
    requires version == row.version + 1 || (version == row.version && row.state == T.Assigned)
    ensures Evolves(row, row.(state := T.Assigned, assignedAgent := Some(agent),
                              conversation := Some(conversation), version := version), false)
  {
  }

  // Nothing but the tables about runs, devices, agents and conversations differs.
  predicate SameTaskTables(s: Tables, s': Tables) {
    && s.nextId <= s'.nextId
    && s' == s.(nextId := s'.nextId, clock := s'.clock, agents := s'.agents, conversations := s'.conversations,
                runs := s'.runs, dispatches := s'.dispatches, outbox := s'.outbox,
                invocations := s'.invocations, trace := s'.trace)
  }

  lemma CreateRunFrame(s: Tables, conversation: Id, owner: nat, task: Option<Id>, assignment: Option<Id>, env: RunEnv)
    ensures SameTaskTables(s, CreateRun(s, conversation, owner, task, assignment, env).0)
  {
    hide MayCreateRun;
  }

  ghost predicate IdsBelow(tasks: map<Id, Task>, n: Id) {
    forall t :: t in tasks ==> t < n
  }

  // A row that may be inserted under the next id.
  ghost predicate Insertable(tasks: map<Id, Task>, n: Id, row: Task) {
    && Born(row) && ValidBudget(row.budget)
    && (if row.parent.None? then row.root == n else row.parent.value in tasks && ChildGuards(tasks, row))
  }

  lemma OneTaskAppears(s: Tables, s': Tables, row: Task, closing: bool)
    requires IdsBelow(s.tasks, s.nextId) && Insertable(s.tasks, s.nextId, row)
    requires s'.tasks == s.tasks[s.nextId := row] && s.nextId < s'.nextId
    ensures TasksStep(s, s', closing)
  {
    assert Keeps(s.tasks, s'.tasks);
    assert Grows(s.tasks, s'.tasks, s.nextId);
  }

  lemma StartAttemptEffect(s: Tables, task: Id, owner: nat, agent: Id, version: nat, env: RunEnv)
    requires task in s.tasks
    ensures var (s', reply) := K.StartAttempt(s, task, owner, agent, version, env);
            && s'.tasks.Keys == s.tasks.Keys && s.nextId <= s'.nextId
            && s'.tasks == s.tasks[task := s.tasks[task].(state := T.Assigned, assignedAgent := Some(agent),
                                                          conversation := Some(s.nextId + 1), version := version)]
  {
    var s1 := K.CreateAssignment(s, task, agent);
    var s2 := K.OpenConversation(s1, agent, owner);
    var row := s2.tasks[task].(state := T.Assigned, assignedAgent := Some(agent),
                               conversation := Some(s1.nextId), version := version);
    CreateRunFrame(K.SetTask(s2, task, row), s1.nextId, owner, Some(task), Some(s.nextId), env);
  }

  lemma PlacedInsertable(tasks: map<Id, Task>, n: Id, row: Task, conversation: Id)
    requires Insertable(tasks, n, row)
    ensures Insertable(tasks, n, row.(conversation := Some(conversation)))
  {
  }

  lemma CreatedTaskRuns(s: Tables, row: Task, owner: nat, agent: Id, env: RunEnv)
    requires IdsBelow(s.tasks, s.nextId) && Insertable(s.tasks, s.nextId, row)
    requires row.state == T.Assigned && row.assignedAgent == Some(agent) && row.version == 1
    ensures var s1 := K.SetTask(s, s.nextId, row).(nextId := s.nextId + 1);
            TasksStep(s, K.StartAttempt(s1, s.nextId, owner, agent, 1, env).0, false)
  {
    hide K.StartAttempt, TasksStep, Insertable, IdsBelow;
    var s1 := K.SetTask(s, s.nextId, row).(nextId := s.nextId + 1);
    StartAttemptEffect(s1, s.nextId, owner, agent, 1, env);
    var placed := row.(conversation := Some(s1.nextId + 1));
    assert s.tasks[s.nextId := row][s.nextId := placed] == s.tasks[s.nextId := placed];
    PlacedInsertable(s.tasks, s.nextId, row, s1.nextId + 1);
    OneTaskAppears(s, K.StartAttempt(s1, s.nextId, owner, agent, 1, env).0, placed, false);
  }

  lemma RootInsertable(tasks: map<Id, Task>, n: Id, owner: nat, agent: Option<Id>, budget: Budget)
    requires ValidBudget(budget)
    ensures Insertable(tasks, n, K.RootTask(n, owner, agent, budget))
  {
  }

  lemma SameTasks(s: Tables, x: Tables, y: Tables, closing: bool)
    requires TasksStep(s, x, closing) && y.tasks == x.tasks && y.nextId == x.nextId
    ensures TasksStep(s, y, closing)
  {
  }

  lemma InsertTaskEffect(s: Tables, owner: nat, agent: Option<Id>, budget: Budget, env: RunEnv)
    requires IdsBelow(s.tasks, s.nextId) && ValidBudget(budget)
    ensures TasksStep(s, K.InsertTask(s, owner, agent, budget, env).0, false)
  {
    hide K.StartAttempt, TasksStep, Insertable, IdsBelow, ValidBudget;
    var row := K.RootTask(s.nextId, owner, agent, budget);
    RootInsertable(s.tasks, s.nextId, owner, agent, budget);
    if agent.Some? {
      CreatedTaskRuns(s, row, owner, agent.value, env);
    } else {
      OneTaskAppears(s, K.InsertTask(s, owner, agent, budget, env).0, row, false);
    }
  }

  lemma CreateTaskEffect(s: Tables, owner: nat, agent: Option<Id>, budget: Budget, key: string, env: RunEnv)
    requires IdsBelow(s.tasks, s.nextId)
    ensures TasksStep(s, K.CreateTask(s, owner, agent, budget, key, env).0, false)
  {
    hide K.InsertTask, TasksStep, IdsBelow, ValidBudget, K.Remembered;
    var s' := K.CreateTask(s, owner, agent, budget, key, env).0;
    if s' == s {
      UnchangedTasks(s, s', false);
    } else {
      InsertTaskEffect(s, owner, agent, budget, env);
      SameTasks(s, K.InsertTask(s, owner, agent, budget, env).0, s', false);
    }
  }

  lemma ReassignedEffect(s: Tables, task: Id, owner: nat, agent: Id, version: nat, env: RunEnv)
    requires task in s.tasks && T.CanTransition(s.tasks[task].state, T.Assigned)
    requires version == s.tasks[task].version + 1 || (version == s.tasks[task].version && s.tasks[task].state == T.Assigned)
    ensures TasksStep(s, K.StartAttempt(K.SupersedeOpenAssignments(s, task), task, owner, agent, version, env).0, false)
  {
    hide K.StartAttempt, TasksStep, Evolves;
    var s1 := K.SupersedeOpenAssignments(s, task);
    StartAttemptEffect(s1, task, owner, agent, version, env);
    AssignedEvolves(s.tasks[task], agent, s.nextId + 1, version);
    OneTaskMoves(s, K.StartAttempt(s1, task, owner, agent, version, env).0, task,
                 s.tasks[task].(state := T.Assigned, assignedAgent := Some(agent),
                                conversation := Some(s.nextId + 1), version := version), false);
  }

  lemma AssignCloudTaskEffect(s: Tables, task: Id, owner: nat, agent: Id, key: string, expected: Option<nat>, env: RunEnv)
    ensures TasksStep(s, K.AssignCloudTask(s, task, owner, agent, key, expected, env).0, false)
  {
    hide K.StartAttempt, TasksStep, K.Remembered;
    var s' := K.AssignCloudTask(s, task, owner, agent, key, expected, env).0;
    if s' == s || s' == K.SupersedeOpenAssignments(s, task) {
      UnchangedTasks(s, s', false);
    } else {
      var version := s.tasks[task].version + (if s.tasks[task].state == T.Assigned then 0 else 1);
      ReassignedEffect(s, task, owner, agent, version, env);
      SameTasks(s, K.StartAttempt(K.SupersedeOpenAssignments(s, task), task, owner, agent, version, env).0, s', false);
    }
  }

  lemma ResumeTaskEffect(s: Tables, task: Id, owner: nat, key: string, expected: Option<nat>, env: RunEnv)
    ensures TasksStep(s, K.ResumeTask(s, task, owner, key, expected, env).0, false)
  {
    hide K.StartAttempt, TasksStep, K.Remembered;
    var s' := K.ResumeTask(s, task, owner, key, expected, env).0;
    if s' == s {
      UnchangedTasks(s, s', false);
    } else {
      var agent, version := s.tasks[task].assignedAgent.value, s.tasks[task].version + 1;
      ReassignedEffect(s, task, owner, agent, version, env);
      SameTasks(s, K.StartAttempt(K.SupersedeOpenAssignments(s, task), task, owner, agent, version, env).0, s', false);
    }
  }

  lemma TransitionTaskEffect(s: Tables, task: Id, owner: nat, target: T.TaskState, key: string, expected: Option<nat>)
    ensures TasksStep(s, K.TransitionTask(s, task, owner, target, key, expected).0, T.Terminal(target))
  {
    hide TasksStep, Evolves, K.Requested, K.Remembered;
    var s' := K.TransitionTask(s, task, owner, target, key, expected).0;
    if s' == s {
      UnchangedTasks(s, s', T.Terminal(target));
    } else {
      RequestedEvolves(s.tasks[task], target, owner);
      OneTaskMoves(s, s', task, K.Requested(s.tasks[task], target, owner), T.Terminal(target));
    }
  }

  lemma SyncEffect(s: Tables, run: Id, state: R.RunState)
    ensures TasksStep(s, K.SyncTaskRunState(s, run, state), false)
  {
    hide TasksStep, Evolves;
    var s' := K.SyncTaskRunState(s, run, state);
    if K.Projects(s, run, state) {
      var task, target := s.runs[run].task.value, K.ProjectedState(state).value;
      MovedEvolves(s.tasks[task], target);
      OneTaskMoves(s, s', task, K.Moved(s.tasks[task], target), false);
    } else {
      UnchangedTasks(s, s', false);
    }
  }

  lemma UpdateUsageEffect(s: Tables, run: Id, tokens: nat)
    ensures TasksStep(s, K.UpdateUsage(s, run, tokens), false)
  {
    hide TasksStep, Evolves, BudgetSpent;
    var s' := K.UpdateUsage(s, run, tokens);
    if s'.tasks == s.tasks {
      UnchangedTasks(s, s', false);
    } else {
      var task := s.runs[run].task.value;
      MovedEvolves(s.tasks[task], T.AttentionRequired);
      OneTaskMoves(s, s', task, K.Moved(s.tasks[task], T.AttentionRequired), false);
    }
  }

  lemma SubmitEffect(s: Tables, task: Id, owner: nat, assignment: Id, p: Principal, content: string)
    ensures TasksStep(s, K.SubmitTaskResult(s, task, owner, assignment, p, content).0, false)
  {
    hide TasksStep, Evolves;
    var s' := K.SubmitTaskResult(s, task, owner, assignment, p, content).0;
    if s'.tasks == s.tasks {
      UnchangedTasks(s, s', false);
    } else {
      MovedEvolves(s.tasks[task], T.AwaitingProposerClose);
      OneTaskMoves(s, s', task, K.Moved(s.tasks[task], T.AwaitingProposerClose), false);
    }
  }

  lemma ClosedByAgentEvolves(row: Task, agent: Id)
    requires T.CanTransition(row.state, T.Closed) && row.proposer == AgentProposer(agent)
    ensures Evolves(row, K.Moved(row, T.Closed).(closedBy := Some(AgentProposer(agent))), true)
  {
  }

  lemma CloseChildEffect(s: Tables, parent: Id, child: Id, owner: nat, p: Principal)
    requires p.CloudAgent? && (child in s.tasks ==> !s.tasks[child].proposer.CloudAgent?)
    ensures TasksStep(s, K.CloseDelegatedTask(s, parent, child, owner, p).0, true)
  {
    hide TasksStep, Evolves, CanRead, K.Moved;
    var s' := K.CloseDelegatedTask(s, parent, child, owner, p).0;
    if s' == s {
      UnchangedTasks(s, s', true);
    } else {
      ClosedByAgentEvolves(s.tasks[child], p.id);
      OneTaskMoves(s, s', child, K.Moved(s.tasks[child], T.Closed).(closedBy := Some(AgentProposer(p.id))), true);
    }
  }

  lemma DelegateEffect(s: Tables, parent: Id, owner: nat, p: Principal, agent: Id, budget: Budget, blank: bool, env: RunEnv)
    requires IdsBelow(s.tasks, s.nextId) && p.CloudAgent?
    ensures TasksStep(s, K.DelegateTask(s, parent, owner, p, agent, budget, blank, env).0, false)
  {
    hide K.StartAttempt, TasksStep, IdsBelow;
    var s' := K.DelegateTask(s, parent, owner, p, agent, budget, blank, env).0;
    if !ValidBudget(budget) || blank || K.DelegationForbidden(s, parent, owner, p) ||
       !K.MayDelegate(s, parent, owner, p, agent, budget) {
      UnchangedTasks(s, s', false);
    } else {
      var root := WalkUp(s.tasks, parent, [parent], 0).root;
      var row := Task(root, Some(parent), owner, AgentProposer(p.id), budget, T.Assigned, 1, Some(agent), None, None);
      CreatedTaskRuns(s, row, owner, agent, env);
    }
  }

  // No task is proposed by a cloud identity: users and agents propose.
  ghost predicate ProposersNamed(tasks: map<Id, Task>) {
    forall t :: t in tasks ==> !tasks[t].proposer.CloudAgent?
  }

  // The row stays, or is sent back to the proposer.
  lemma AttentionEffect(s: Tables, s': Tables, task: Id)
    requires task in s.tasks && T.CanTransition(s.tasks[task].state, T.AttentionRequired) && s.nextId <= s'.nextId
    requires s'.tasks == s.tasks[task := K.Moved(s.tasks[task], T.AttentionRequired)]
    ensures TasksStep(s, s', false)
  {
    hide TasksStep, Evolves;
    MovedEvolves(s.tasks[task], T.AttentionRequired);
    OneTaskMoves(s, s', task, K.Moved(s.tasks[task], T.AttentionRequired), false);
  }

  lemma AskEffect(s: Tables, task: Id)
    requires task in s.tasks
    ensures TasksStep(s, K.RequestProposerDecision(s, task).0, false)
  {
    hide TasksStep, K.Moved;
    if T.CanTransition(s.tasks[task].state, T.AttentionRequired) {
      AttentionEffect(s, K.RequestProposerDecision(s, task).0, task);
    } else {
      UnchangedTasks(s, s, false);
    }
  }

  lemma DeclineEffect(s: Tables, task: Id, assignment: Id)
    requires task in s.tasks && assignment in s.assignments
    ensures TasksStep(s, K.DeclineAssignment(s, task, assignment).0, false)
  {
    hide TasksStep, K.Moved;
    var row, s' := s.tasks[task], K.DeclineAssignment(s, task, assignment).0;
    if !T.Terminal(row.state) && row.state != T.AttentionRequired && T.CanTransition(row.state, T.AttentionRequired) {
      AttentionEffect(s, s', task);
    } else {
      UnchangedTasks(s, s', false);
    }
  }

  lemma RunToolEffect(s: Tables, task: Id, assignment: Id, p: Principal, call: K.ToolCall, env: RunEnv)
    requires task in s.tasks && assignment in s.assignments && p.CloudAgent?
    requires IdsBelow(s.tasks, s.nextId) && ProposersNamed(s.tasks)
    ensures TasksStep(s, K.RunTool(s, task, assignment, p, call, env).0, call.CloseChild?)
  {
    hide TasksStep, IdsBelow, K.Moved, K.SubmitTaskResult, K.DelegateTask, K.CollectChildResult,
         K.CloseDelegatedTask, K.RequestProposerDecision, K.DeclineAssignment;
    var owner := s.tasks[task].owner;
    match call
    case Submit(valid, content) =>
      SubmitEffect(s, task, owner, assignment, p, content);
      UnchangedTasks(s, s, call.CloseChild?);
    case Delegate(valid, agent, budget, blank) =>
      DelegateEffect(s, task, owner, p, agent, budget, blank, env);
      UnchangedTasks(s, s, call.CloseChild?);
    case CloseChild(valid, child) =>
      CloseChildEffect(s, task, child, owner, p);
      UnchangedTasks(s, s, call.CloseChild?);
    case AskProposer(_) =>
      AskEffect(s, task);
      UnchangedTasks(s, s, call.CloseChild?);
    case Decline(_) =>
      DeclineEffect(s, task, assignment);
      UnchangedTasks(s, s, call.CloseChild?);
    case _ => UnchangedTasks(s, K.RunTool(s, task, assignment, p, call, env).0, call.CloseChild?);
  }

  lemma ExecuteToolEffect(s: Tables, run: Id, callId: string, call: K.ToolCall, env: RunEnv)
    requires IdsBelow(s.tasks, s.nextId) && ProposersNamed(s.tasks)
    ensures TasksStep(s, K.ExecuteTaskTool(s, run, callId, call, env).0, call.CloseChild?)
  {
    hide TasksStep, IdsBelow, ProposersNamed, K.RunTool, K.Remembered;
    var s' := K.ExecuteTaskTool(s, run, callId, call, env).0;
    if s' == s {
      UnchangedTasks(s, s', call.CloseChild?);
    } else {
      var task, a, p := s.runs[run].task.value, s.runs[run].assignment.value, CloudAgent(s.runs[run].agent);
      RunToolEffect(s, task, a, p, call, env);
      SameTasks(s, K.RunTool(s, task, a, p, call, env).0, s', call.CloseChild?);
    }
  }

  lemma SameStart(x: Tables, s: Tables, s': Tables, closing: bool)
    requires TasksStep(x, s', closing) && x.tasks == s.tasks && x.nextId == s.nextId
    ensures TasksStep(s, s', closing)
  {
  }

  lemma ClaimEffect(s: Tables, run: Id, device: Id, lease: Id, session: string)
    ensures TasksStep(s, ClaimLocalRun(s, run, device, lease, session).0, false)
  {
    hide TasksStep, K.SyncTaskRunState;
    var s' := ClaimLocalRun(s, run, device, lease, session).0;
    if s' == s {
      UnchangedTasks(s, s', false);
    } else {
      var s1 := SetDispatch(s, run, s.dispatches[run].(state := Claimed, session := Some(session)));
      var s2 := s1.(runs := s1.runs[run := Started(s1.runs[run])]);
      SyncEffect(s2, run, R.Running);
      SameStart(s2, s, s', false);
    }
  }

  lemma FinishEffect(s: Tables, run: Id, device: Id, lease: Id, state: R.RunState, content: string)
    ensures TasksStep(s, FinishLocalRun(s, run, device, lease, state, content).0, false)
  {
    hide TasksStep, K.SyncTaskRunState, K.SubmitTaskResult, UpdateRun;
    var s' := FinishLocalRun(s, run, device, lease, state, content).0;
    if s' == s {
      UnchangedTasks(s, s', false);
    } else {
      var s1 := UpdateRun(s, run, state).0;
      UpdateRunFrame(s, run, state);
      var (s2, submitted) := SubmitLocalTaskResult(s1, run, content);
      if state == R.Completed && submitted {
        var task := s1.runs[run].task.value;
        SubmitEffect(s1, task, s1.tasks[task].owner, s1.runs[run].assignment.value, CloudAgent(s1.runs[run].agent), content);
        SameStart(s1, s, s2, false);
        SameTasks(s, s2, s', false);
      } else {
        SyncEffect(s1, run, state);
        SameStart(s1, s, K.SyncTaskRunState(s1, run, state), false);
        SameTasks(s, K.SyncTaskRunState(s1, run, state), s', false);
      }
    }
  }

  lemma UpdateRunFrame(s: Tables, run: Id, state: R.RunState)
    ensures var s' := UpdateRun(s, run, state).0; s' == s.(runs := s'.runs)
  {
  }

  // ---------------------------------------------------------------- every step, every history

  // The commands that may end a task: the proposer's, and the closing of a delegated task.
  predicate Closes(c: Command) {
    (c.ProposerTransition? && c.verb != StartTask) || (c.TaskTool? && c.call.CloseChild?)
  }

  // Commands that never write a task row.
  predicate LeavesTasks(c: Command) {
    c.Tick? || c.PutAgent? || c.NewConversation? || c.DeleteConversation? || c.ChatRun? || c.StartRun? || c.ReportRun? ||
    c.RecordInvocation? || c.RecordEvent? || c.EnqueueResume? || c.Offer? || c.Renew? || c.Append?
  }

  lemma UpdateFrames(s: Tables, run: Id, state: R.RunState, recover: bool, resume: bool, kind: string)
    ensures SameTaskTables(s, UpdateRun(s, run, state).0)
    ensures SameTaskTables(s, TryStartRun(s, run, recover, resume).0)
    ensures SameTaskTables(s, AddEvent(s, run, kind).0)
  {
    hide AllowsToolCall;
  }

  lemma InvocationFrame(s: Tables, run: Id)
    ensures SameTaskTables(s, InvocationRow(s, run))
  {
    hide AllowsToolCall;
  }

  lemma OfferFrame(s: Tables, device: Id)
    ensures SameTaskTables(s, OfferLocalRun(s, device).0)
  {
    hide Offerable;
  }

  lemma LeaseFrames(s: Tables, run: Id, device: Id, lease: Id, sequence: int, kind: string)
    ensures SameTaskTables(s, RenewLocalLease(s, run, device, lease).0)
    ensures SameTaskTables(s, AppendLocalRunEvent(s, run, device, lease, sequence, kind).0)
  {
    hide HoldsLease;
  }

  lemma SetupFrame(s: Tables, s': Tables)
    requires || s' == s.(clock := s'.clock) || s' == s.(agents := s'.agents) || s' == s.(outbox := s'.outbox)
             || (s' == s.(nextId := s'.nextId, conversations := s'.conversations) && s.nextId <= s'.nextId)
    ensures SameTaskTables(s, s')
  {
  }

  lemma DeleteFrame(s: Tables, conversation: Id, owner: nat)
    ensures SameTaskTables(s, RunCommands.DeleteConversation(s, conversation, owner).0)
  {
    hide MayDelete, TraceWithout;
  }

  predicate Setup(c: Command) {
    c.Tick? || c.PutAgent? || c.NewConversation? || c.EnqueueResume?
  }

  lemma SetupStep(s: Tables, c: Command)
    requires Setup(c)
    ensures SameTaskTables(s, Step(s, c))
  {
    hide SameTaskTables, SetAgent, NewConversationRow;
    match c
    case Tick(_) => SetupFrame(s, Step(s, c));
    case PutAgent(id, row) => AgentFrame(s, id, row);
    case NewConversation(owner, agent) => ConversationFrame(s, owner, agent);
    case EnqueueResume(_) => SetupFrame(s, Step(s, c));
  }

  lemma AgentFrame(s: Tables, id: Id, row: Agent)
    ensures SameTaskTables(s, SetAgent(s, id, row))
  {
    SetupFrame(s, SetAgent(s, id, row));
  }

  lemma ConversationFrame(s: Tables, owner: nat, agent: Id)
    ensures SameTaskTables(s, NewConversationRow(s, owner, agent))
  {
    SetupFrame(s, NewConversationRow(s, owner, agent));
  }

  lemma QuietStep(s: Tables, c: Command)
    requires LeavesTasks(c)
    ensures SameTaskTables(s, Step(s, c))
  {
    hide SameTaskTables, CreateRun, UpdateRun, TryStartRun, InvocationRow, AddEvent, OfferLocalRun, RenewLocalLease,
         AppendLocalRunEvent, RunCommands.DeleteConversation, SetAgent, NewConversationRow, EnqueueConfirmationResume;
    match c
    case ChatRun(conversation, owner, env) => CreateRunFrame(s, conversation, owner, None, None, env);
    case StartRun(run, recover, resume) => UpdateFrames(s, run, R.Queued, recover, resume, "");
    case ReportRun(run, report) => UpdateFrames(s, run, StateOf(report), false, false, "");
    case RecordInvocation(run) => InvocationFrame(s, run);
    case RecordEvent(run, kind) => UpdateFrames(s, run, R.Queued, false, false, kind);
    case Offer(device) => OfferFrame(s, device);
    case Renew(run, device, lease) => LeaseFrames(s, run, device, lease, 0, "");
    case Append(run, device, lease, sequence, kind) => LeaseFrames(s, run, device, lease, sequence, kind);
    case DeleteConversation(conversation, owner) => DeleteFrame(s, conversation, owner);
    case _ => SetupStep(s, c);
  }

  lemma StepTasks(s: Tables, c: Command)
    requires IdsBelow(s.tasks, s.nextId) && ProposersNamed(s.tasks)
    ensures TasksStep(s, Step(s, c), Closes(c))
  {
    hide TasksStep, IdsBelow, ProposersNamed, K.CreateTask, K.AssignCloudTask, K.ResumeTask, K.TransitionTask,
         K.ExecuteTaskTool, K.SyncTaskRunState, K.UpdateUsage, ClaimLocalRun, FinishLocalRun;
    if LeavesTasks(c) {
      QuietStep(s, c);
      UnchangedTasks(s, Step(s, c), Closes(c));
    } else {
      match c
      case CreateTask(owner, agent, budget, key, env) => CreateTaskEffect(s, owner, agent, budget, key, env);
      case AssignTask(task, owner, agent, key, expected, env) => AssignCloudTaskEffect(s, task, owner, agent, key, expected, env);
      case ReopenTask(task, owner, key, expected, env) => ResumeTaskEffect(s, task, owner, key, expected, env);
      case ProposerTransition(task, owner, verb, key, expected) => TransitionTaskEffect(s, task, owner, TargetOf(verb), key, expected);
      case TaskTool(run, callId, call, env) => ExecuteToolEffect(s, run, callId, call, env);
      case SyncTask(run, state) => SyncEffect(s, run, state);
      case RecordUsage(run, tokens) => UpdateUsageEffect(s, run, tokens);
      case Claim(run, device, lease, session) => ClaimEffect(s, run, device, lease, session);
      case Finish(run, device, lease, state, content) => FinishEffect(s, run, device, lease, state, content);
    }
  }
}
