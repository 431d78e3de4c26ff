// Each command's effect on attempts and results, command by command.
module AttemptEffects {
  import opened Options
  import opened Tables
  import opened RunCommands
  import opened LeaseCommands
  import opened Commands
  import opened TaskHistory
  import opened AttemptHistory
  import K = TaskCommands
  import T = TaskStates
  import R = RunStates

  lemma NoWork(s: Tables, s': Tables)
    requires s'.assignments == s.assignments && s'.results == s.results && s'.tasks == s.tasks
    ensures WorkStep(s, s')
  {
    assert AllAge(s.assignments, s'.assignments);
  }

  // Only one task's state moves, and not to a delivery.
  lemma OnlyTaskMoves(s: Tables, s': Tables, t: Id, row: Task)
    requires s'.assignments == s.assignments && s'.results == s.results && s'.tasks == s.tasks[t := row]
    requires row.state != T.AwaitingProposerClose
    ensures WorkStep(s, s')
  {
    assert AllAge(s.assignments, s'.assignments);
  }

  // One assignment ages, and one task may move, but not to a delivery.
  lemma AssignmentAges(s: Tables, s': Tables, a: Id, row: Assignment)
    requires a in s.assignments && s'.assignments == s.assignments[a := row] && Ages(s.assignments[a], row)
    requires s'.results == s.results && NoneDelivered(s, s')
    ensures WorkStep(s, s')
  {
    assert AllAge(s.assignments, s'.assignments);
  }

  lemma SameWork(s: Tables, x: Tables, y: Tables)
    requires WorkStep(s, x) && y.assignments == x.assignments && y.results == x.results && y.tasks == x.tasks && y.nextId == x.nextId
    ensures WorkStep(s, y)
  {
  }

  lemma SameWorkStart(x: Tables, s: Tables, y: Tables)
    requires WorkStep(x, y) && s.assignments == x.assignments && s.results == x.results && s.tasks == x.tasks && s.nextId == x.nextId
    ensures WorkStep(s, y)
  {
  }

  lemma SameTaskTablesWork(s: Tables, s': Tables)
    requires SameTaskTables(s, s')
    ensures WorkStep(s, s')
  {
    NoWork(s, s');
  }

  // ---------------------------------------------------------------- a new attempt

  lemma SupersedeAges(s: Tables, task: Id)
    ensures var b := K.SupersedeOpenAssignments(s, task).assignments;
            && b.Keys == s.assignments.Keys && AllAge(s.assignments, b)
            && Attempts(b, task) == Attempts(s.assignments, task)
            && (forall x :: x in b && b[x].task == task ==> !Open(b[x].state))
  {
    var b := K.SupersedeOpenAssignments(s, task).assignments;
    assert forall x :: x in b ==> b[x].attempt == s.assignments[x].attempt && b[x].task == s.assignments[x].task;
  }

  lemma CreateAssignmentAppears(s: Tables, task: Id, agent: Id)
    requires forall x :: x in s.assignments ==> x < s.nextId
    requires forall x :: x in s.assignments && s.assignments[x].task == task ==> !Open(s.assignments[x].state)
    ensures NewAttempt(s.assignments, K.CreateAssignment(s, task, agent).assignments, s.nextId)
    ensures K.CreateAssignment(s, task, agent).assignments[s.nextId].task == task
  {
    hide Max, Attempts;
  }

  lemma StartAttemptWork(s: Tables, task: Id, owner: nat, agent: Id, version: nat, env: RunEnv)
    requires task in s.tasks
    ensures var s' := K.StartAttempt(s, task, owner, agent, version, env).0;
            && s'.assignments == K.CreateAssignment(s, task, agent).assignments
            && s'.results == s.results && s.nextId < s'.nextId
            && s'.tasks.Keys == s.tasks.Keys && NoneDelivered(s, s')
  {
    hide K.CreateAssignment, SameTaskTables;
    StartAttemptEffect(s, task, owner, agent, version, env);
    StartAttemptTables(s, task, owner, agent, version, env);
  }

  lemma StartAttemptTables(s: Tables, task: Id, owner: nat, agent: Id, version: nat, env: RunEnv)
    requires task in s.tasks
    ensures var s' := K.StartAttempt(s, task, owner, agent, version, env).0;
            && s'.assignments == K.CreateAssignment(s, task, agent).assignments
            && s'.results == s.results && s.nextId < s'.nextId && s'.dedup == s.dedup
  {
    var s1 := K.CreateAssignment(s, task, agent);
    var s2 := K.OpenConversation(s1, agent, owner);
    var row := s2.tasks[task].(state := T.Assigned, assignedAgent := Some(agent),
                               conversation := Some(s1.nextId), version := version);
    hide MayCreateRun, Max, Attempts;
    CreateRunFrame(K.SetTask(s2, task, row), s1.nextId, owner, Some(task), Some(s.nextId), env);
  }

  // The first attempt of a task that was just inserted.
  lemma FirstAttemptWork(s: Tables, row: Task, owner: nat, agent: Id, env: RunEnv)
    requires Placed(s)
    ensures var s1 := K.SetTask(s, s.nextId, row).(nextId := s.nextId + 1);
            row.state == T.Assigned ==> WorkStep(s, K.StartAttempt(s1, s.nextId, owner, agent, 1, env).0)
  {
    if row.state == T.Assigned {
      hide K.StartAttempt, K.CreateAssignment, NewAttempt;
      var s1 := K.SetTask(s, s.nextId, row).(nextId := s.nextId + 1);
      var s' := K.StartAttempt(s1, s.nextId, owner, agent, 1, env).0;
      StartAttemptWork(s1, s.nextId, owner, agent, 1, env);
      CreateAssignmentAppears(s1, s.nextId, agent);
      NewAttemptWork(s, s', s.nextId + 1, s.nextId);
    }
  }

  lemma NewAttemptWork(s: Tables, s': Tables, n: Id, task: Id)
    requires NewAttempt(s.assignments, s'.assignments, n) && s.nextId <= n < s'.nextId
    requires s'.assignments[n].task == task && task in s'.tasks
    requires s'.results == s.results && NoneDelivered(s, s')
    ensures WorkStep(s, s')
  {
  }

  // A further attempt: the open ones are superseded first.
  lemma NextAttemptWork(s: Tables, task: Id, owner: nat, agent: Id, version: nat, env: RunEnv)
    requires Placed(s) && task in s.tasks
    ensures WorkStep(s, K.StartAttempt(K.SupersedeOpenAssignments(s, task), task, owner, agent, version, env).0)
  {
    hide K.StartAttempt, K.CreateAssignment, NewAttempt, K.SupersedeOpenAssignments;
    var s1 := K.SupersedeOpenAssignments(s, task);
    SupersedeFrame(s, task);
    var s' := K.StartAttempt(s1, task, owner, agent, version, env).0;
    SupersedeAges(s, task);
    StartAttemptWork(s1, task, owner, agent, version, env);
    CreateAssignmentAppears(s1, task, agent);
    NewAttemptAfter(s.assignments, s1.assignments, s'.assignments, s.nextId, task);
    NewAttemptWork(s, s', s.nextId, task);
  }

  lemma SupersedeFrame(s: Tables, task: Id)
    ensures K.SupersedeOpenAssignments(s, task) == s.(assignments := K.SupersedeOpenAssignments(s, task).assignments)
  {
  }

  lemma NewAttemptAfter(a: map<Id, Assignment>, b: map<Id, Assignment>, c: map<Id, Assignment>, n: Id, task: Id)
    requires b.Keys == a.Keys && AllAge(a, b) && Attempts(b, task) == Attempts(a, task)
    requires NewAttempt(b, c, n) && c[n].task == task
    ensures NewAttempt(a, c, n)
  {
    forall x | x in a
      ensures x in c && Ages(a[x], c[x])
    {
      assert Ages(a[x], b[x]) && Ages(b[x], c[x]);
    }
  }

  // ---------------------------------------------------------------- the commands

  lemma CreateTaskWork(s: Tables, owner: nat, agent: Option<Id>, budget: Budget, key: string, env: RunEnv)
    requires Placed(s)
    ensures WorkStep(s, K.CreateTask(s, owner, agent, budget, key, env).0)
  {
    hide K.InsertTask, WorkStep, ValidBudget, K.Remembered;
    var s' := K.CreateTask(s, owner, agent, budget, key, env).0;
    if s' == s {
      NoWork(s, s');
    } else {
      InsertTaskWork(s, owner, agent, budget, env);
      SameWork(s, K.InsertTask(s, owner, agent, budget, env).0, s');
    }
  }

  lemma InsertTaskWork(s: Tables, owner: nat, agent: Option<Id>, budget: Budget, env: RunEnv)
    requires Placed(s)
    ensures WorkStep(s, K.InsertTask(s, owner, agent, budget, env).0)
  {
    hide K.StartAttempt, WorkStep;
    var row := K.RootTask(s.nextId, owner, agent, budget);
    if agent.Some? {
      FirstAttemptWork(s, row, owner, agent.value, env);
    } else {
      OnlyTaskMoves(s, K.InsertTask(s, owner, agent, budget, env).0, s.nextId, row);
    }
  }

  lemma AssignCloudTaskWork(s: Tables, task: Id, owner: nat, agent: Id, key: string, expected: Option<nat>, env: RunEnv)
    requires Placed(s)
    ensures WorkStep(s, K.AssignCloudTask(s, task, owner, agent, key, expected, env).0)
  {
    hide K.StartAttempt, WorkStep, K.Remembered;
    var s' := K.AssignCloudTask(s, task, owner, agent, key, expected, env).0;
    if s' == s {
      NoWork(s, s');
    } else if s' == K.SupersedeOpenAssignments(s, task) {
      SupersedeWork(s, task);
    } else {
      var version := s.tasks[task].version + (if s.tasks[task].state == T.Assigned then 0 else 1);
      NextAttemptWork(s, task, owner, agent, version, env);
      SameWork(s, K.StartAttempt(K.SupersedeOpenAssignments(s, task), task, owner, agent, version, env).0, s');
    }
  }

  lemma SupersedeWork(s: Tables, task: Id)
    ensures WorkStep(s, K.SupersedeOpenAssignments(s, task))
  {
    SupersedeAges(s, task);
  }

  lemma ResumeTaskWork(s: Tables, task: Id, owner: nat, key: string, expected: Option<nat>, env: RunEnv)
    requires Placed(s)
    ensures WorkStep(s, K.ResumeTask(s, task, owner, key, expected, env).0)
  {
    hide K.StartAttempt, WorkStep, K.Remembered;
    var s' := K.ResumeTask(s, task, owner, key, expected, env).0;
    if s' == s {
      NoWork(s, s');
    } else {
      var agent, version := s.tasks[task].assignedAgent.value, s.tasks[task].version + 1;
      NextAttemptWork(s, task, owner, agent, version, env);
      SameWork(s, K.StartAttempt(K.SupersedeOpenAssignments(s, task), task, owner, agent, version, env).0, s');
    }
  }

  // Over HTTP nobody can ask for a delivery.
  lemma TransitionTaskWork(s: Tables, task: Id, owner: nat, target: T.TaskState, key: string, expected: Option<nat>)
    requires target != T.AwaitingProposerClose
    ensures WorkStep(s, K.TransitionTask(s, task, owner, target, key, expected).0)
  {
    hide WorkStep, K.Remembered;
    var s' := K.TransitionTask(s, task, owner, target, key, expected).0;
    if s' == s {
      NoWork(s, s');
    } else {
      OnlyTaskMoves(s, s', task, K.Requested(s.tasks[task], target, owner));
    }
  }

  lemma SyncWork(s: Tables, run: Id, state: R.RunState)
    ensures WorkStep(s, K.SyncTaskRunState(s, run, state))
  {
    hide WorkStep;
    var s' := K.SyncTaskRunState(s, run, state);
    if !K.Projects(s, run, state) {
      NoWork(s, s');
    } else {
      var task := s.runs[run].task.value;
      var row := K.Moved(s.tasks[task], K.ProjectedState(state).value);
      var a := s.runs[run].assignment;
      if a.Some? && a.value in s.assignments {
        AssignmentAges(s, s', a.value, s'.assignments[a.value]);
      } else {
        OnlyTaskMoves(s, s', task, row);
      }
    }
  }

  lemma UpdateUsageWork(s: Tables, run: Id, tokens: nat)
    ensures WorkStep(s, K.UpdateUsage(s, run, tokens))
  {
    hide WorkStep, BudgetSpent;
    var s' := K.UpdateUsage(s, run, tokens);
    if s'.tasks == s.tasks {
      NoWork(s, s');
    } else {
      var task := s.runs[run].task.value;
      OnlyTaskMoves(s, s', task, K.Moved(s.tasks[task], T.AttentionRequired));
    }
  }

  lemma SubmitWork(s: Tables, task: Id, owner: nat, assignment: Id, p: Principal, content: string)
    requires Placed(s)
    ensures WorkStep(s, K.SubmitTaskResult(s, task, owner, assignment, p, content).0)
  {
    hide CanRead;
    var s' := K.SubmitTaskResult(s, task, owner, assignment, p, content).0;
    if s' == s {
      NoWork(s, s');
    } else {
      assert AllAge(s.assignments, s'.assignments);
      assert Delivers(s, s', s.nextId);
    }
  }

  lemma CloseChildWork(s: Tables, parent: Id, child: Id, owner: nat, p: Principal)
    ensures WorkStep(s, K.CloseDelegatedTask(s, parent, child, owner, p).0)
  {
    hide WorkStep, CanRead;
    var s' := K.CloseDelegatedTask(s, parent, child, owner, p).0;
    if s' == s {
      NoWork(s, s');
    } else {
      OnlyTaskMoves(s, s', child, s'.tasks[child]);
    }
  }

  lemma AskWork(s: Tables, task: Id)
    requires task in s.tasks
    ensures WorkStep(s, K.RequestProposerDecision(s, task).0)
  {
    hide WorkStep;
    if T.CanTransition(s.tasks[task].state, T.AttentionRequired) {
      OnlyTaskMoves(s, K.RequestProposerDecision(s, task).0, task, K.Moved(s.tasks[task], T.AttentionRequired));
    } else {
      NoWork(s, s);
    }
  }

  lemma AcceptWork(s: Tables, assignment: Id)
    requires assignment in s.assignments
    ensures WorkStep(s, K.AcceptAssignment(s, assignment))
  {
    hide WorkStep;
    if s.assignments[assignment].state == Assigned {
      AssignmentAges(s, K.AcceptAssignment(s, assignment), assignment, s.assignments[assignment].(state := Accepted));
    } else {
      NoWork(s, s);
    }
  }

  lemma DeclinedAges(a: Assignment)
    requires Open(a.state)
    ensures Ages(a, a.(state := Declined))
  {
  }

  // What declining does: the assignment is declined, and the task may go back to its proposer.
  lemma DeclineShape(s: Tables, task: Id, assignment: Id)
    requires task in s.tasks && assignment in s.assignments
    ensures var s' := K.DeclineAssignment(s, task, assignment).0;
            && s'.assignments == s.assignments[assignment := s.assignments[assignment].(state := Declined)]
            && s'.results == s.results
            && (s'.tasks == s.tasks || s'.tasks == s.tasks[task := K.Moved(s.tasks[task], T.AttentionRequired)])
  {
    hide T.CanTransition, K.Moved, K.SetTask, K.SetAssignmentState;
    DeclinedRow(s, task, assignment, K.Moved(s.tasks[task], T.AttentionRequired));
  }

  lemma DeclinedRow(s: Tables, task: Id, assignment: Id, row: Task)
    requires assignment in s.assignments
    ensures var s1 := K.SetAssignmentState(s, assignment, Declined);
            && s1.assignments == s.assignments[assignment := s.assignments[assignment].(state := Declined)]
            && s1.results == s.results && s1.tasks == s.tasks
            && K.SetTask(s1, task, row).assignments == s1.assignments
            && K.SetTask(s1, task, row).results == s.results && K.SetTask(s1, task, row).tasks == s.tasks[task := row]
  {
  }

  lemma NothingDelivered(s: Tables, s': Tables, task: Id)
    requires task in s.tasks
    requires s'.tasks == s.tasks || s'.tasks == s.tasks[task := K.Moved(s.tasks[task], T.AttentionRequired)]
    ensures NoneDelivered(s, s')
  {
  }

  lemma DeclineWork(s: Tables, task: Id, assignment: Id)
    requires task in s.tasks && assignment in s.assignments && Open(s.assignments[assignment].state)
    ensures WorkStep(s, K.DeclineAssignment(s, task, assignment).0)
  {
    hide WorkStep, K.DeclineAssignment, K.Moved, Ages, NoneDelivered;
    var s', row := K.DeclineAssignment(s, task, assignment).0, s.assignments[assignment].(state := Declined);
    DeclineShape(s, task, assignment);
    DeclinedAges(s.assignments[assignment]);
    NothingDelivered(s, s', task);
    AssignmentAges(s, s', assignment, row);
  }

  lemma DelegateWork(s: Tables, parent: Id, owner: nat, p: Principal, agent: Id, budget: Budget, blank: bool, env: RunEnv)
    requires Placed(s)
    ensures WorkStep(s, K.DelegateTask(s, parent, owner, p, agent, budget, blank, env).0)
  {
    hide K.StartAttempt, WorkStep, K.DelegationForbidden, ValidBudget, CanRead, TokensUsed, TokensAllocated;
    var s' := K.DelegateTask(s, parent, owner, p, agent, budget, blank, env).0;
    if s' == s {
      NoWork(s, s');
    } else {
      var root := WalkUp(s.tasks, parent, [parent], 0).root;
      var proposer := match p case User(u) => AgentProposer(u) case AgentProposer(a) => p case CloudAgent(a) => AgentProposer(a);
      FirstAttemptWork(s, Task(root, Some(parent), owner, proposer, budget, T.Assigned, 1, Some(agent), None, None), owner, agent, env);
    }
  }

  lemma RunToolWork(s: Tables, task: Id, assignment: Id, p: Principal, call: K.ToolCall, env: RunEnv)
    requires Placed(s) && task in s.tasks && assignment in s.assignments && Open(s.assignments[assignment].state)
    ensures WorkStep(s, K.RunTool(s, task, assignment, p, call, env).0)
  {
    hide WorkStep, Placed, K.SubmitTaskResult, K.DelegateTask, K.CollectChildResult, K.CloseDelegatedTask,
         K.RequestProposerDecision, K.AcceptAssignment, K.DeclineAssignment;
    var owner := s.tasks[task].owner;
    NoWork(s, s);
    match call
    case Submit(_, content) => SubmitWork(s, task, owner, assignment, p, content);
    case Delegate(_, agent, budget, blank) => DelegateWork(s, task, owner, p, agent, budget, blank, env);
    case CloseChild(_, child) => CloseChildWork(s, task, child, owner, p);
    case AskProposer(_) => AskWork(s, task);
    case Accept => AcceptWork(s, assignment);
    case Decline(_) => DeclineWork(s, task, assignment);
    case _ =>
  }

  lemma ExecuteToolWork(s: Tables, run: Id, callId: string, call: K.ToolCall, env: RunEnv)
    requires Placed(s)
    ensures WorkStep(s, K.ExecuteTaskTool(s, run, callId, call, env).0)
  {
    hide WorkStep, Placed, K.RunTool, K.Remembered;
    var s' := K.ExecuteTaskTool(s, run, callId, call, env).0;
    if s' == s {
      NoWork(s, s');
    } else {
      var task, a, p := s.runs[run].task.value, s.runs[run].assignment.value, CloudAgent(s.runs[run].agent);
      RunToolWork(s, task, a, p, call, env);
      SameWork(s, K.RunTool(s, task, a, p, call, env).0, s');
    }
  }

  lemma ClaimWork(s: Tables, run: Id, device: Id, lease: Id, session: string)
    ensures WorkStep(s, ClaimLocalRun(s, run, device, lease, session).0)
  {
    hide WorkStep, K.SyncTaskRunState;
    var s' := ClaimLocalRun(s, run, device, lease, session).0;
    if s' == s {
      NoWork(s, s');
    } else {
      var s1 := SetDispatch(s, run, s.dispatches[run].(state := Claimed, session := Some(session)));
      var s2 := s1.(runs := s1.runs[run := Started(s1.runs[run])]);
      SyncWork(s2, run, R.Running);
      SameWorkStart(s2, s, s');
    }
  }

  lemma FinishWork(s: Tables, run: Id, device: Id, lease: Id, state: R.RunState, content: string)
    requires Placed(s)
    ensures WorkStep(s, FinishLocalRun(s, run, device, lease, state, content).0)
  {
    hide WorkStep, K.SyncTaskRunState, K.SubmitTaskResult, UpdateRun;
    var s' := FinishLocalRun(s, run, device, lease, state, content).0;
    if s' == s {
      NoWork(s, s');
    } else {
      var s1 := UpdateRun(s, run, state).0;
      UpdateRunFrame(s, run, state);
      var (s2, submitted) := SubmitLocalTaskResult(s1, run, content);
      if state == R.Completed && submitted {
        var task := s1.runs[run].task.value;
        SubmitWork(s1, task, s1.tasks[task].owner, s1.runs[run].assignment.value, CloudAgent(s1.runs[run].agent), content);
        SameWorkStart(s1, s, s2);
        SameWork(s, s2, s');
      } else {
        SyncWork(s1, run, state);
        SameWorkStart(s1, s, K.SyncTaskRunState(s1, run, state));
        SameWork(s, K.SyncTaskRunState(s1, run, state), s');
      }
    }
  }

  lemma StepWork(s: Tables, c: Command)
    requires Placed(s)
    ensures WorkStep(s, Step(s, c))
  {
    hide WorkStep, Placed, K.CreateTask, K.AssignCloudTask, K.ResumeTask, K.TransitionTask,
         K.ExecuteTaskTool, K.SyncTaskRunState, K.UpdateUsage, ClaimLocalRun, FinishLocalRun, SameTaskTables;
    if LeavesTasks(c) {
      QuietStep(s, c);
      SameTaskTablesWork(s, Step(s, c));
    } else {
      match c
      case CreateTask(owner, agent, budget, key, env) => CreateTaskWork(s, owner, agent, budget, key, env);
      case AssignTask(task, owner, agent, key, expected, env) => AssignCloudTaskWork(s, task, owner, agent, key, expected, env);
      case ReopenTask(task, owner, key, expected, env) => ResumeTaskWork(s, task, owner, key, expected, env);
      case ProposerTransition(task, owner, verb, key, expected) => TransitionTaskWork(s, task, owner, TargetOf(verb), key, expected);
      case TaskTool(run, callId, call, env) => ExecuteToolWork(s, run, callId, call, env);
      case SyncTask(run, state) => SyncWork(s, run, state);
      case RecordUsage(run, tokens) => UpdateUsageWork(s, run, tokens);
      case Claim(run, device, lease, session) => ClaimWork(s, run, device, lease, session);
      case Finish(run, device, lease, state, content) => FinishWork(s, run, device, lease, state, content);
    }
  }
}
