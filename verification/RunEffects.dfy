// Each command's move on the run tables, command by command.
module RunEffects {
  import opened Options
  import opened Tables
  import MapSums
  import opened RunCommands
  import opened LeaseCommands
  import opened Commands
  import opened TaskHistory
  import opened RunHistory
  import K = TaskCommands
  import T = TaskStates
  import R = RunStates

  predicate SameRunTables(s: Tables, s': Tables) {
    && s'.runs == s.runs && s'.dispatches == s.dispatches && s'.outbox == s.outbox
    && s'.invocations == s.invocations && s'.trace == s.trace
    && s.nextId <= s'.nextId && s.clock <= s'.clock
  }

  lemma Resting(s: Tables, s': Tables)
    requires SameRunTables(s, s')
    ensures Moves(s, s', Rest)
  {
  }

  ghost predicate Unspent(s: Tables, t: Id)
  {
    t in s.tasks && !BudgetSpent(s, t, true)
  }

  lemma UnspentRoom(s: Tables, t: Id)
    requires Unspent(s, t)
    ensures HasRoom(s, t, s.tasks[t].budget)
  {
    hide TokensUsed, TaskInvocations, ActiveTaskRuns;
  }

  // The move of create_run.
  ghost function LaunchOf(s: Tables, conversation: Id, owner: nat, task: Option<Id>, assignment: Option<Id>): RunMove
    requires conversation in s.conversations && s.conversations[conversation].agent in s.agents
  {
    var agent := s.conversations[conversation].agent;
    Launch(s.nextId, Run(conversation, agent, owner, task, assignment, R.Queued, 0, 0, 0),
           if s.agents[agent].onDevice && s.agents[agent].device.Some?
           then Some(Dispatch(s.agents[agent].device.value, Pending, None, 0, None, 0)) else None)
  }

  lemma LaunchResult(s: Tables, conversation: Id, owner: nat, task: Option<Id>, assignment: Option<Id>, env: RunEnv)
    requires MayCreateRun(s, conversation, owner, task, assignment, env)
    ensures var s' := CreateRun(s, conversation, owner, task, assignment, env).0;
            && Result(s, s', LaunchOf(s, conversation, owner, task, assignment))
            && s'.nextId == s.nextId + 1 && s'.clock == s.clock && s'.tasks == s.tasks
  {
    hide TaskAllowsRun;
  }

  lemma SameResult(s: Tables, s1: Tables, s': Tables, m: RunMove)
    requires SameRunTables(s, s1) && Result(s1, s', m) && m.Launch?
    ensures Result(s, s', m)
  {
  }

  lemma SpareTask(s: Tables, s1: Tables, s': Tables, m: RunMove)
    requires m.Launch? && m.row.task.Some? && Unspent(s1, m.row.task.value)
    requires m.row.task.value in s.tasks || m.row.task.value >= s.nextId
    requires s'.tasks == s1.tasks && s.runs == s1.runs && s.invocations == s1.invocations
    ensures m.row.task.value in s'.tasks && HasRoom(s, m.row.task.value, s'.tasks[m.row.task.value].budget)
  {
    hide Unspent, Within, MapSums.Sum;
    UnspentRoom(s1, m.row.task.value);
    UnspentTask(s1, m.row.task.value);
    SameSpending(s, s1, m.row.task.value);
  }

  lemma UnspentTask(s: Tables, t: Id)
    requires Unspent(s, t)
    ensures t in s.tasks
  {
    hide BudgetSpent;
  }

  lemma SameSpending(s: Tables, s1: Tables, t: Id)
    requires s.runs == s1.runs && s.invocations == s1.invocations
    ensures TokensUsed(s, t) == TokensUsed(s1, t)
    ensures TaskInvocations(s, t) == TaskInvocations(s1, t)
    ensures ActiveTaskRuns(s, t) == ActiveTaskRuns(s1, t)
  {
    assert TaskUsage(s, t) == TaskUsage(s1, t);
  }

  // The new run of create_run, from a state that may differ from s in other tables.
  lemma CreateRunMoves(s: Tables, s1: Tables, conversation: Id, owner: nat, task: Option<Id>, assignment: Option<Id>, env: RunEnv)
    returns (m: RunMove)
    requires SameRunTables(s, s1)
    requires task.Some? ==> task.value in s.tasks || task.value >= s.nextId
    ensures Moves(s, CreateRun(s1, conversation, owner, task, assignment, env).0, m)
    ensures m.Rest? || m.Launch?
  {
    hide Unspent, BudgetSpent, Result, HasRoom;
    var s' := CreateRun(s1, conversation, owner, task, assignment, env).0;
    if !MayCreateRun(s1, conversation, owner, task, assignment, env) {
      m := Rest;
      Resting(s, s');
    } else {
      hide CreateRun;
      m := LaunchOf(s1, conversation, owner, task, assignment);
      LaunchResult(s1, conversation, owner, task, assignment, env);
      SameResult(s, s1, s', m);
      if task.Some? {
        GuardedTask(s1, conversation, owner, task.value, assignment, env);
        SpareTask(s, s1, s', m);
      }
    }
  }

  lemma GuardedTask(s: Tables, conversation: Id, owner: nat, task: Id, assignment: Option<Id>, env: RunEnv)
    requires MayCreateRun(s, conversation, owner, Some(task), assignment, env)
    ensures Unspent(s, task)
  {
    hide BudgetSpent;
  }

  lemma SameEnd(s: Tables, x: Tables, y: Tables, m: RunMove)
    requires Moves(s, x, m) && y == x.(dedup := y.dedup)
    ensures Moves(s, y, m)
  {
    hide Result;
    assert Result(s, y, m) by { SameResultEnd(s, x, y, m); }
  }

  lemma SameResultEnd(s: Tables, x: Tables, y: Tables, m: RunMove)
    requires Result(s, x, m) && SameRunTables(x, y)
    ensures Result(s, y, m)
  {
    hide RunsAfter, DispatchesAfter, OutboxAfter, InvocationsAfter, TraceAfter;
  }

  lemma StartAttemptMoves(s: Tables, s1: Tables, task: Id, owner: nat, agent: Id, version: nat, env: RunEnv) returns (m: RunMove)
    requires SameRunTables(s, s1) && task in s1.tasks
    requires task in s.tasks || task >= s.nextId
    ensures Moves(s, K.StartAttempt(s1, task, owner, agent, version, env).0, m)
    ensures m.Rest? || m.Launch?
  {
    hide CreateRun, Moves, Attempts, Max;
    var s2 := K.CreateAssignment(s1, task, agent);
    var s3 := K.OpenConversation(s2, agent, owner);
    var row := s3.tasks[task].(state := T.Assigned, assignedAgent := Some(agent),
                               conversation := Some(s2.nextId), version := version);
    m := CreateRunMoves(s, K.SetTask(s3, task, row), s2.nextId, owner, Some(task), Some(s1.nextId), env);
  }

  predicate Launching(m: RunMove) {
    m.Rest? || m.Launch?
  }

  lemma CreateTaskMoves(s: Tables, owner: nat, agent: Option<Id>, budget: Budget, key: string, env: RunEnv) returns (m: RunMove)
    ensures Moves(s, K.CreateTask(s, owner, agent, budget, key, env).0, m) && Launching(m)
  {
    hide K.StartAttempt, Moves, ValidBudget, K.Remembered;
    var s' := K.CreateTask(s, owner, agent, budget, key, env).0;
    if s' == s {
      m := Rest;
      Resting(s, s');
    } else {
      var s1 := K.SetTask(s, s.nextId, K.RootTask(s.nextId, owner, agent, budget)).(nextId := s.nextId + 1);
      if agent.None? {
        m := Rest;
        Resting(s, s1);
      } else {
        m := StartAttemptMoves(s, s1, s.nextId, owner, agent.value, 1, env);
      }
      SameEnd(s, K.InsertTask(s, owner, agent, budget, env).0, s', m);
    }
  }

  lemma AssignMoves(s: Tables, task: Id, owner: nat, agent: Id, key: string, expected: Option<nat>, env: RunEnv) returns (m: RunMove)
    ensures Moves(s, K.AssignCloudTask(s, task, owner, agent, key, expected, env).0, m) && Launching(m)
  {
    hide K.StartAttempt, Moves, K.Remembered;
    var s' := K.AssignCloudTask(s, task, owner, agent, key, expected, env).0;
    if s' == s || s' == K.SupersedeOpenAssignments(s, task) {
      m := Rest;
      Resting(s, s');
    } else {
      var version := s.tasks[task].version + (if s.tasks[task].state == T.Assigned then 0 else 1);
      m := StartAttemptMoves(s, K.SupersedeOpenAssignments(s, task), task, owner, agent, version, env);
      SameEnd(s, K.StartAttempt(K.SupersedeOpenAssignments(s, task), task, owner, agent, version, env).0, s', m);
    }
  }

  lemma ResumeMoves(s: Tables, task: Id, owner: nat, key: string, expected: Option<nat>, env: RunEnv) returns (m: RunMove)
    ensures Moves(s, K.ResumeTask(s, task, owner, key, expected, env).0, m) && Launching(m)
  {
    hide K.StartAttempt, Moves, K.Remembered;
    var s' := K.ResumeTask(s, task, owner, key, expected, env).0;
    if s' == s {
      m := Rest;
      Resting(s, s');
    } else {
      var agent, version := s.tasks[task].assignedAgent.value, s.tasks[task].version + 1;
      m := StartAttemptMoves(s, K.SupersedeOpenAssignments(s, task), task, owner, agent, version, env);
      SameEnd(s, K.StartAttempt(K.SupersedeOpenAssignments(s, task), task, owner, agent, version, env).0, s', m);
    }
  }

  lemma DelegateMoves(s: Tables, parent: Id, owner: nat, p: Principal, agent: Id, budget: Budget, blank: bool, env: RunEnv)
    returns (m: RunMove)
    ensures Moves(s, K.DelegateTask(s, parent, owner, p, agent, budget, blank, env).0, m) && Launching(m)
  {
    hide K.StartAttempt, Moves, K.DelegationForbidden, ValidBudget, CanRead, TokensUsed, TokensAllocated;
    var s' := K.DelegateTask(s, parent, owner, p, agent, budget, blank, env).0;
    if s' == s {
      m := Rest;
      Resting(s, s');
    } else {
      var root := WalkUp(s.tasks, parent, [parent], 0).root;
      var proposer := match p case User(u) => AgentProposer(u) case AgentProposer(a) => p case CloudAgent(a) => AgentProposer(a);
      var row := Task(root, Some(parent), owner, proposer, budget, T.Assigned, 1, Some(agent), None, None);
      m := StartAttemptMoves(s, K.SetTask(s, s.nextId, row).(nextId := s.nextId + 1), s.nextId, owner, agent, 1, env);
    }
  }

  lemma RowsRest(s: Tables, task: Id, row: Task, assignment: Id, state: AssignmentState)
    requires assignment in s.assignments
    ensures SameRunTables(s, K.SetTask(s, task, row))
    ensures SameRunTables(s, K.SetAssignmentState(s, assignment, state))
    ensures SameRunTables(s, K.SetTask(K.SetAssignmentState(s, assignment, state), task, row))
    ensures SameRunTables(s, K.SetAssignmentState(K.SetTask(s, task, row), assignment, state))
  {
  }

  lemma SubmitRowRests(s: Tables, task: Id, owner: nat, assignment: Id, p: Principal, content: string)
    ensures SameRunTables(s, K.SubmitTaskResult(s, task, owner, assignment, p, content).0)
  {
    hide CanRead, SameRunTables;
    Standing(s);
    var s' := K.SubmitTaskResult(s, task, owner, assignment, p, content).0;
    if s' != s {
      var s1 := s.(nextId := s.nextId + 1, results := s.results[s.nextId := TaskResult(task, assignment, p, content)]);
      RowsRest(s1, task, K.Moved(s.tasks[task], T.AwaitingProposerClose), assignment, Completed);
      ResultRests(s, s1, s');
    }
  }

  lemma ResultRests(s: Tables, s1: Tables, s': Tables)
    requires s1 == s.(nextId := s.nextId + 1, results := s1.results) && SameRunTables(s1, s')
    ensures SameRunTables(s, s')
  {
  }

  lemma CloseRests(s: Tables, task: Id, owner: nat, p: Principal, child: Id)
    ensures SameRunTables(s, K.CloseDelegatedTask(s, task, child, owner, p).0)
  {
    hide CanRead, SameRunTables;
    Standing(s);
    var s' := K.CloseDelegatedTask(s, task, child, owner, p).0;
    if s' != s {
      TaskRests(s, child, s'.tasks[child]);
    }
  }

  lemma TaskRests(s: Tables, task: Id, row: Task)
    ensures SameRunTables(s, K.SetTask(s, task, row))
  {
  }

  lemma RowToolsRest(s: Tables, task: Id, assignment: Id)
    requires task in s.tasks && assignment in s.assignments
    ensures SameRunTables(s, K.RequestProposerDecision(s, task).0)
    ensures SameRunTables(s, K.AcceptAssignment(s, assignment))
    ensures SameRunTables(s, K.DeclineAssignment(s, task, assignment).0)
  {
    hide SameRunTables, K.SetTask, K.SetAssignmentState;
    Standing(s);
    RowsRest(s, task, K.Moved(s.tasks[task], T.AttentionRequired), assignment, Accepted);
    RowsRest(s, task, K.Moved(s.tasks[task], T.AttentionRequired), assignment, Declined);
  }

  lemma Standing(s: Tables)
    ensures SameRunTables(s, s)
  {
  }

  lemma RunToolMoves(s: Tables, task: Id, assignment: Id, p: Principal, call: K.ToolCall, env: RunEnv) returns (m: RunMove)
    requires task in s.tasks && assignment in s.assignments
    ensures Moves(s, K.RunTool(s, task, assignment, p, call, env).0, m) && Launching(m)
  {
    hide Moves, SameRunTables, K.SubmitTaskResult, K.DelegateTask, K.CollectChildResult, K.CloseDelegatedTask,
         K.RequestProposerDecision, K.AcceptAssignment, K.DeclineAssignment;
    var owner := s.tasks[task].owner;
    var s' := K.RunTool(s, task, assignment, p, call, env).0;
    m := Rest;
    Standing(s);
    match call
    case Delegate(valid, agent, budget, blank) =>
      if valid {
        m := DelegateMoves(s, task, owner, p, agent, budget, blank, env);
      } else {
        Resting(s, s);
      }
    case Submit(_, content) =>
      SubmitRowRests(s, task, owner, assignment, p, content);
      Resting(s, s');
    case CloseChild(_, child) =>
      CloseRests(s, task, owner, p, child);
      Resting(s, s');
    case _ =>
      RowToolsRest(s, task, assignment);
      Resting(s, s');
  }

  lemma ExecuteToolMoves(s: Tables, run: Id, callId: string, call: K.ToolCall, env: RunEnv) returns (m: RunMove)
    ensures Moves(s, K.ExecuteTaskTool(s, run, callId, call, env).0, m) && Launching(m)
  {
    hide Moves, K.RunTool, K.Remembered;
    var s' := K.ExecuteTaskTool(s, run, callId, call, env).0;
    if s' == s {
      m := Rest;
      Resting(s, s');
    } else {
      var task, a, p := s.runs[run].task.value, s.runs[run].assignment.value, CloudAgent(s.runs[run].agent);
      m := RunToolMoves(s, task, a, p, call, env);
      SameEnd(s, K.RunTool(s, task, a, p, call, env).0, s', m);
    }
  }

  lemma ProposerRests(s: Tables, task: Id, owner: nat, target: T.TaskState, key: string, expected: Option<nat>)
    ensures SameRunTables(s, K.TransitionTask(s, task, owner, target, key, expected).0)
  {
    hide K.Remembered, SameRunTables;
    Standing(s);
    var s' := K.TransitionTask(s, task, owner, target, key, expected).0;
    if s' != s {
      var s1 := K.SetTask(s, task, K.Requested(s.tasks[task], target, owner));
      TaskRests(s, task, K.Requested(s.tasks[task], target, owner));
      SameRestEnd(s, s1, s');
    }
  }

  lemma SameRestEnd(s: Tables, x: Tables, y: Tables)
    requires SameRunTables(s, x) && y == x.(dedup := y.dedup)
    ensures SameRunTables(s, y)
  {
  }

  lemma SyncRests(s: Tables, run: Id, state: R.RunState)
    ensures SameRunTables(s, K.SyncTaskRunState(s, run, state))
  {
  }

  lemma UsageMoves(s: Tables, run: Id, tokens: nat) returns (m: RunMove)
    ensures Moves(s, K.UpdateUsage(s, run, tokens), m) && (m.Rest? || m.Spend?)
  {
    hide BudgetSpent;
    m := if run in s.runs then Spend(run, tokens) else Rest;
  }

  // ---------------------------------------------------------------- runs and devices

  // Whether a command starts a run: a worker's compare-and-set or a device's claim succeeds.
  predicate StartsRun(s: Tables, c: Command, run: Id) {
    || (c.StartRun? && c.run == run && TryStartRun(s, c.run, c.recover, c.resume).1)
    || (c.Claim? && c.run == run && ClaimLocalRun(s, c.run, c.device, c.lease, c.session).1)
  }

  predicate StartedBy(m: RunMove, run: Id) {
    (m.Start? && m.run == run) || (m.Take? && m.run == run)
  }

  lemma StartMoves(s: Tables, run: Id, recover: bool, resume: bool) returns (m: RunMove)
    ensures var (s', ok) := TryStartRun(s, run, recover, resume);
            Moves(s, s', m) && m == if ok then Start(run) else Rest
  {
    m := if TryStartRun(s, run, recover, resume).1 then Start(run) else Rest;
  }

  lemma ReportMoves(s: Tables, run: Id, report: RunReport) returns (m: RunMove)
    ensures Moves(s, UpdateRun(s, run, StateOf(report)).0, m) && (m.Rest? || m.Report?)
  {
    m := if UpdateRun(s, run, StateOf(report)).1 then Report(run, StateOf(report)) else Rest;
  }

  lemma EventMoves(s: Tables, run: Id, kind: string) returns (m: RunMove)
    ensures Moves(s, AddEvent(s, run, kind).0, m) && (m.Rest? || m.Note?)
  {
    m := if run in s.runs then Note(run, kind) else Rest;
  }

  lemma WakeMoves(s: Tables, run: Id)
    ensures Moves(s, EnqueueConfirmationResume(s, run), Wake(run))
  {
  }

  lemma InvocationMoves(s: Tables, run: Id) returns (m: RunMove)
    ensures Moves(s, InvocationRow(s, run), m) && (m.Rest? || m.Invoke?)
  {
    hide AllowsToolCall;
    m := if run < s.nextId && AllowsToolCall(s, run) then Invoke(run, s.nextId) else Rest;
  }

  lemma OfferMoves(s: Tables, device: Id) returns (m: RunMove)
    ensures Moves(s, OfferLocalRun(s, device).0, m) && (m.Rest? || m.Lend?)
  {
    var (s', given) := OfferLocalRun(s, device);
    if given.None? {
      m := Rest;
    } else {
      assert Offerable(s, given.value.0, device);
      m := Lend(given.value.0, given.value.1);
    }
  }

  lemma ClaimMoves(s: Tables, run: Id, device: Id, lease: Id, session: string) returns (m: RunMove)
    ensures var (s', ok) := ClaimLocalRun(s, run, device, lease, session);
            Moves(s, s', m) && m == if ok then Take(run, session) else Rest
  {
    hide K.SyncTaskRunState;
    if ClaimLocalRun(s, run, device, lease, session).1 {
      m := Take(run, session);
      var s1 := SetDispatch(s, run, s.dispatches[run].(state := Claimed, session := Some(session)));
      var s2 := s1.(runs := s1.runs[run := Started(s1.runs[run])]);
      SyncRests(s2, run, R.Running);
    } else {
      m := Rest;
    }
  }

  lemma LeaseMoves(s: Tables, run: Id, device: Id, lease: Id, sequence: int, kind: string) returns (m: RunMove, n: RunMove)
    ensures Moves(s, RenewLocalLease(s, run, device, lease).0, m) && (m.Rest? || m.Extend?)
    ensures Moves(s, AppendLocalRunEvent(s, run, device, lease, sequence, kind).0, n) && (n.Rest? || n.Hear?)
  {
    m := if RenewLocalLease(s, run, device, lease).1.Some? then Extend(run) else Rest;
    n := if HoldsLease(s, run, device, lease, Claimed) && sequence > s.dispatches[run].lastAcked then Hear(run, sequence, kind) else Rest;
  }

  lemma FinishMoves(s: Tables, run: Id, device: Id, lease: Id, state: R.RunState, content: string) returns (m: RunMove)
    ensures var (s', ok) := FinishLocalRun(s, run, device, lease, state, content);
            Moves(s, s', m) && m == if ok then Settle(run, state) else Rest
  {
    hide K.SyncTaskRunState, K.SubmitTaskResult;
    var (s', ok) := FinishLocalRun(s, run, device, lease, state, content);
    if ok {
      m := Settle(run, state);
      var s1 := UpdateRun(s, run, state).0;
      SyncRests(s1, run, state);
      SubmitRests(s1, run, content);
    } else {
      m := Rest;
    }
  }

  lemma SubmitRests(s: Tables, run: Id, content: string)
    ensures SameRunTables(s, SubmitLocalTaskResult(s, run, content).0)
  {
    hide K.SubmitTaskResult, SameRunTables;
    Standing(s);
    if SubmitLocalTaskResult(s, run, content).0 != s {
      var task := s.runs[run].task.value;
      SubmitRowRests(s, task, s.tasks[task].owner, s.runs[run].assignment.value, CloudAgent(s.runs[run].agent), content);
    }
  }

  lemma EraseMoves(s: Tables, conversation: Id, owner: nat) returns (m: RunMove)
    ensures Moves(s, RunCommands.DeleteConversation(s, conversation, owner).0, m) && (m.Rest? || m.Erase?)
  {
    hide TraceWithout;
    m := if MayDelete(s, conversation, owner) then Erase(set r | r in s.runs && s.runs[r].conversation == conversation) else Rest;
  }

  lemma AgentRests(s: Tables, id: Id, row: Agent)
    ensures SameRunTables(s, SetAgent(s, id, row))
  {
  }

  lemma ConversationRests(s: Tables, owner: nat, agent: Id)
    ensures SameRunTables(s, NewConversationRow(s, owner, agent))
  {
  }

  lemma SetupRests(s: Tables, c: Command)
    requires c.Tick? || c.PutAgent? || c.NewConversation?
    ensures SameRunTables(s, Step(s, c))
  {
    hide SetAgent, NewConversationRow;
    match c
    case Tick(_) =>
    case PutAgent(id, row) => AgentRests(s, id, row);
    case NewConversation(owner, agent) => ConversationRests(s, owner, agent);
  }

  predicate ByTasks(c: Command) {
    c.CreateTask? || c.AssignTask? || c.ReopenTask? || c.ProposerTransition? || c.TaskTool? || c.ChatRun? || c.SyncTask? || c.RecordUsage?
  }

  lemma TaskStepMoves(s: Tables, c: Command) returns (m: RunMove)
    requires ByTasks(c)
    ensures Moves(s, Step(s, c), m) && (m.Rest? || m.Launch? || m.Spend?)
  {
    hide Moves, K.CreateTask, K.AssignCloudTask, K.ResumeTask, K.TransitionTask, K.ExecuteTaskTool, K.SyncTaskRunState,
         K.UpdateUsage, CreateRun;
    m := Rest;
    match c
    case CreateTask(owner, agent, budget, key, env) => m := CreateTaskMoves(s, owner, agent, budget, key, env);
    case AssignTask(task, owner, agent, key, expected, env) => m := AssignMoves(s, task, owner, agent, key, expected, env);
    case ReopenTask(task, owner, key, expected, env) => m := ResumeMoves(s, task, owner, key, expected, env);
    case ProposerTransition(task, owner, verb, key, expected) =>
      ProposerRests(s, task, owner, TargetOf(verb), key, expected);
      Resting(s, Step(s, c));
    case TaskTool(run, callId, call, env) => m := ExecuteToolMoves(s, run, callId, call, env);
    case ChatRun(conversation, owner, env) =>
      Standing(s);
      m := CreateRunMoves(s, s, conversation, owner, None, None, env);
    case SyncTask(run, state) =>
      SyncRests(s, run, state);
      Resting(s, Step(s, c));
    case RecordUsage(run, tokens) => m := UsageMoves(s, run, tokens);
  }

  predicate ByDevices(c: Command) {
    c.Offer? || c.Claim? || c.Renew? || c.Append? || c.Finish?
  }

  lemma DeviceStepMoves(s: Tables, c: Command) returns (m: RunMove)
    requires ByDevices(c)
    ensures Moves(s, Step(s, c), m) && (m.Lend? ==> c.Offer?) && !m.Start?
    ensures m.Take? <==> c.Claim? && ClaimLocalRun(s, c.run, c.device, c.lease, c.session).1
    ensures m.Take? ==> m.run == c.run
  {
    hide Moves, OfferLocalRun, ClaimLocalRun, RenewLocalLease, AppendLocalRunEvent, FinishLocalRun;
    var n;
    match c
    case Offer(device) => m := OfferMoves(s, device);
    case Claim(run, device, lease, session) => m := ClaimMoves(s, run, device, lease, session);
    case Renew(run, device, lease) => m, n := LeaseMoves(s, run, device, lease, 0, "");
    case Append(run, device, lease, sequence, kind) => n, m := LeaseMoves(s, run, device, lease, sequence, kind);
    case Finish(run, device, lease, state, content) => m := FinishMoves(s, run, device, lease, state, content);
  }

  lemma RunStepMoves(s: Tables, c: Command) returns (m: RunMove)
    requires !ByTasks(c) && !ByDevices(c)
    ensures Moves(s, Step(s, c), m) && !m.Lend? && !m.Take?
    ensures m.Start? <==> c.StartRun? && TryStartRun(s, c.run, c.recover, c.resume).1
    ensures m.Start? ==> m.run == c.run
  {
    hide Moves, RunCommands.DeleteConversation, UpdateRun, TryStartRun, AddEvent, InvocationRow, EnqueueConfirmationResume;
    m := Rest;
    match c
    case DeleteConversation(conversation, owner) => m := EraseMoves(s, conversation, owner);
    case StartRun(run, recover, resume) => m := StartMoves(s, run, recover, resume);
    case ReportRun(run, report) => m := ReportMoves(s, run, report);
    case RecordEvent(run, kind) => m := EventMoves(s, run, kind);
    case EnqueueResume(run) =>
      m := Wake(run);
      WakeMoves(s, run);
    case RecordInvocation(run) => m := InvocationMoves(s, run);
    case _ =>
      SetupRests(s, c);
      Resting(s, Step(s, c));
  }

  // Every command is at most one move on the run tables, and starts a run exactly when the move does.
  lemma StepMoves(s: Tables, c: Command) returns (m: RunMove)
    ensures Moves(s, Step(s, c), m) && (m.Lend? ==> c.Offer?)
    ensures forall r :: StartedBy(m, r) <==> StartsRun(s, c, r)
  {
    hide Moves, Step, TryStartRun, ClaimLocalRun;
    if ByTasks(c) {
      m := TaskStepMoves(s, c);
    } else if ByDevices(c) {
      m := DeviceStepMoves(s, c);
    } else {
      m := RunStepMoves(s, c);
    }
  }
}
