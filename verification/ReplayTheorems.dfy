// Theorems about repeated and refused commands: an idempotency key answers with its first reply and
// changes nothing, over every history; and what a refused assignment leaves behind.
module ReplayTheorems {
  import opened Options
  import opened Tables
  import opened RunCommands
  import opened LeaseCommands
  import opened Commands
  import opened DelegationTree
  import opened TaskHistory
  import opened TaskTheorems
  import opened AttemptEffects
  import opened LifecycleTheorems
  import opened RunEffects
  import opened RunTheorems
  import Scenario
  import K = TaskCommands
  import T = TaskStates
  import R = RunStates

  // ---------------------------------------------------------------- what is remembered

  // Stored replies are never replaced, and an agent never changes hands.
  ghost predicate Remembers(s: Tables, s': Tables) {
    && (forall ck :: ck in s.dedup ==> ck in s'.dedup && s'.dedup[ck] == s.dedup[ck])
    && (forall a :: a in s.agents ==> a in s'.agents && s'.agents[a].owner == s.agents[a].owner)
  }

  lemma SameMemory(s: Tables, s': Tables)
    requires s'.dedup == s.dedup && s'.agents == s.agents
    ensures Remembers(s, s')
  {
  }

  lemma RememberedMemory(s: Tables, s1: Tables, ck: CommandKey, reply: Reply)
    requires s1.dedup == s.dedup && s1.agents == s.agents && K.Remembered(s, ck).None?
    ensures Remembers(s, K.Remember(s1, ck, reply))
  {
  }

  lemma StartAttemptMemory(s: Tables, task: Id, owner: nat, agent: Id, version: nat, env: RunEnv)
    requires task in s.tasks
    ensures var s' := K.StartAttempt(s, task, owner, agent, version, env).0;
            s'.dedup == s.dedup && s'.agents == s.agents
  {
    hide MayCreateRun, Max, Attempts;
  }

  lemma CreateMemory(s: Tables, owner: nat, agent: Option<Id>, budget: Budget, key: string, env: RunEnv)
    ensures Remembers(s, K.CreateTask(s, owner, agent, budget, key, env).0)
  {
    hide K.StartAttempt, Remembers, ValidBudget, K.Remembered, K.Remember;
    SameMemory(s, s);
    var s' := K.CreateTask(s, owner, agent, budget, key, env).0;
    if s' != s {
      var ck := CommandKey(owner, None, User(owner), OpCreate, key);
      var (s1, reply) := K.InsertTask(s, owner, agent, budget, env);
      var s0 := K.SetTask(s, s.nextId, K.RootTask(s.nextId, owner, agent, budget)).(nextId := s.nextId + 1);
      if agent.Some? {
        StartAttemptMemory(s0, s.nextId, owner, agent.value, 1, env);
      }
      RememberedMemory(s, s1, ck, reply);
    }
  }

  lemma AssignMemory(s: Tables, task: Id, owner: nat, agent: Id, key: string, expected: Option<nat>, env: RunEnv)
    ensures Remembers(s, K.AssignCloudTask(s, task, owner, agent, key, expected, env).0)
  {
    hide K.StartAttempt, Remembers, K.Remembered, K.Remember;
    var s' := K.AssignCloudTask(s, task, owner, agent, key, expected, env).0;
    if s' == s || s' == K.SupersedeOpenAssignments(s, task) {
      SameMemory(s, s');
    } else {
      var ck := CommandKey(owner, Some(task), User(owner), OpAssign, key);
      var version := s.tasks[task].version + (if s.tasks[task].state == T.Assigned then 0 else 1);
      StartAttemptMemory(K.SupersedeOpenAssignments(s, task), task, owner, agent, version, env);
      var (s2, reply) := K.StartAttempt(K.SupersedeOpenAssignments(s, task), task, owner, agent, version, env);
      RememberedMemory(s, s2, ck, reply);
    }
  }

  lemma ResumeMemory(s: Tables, task: Id, owner: nat, key: string, expected: Option<nat>, env: RunEnv)
    ensures Remembers(s, K.ResumeTask(s, task, owner, key, expected, env).0)
  {
    hide K.StartAttempt, Remembers, K.Remembered, K.Remember;
    var s' := K.ResumeTask(s, task, owner, key, expected, env).0;
    if s' == s {
      SameMemory(s, s');
    } else {
      var ck := CommandKey(owner, Some(task), User(owner), OpReopen, key);
      var agent, version := s.tasks[task].assignedAgent.value, s.tasks[task].version + 1;
      StartAttemptMemory(K.SupersedeOpenAssignments(s, task), task, owner, agent, version, env);
      var (s2, reply) := K.StartAttempt(K.SupersedeOpenAssignments(s, task), task, owner, agent, version, env);
      RememberedMemory(s, s2, ck, reply);
    }
  }

  lemma TransitionMemory(s: Tables, task: Id, owner: nat, target: T.TaskState, key: string, expected: Option<nat>)
    ensures Remembers(s, K.TransitionTask(s, task, owner, target, key, expected).0)
  {
    hide Remembers, K.Remembered, K.Remember, K.Requested;
    var s' := K.TransitionTask(s, task, owner, target, key, expected).0;
    if s' == s {
      SameMemory(s, s');
    } else {
      var ck := CommandKey(owner, Some(task), User(owner), OpTransition(target), key);
      var s1 := K.SetTask(s, task, K.Requested(s.tasks[task], target, owner));
      RememberedMemory(s, s1, ck, K.TaskReplyOf(s1, task, None, None));
    }
  }

  lemma DelegateMemory(s: Tables, parent: Id, owner: nat, p: Principal, agent: Id, budget: Budget, blank: bool, env: RunEnv)
    ensures var s' := K.DelegateTask(s, parent, owner, p, agent, budget, blank, env).0; s'.dedup == s.dedup && s'.agents == s.agents
  {
    hide K.StartAttempt, K.DelegationForbidden, ValidBudget, CanRead, TokensUsed, TokensAllocated;
    var s' := K.DelegateTask(s, parent, owner, p, agent, budget, blank, env).0;
    if s' != s {
      var root := WalkUp(s.tasks, parent, [parent], 0).root;
      var proposer := match p case User(u) => AgentProposer(u) case AgentProposer(a) => p case CloudAgent(a) => AgentProposer(a);
      var row := Task(root, Some(parent), owner, proposer, budget, T.Assigned, 1, Some(agent), None, None);
      StartAttemptMemory(K.SetTask(s, s.nextId, row).(nextId := s.nextId + 1), s.nextId, owner, agent, 1, env);
    }
  }

  predicate Untouched(s: Tables, s': Tables) {
    s'.dedup == s.dedup && s'.agents == s.agents
  }

  lemma RowsUntouched(s: Tables, task: Id, row: Task, assignment: Id, state: AssignmentState)
    requires assignment in s.assignments
    ensures Untouched(s, s)
    ensures Untouched(s, K.SetTask(s, task, row))
    ensures Untouched(s, K.SetAssignmentState(s, assignment, state))
    ensures Untouched(s, K.SetTask(K.SetAssignmentState(s, assignment, state), task, row))
    ensures Untouched(s, K.SetAssignmentState(K.SetTask(s, task, row), assignment, state))
  {
  }

  lemma SubmitMemory(s: Tables, task: Id, owner: nat, assignment: Id, p: Principal, content: string)
    ensures Untouched(s, K.SubmitTaskResult(s, task, owner, assignment, p, content).0)
  {
    hide CanRead, T.CanTransition, K.Moved;
  }

  lemma CloseMemory(s: Tables, parent: Id, child: Id, owner: nat, p: Principal)
    ensures Untouched(s, K.CloseDelegatedTask(s, parent, child, owner, p).0)
  {
    hide CanRead, T.CanTransition, K.Moved, Untouched;
    var s' := K.CloseDelegatedTask(s, parent, child, owner, p).0;
    assert Untouched(s, s) by { NothingTouched(s); }
    if s' != s {
      TaskUntouched(s, child, s'.tasks[child]);
    }
  }

  lemma NothingTouched(s: Tables)
    ensures Untouched(s, s)
  {
  }

  lemma TaskUntouched(s: Tables, task: Id, row: Task)
    ensures Untouched(s, K.SetTask(s, task, row))
  {
  }

  lemma RowToolMemory(s: Tables, task: Id, assignment: Id)
    requires task in s.tasks && assignment in s.assignments
    ensures Untouched(s, K.RequestProposerDecision(s, task).0)
    ensures Untouched(s, K.AcceptAssignment(s, assignment))
    ensures Untouched(s, K.DeclineAssignment(s, task, assignment).0)
  {
    hide Untouched, K.SetTask, K.SetAssignmentState;
    RowsUntouched(s, task, K.Moved(s.tasks[task], T.AttentionRequired), assignment, Accepted);
    RowsUntouched(s, task, K.Moved(s.tasks[task], T.AttentionRequired), assignment, Declined);
  }

  lemma RunToolMemory(s: Tables, task: Id, assignment: Id, p: Principal, call: K.ToolCall, env: RunEnv)
    requires task in s.tasks && assignment in s.assignments
    ensures Untouched(s, K.RunTool(s, task, assignment, p, call, env).0)
  {
    hide K.SubmitTaskResult, K.DelegateTask, K.CollectChildResult, K.CloseDelegatedTask,
         K.RequestProposerDecision, K.AcceptAssignment, K.DeclineAssignment;
    var owner := s.tasks[task].owner;
    match call
    case Delegate(_, agent, budget, blank) => DelegateMemory(s, task, owner, p, agent, budget, blank, env);
    case Submit(_, content) => SubmitMemory(s, task, owner, assignment, p, content);
    case CloseChild(_, child) => CloseMemory(s, task, child, owner, p);
    case _ => RowToolMemory(s, task, assignment);
  }

  lemma ExecuteMemory(s: Tables, run: Id, callId: string, call: K.ToolCall, env: RunEnv)
    ensures Remembers(s, K.ExecuteTaskTool(s, run, callId, call, env).0)
  {
    hide Remembers, K.RunTool, K.Remembered, K.Remember;
    var s' := K.ExecuteTaskTool(s, run, callId, call, env).0;
    if s' == s {
      SameMemory(s, s');
    } else {
      var task, a, p := s.runs[run].task.value, s.runs[run].assignment.value, CloudAgent(s.runs[run].agent);
      RunToolMemory(s, task, a, p, call, env);
      var ck := CommandKey(s.tasks[task].owner, Some(task), p, OpTool(K.NameOf(call)), callId);
      var (s1, reply) := K.RunTool(s, task, a, p, call, env);
      RememberedMemory(s, s1, ck, reply);
      SameMemory(s, s1);
    }
  }

  lemma SyncMemory(s: Tables, run: Id, state: R.RunState)
    ensures Remembers(s, K.SyncTaskRunState(s, run, state))
  {
    hide Remembers;
    SameMemory(s, K.SyncTaskRunState(s, run, state));
  }

  lemma UsageMemory(s: Tables, run: Id, tokens: nat)
    ensures Remembers(s, K.UpdateUsage(s, run, tokens))
  {
    hide Remembers, BudgetSpent, T.CanTransition, K.Moved;
    var s' := K.UpdateUsage(s, run, tokens);
    assert s'.agents == s.agents;
    SameMemory(s, s');
  }

  lemma ClaimMemory(s: Tables, run: Id, device: Id, lease: Id, session: string)
    ensures Remembers(s, ClaimLocalRun(s, run, device, lease, session).0)
  {
    hide Remembers;
    SameMemory(s, ClaimLocalRun(s, run, device, lease, session).0);
  }

  lemma DeliveryMemory(s: Tables, run: Id, content: string)
    ensures Untouched(s, SubmitLocalTaskResult(s, run, content).0)
  {
    hide K.SubmitTaskResult, Untouched;
    NothingTouched(s);
    if run in s.runs && s.runs[run].task.Some? && s.runs[run].task.value in s.tasks && s.runs[run].assignment.Some? {
      var task := s.runs[run].task.value;
      SubmitMemory(s, task, s.tasks[task].owner, s.runs[run].assignment.value, CloudAgent(s.runs[run].agent), content);
    }
  }

  lemma SyncUntouched(s: Tables, run: Id, state: R.RunState)
    ensures Untouched(s, K.SyncTaskRunState(s, run, state))
  {
  }

  lemma FinishMemory(s: Tables, run: Id, device: Id, lease: Id, state: R.RunState, content: string)
    ensures Remembers(s, FinishLocalRun(s, run, device, lease, state, content).0)
  {
    hide Remembers, SubmitLocalTaskResult, K.SyncTaskRunState, HoldsLease, UpdateRun;
    var s', s1 := FinishLocalRun(s, run, device, lease, state, content).0, UpdateRun(s, run, state).0;
    if s' == s {
      SameMemory(s, s');
    } else {
      UpdateRunFrame(s, run, state);
      DeliveryMemory(s1, run, content);
      SyncUntouched(s1, run, state);
      SameMemory(s, s');
    }
  }

  predicate SameAgents(s: Tables, s': Tables) {
    s'.agents == s.agents
  }

  lemma ChatMemory(s: Tables, conversation: Id, owner: nat, env: RunEnv)
    ensures SameAgents(s, CreateRun(s, conversation, owner, None, None, env).0)
  {
    hide MayCreateRun;
  }

  lemma OfferMemory(s: Tables, device: Id)
    ensures SameAgents(s, OfferLocalRun(s, device).0)
  {
    hide Offerable;
  }

  lemma StartMemory(s: Tables, run: Id, recover: bool, resume: bool)
    ensures SameAgents(s, TryStartRun(s, run, recover, resume).0)
  {
  }

  lemma ReportMemory(s: Tables, run: Id, state: R.RunState)
    ensures SameAgents(s, UpdateRun(s, run, state).0)
  {
  }

  lemma WorkerMemory(s: Tables, run: Id, kind: string)
    ensures SameAgents(s, InvocationRow(s, run))
    ensures SameAgents(s, AddEvent(s, run, kind).0)
  {
    hide AllowsToolCall;
  }

  lemma LeaseMemory(s: Tables, run: Id, device: Id, lease: Id, sequence: int, kind: string, conversation: Id, owner: nat)
    ensures SameAgents(s, RenewLocalLease(s, run, device, lease).0)
    ensures SameAgents(s, AppendLocalRunEvent(s, run, device, lease, sequence, kind).0)
    ensures SameAgents(s, RunCommands.DeleteConversation(s, conversation, owner).0)
  {
    hide HoldsLease, MayDelete, TraceWithout;
  }

  lemma AgentMemory(s: Tables, id: Id, row: Agent)
    ensures Remembers(s, SetAgent(s, id, row))
  {
  }

  lemma ConversationMemory(s: Tables, owner: nat, agent: Id)
    ensures Remembers(s, NewConversationRow(s, owner, agent))
  {
    hide Remembers;
    SameMemory(s, NewConversationRow(s, owner, agent));
  }

  lemma SetupMemory(s: Tables, c: Command)
    requires Setup(c)
    ensures Remembers(s, Step(s, c))
  {
    hide Remembers, SetAgent, NewConversationRow;
    match c
    case PutAgent(id, row) => AgentMemory(s, id, row);
    case NewConversation(owner, agent) => ConversationMemory(s, owner, agent);
    case Tick(_) => SameMemory(s, Step(s, c));
    case EnqueueResume(_) => SameMemory(s, Step(s, c));
  }

  // The agents table is not touched.
  lemma QuietAgents(s: Tables, c: Command)
    requires LeavesTasks(c) && !Setup(c)
    ensures SameAgents(s, Step(s, c))
  {
    hide SameAgents, CreateRun, UpdateRun, TryStartRun, InvocationRow, AddEvent, OfferLocalRun, RenewLocalLease,
         AppendLocalRunEvent, RunCommands.DeleteConversation;
    match c
    case ChatRun(conversation, owner, env) => ChatMemory(s, conversation, owner, env);
    case StartRun(run, recover, resume) => StartMemory(s, run, recover, resume);
    case ReportRun(run, report) => ReportMemory(s, run, StateOf(report));
    case RecordInvocation(run) => WorkerMemory(s, run, "");
    case RecordEvent(run, kind) => WorkerMemory(s, run, kind);
    case Offer(device) => OfferMemory(s, device);
    case Renew(run, device, lease) => LeaseMemory(s, run, device, lease, 0, "", 0, 0);
    case Append(run, device, lease, sequence, kind) => LeaseMemory(s, run, device, lease, sequence, kind, 0, 0);
    case DeleteConversation(conversation, owner) => LeaseMemory(s, 0, 0, 0, 0, "", conversation, owner);
  }

  lemma QuietMemory(s: Tables, c: Command)
    requires LeavesTasks(c)
    ensures Remembers(s, Step(s, c))
  {
    hide Remembers, Step, SameTaskTables;
    if Setup(c) {
      SetupMemory(s, c);
    } else {
      QuietStep(s, c);
      QuietDedup(s, Step(s, c));
      QuietAgents(s, c);
      SameMemory(s, Step(s, c));
    }
  }

  lemma QuietDedup(s: Tables, s': Tables)
    requires SameTaskTables(s, s')
    ensures s'.dedup == s.dedup
  {
  }

  lemma StepRemembers(s: Tables, c: Command)
    ensures Remembers(s, Step(s, c))
  {
    hide Remembers, K.CreateTask, K.AssignCloudTask, K.ResumeTask, K.TransitionTask, K.ExecuteTaskTool,
         K.SyncTaskRunState, K.UpdateUsage, ClaimLocalRun, FinishLocalRun;
    if LeavesTasks(c) {
      QuietMemory(s, c);
    } else {
      match c
      case CreateTask(owner, agent, budget, key, env) => CreateMemory(s, owner, agent, budget, key, env);
      case AssignTask(task, owner, agent, key, expected, env) => AssignMemory(s, task, owner, agent, key, expected, env);
      case ReopenTask(task, owner, key, expected, env) => ResumeMemory(s, task, owner, key, expected, env);
      case ProposerTransition(task, owner, verb, key, expected) => TransitionMemory(s, task, owner, TargetOf(verb), key, expected);
      case TaskTool(run, callId, call, env) => ExecuteMemory(s, run, callId, call, env);
      case SyncTask(run, state) => SyncMemory(s, run, state);
      case RecordUsage(run, tokens) => UsageMemory(s, run, tokens);
      case Claim(run, device, lease, session) => ClaimMemory(s, run, device, lease, session);
      case Finish(run, device, lease, state, content) => FinishMemory(s, run, device, lease, state, content);
    }
  }

  lemma {:induction false} HistoryRemembers(h: seq<Command>, i: nat, j: nat)
    requires i <= j <= |h|
    ensures Remembers(At(h, i), At(h, j))
    decreases j - i
  {
    if i == j {
    } else {
      hide Remembers, Exec, Step;
      HistoryRemembers(h, i, j - 1);
      AtStep(h, j - 1);
      StepRemembers(At(h, j - 1), h[j - 1]);
      MemoryChains(At(h, i), At(h, j - 1), At(h, j));
    }
  }

  lemma MemoryChains(a: Tables, b: Tables, c: Tables)
    requires Remembers(a, b) && Remembers(b, c)
    ensures Remembers(a, c)
  {
  }

  // ---------------------------------------------------------------- repeated commands

  predicate Keyed(c: Command) {
    c.CreateTask? || c.AssignTask? || c.ReopenTask? || c.ProposerTransition?
  }

  function KeyOf(c: Command): CommandKey
    requires Keyed(c)
  {
    match c
    case CreateTask(owner, _, _, key, _) => CommandKey(owner, None, User(owner), OpCreate, key)
    case AssignTask(task, owner, _, key, _, _) => CommandKey(owner, Some(task), User(owner), OpAssign, key)
    case ReopenTask(task, owner, key, _, _) => CommandKey(owner, Some(task), User(owner), OpReopen, key)
    case ProposerTransition(task, owner, verb, key, _) => CommandKey(owner, Some(task), User(owner), OpTransition(TargetOf(verb)), key)
  }

  ghost function Answer(s: Tables, c: Command): (Tables, Reply)
    requires Keyed(c)
  {
    match c
    case CreateTask(owner, agent, budget, key, env) => K.CreateTask(s, owner, agent, budget, key, env)
    case AssignTask(task, owner, agent, key, expected, env) => K.AssignCloudTask(s, task, owner, agent, key, expected, env)
    case ReopenTask(task, owner, key, expected, env) => K.ResumeTask(s, task, owner, key, expected, env)
    case ProposerTransition(task, owner, verb, key, expected) => K.TransitionTask(s, task, owner, TargetOf(verb), key, expected)
  }

  // What a keyed command checks before it looks its key up.
  ghost predicate Presentable(s: Tables, c: Command)
    requires Keyed(c)
  {
    match c
    case CreateTask(owner, agent, budget, _, _) => (agent.Some? ==> OwnsAgent(s, agent.value, owner)) && ValidBudget(budget)
    case AssignTask(task, owner, _, _, _, _) => OwnsTask(s, task, owner) && IsProposer(s.tasks[task], User(owner))
    case ReopenTask(task, owner, _, _, _) => OwnsTask(s, task, owner) && IsProposer(s.tasks[task], User(owner))
    case ProposerTransition(task, owner, _, _, _) => OwnsTask(s, task, owner) && IsProposer(s.tasks[task], User(owner))
  }

  lemma StepAnswers(s: Tables, c: Command)
    requires Keyed(c)
    ensures Step(s, c) == Answer(s, c).0
  {
    hide K.CreateTask, K.AssignCloudTask, K.ResumeTask, K.TransitionTask;
  }

  lemma CreationIsRemembered(s: Tables, owner: nat, agent: Option<Id>, budget: Budget, key: string, env: RunEnv)
    requires key != "" && K.CreateTask(s, owner, agent, budget, key, env).1.TaskReply?
    ensures var (s', reply) := K.CreateTask(s, owner, agent, budget, key, env);
            var ck := CommandKey(owner, None, User(owner), OpCreate, key);
            && (agent.Some? ==> OwnsAgent(s, agent.value, owner)) && ValidBudget(budget)
            && ck in s'.dedup && s'.dedup[ck] == reply
  {
    hide K.InsertTask, ValidBudget;
  }

  lemma SuccessIsRemembered(s: Tables, c: Command)
    requires Keyed(c) && KeyOf(c).key != "" && Answer(s, c).1.TaskReply?
    ensures Presentable(s, c)
    ensures KeyOf(c) in Answer(s, c).0.dedup && Answer(s, c).0.dedup[KeyOf(c)] == Answer(s, c).1
  {
    hide K.StartAttempt, K.CreateTask, ValidBudget;
    if c.CreateTask? {
      CreationIsRemembered(s, c.owner, c.assignee, c.budget, c.key, c.env);
    }
  }

  lemma StoredReplyAnswers(s: Tables, c: Command)
    requires Keyed(c) && KeyOf(c).key != "" && Presentable(s, c) && KeyOf(c) in s.dedup
    ensures Answer(s, c) == (s, s.dedup[KeyOf(c)])
  {
    hide K.StartAttempt, K.InsertTask, ValidBudget;
  }

  lemma StaysPresentable(s: Tables, s': Tables, c: Command)
    requires Keyed(c) && Presentable(s, c) && Remembers(s, s') && AllLater(s.tasks, s'.tasks)
    ensures Presentable(s', c)
  {
    hide ValidBudget;
    if !c.CreateTask? {
      LaterRow(s.tasks, s'.tasks, c.task);
    }
  }

  // A command under a key that already succeeded answers with the first reply and leaves the whole
  // store as it is, whatever happened in between and whatever its other arguments are; for a creation
  // those must still name an agent of the owner and a valid budget.
  lemma KeyAnswersOnce(h: seq<Command>, i: nat, j: nat, again: Command)
    requires i < j <= |h| && Keyed(h[i]) && KeyOf(h[i]).key != "" && Answer(At(h, i), h[i]).1.TaskReply?
    requires Keyed(again) && KeyOf(again) == KeyOf(h[i])
    requires again.CreateTask? ==> Presentable(At(h, j), again)
    ensures Answer(At(h, j), again) == (At(h, j), Answer(At(h, i), h[i]).1)
  {
    hide Exec, Step, Answer, Presentable, Remembers, AllLater;
    AtStep(h, i);
    StepAnswers(At(h, i), h[i]);
    SuccessIsRemembered(At(h, i), h[i]);
    HistoryRemembers(h, i + 1, j);
    ReplyKept(At(h, i + 1), At(h, j), KeyOf(h[i]));
    if !again.CreateTask? {
      SameTaskPresentable(At(h, i), h[i], again);
      HistoryRemembers(h, i, j);
      VersionsTellStates(h, i, j);
      StaysPresentable(At(h, i), At(h, j), again);
    }
    StoredReplyAnswers(At(h, j), again);
  }

  lemma ReplyKept(s: Tables, s': Tables, ck: CommandKey)
    requires Remembers(s, s') && ck in s.dedup
    ensures ck in s'.dedup && s'.dedup[ck] == s.dedup[ck]
  {
  }

  lemma SameTaskPresentable(s: Tables, c: Command, again: Command)
    requires Keyed(c) && Keyed(again) && KeyOf(again) == KeyOf(c) && !again.CreateTask? && Presentable(s, c)
    ensures Presentable(s, again)
  {
  }

  // So the very same command, sent again, is a no-op with the first reply.
  lemma RepeatedCommandIsNoop(h: seq<Command>, i: nat, j: nat)
    requires i < j <= |h| && Keyed(h[i]) && KeyOf(h[i]).key != "" && Answer(At(h, i), h[i]).1.TaskReply?
    ensures Answer(At(h, j), h[i]) == (At(h, j), Answer(At(h, i), h[i]).1)
    ensures Step(At(h, j), h[i]) == At(h, j)
  {
    hide Exec, Step, Answer, Presentable, Remembers, AllLater, KeyOf;
    SuccessIsRemembered(At(h, i), h[i]);
    HistoryRemembers(h, i, j);
    VersionsTellStates(h, i, j);
    StaysPresentable(At(h, i), At(h, j), h[i]);
    KeyAnswersOnce(h, i, j, h[i]);
    StepAnswers(At(h, j), h[i]);
  }

  // The key under which a run's tool call is remembered.
  function ToolKey(s: Tables, run: Id, callId: string, call: K.ToolCall): CommandKey
    requires K.BoundToOpenAssignment(s, run)
  {
    var task := s.runs[run].task.value;
    CommandKey(s.tasks[task].owner, Some(task), CloudAgent(s.runs[run].agent), OpTool(K.NameOf(call)), callId)
  }

  lemma ToolReplyIsStored(s: Tables, run: Id, callId: string, call: K.ToolCall, env: RunEnv)
    requires callId != "" && K.BoundToOpenAssignment(s, run)
    requires K.Stored(call, K.ExecuteTaskTool(s, run, callId, call, env).1)
    ensures var (s', reply) := K.ExecuteTaskTool(s, run, callId, call, env);
            ToolKey(s, run, callId, call) in s'.dedup && s'.dedup[ToolKey(s, run, callId, call)] == reply
  {
    hide K.RunTool;
  }

  lemma SameToolKey(s: Tables, s': Tables, run: Id, callId: string, call: K.ToolCall)
    requires K.BoundToOpenAssignment(s, run) && K.BoundToOpenAssignment(s', run)
    requires RunsLater(s, s') && AllLater(s.tasks, s'.tasks) && run < s.nextId
    ensures ToolKey(s', run, callId, call) == ToolKey(s, run, callId, call)
  {
    hide OpenAssignment;
    assert RunLater(s.runs[run], s'.runs[run]);
    LaterRow(s.tasks, s'.tasks, s.runs[run].task.value);
  }

  // A tool call that a model, a redelivery or a recovery repeats under the same call id changes
  // nothing: it gets the first reply while the run still holds its task, and is denied afterwards.
  lemma RepeatedToolCallIsNoop(h: seq<Command>, i: nat, j: nat)
    requires i < j <= |h| && h[i].TaskTool? && h[i].callId != ""
    requires K.BoundToOpenAssignment(At(h, i), h[i].run)
    requires K.Stored(h[i].call, K.ExecuteTaskTool(At(h, i), h[i].run, h[i].callId, h[i].call, h[i].env).1)
    ensures var first := K.ExecuteTaskTool(At(h, i), h[i].run, h[i].callId, h[i].call, h[i].env).1;
            var s := At(h, j);
            K.ExecuteTaskTool(s, h[i].run, h[i].callId, h[i].call, h[i].env) ==
            (s, if K.BoundToOpenAssignment(s, h[i].run) then first else ToolDenied)
  {
    hide Exec, Step, K.ExecuteTaskTool, K.BoundToOpenAssignment, Remembers, AllLater, ToolKey, RunsLater;
    var run, callId, call, env := h[i].run, h[i].callId, h[i].call, h[i].env;
    AtStep(h, i);
    ToolStep(At(h, i), run, callId, call, env);
    ToolReplyIsStored(At(h, i), run, callId, call, env);
    HistoryRemembers(h, i + 1, j);
    ReplyKept(At(h, i + 1), At(h, j), ToolKey(At(h, i), run, callId, call));
    if K.BoundToOpenAssignment(At(h, j), run) {
      RunsOnlyAge(h, i, j);
      VersionsTellStates(h, i, j);
      BoundRunIsKnown(h, i, run);
      SameToolKey(At(h, i), At(h, j), run, callId, call);
    }
    StoredToolReplyAnswers(At(h, j), run, callId, call, env);
  }

  lemma ToolStep(s: Tables, run: Id, callId: string, call: K.ToolCall, env: RunEnv)
    ensures Step(s, TaskTool(run, callId, call, env)) == K.ExecuteTaskTool(s, run, callId, call, env).0
  {
    hide K.ExecuteTaskTool;
  }

  lemma BoundRunIsKnown(h: seq<Command>, i: nat, run: Id)
    requires i <= |h| && K.BoundToOpenAssignment(At(h, i), run)
    ensures run < At(h, i).nextId
  {
    hide Exec, OneHome, Traced, TasksOfRuns, RunsLimited, CallsLimited, OpenAssignment;
    RunInvariantAlways(h[..i]);
  }

  lemma StoredToolReplyAnswers(s: Tables, run: Id, callId: string, call: K.ToolCall, env: RunEnv)
    requires callId != "" && (K.BoundToOpenAssignment(s, run) ==> ToolKey(s, run, callId, call) in s.dedup)
    ensures K.ExecuteTaskTool(s, run, callId, call, env) ==
            (s, if K.BoundToOpenAssignment(s, run) then s.dedup[ToolKey(s, run, callId, call)] else ToolDenied)
  {
    hide K.RunTool;
  }

  // ---------------------------------------------------------------- refused commands

  lemma RefusedCommandChangesNothing(s: Tables, c: Command)
    requires Keyed(c) && !c.AssignTask? && !Answer(s, c).1.TaskReply?
    ensures Answer(s, c).0 == s
  {
    hide K.StartAttempt, ValidBudget;
  }

  ghost predicate HasOpenAssignment(s: Tables, task: Id) {
    exists a :: a in s.assignments && s.assignments[a].task == task && Open(s.assignments[a].state)
  }

  // An assignment that passes every guard on the task.
  predicate PassesTaskGuards(s: Tables, task: Id, owner: nat, key: string, expected: Option<nat>) {
    && OwnsTask(s, task, owner) && IsProposer(s.tasks[task], User(owner))
    && K.Remembered(s, CommandKey(owner, Some(task), User(owner), OpAssign, key)).None?
    && !K.StaleVersion(s.tasks[task], expected)
    && T.CanTransition(s.tasks[task].state, T.Assigned)
  }

  lemma SupersedeChangesOpenOnes(s: Tables, task: Id)
    ensures K.SupersedeOpenAssignments(s, task) == s <==> !HasOpenAssignment(s, task)
  {
    var s1 := K.SupersedeOpenAssignments(s, task);
    if !HasOpenAssignment(s, task) {
      assert s1.assignments == s.assignments;
    } else {
      var a :| a in s.assignments && s.assignments[a].task == task && Open(s.assignments[a].state);
      assert s1.assignments[a].state == Superseded;
    }
  }

  // A refused assignment leaves the store as it was, except when the task's own guards all pass and
  // only the agent is unknown: then the open assignment of the task is superseded although nothing
  // replaces it.
  lemma RefusedAssignmentChangesNothingIff(
    s: Tables, task: Id, owner: nat, agent: Id, key: string, expected: Option<nat>, env: RunEnv)
    requires var reply := K.AssignCloudTask(s, task, owner, agent, key, expected, env).1;
             reply == NotFound || reply == Forbidden || reply == Conflict
    ensures K.AssignCloudTask(s, task, owner, agent, key, expected, env).0 == s <==>
            !(PassesTaskGuards(s, task, owner, key, expected) && !OwnsAgent(s, agent, owner) && HasOpenAssignment(s, task))
  {
    hide K.StartAttempt, K.SupersedeOpenAssignments;
    SupersedeFrame(s, task);
    SupersedeChangesOpenOnes(s, task);
  }

  // Of all keyed commands only that assignment is refused with an effect.
  lemma RefusalChangesNothingIff(s: Tables, c: Command)
    requires Keyed(c) && Answer(s, c).1 in {NotFound, Forbidden, Conflict}
    ensures Answer(s, c).0 == s <==>
            !(c.AssignTask? && PassesTaskGuards(s, c.task, c.owner, c.key, c.expected) &&
              !OwnsAgent(s, c.agent, c.owner) && HasOpenAssignment(s, c.task))
  {
    hide K.CreateTask, K.AssignCloudTask, K.ResumeTask, K.TransitionTask, PassesTaskGuards, HasOpenAssignment;
    if c.AssignTask? {
      RefusedAssignmentChangesNothingIff(s, c.task, c.owner, c.agent, c.key, c.expected, c.env);
    } else {
      RefusedCommandChangesNothing(s, c);
    }
  }

  // A history where that happens: a task is created with its first attempt, and then assigned to an
  // agent that does not exist. The command is refused, and the task has lost its only executor.
  lemma RefusedAssignmentLosesTheExecutor()
    ensures var h := [Scenario.PutTheAgent, Scenario.CreateTheTask];
            var s := Exec(h);
            var (s', reply) := K.AssignCloudTask(s, Scenario.TASK, Scenario.OWNER, 4, "", None, Scenario.Ready);
            && Exec(h + [AssignTask(Scenario.TASK, Scenario.OWNER, 4, "", None, Scenario.Ready)]) == s'
            && reply == Conflict && s'.tasks == s.tasks
            && HasOpenAssignment(s, Scenario.TASK) && !HasOpenAssignment(s', Scenario.TASK)
  {
    hide Exec, K.AssignCloudTask;
    Scenario.CreationRuns();
    Scenario.Append([Scenario.PutTheAgent, Scenario.CreateTheTask],
                    AssignTask(Scenario.TASK, Scenario.OWNER, 4, "", None, Scenario.Ready));
    UnknownAgentIsRefused();
  }

  lemma UnknownAgentIsRefused()
    ensures var (s', reply) := K.AssignCloudTask(Scenario.Created, Scenario.TASK, Scenario.OWNER, 4, "", None, Scenario.Ready);
            && reply == Conflict && s'.tasks == Scenario.Created.tasks
            && HasOpenAssignment(Scenario.Created, Scenario.TASK) && !HasOpenAssignment(s', Scenario.TASK)
  {
    hide K.StartAttempt;
    assert Open(Scenario.Created.assignments[Scenario.FIRST].state);
    Scenario.FirstIsSuperseded();
  }
}
