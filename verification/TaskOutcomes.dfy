// What the commands on tasks answer and change, with every condition written out.
module TaskOutcomes {
  import opened Options
  import opened MapSums
  import opened Tables
  import opened RunCommands
  import opened Commands
  import opened DelegationTree
  import opened TaskHistory
  import opened AttemptHistory
  import opened AttemptEffects
  import opened TaskTheorems
  import opened LifecycleTheorems
  import opened RunTheorems
  import opened RunOutcomes
  import opened ReplayTheorems
  import K = TaskCommands
  import T = TaskStates
  import R = RunStates

  // ---------------------------------------------------------------- delegation

  predicate AcceptedBy(s: Tables, task: Id, p: Principal) {
    exists a :: a in s.assignments && s.assignments[a].task == task && s.assignments[a].state == Accepted &&
                p == CloudAgent(s.assignments[a].executor)
  }

  // A well-formed delegation is denied to those who may not read the parent, and, while it may have
  // children, to those who did not accept it; every other refusal is an error.
  predicate Denied(s: Tables, parent: Id, owner: nat, p: Principal, budget: Budget, blank: bool) {
    && !blank && ValidBudget(budget)
    && (|| parent !in s.tasks || s.tasks[parent].owner != owner || !CanRead(s, parent, owner, p)
        || ((s.tasks[parent].state == T.InProgress || s.tasks[parent].state == T.AttentionRequired) && !AcceptedBy(s, parent, p)))
  }

  // In every reachable state a delegation adds a child exactly when the parent is in progress or needs
  // attention, its caller accepted an assignment of it, the target is an agent of the same owner, the
  // child fits the declared depth, number of subtasks and active runs of the parent's whole tree, and
  // its tokens fit what the parent has neither used nor promised. Otherwise nothing changes.
  lemma DelegationSucceedsIff(
    h: seq<Command>, parent: Id, owner: nat, p: Principal, agent: Id, budget: Budget, blank: bool, env: RunEnv)
    ensures ParentsFirst(Exec(h).tasks)
    ensures var s := Exec(h);
            var (s', reply) := K.DelegateTask(s, parent, owner, p, agent, budget, blank, env);
            && (reply.ToolChild? <==>
                  && !blank && (forall f :: f in budget ==> InLimits(f, budget[f]))
                  && parent in s.tasks && s.tasks[parent].owner == owner
                  && (s.tasks[parent].state == T.InProgress || s.tasks[parent].state == T.AttentionRequired)
                  && AcceptedBy(s, parent, p)
                  && agent in s.agents && s.agents[agent].owner == owner
                  && (var row := s.tasks[parent];
                      && Depth(s.tasks, parent) + 1 <= Limit(row.budget, MaxDepth, 3)
                      && |Subtasks(s.tasks, row.root)| + 1 <= Limit(row.budget, MaxSubtasks, 4)
                      && (MaxConcurrentRuns in row.budget ==>
                            |ActiveTreeRuns(s, row.root)| + 1 <= row.budget[MaxConcurrentRuns])
                      && MaxTotalTokens in row.budget && MaxTotalTokens in budget
                      && TokensUsed(s, parent) + TokensAllocated(s.tasks, parent) + budget[MaxTotalTokens] <= row.budget[MaxTotalTokens]))
            && (!reply.ToolChild? ==> s' == s && reply == if Denied(s, parent, owner, p, budget, blank) then ToolDenied else ToolError)
  {
    hide Exec, CanRead, Depth, Ancestor, ValidBudget, Subtasks, ActiveTreeRuns, TokensUsed, TokensAllocated, Tokens, K.MayDelegate, WalkUp, AcceptedBy,
         K.DelegateTask;
    var s := Exec(h);
    ForestAlways(h);
    DelegationAnswers(s, parent, owner, p, agent, budget, blank, env);
    if parent in s.tasks && ValidBudget(budget) {
      var row := s.tasks[parent];
      WalkFindsAncestor(s.tasks, parent, [parent], 0);
      MayDelegateIff(s, parent, owner, p, agent, budget, Depth(s.tasks, parent));
      DeclaredLimits(row.budget);
      DeclaredLimits(budget);
    }
    assert ValidBudget(budget) <==> forall f :: f in budget ==> InLimits(f, budget[f]) by { ValidBudgetIff(budget); }
    if K.MayDelegate(s, parent, owner, p, agent, budget) {
      DelegateGuards(s, parent, owner, p, agent, budget);
    }
  }

  // The trees that those limits count are the tasks that descend from a root, and the runs of the root
  // and its descendants that have not ended.
  lemma TreesFollowDescent(h: seq<Command>, root: Id)
    ensures ParentsFirst(Exec(h).tasks)
    ensures var s := Exec(h);
            && (forall t :: t in Subtasks(s.tasks, root) <==> t in s.tasks && t != root && Ancestor(s.tasks, t) == root)
            && (forall r :: r in ActiveTreeRuns(s, root) <==>
                  && r in s.runs && !R.Terminal(s.runs[r].state) && s.runs[r].task.Some?
                  && s.runs[r].task.value in s.tasks && Ancestor(s.tasks, s.runs[r].task.value) == root)
  {
    hide Exec, Depth, Shallow, Narrow, Funded, ValidBudget;
    ForestAlways(h);
    assert Rooted(Exec(h).tasks);
  }

  lemma ValidBudgetIff(b: Budget)
    ensures ValidBudget(b) <==> forall f :: f in b ==> InLimits(f, b[f])
  {
  }

  lemma DelegateGuards(s: Tables, parent: Id, owner: nat, p: Principal, agent: Id, budget: Budget)
    requires K.MayDelegate(s, parent, owner, p, agent, budget)
    ensures parent in s.tasks && ValidBudget(budget) && WalkUp(s.tasks, parent, [parent], 0).Chain?
  {
    hide ValidBudget, TokensUsed, TokensAllocated, WalkUp;
  }

  // The declared limits of a valid budget are positive where no limit counts as 0.
  lemma DeclaredLimits(b: Budget)
    requires ValidBudget(b)
    ensures MaxConcurrentRuns in b ==> b[MaxConcurrentRuns] > 0
    ensures MaxTotalTokens in b ==> b[MaxTotalTokens] > 0
    ensures Tokens(b) == if MaxTotalTokens in b then b[MaxTotalTokens] else 0
  {
    assert MaxConcurrentRuns in b ==> InLimits(MaxConcurrentRuns, b[MaxConcurrentRuns]);
    assert MaxTotalTokens in b ==> InLimits(MaxTotalTokens, b[MaxTotalTokens]);
  }

  lemma DelegationAnswers(
    s: Tables, parent: Id, owner: nat, p: Principal, agent: Id, budget: Budget, blank: bool, env: RunEnv)
    ensures var (s', reply) := K.DelegateTask(s, parent, owner, p, agent, budget, blank, env);
            && (reply.ToolChild? <==> !blank && K.MayDelegate(s, parent, owner, p, agent, budget))
            && (!reply.ToolChild? ==> s' == s && reply == if Denied(s, parent, owner, p, budget, blank) then ToolDenied else ToolError)
  {
    hide K.StartAttempt, WalkUp, ValidBudget, CanRead, TokensUsed, TokensAllocated, Subtasks, ActiveTreeRuns;
  }

  lemma MayDelegateIff(s: Tables, parent: Id, owner: nat, p: Principal, agent: Id, budget: Budget, depth: nat)
    requires parent in s.tasks && WalkUp(s.tasks, parent, [parent], 0) == Chain(depth, s.tasks[parent].root)
    ensures var row := s.tasks[parent];
            K.MayDelegate(s, parent, owner, p, agent, budget) <==>
            && ValidBudget(budget) && row.owner == owner && (row.state == T.InProgress || row.state == T.AttentionRequired)
            && AcceptedBy(s, parent, p) && agent in s.agents && s.agents[agent].owner == owner
            && depth + 1 <= Limit(row.budget, MaxDepth, 3) && |Subtasks(s.tasks, row.root)| + 1 <= Limit(row.budget, MaxSubtasks, 4)
            && (Limit(row.budget, MaxConcurrentRuns, 0) != 0 ==>
                  |ActiveTreeRuns(s, row.root)| + 1 <= Limit(row.budget, MaxConcurrentRuns, 0))
            && Tokens(row.budget) != 0 && Tokens(budget) != 0
            && TokensUsed(s, parent) + TokensAllocated(s.tasks, parent) + Tokens(budget) <= Tokens(row.budget)
  {
    hide WalkUp, ValidBudget, TokensUsed, TokensAllocated, Subtasks, ActiveTreeRuns, Tokens;
    assert AcceptedBy(s, parent, p) ==> CanRead(s, parent, owner, p);
  }

  // ---------------------------------------------------------------- collecting a child's result

  // The texts delivered for a task in a history, in the order in which they were.
  ghost function Deliveries(h: seq<Command>, task: Id): seq<string> {
    if h == [] then []
    else
      var before := Exec(h[..|h| - 1]);
      Deliveries(h[..|h| - 1], task) + NewTexts(before, Exec(h), task)
  }

  // A result row is added under the next id.
  function NewTexts(s: Tables, s': Tables, task: Id): seq<string> {
    if s.nextId in s'.results && s.nextId !in s.results && s'.results[s.nextId].task == task
    then [s'.results[s.nextId].content]
    else []
  }

  ghost predicate EndsWith(s: Tables, task: Id, texts: seq<string>) {
    if texts == [] then !HasResult(s.results, task)
    else exists r :: K.LatestResult(s, task, r) && s.results[r].content == texts[|texts| - 1]
  }

  lemma StepEndsWith(s: Tables, s': Tables, task: Id, texts: seq<string>)
    requires Placed(s) && DeliveryStep(s, s') && EndsWith(s, task, texts)
    ensures EndsWith(s', task, texts + NewTexts(s, s', task))
  {
    hide NoneDelivered, IdsBelow;
    var more := NewTexts(s, s', task);
    if s'.results == s.results {
      assert texts + more == texts;
      assert forall r :: K.LatestResult(s', task, r) <==> K.LatestResult(s, task, r);
    } else if more != [] {
      assert (texts + more)[|texts|] == more[0];
      assert K.LatestResult(s', task, s.nextId);
    } else {
      assert texts + more == texts;
      if texts != [] {
        var r :| K.LatestResult(s, task, r) && s.results[r].content == texts[|texts| - 1];
        assert K.LatestResult(s', task, r);
      }
    }
  }

  lemma {:induction false} LastDeliveryIsNewest(h: seq<Command>, task: Id)
    ensures EndsWith(Exec(h), task, Deliveries(h, task))
  {
    if h == [] {
    } else {
      hide Step, Placed, Numbered, ResultsBacked, DeliveryStep, AttemptsStep, EndsWith, NewTexts;
      LastDeliveryIsNewest(h[..|h| - 1], task);
      WorkAlways(h[..|h| - 1]);
      StepWork(Exec(h[..|h| - 1]), h[|h| - 1]);
      StepEndsWith(Exec(h[..|h| - 1]), Exec(h), task, Deliveries(h[..|h| - 1], task));
    }
  }

  // In every reachable state collecting a child's result succeeds exactly for a proposer of that child
  // who may read its parent, once the child has delivered; it answers the text delivered last, however
  // often the child was reworked.
  lemma CollectsLastDelivery(h: seq<Command>, parent: Id, child: Id, owner: nat, p: Principal)
    ensures var s, reply := Exec(h), K.CollectChildResult(Exec(h), parent, child, owner, p);
            && (reply.ToolResult? <==>
                  && parent in s.tasks && child in s.tasks && s.tasks[parent].owner == owner && s.tasks[child].owner == owner
                  && CanRead(s, parent, owner, p) && s.tasks[child].parent == Some(parent)
                  && (s.tasks[child].proposer == p || (p.CloudAgent? && s.tasks[child].proposer == AgentProposer(p.id)))
                  && (s.tasks[child].state == T.AwaitingProposerClose || s.tasks[child].state == T.Closed))
            && (reply.ToolResult? ==>
                  && Deliveries(h, child) != []
                  && reply == ToolResult(child, Deliveries(h, child)[|Deliveries(h, child)| - 1]))
            && (!reply.ToolResult? ==> reply == Forbidden || reply == Conflict)
  {
    hide Exec, Deliveries, Placed, Numbered, CanRead;
    WorkAlways(h);
    LastDeliveryIsNewest(h, child);
    var s := Exec(h);
    if child in s.tasks && Delivered(s.tasks[child].state) {
      if IsProposer(s.tasks[child], p) {
        ProposerReads(s, child, owner, p);
      }
      assert HasResult(s.results, child);
      var r :| K.LatestResult(s, child, r) && s.results[r].content == Deliveries(h, child)[|Deliveries(h, child)| - 1];
      assert forall q :: K.LatestResult(s, child, q) <==> q == r;
    }
  }

  lemma ProposerReads(s: Tables, task: Id, owner: nat, p: Principal)
    requires task in s.tasks && IsProposer(s.tasks[task], p)
    ensures CanRead(s, task, owner, p)
  {
  }

  // ---------------------------------------------------------------- attempts

  lemma SameRoom(s: Tables, s': Tables, task: Id, agent: Id, env: RunEnv)
    requires s'.runs == s.runs && s'.agents == s.agents && s'.invocations == s.invocations
    requires task in s.tasks && task in s'.tasks && s'.tasks[task].budget == s.tasks[task].budget
    ensures AgentAllowsRun(s', agent, env) == AgentAllowsRun(s, agent, env)
    ensures BudgetSpent(s', task, true) == BudgetSpent(s, task, true)
  {
    hide Sum;
    assert TaskUsage(s', task) == TaskUsage(s, task);
    assert ActiveAgentRuns(s', agent) == ActiveAgentRuns(s, agent);
  }

  // Whoever starts an attempt, it gets a run exactly when its agent and its task take one more.
  lemma AttemptGetsRunIff(s: Tables, task: Id, owner: nat, agent: Id, version: nat, env: RunEnv)
    requires task in s.tasks && s.tasks[task].owner == owner
    ensures var reply := K.StartAttempt(s, task, owner, agent, version, env).1;
            reply.task == task && (reply.run.Some? <==> AgentAllowsRun(s, agent, env) && !BudgetSpent(s, task, true))
  {
    hide AgentAllowsRun, BudgetSpent, Max, Attempts;
    var s1 := K.CreateAssignment(s, task, agent);
    var s2 := K.OpenConversation(s1, agent, owner);
    var row := s2.tasks[task].(state := T.Assigned, assignedAgent := Some(agent), conversation := Some(s1.nextId), version := version);
    SameRoom(s, K.SetTask(s2, task, row), task, agent, env);
  }

  // A key that is given was not used before for this operation.
  predicate Unused(s: Tables, ck: CommandKey) {
    ck.key == "" || ck !in s.dedup
  }

  predicate Expected(row: Task, version: Option<nat>) {
    version == None || version == Some(row.version)
  }

  // A first assignment command succeeds exactly for the task's user, at the version they expect, from a
  // state that can be assigned, to an agent of theirs.
  lemma AssignmentSucceedsIff(s: Tables, task: Id, owner: nat, agent: Id, key: string, expected: Option<nat>, env: RunEnv)
    requires Unused(s, CommandKey(owner, Some(task), User(owner), OpAssign, key))
    ensures var reply := K.AssignCloudTask(s, task, owner, agent, key, expected, env).1;
            && (reply.TaskReply? <==>
                  && task in s.tasks && s.tasks[task].owner == owner && s.tasks[task].proposer == User(owner)
                  && Expected(s.tasks[task], expected)
                  && s.tasks[task].state in {T.Queued, T.Assigned, T.AwaitingProposerClose, T.AttentionRequired}
                  && agent in s.agents && s.agents[agent].owner == owner)
            && (reply.TaskReply? ==> (reply.run.Some? <==> AgentAllowsRun(s, agent, env) && !BudgetSpent(s, task, true)))
  {
    hide K.StartAttempt, AgentAllowsRun, BudgetSpent, K.SupersedeOpenAssignments;
    var s1 := K.SupersedeOpenAssignments(s, task);
    SupersedeKeeps(s, task);
    var reply := K.AssignCloudTask(s, task, owner, agent, key, expected, env).1;
    if reply.TaskReply? {
      SameRoom(s, s1, task, agent, env);
      AttemptGetsRunIff(s1, task, owner, agent, s.tasks[task].version + (if s.tasks[task].state == T.Assigned then 0 else 1), env);
    }
  }

  lemma SupersedeKeeps(s: Tables, task: Id)
    ensures var s1 := K.SupersedeOpenAssignments(s, task);
            && s1.tasks == s.tasks && s1.runs == s.runs && s1.agents == s.agents && s1.invocations == s.invocations && s1.dedup == s.dedup
  {
  }

  // A first rework command succeeds exactly for the task's user, at the version they expect, after a
  // delivery or when the task needs attention, while the agent it had is still theirs.
  lemma ReworkSucceedsIff(s: Tables, task: Id, owner: nat, key: string, expected: Option<nat>, env: RunEnv)
    requires Unused(s, CommandKey(owner, Some(task), User(owner), OpReopen, key))
    ensures var reply := K.ResumeTask(s, task, owner, key, expected, env).1;
            && (reply.TaskReply? <==>
                  && task in s.tasks && s.tasks[task].owner == owner && s.tasks[task].proposer == User(owner)
                  && Expected(s.tasks[task], expected)
                  && s.tasks[task].state in {T.AwaitingProposerClose, T.AttentionRequired}
                  && s.tasks[task].assignedAgent.Some?
                  && s.tasks[task].assignedAgent.value in s.agents && s.agents[s.tasks[task].assignedAgent.value].owner == owner)
            && (reply.TaskReply? ==>
                  (reply.run.Some? <==> AgentAllowsRun(s, s.tasks[task].assignedAgent.value, env) && !BudgetSpent(s, task, true)))
  {
    hide K.StartAttempt, AgentAllowsRun, BudgetSpent, K.SupersedeOpenAssignments;
    var s1 := K.SupersedeOpenAssignments(s, task);
    SupersedeKeeps(s, task);
    var reply := K.ResumeTask(s, task, owner, key, expected, env).1;
    if reply.TaskReply? {
      var agent := s.tasks[task].assignedAgent.value;
      SameRoom(s, s1, task, agent, env);
      AttemptGetsRunIff(s1, task, owner, agent, s.tasks[task].version + 1, env);
    }
  }

  // The states from which a proposer's verb is carried out.
  predicate CarriedOutFrom(verb: ProposerVerb, state: T.TaskState) {
    match verb
    case StartTask =>
      state in {T.Queued, T.Assigned, T.InProgress, T.WaitingConfirmation, T.AwaitingProposerClose, T.AttentionRequired}
    case CloseTask => state in {T.AwaitingProposerClose, T.Closed}
    case CancelTask => state != T.Closed
  }

  // A first request of the proposer is carried out exactly at the version they expect and from those
  // states. The task is then in the requested state, one version on if that is new, and the proposer is
  // its recorded closer if that is an end.
  lemma RequestSucceedsIff(s: Tables, task: Id, owner: nat, verb: ProposerVerb, key: string, expected: Option<nat>)
    requires Unused(s, CommandKey(owner, Some(task), User(owner), OpTransition(TargetOf(verb)), key))
    ensures var (s', reply) := K.TransitionTask(s, task, owner, TargetOf(verb), key, expected);
            && (reply.TaskReply? <==>
                  && task in s.tasks && s.tasks[task].owner == owner && s.tasks[task].proposer == User(owner)
                  && Expected(s.tasks[task], expected) && CarriedOutFrom(verb, s.tasks[task].state))
            && (reply.TaskReply? ==>
                  && s'.tasks == s.tasks[task := s.tasks[task].(
                       state := TargetOf(verb),
                       version := if s.tasks[task].state == TargetOf(verb) then s.tasks[task].version else s.tasks[task].version + 1,
                       closedBy := if verb == StartTask then None else Some(User(owner)))]
                  && reply == TaskReply(task, TargetOf(verb), s'.tasks[task].version, None, None))
            && (!reply.TaskReply? ==> s' == s)
  {
    hide T.CanTransition, CarriedOutFrom, K.Requested, TargetOf;
    if task in s.tasks {
      FollowsTable(verb, s.tasks[task].state);
      RequestedVerb(s.tasks[task], verb, owner);
    }
  }

  lemma FollowsTable(verb: ProposerVerb, state: T.TaskState)
    ensures T.CanTransition(state, TargetOf(verb)) <==> CarriedOutFrom(verb, state)
  {
  }

  lemma RequestedVerb(row: Task, verb: ProposerVerb, owner: nat)
    ensures K.Requested(row, TargetOf(verb), owner) == row.(
              state := TargetOf(verb),
              version := if row.state == TargetOf(verb) then row.version else row.version + 1,
              closedBy := if verb == StartTask then None else Some(User(owner)))
  {
  }

  // A first creation succeeds exactly with a valid budget and, if it names one, an agent of the user.
  // In every reachable state it adds a root task; the run of one with an agent waits on that agent alone.
  lemma CreationSucceedsIff(h: seq<Command>, owner: nat, agent: Option<Id>, budget: Budget, key: string, env: RunEnv)
    requires Unused(Exec(h), CommandKey(owner, None, User(owner), OpCreate, key))
    ensures var s := Exec(h);
            var (s', reply) := K.CreateTask(s, owner, agent, budget, key, env);
            && (reply.TaskReply? <==>
                  && (forall f :: f in budget ==> InLimits(f, budget[f]))
                  && (agent.Some? ==> agent.value in s.agents && s.agents[agent.value].owner == owner))
            && (!reply.TaskReply? ==> s' == s)
            && (reply.TaskReply? ==>
                  && reply.task !in s.tasks && s'.tasks.Keys == s.tasks.Keys + {reply.task}
                  && s'.tasks[reply.task] ==
                     Task(reply.task, None, owner, User(owner), budget, if agent.Some? then T.Assigned else T.Queued, 1, agent,
                          s'.tasks[reply.task].conversation, None)
                  && (reply.run.Some? <==> agent.Some? && AgentAllowsRun(s, agent.value, env)))
  {
    hide Exec, K.InsertTask, AgentAllowsRun, ValidBudget, OneHome, Traced, KnownRuns, RunsLimited, CallsLimited;
    var s := Exec(h);
    ForestAlways(h);
    TreeIds(s);
    RunInvariantAlways(h);
    ValidBudgetIff(budget);
    if ValidBudget(budget) && (agent.Some? ==> OwnsAgent(s, agent.value, owner)) {
      InsertedTask(s, owner, agent, budget, env);
    }
  }

  lemma InsertedTask(s: Tables, owner: nat, agent: Option<Id>, budget: Budget, env: RunEnv)
    requires IdsBelow(s.tasks, s.nextId) && TasksOfRuns(s) && ValidBudget(budget)
    ensures var (s', reply) := K.InsertTask(s, owner, agent, budget, env);
            && reply.TaskReply? && reply.task == s.nextId && reply.task !in s.tasks
            && s'.tasks.Keys == s.tasks.Keys + {s.nextId}
            && s'.tasks[s.nextId] ==
               Task(s.nextId, None, owner, User(owner), budget, if agent.Some? then T.Assigned else T.Queued, 1, agent,
                    s'.tasks[s.nextId].conversation, None)
            && (reply.run.Some? <==> agent.Some? && AgentAllowsRun(s, agent.value, env))
  {
    hide K.StartAttempt, AgentAllowsRun, BudgetSpent, ValidBudget;
    if agent.Some? {
      var s1 := K.SetTask(s, s.nextId, K.RootTask(s.nextId, owner, agent, budget)).(nextId := s.nextId + 1);
      StartAttemptEffect(s1, s.nextId, owner, agent.value, 1, env);
      AttemptGetsRunIff(s1, s.nextId, owner, agent.value, 1, env);
      NewTaskHasRoom(s1, s.nextId);
      SameAgentRoom(s, s1, agent.value, env);
    }
  }

  lemma SameAgentRoom(s: Tables, s': Tables, agent: Id, env: RunEnv)
    requires s'.runs == s.runs && s'.agents == s.agents
    ensures AgentAllowsRun(s', agent, env) == AgentAllowsRun(s, agent, env)
  {
    assert ActiveAgentRuns(s', agent) == ActiveAgentRuns(s, agent);
  }

  // A task without runs has used nothing.
  lemma NewTaskHasRoom(s: Tables, t: Id)
    requires t in s.tasks && ValidBudget(s.tasks[t].budget)
    requires forall r :: r in s.runs ==> s.runs[r].task != Some(t)
    ensures !BudgetSpent(s, t, true)
  {
    var b := s.tasks[t].budget;
    assert TaskUsage(s, t) == map[] && TaskInvocations(s, t) == {} && ActiveTaskRuns(s, t) == {};
    forall f | f in b
      ensures f == MaxTotalTokens || f == MaxConcurrentRuns ==> b[f] > 0
      ensures f == MaxToolCalls ==> b[f] >= 0
    {
      assert InLimits(f, b[f]);
    }
  }

  // The child's run starts to wait exactly when its agent takes one more.
  lemma DelegatedRunIff(h: seq<Command>, parent: Id, owner: nat, p: Principal, agent: Id, budget: Budget, env: RunEnv)
    requires K.DelegateTask(Exec(h), parent, owner, p, agent, budget, false, env).1.ToolChild?
    ensures K.DelegateTask(Exec(h), parent, owner, p, agent, budget, false, env).1.childRun.Some? <==>
              AgentAllowsRun(Exec(h), agent, env)
  {
    hide Exec, K.StartAttempt, AgentAllowsRun, ValidBudget, OneHome, Traced, KnownRuns, RunsLimited, CallsLimited, K.MayDelegate, WalkUp,
         BudgetSpent, K.DelegationForbidden;
    var s := Exec(h);
    ForestAlways(h);
    TreeIds(s);
    RunInvariantAlways(h);
    DelegationAnswers(s, parent, owner, p, agent, budget, false, env);
    DelegateGuards(s, parent, owner, p, agent, budget);
    var root := WalkUp(s.tasks, parent, [parent], 0).root;
    var proposer := match p case User(u) => AgentProposer(u) case AgentProposer(a) => p case CloudAgent(a) => AgentProposer(a);
    var row := Task(root, Some(parent), owner, proposer, budget, T.Assigned, 1, Some(agent), None, None);
    var s1 := K.SetTask(s, s.nextId, row).(nextId := s.nextId + 1);
    AttemptGetsRunIff(s1, s.nextId, owner, agent, 1, env);
    NewTaskHasRoom(s1, s.nextId);
    SameAgentRoom(s, s1, agent, env);
  }

  // ---------------------------------------------------------------- the executor's other tools

  // A run bound to an open assignment has each first call of a tool carried out for its own task and
  // assignment, in the name of its agent. Its reply is remembered under the call id, but not that of a
  // malformed call, nor one that was refused with an error: those may be tried again.
  lemma FirstCallIsCarriedOut(s: Tables, run: Id, callId: string, call: K.ToolCall, env: RunEnv)
    requires run in s.runs && s.runs[run].task.Some? && s.runs[run].assignment.Some?
    requires OpenAssignment(s, s.runs[run].assignment.value, s.runs[run].task.value, s.runs[run].agent)
    requires s.runs[run].task.value in s.tasks
    requires Unused(s, CommandKey(s.tasks[s.runs[run].task.value].owner, s.runs[run].task, CloudAgent(s.runs[run].agent),
                                  OpTool(K.NameOf(call)), callId))
    ensures var row := s.runs[run];
            var (s1, answer) := K.RunTool(s, row.task.value, row.assignment.value, CloudAgent(row.agent), call, env);
            var (s', reply) := K.ExecuteTaskTool(s, run, callId, call, env);
            && reply == answer && s' == s1.(dedup := s'.dedup)
            && s'.dedup == (if callId != "" && (call.Accept? || call.valid) && reply !in {NotFound, Forbidden, Conflict}
                            then s.dedup[CommandKey(s.tasks[row.task.value].owner, row.task, CloudAgent(row.agent),
                                                    OpTool(K.NameOf(call)), callId) := reply]
                            else s.dedup)
  {
    hide K.RunTool;
    RunToolMemory(s, s.runs[run].task.value, s.runs[run].assignment.value, CloudAgent(s.runs[run].agent), call, env);
  }

  // Accepting marks an assignment that nobody has taken up, and nothing else.
  lemma AcceptOutcome(s: Tables, task: Id, assignment: Id, p: Principal, env: RunEnv)
    requires task in s.tasks && assignment in s.assignments
    ensures var (s', reply) := K.RunTool(s, task, assignment, p, K.Accept, env);
            && reply == ToolAccepted(task)
            && s' == (if s.assignments[assignment].state == Assigned
                      then s.(assignments := s.assignments[assignment := s.assignments[assignment].(state := Accepted)]) else s)
  {
  }

  // Declining closes the assignment and stops the run; the task goes back to its proposer unless it is
  // there already or has ended.
  lemma DeclineOutcome(s: Tables, task: Id, assignment: Id, p: Principal, env: RunEnv)
    requires task in s.tasks && assignment in s.assignments
    ensures var (s', reply) := K.RunTool(s, task, assignment, p, K.Decline(true), env);
            && reply == (if s.tasks[task].state == T.Draft then Conflict else ToolStop(task))
            && s'.assignments == s.assignments[assignment := s.assignments[assignment].(state := Declined)]
            && s'.tasks == (if GoesBack(s.tasks[task].state)
                            then s.tasks[task := s.tasks[task].(state := T.AttentionRequired, version := s.tasks[task].version + 1)]
                            else s.tasks)
  {
    hide T.CanTransition, K.DeclineAssignment;
    DeclineRows(s, task, assignment);
  }

  lemma DeclineRows(s: Tables, task: Id, assignment: Id)
    requires task in s.tasks && assignment in s.assignments
    ensures var (s', reply) := K.DeclineAssignment(s, task, assignment);
            && reply == (if s.tasks[task].state == T.Draft then Conflict else ToolStop(task))
            && s'.assignments == s.assignments[assignment := s.assignments[assignment].(state := Declined)]
            && s'.tasks == (if GoesBack(s.tasks[task].state)
                            then s.tasks[task := s.tasks[task].(state := T.AttentionRequired, version := s.tasks[task].version + 1)]
                            else s.tasks)
  {
    hide T.CanTransition;
    MayGoBackIff(s.tasks[task].state);
  }

  lemma MayGoBackIff(state: T.TaskState)
    ensures T.CanTransition(state, T.AttentionRequired) <==> GoesBack(state) || state == T.AttentionRequired
    ensures T.CanTransition(state, T.Closed) <==> state == T.AwaitingProposerClose || state == T.Closed
  {
  }

  // Asking the proposer sends the task back to them, one version on; a progress note changes nothing.
  lemma AskOutcome(s: Tables, task: Id, assignment: Id, p: Principal, env: RunEnv)
    requires task in s.tasks && assignment in s.assignments
    ensures var (s', reply) := K.RunTool(s, task, assignment, p, K.AskProposer(true), env);
            if GoesBack(s.tasks[task].state) || s.tasks[task].state == T.AttentionRequired
            then reply == ToolOk(task, T.AttentionRequired) &&
                 s' == s.(tasks := s.tasks[task := s.tasks[task].(state := T.AttentionRequired, version := s.tasks[task].version + 1)])
            else reply == Conflict && s' == s
    ensures K.RunTool(s, task, assignment, p, K.Progress(true), env) == (s, ToolOk(task, s.tasks[task].state))
  {
    hide T.CanTransition;
    MayGoBackIff(s.tasks[task].state);
  }

  // An agent closes exactly a child that it proposed itself under a task it may read, once the child has
  // delivered; the agent is its recorded closer.
  lemma CloseOutcome(s: Tables, parent: Id, child: Id, owner: nat, agentId: Id)
    ensures var (s', reply) := K.CloseDelegatedTask(s, parent, child, owner, CloudAgent(agentId));
            && (reply.ToolOk? <==>
                  && parent in s.tasks && child in s.tasks && s.tasks[parent].owner == owner && s.tasks[child].owner == owner
                  && CanRead(s, parent, owner, CloudAgent(agentId)) && s.tasks[child].parent == Some(parent)
                  && s.tasks[child].proposer in {AgentProposer(agentId), CloudAgent(agentId)}
                  && (s.tasks[child].state == T.AwaitingProposerClose || s.tasks[child].state == T.Closed))
            && (reply.ToolOk? ==>
                  s' == s.(tasks := s.tasks[child := s.tasks[child].(state := T.Closed, version := s.tasks[child].version + 1,
                                                                     closedBy := Some(AgentProposer(agentId)))]))
            && (!reply.ToolOk? ==> s' == s)
  {
    hide T.CanTransition, CanRead;
    if child in s.tasks {
      MayGoBackIff(s.tasks[child].state);
      if IsProposer(s.tasks[child], CloudAgent(agentId)) {
        ProposerReads(s, child, owner, CloudAgent(agentId));
      }
    }
  }
}
