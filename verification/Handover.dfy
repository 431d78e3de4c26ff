// What the successful commands on tasks achieve, said without the way they do it.
module Handover {
  import opened Options
  import opened MapSums
  import opened Tables
  import opened RunCommands
  import opened Commands
  import opened DelegationTree
  import opened TaskHistory
  import opened AttemptHistory
  import opened AttemptEffects
  import opened TaskTheorems
  import opened LifecycleTheorems
  import opened FenceTheorems
  import K = TaskCommands
  import T = TaskStates
  import R = RunStates

  function OpenOnes(assignments: map<Id, Assignment>, task: Id): set<Id> {
    set a | a in assignments && assignments[a].task == task && Open(assignments[a].state)
  }

  // The task is handed to an agent under assignment a in conversation c.
  ghost predicate HandedTo(s: Tables, task: Id, agent: Id, owner: nat, a: Id, c: Id) {
    && task in s.tasks && s.tasks[task].state == T.Assigned
    && s.tasks[task].assignedAgent == Some(agent) && s.tasks[task].conversation == Some(c)
    && c in s.conversations && s.conversations[c] == Conversation(agent, owner)
    && a in s.assignments && s.assignments[a].task == task && s.assignments[a].executor == agent
    && s.assignments[a].state == Assigned
  }

  // A run that waits to carry out that assignment.
  predicate Waits(s: Tables, run: Id, task: Id, agent: Id, owner: nat, a: Id, c: Id) {
    && run in s.runs
    && s.runs[run] == Run(c, agent, owner, Some(task), Some(a), R.Queued, 0, 0, 0)
    && ((run in s.dispatches && s.dispatches[run].state == Pending) || OutboxRow(RunQueued, run) in s.outbox)
  }

  lemma CreatedRunWaits(s: Tables, c: Id, owner: nat, task: Id, a: Id, env: RunEnv)
    requires c in s.conversations
    ensures var (s', run) := CreateRun(s, c, owner, Some(task), Some(a), env);
            && s'.conversations == s.conversations && s'.assignments == s.assignments
            && (run.Some? ==> run.value >= s.nextId && Waits(s', run.value, task, s.conversations[c].agent, owner, a, c))
  {
    hide MayCreateRun;
    if MayCreateRun(s, c, owner, Some(task), Some(a), env) {
      AgentExists(s, c, owner, task, a, env);
      var agent := s.conversations[c].agent;
      if !s.agents[agent].onDevice {
        var rows := s.outbox + [OutboxRow(RunQueued, s.nextId)];
        assert rows[|s.outbox|] == OutboxRow(RunQueued, s.nextId);
      }
    }
  }

  lemma AgentExists(s: Tables, c: Id, owner: nat, task: Id, a: Id, env: RunEnv)
    requires MayCreateRun(s, c, owner, Some(task), Some(a), env)
    ensures c in s.conversations && s.conversations[c].agent in s.agents
  {
    hide TaskAllowsRun;
  }

  lemma AttemptHandsOver(s: Tables, task: Id, owner: nat, agent: Id, version: nat, env: RunEnv)
    requires task in s.tasks
    ensures var (s', reply) := K.StartAttempt(s, task, owner, agent, version, env);
            && reply == TaskReply(task, T.Assigned, version, Some(s.nextId), reply.run)
            && HandedTo(s', task, agent, owner, s.nextId, s.nextId + 1)
            && s'.tasks[task].version == version
            && s'.assignments == K.CreateAssignment(s, task, agent).assignments
            && (reply.run.Some? ==> Waits(s', reply.run.value, task, agent, owner, s.nextId, s.nextId + 1))
  {
    hide CreateRun, Max, Attempts;
    var s1 := K.CreateAssignment(s, task, agent);
    var s2 := K.OpenConversation(s1, agent, owner);
    var row := s2.tasks[task].(state := T.Assigned, assignedAgent := Some(agent),
                               conversation := Some(s1.nextId), version := version);
    var s3 := K.SetTask(s2, task, row);
    CreateRunFrame(s3, s1.nextId, owner, Some(task), Some(s.nextId), env);
    CreatedRunWaits(s3, s1.nextId, owner, task, s.nextId, env);
  }

  lemma OnlyNewIsOpen(s: Tables, task: Id, agent: Id)
    requires Placed(s)
    ensures var s1 := K.SupersedeOpenAssignments(s, task);
            var b := K.CreateAssignment(s1, task, agent).assignments;
            OpenOnes(b, task) == {s.nextId} && Supersedes(s.assignments, b, task, s.nextId)
  {
    hide Max, Attempts;
    SupersedeAges(s, task);
  }

  // One assignment is added; of the others exactly the open ones of the task change, to superseded.
  predicate Supersedes(a: map<Id, Assignment>, b: map<Id, Assignment>, task: Id, added: Id) {
    && b.Keys == a.Keys + {added}
    && (forall x :: x in a && x != added ==>
          b[x] == if a[x].task == task && (a[x].state == Assigned || a[x].state == Accepted) then a[x].(state := Superseded) else a[x])
  }

  // One new assignment of the task is open, it hands the task to the agent, and the run the reply
  // names, if any, waits to carry it out.
  ghost predicate HandsOver(s: Tables, after: (Tables, Reply), task: Id, agent: Id, owner: nat, version: nat) {
    && after.1.TaskReply? && after.1 == TaskReply(task, T.Assigned, version, Some(s.nextId), after.1.run)
    && s.nextId !in s.assignments && OpenOnes(after.0.assignments, task) == {s.nextId}
    && Supersedes(s.assignments, after.0.assignments, task, s.nextId)
    && HandedTo(after.0, task, agent, owner, s.nextId, s.nextId + 1)
    && (after.1.run.Some? ==> Waits(after.0, after.1.run.value, task, agent, owner, s.nextId, s.nextId + 1))
    && after.0.tasks[task].version == version
  }

  // A successful assignment hands the task to the agent under exactly one open assignment, which is
  // new; its run, if the limits allow one, waits for that assignment in the task's new conversation.
  lemma AssignmentHandsOver(h: seq<Command>, task: Id, owner: nat, agent: Id, key: string, expected: Option<nat>, env: RunEnv)
    requires OwnsTask(Exec(h), task, owner)
    requires K.Remembered(Exec(h), CommandKey(owner, Some(task), User(owner), OpAssign, key)).None?
    requires K.AssignCloudTask(Exec(h), task, owner, agent, key, expected, env).1.TaskReply?
    ensures var row := Exec(h).tasks[task];
            HandsOver(Exec(h), K.AssignCloudTask(Exec(h), task, owner, agent, key, expected, env), task, agent, owner,
                      if row.state == T.Assigned then row.version else row.version + 1)
  {
    hide Exec, Numbered, ResultsBacked, K.StartAttempt, K.CreateAssignment, K.SupersedeOpenAssignments, OpenOnes, Supersedes, HandedTo, Waits,
         K.Remembered, IsProposer;
    WorkAlways(h);
    var s := Exec(h);
    var s1 := K.SupersedeOpenAssignments(s, task);
    SupersedeFrame(s, task);
    var version := s.tasks[task].version + (if s.tasks[task].state == T.Assigned then 0 else 1);
    AttemptHandsOver(s1, task, owner, agent, version, env);
    OnlyNewIsOpen(s, task, agent);
    var (s2, reply) := K.StartAttempt(s1, task, owner, agent, version, env);
    SameHandover(s2, K.AssignCloudTask(s, task, owner, agent, key, expected, env).0, reply, task, agent, owner, s.nextId, s.nextId + 1);
  }

  lemma SameHandover(x: Tables, y: Tables, reply: Reply, task: Id, agent: Id, owner: nat, a: Id, c: Id)
    requires reply.TaskReply? && y == x.(dedup := y.dedup)
    ensures HandedTo(y, task, agent, owner, a, c) == HandedTo(x, task, agent, owner, a, c)
    ensures reply.run.Some? ==> Waits(y, reply.run.value, task, agent, owner, a, c) == Waits(x, reply.run.value, task, agent, owner, a, c)
    ensures y.assignments == x.assignments && y.tasks == x.tasks
  {
  }

  // A rework does the same for the agent the task already has, and always counts as a new version.
  lemma ReworkHandsOver(h: seq<Command>, task: Id, owner: nat, key: string, expected: Option<nat>, env: RunEnv)
    requires OwnsTask(Exec(h), task, owner)
    requires K.Remembered(Exec(h), CommandKey(owner, Some(task), User(owner), OpReopen, key)).None?
    requires K.ResumeTask(Exec(h), task, owner, key, expected, env).1.TaskReply?
    ensures Exec(h).tasks[task].assignedAgent.Some?
    ensures HandsOver(Exec(h), K.ResumeTask(Exec(h), task, owner, key, expected, env), task,
                      Exec(h).tasks[task].assignedAgent.value, owner, Exec(h).tasks[task].version + 1)
  {
    hide Exec, Numbered, ResultsBacked, K.StartAttempt, K.CreateAssignment, K.SupersedeOpenAssignments, OpenOnes, Supersedes, HandedTo, Waits,
         K.Remembered, IsProposer;
    WorkAlways(h);
    var s := Exec(h);
    var s1 := K.SupersedeOpenAssignments(s, task);
    SupersedeFrame(s, task);
    var agent := s.tasks[task].assignedAgent.value;
    AttemptHandsOver(s1, task, owner, agent, s.tasks[task].version + 1, env);
    OnlyNewIsOpen(s, task, agent);
    var (s2, reply) := K.StartAttempt(s1, task, owner, agent, s.tasks[task].version + 1, env);
    SameHandover(s2, K.ResumeTask(s, task, owner, key, expected, env).0, reply, task, agent, owner, s.nextId, s.nextId + 1);
  }

  // The child a delegation leaves behind.
  ghost predicate FundedChild(
    s: Tables, after: (Tables, Reply), parent: Id, owner: nat, agentId: Id, target: Id, budget: Budget)
  {
    && after.1.ToolChild?
    && (var s', child := after.0, after.1.child;
        && parent in s.tasks && child !in s.tasks && s'.tasks.Keys == s.tasks.Keys + {child}
        && s'.tasks[child].parent == Some(parent) && s'.tasks[child].root == s.tasks[parent].root
        && s'.tasks[child].proposer == AgentProposer(agentId) && s'.tasks[child].owner == owner
        && s'.tasks[child].budget == budget && Tokens(budget) > 0
        && TokensUsed(s, parent) + TokensAllocated(s.tasks, parent) + Tokens(budget) <= Tokens(s.tasks[parent].budget)
        && HandedTo(s', child, target, owner, child + 1, child + 2)
        && (after.1.childRun.Some? ==> Waits(s', after.1.childRun.value, child, target, owner, child + 1, child + 2)))
  }

  // The row a delegation inserts for the child.
  ghost function ChildRow(s: Tables, parent: Id, owner: nat, agentId: Id, target: Id, budget: Budget): Task
    requires parent in s.tasks
  {
    Task(s.tasks[parent].root, Some(parent), owner, AgentProposer(agentId), budget, T.Assigned, 1, Some(target), None, None)
  }

  lemma DelegationStarts(s: Tables, parent: Id, owner: nat, agentId: Id, target: Id, budget: Budget, env: RunEnv)
    requires K.DelegateTask(s, parent, owner, CloudAgent(agentId), target, budget, false, env).1.ToolChild?
    requires parent in s.tasks && WalkUp(s.tasks, parent, [parent], 0).Chain? ==>
               WalkUp(s.tasks, parent, [parent], 0).root == s.tasks[parent].root
    ensures parent in s.tasks && Tokens(budget) > 0
    ensures TokensUsed(s, parent) + TokensAllocated(s.tasks, parent) + Tokens(budget) <= Tokens(s.tasks[parent].budget)
    ensures var s1 := K.SetTask(s, s.nextId, ChildRow(s, parent, owner, agentId, target, budget)).(nextId := s.nextId + 1);
            var (s2, reply) := K.StartAttempt(s1, s.nextId, owner, target, 1, env);
            K.DelegateTask(s, parent, owner, CloudAgent(agentId), target, budget, false, env) ==
            (s2, ToolChild(s.nextId, reply.run))
  {
    hide K.StartAttempt, CanRead, ValidBudget, TokensUsed, TokensAllocated, K.DelegationForbidden, Subtasks, ActiveTreeRuns;
    assert K.MayDelegate(s, parent, owner, CloudAgent(agentId), target, budget);
  }

  // A delegation adds one child of the delegating agent's task: proposed by that agent, under the
  // parent's root, funded from what the parent has neither used nor promised, and handed to the target.
  lemma DelegationAddsFundedChild(
    h: seq<Command>, parent: Id, owner: nat, agentId: Id, target: Id, budget: Budget, env: RunEnv)
    requires K.DelegateTask(Exec(h), parent, owner, CloudAgent(agentId), target, budget, false, env).1.ToolChild?
    ensures FundedChild(Exec(h), K.DelegateTask(Exec(h), parent, owner, CloudAgent(agentId), target, budget, false, env),
                        parent, owner, agentId, target, budget)
  {
    hide Exec, K.StartAttempt, K.CreateAssignment, K.DelegateTask, HandedTo, Waits, TokensUsed, TokensAllocated, Tokens;
    var s := Exec(h);
    ForestAlways(h);
    TreeIds(s);
    if parent in s.tasks {
      RootOfWalk(h, parent);
    }
    DelegationStarts(s, parent, owner, agentId, target, budget, env);
    var s1 := K.SetTask(s, s.nextId, ChildRow(s, parent, owner, agentId, target, budget)).(nextId := s.nextId + 1);
    AttemptHandsOver(s1, s.nextId, owner, target, 1, env);
    StartAttemptEffect(s1, s.nextId, owner, target, 1, env);
  }

  lemma RootOfWalk(h: seq<Command>, t: Id)
    requires t in Exec(h).tasks
    ensures WalkUp(Exec(h).tasks, t, [t], 0).Chain? && WalkUp(Exec(h).tasks, t, [t], 0).root == Exec(h).tasks[t].root
  {
    hide Exec;
    WalkAlwaysReachesRoot(h, t);
  }

  // A result is accepted exactly from the executor of an open assignment of the task, while the task
  // is in progress or already awaits its proposer; then it is on record under that assignment.
  lemma ResultIsAcceptedIff(s: Tables, task: Id, owner: nat, assignment: Id, p: Principal, content: string)
    ensures var (s', reply) := K.SubmitTaskResult(s, task, owner, assignment, p, content);
            && (reply.ToolOk? <==>
                  && OwnsTask(s, task, owner) && p.CloudAgent? && OpenAssignment(s, assignment, task, p.id)
                  && (s.tasks[task].state == T.InProgress || s.tasks[task].state == T.AwaitingProposerClose))
            && (reply.ToolOk? ==>
                  && s.nextId in s'.results && s'.results[s.nextId] == TaskResult(task, assignment, p, content)
                  && s'.tasks[task].state == T.AwaitingProposerClose && s'.assignments[assignment].state == Completed)
            && (!reply.ToolOk? ==> s' == s)
  {
    if p.CloudAgent? && OpenAssignment(s, assignment, task, p.id) && task in s.tasks {
      assert CanRead(s, task, owner, p);
    }
  }

  // An assignment that has delivered a result never delivers another, at any later time, for whichever
  // task, principal or text: the submission is refused and changes nothing.
  lemma DeliveredOnce(
    h: seq<Command>, i: nat, j: nat, r: Id, task: Id, owner: nat, p: Principal, content: string)
    requires i <= j <= |h| && r in At(h, i).results
    ensures var (s', reply) := K.SubmitTaskResult(At(h, j), task, owner, At(h, i).results[r].assignment, p, content);
            s' == At(h, j) && !reply.ToolOk?
  {
    hide Exec, AllAge, K.SubmitTaskResult;
    var a := At(h, i).results[r].assignment;
    ResultsComeFromAttempts(h[..i], task, r, r);
    AssignmentsOnlyAge(h, i, j);
    AgedRow(At(h, i).assignments, At(h, j).assignments, a);
    ResultIsAcceptedIff(At(h, j), task, owner, a, p, content);
  }

  lemma AgedRow(x: map<Id, Assignment>, y: map<Id, Assignment>, a: Id)
    requires AllAge(x, y) && a in x
    ensures a in y && Ages(x[a], y[a])
  {
  }
}
