// The agent service's store as it works: one database that each method reads and updates row by row.
// Every method leaves exactly the tables, and gives exactly the answer, of the command that specifies
// it; what holds of all histories of commands therefore holds of all uses of this class.
module AgentStores {
  import opened Options
  import opened MapSums
  import opened Tables
  import opened RunCommands
  import opened LeaseCommands
  import opened Commands
  import opened TaskHistory
  import K = TaskCommands
  import T = TaskStates
  import R = RunStates

  // ---------------------------------------------------------------- aggregates

  method SumOf(m: map<Id, nat>) returns (total: nat)
    ensures total == Sum(m)
  {
    total := 0;
    var rest := m;
    while rest != map[]
      invariant total + Sum(rest) == Sum(m)
      decreases |rest|
    {
      var k :| k in rest;
      SumPick(rest, k);
      total := total + rest[k];
      rest := rest - {k};
    }
  }

  method MaxOf(s: set<nat>) returns (m: nat)
    ensures m == Max(s)
  {
    m := 0;
    var rest := s;
    while rest != {}
      invariant rest <= s
      invariant forall x :: x in s && x !in rest ==> x <= m
      invariant m in s || (m == 0 && rest == s)
      decreases |rest|
    {
      var x :| x in rest;
      if x >= m {
        m := x;
      }
      rest := rest - {x};
    }
  }

  method MinOf(s: set<nat>) returns (m: nat)
    requires s != {}
    ensures m == Min(s)
  {
    m :| m in s;
    var rest := s - {m};
    while rest != {}
      invariant rest <= s && m in s
      invariant forall x :: x in s && x !in rest ==> m <= x
      decreases |rest|
    {
      var x :| x in rest;
      if x < m {
        m := x;
      }
      rest := rest - {x};
    }
  }

  class AgentStore {
    var db: Tables

    constructor ()
      ensures db == Empty
    {
      db := Empty;
    }

    // ---------------------------------------------------------------- budgets and runs

    // Why the task's budget allows no more, if so: the task itself may be unknown.
    method TaskBudgetError(task: Id, includeNextRun: bool) returns (error: Option<BudgetError>)
      ensures error == Some(TaskUnknown) <==> task !in db.tasks
      ensures task in db.tasks ==>
                var b := db.tasks[task].budget;
                (error.None? <==>
                   && (Limit(b, MaxTotalTokens, 0) == 0 || TokensUsed(db, task) < Limit(b, MaxTotalTokens, 0))
                   && (Limit(b, MaxToolCalls, 0) == 0 || |TaskInvocations(db, task)| < Limit(b, MaxToolCalls, 0))
                   && (Limit(b, MaxConcurrentRuns, 0) == 0 ||
                       |ActiveTaskRuns(db, task)| + (if includeNextRun then 1 else 0) <= Limit(b, MaxConcurrentRuns, 0)))
      ensures task in db.tasks ==> (error.Some? <==> BudgetSpent(db, task, includeNextRun))
      ensures error == Some(TokensSpent) ==> Limit(db.tasks[task].budget, MaxTotalTokens, 0) <= TokensUsed(db, task)
      ensures error == Some(ToolCallsSpent) ==> Limit(db.tasks[task].budget, MaxToolCalls, 0) <= |TaskInvocations(db, task)|
      ensures error == Some(TooManyRuns) ==>
                Limit(db.tasks[task].budget, MaxConcurrentRuns, 0) < |ActiveTaskRuns(db, task)| + (if includeNextRun then 1 else 0)
    {
      if task !in db.tasks {
        return Some(TaskUnknown);
      }
      var budget := db.tasks[task].budget;
      var tokensUsed := SumOf(TaskUsage(db, task));
      var toolCallsUsed := |TaskInvocations(db, task)|;
      var activeRuns := |ActiveTaskRuns(db, task)|;
      var tokens, calls, parallel :=
        Limit(budget, MaxTotalTokens, 0), Limit(budget, MaxToolCalls, 0), Limit(budget, MaxConcurrentRuns, 0);
      if tokens != 0 && tokensUsed >= tokens {
        return Some(TokensSpent);
      }
      if calls != 0 && toolCallsUsed >= calls {
        return Some(ToolCallsSpent);
      }
      if parallel != 0 && activeRuns + (if includeNextRun then 1 else 0) > parallel {
        return Some(TooManyRuns);
      }
      return None;
    }

    method CreateRun(conversation: Id, owner: nat, task: Option<Id>, assignment: Option<Id>, env: RunEnv)
      returns (run: Option<Id>)
      modifies this
      ensures (db, run) == RunCommands.CreateRun(old(db), conversation, owner, task, assignment, env)
    {
      hide BudgetSpent;
      if conversation !in db.conversations || db.conversations[conversation].owner != owner {
        return None;
      }
      var agent := db.conversations[conversation].agent;
      if task.Some? {
        var t := task.value;
        if !OwnsTask(db, t, owner) || db.tasks[t].conversation != Some(conversation) {
          return None;
        }
        if assignment.None? || assignment.value !in db.assignments {
          return None;
        }
        var row := db.assignments[assignment.value];
        if row.task != t || row.state != Assigned || row.executor != agent {
          return None;
        }
        var error := TaskBudgetError(t, true);
        if error.Some? {
          return None;
        }
      }
      if !AgentAllowsRun(db, agent, env) {
        return None;
      }
      var id := db.nextId;
      db := db.(nextId := id + 1,
                runs := db.runs[id := Run(conversation, agent, owner, task, assignment, R.Queued, 0, 0, 0)]);
      if db.agents[agent].onDevice {
        db := db.(dispatches := db.dispatches[id := Dispatch(db.agents[agent].device.value, Pending, None, 0, None, 0)]);
      } else {
        db := db.(outbox := db.outbox + [OutboxRow(RunQueued, id)]);
      }
      return Some(id);
    }

    method TryStartRun(run: Id, recover: bool, resume: bool) returns (started: bool)
      modifies this
      ensures (db, started) == RunCommands.TryStartRun(old(db), run, recover, resume)
    {
      started := run in db.runs && StartAllowed(db.runs[run].state, recover, resume);
      if started {
        var row := db.runs[run];
        db := db.(runs := db.runs[run := row.(state := R.Running, attempt := row.attempt + 1)]);
      }
    }

    method UpdateRun(run: Id, state: R.RunState) returns (updated: bool)
      modifies this
      ensures (db, updated) == RunCommands.UpdateRun(old(db), run, state)
    {
      if run !in db.runs || !R.CanTransition(db.runs[run].state, state) {
        return false;
      }
      db := db.(runs := db.runs[run := db.runs[run].(state := state)]);
      return true;
    }

    method RecordToolInvocation(run: Id) returns (recorded: bool)
      modifies this
      ensures (db, recorded) == RunCommands.RecordToolInvocation(old(db), run)
    {
      hide BudgetSpent;
      if run in db.runs && db.runs[run].task.Some? {
        var error := TaskBudgetError(db.runs[run].task.value, false);
        if error.Some? {
          return false;
        }
      }
      db := db.(nextId := db.nextId + 1, invocations := db.invocations[db.nextId := run]);
      return true;
    }

    method AddEvent(run: Id, kind: string) returns (sequence: Option<nat>)
      modifies this
      ensures (db, sequence) == RunCommands.AddEvent(old(db), run, kind)
    {
      if run !in db.runs {
        return None;
      }
      var next := db.runs[run].eventSequence + 1;
      db := db.(runs := db.runs[run := db.runs[run].(eventSequence := next)]);
      db := db.(trace := db.trace + [TraceEvent(run, next, kind)]);
      return Some(next);
    }

    method DeleteConversation(conversation: Id, owner: nat) returns (deleted: bool)
      modifies this
      ensures (db, deleted) == RunCommands.DeleteConversation(old(db), conversation, owner)
    {
      hide TraceWithout;
      if !MayDelete(db, conversation, owner) {
        return false;
      }
      var gone := set r | r in db.runs && db.runs[r].conversation == conversation;
      db := db.(dispatches := db.dispatches - gone);
      db := db.(invocations := map i | i in db.invocations && db.invocations[i] !in gone :: db.invocations[i]);
      db := db.(trace := TraceWithout(db.trace, gone));
      db := db.(runs := db.runs - gone);
      db := db.(conversations := db.conversations - {conversation});
      return true;
    }

    // ---------------------------------------------------------------- assignments and attempts

    method CreateTaskAssignment(task: Id, agent: Id) returns (assignment: Id)
      modifies this
      ensures db == K.CreateAssignment(old(db), task, agent) && assignment == old(db).nextId
    {
      var latest := MaxOf(Attempts(db.assignments, task));
      assignment := db.nextId;
      db := db.(nextId := assignment + 1,
                assignments := db.assignments[assignment := Assignment(task, agent, Assigned, latest + 1)]);
    }

    method SupersedeActiveAssignments(task: Id)
      modifies this
      ensures db == K.SupersedeOpenAssignments(old(db), task)
    {
      db := db.(assignments := map a | a in db.assignments ::
                  if db.assignments[a].task == task && Open(db.assignments[a].state)
                  then db.assignments[a].(state := Superseded) else db.assignments[a]);
      assert db.assignments == K.SupersedeOpenAssignments(old(db), task).assignments;
    }

    // A new assignment, conversation and run for a task.
    method StartAttempt(task: Id, owner: nat, agent: Id, version: nat, env: RunEnv) returns (reply: Reply)
      requires task in db.tasks
      modifies this
      ensures (db, reply) == K.StartAttempt(old(db), task, owner, agent, version, env)
      ensures reply.TaskReply?
    {
      hide K.CreateAssignment, RunCommands.CreateRun;
      ghost var s := db;
      AttemptFrame(s, task, agent);
      var assignment := CreateTaskAssignment(task, agent);
      var conversation := db.nextId;
      db := db.(nextId := conversation + 1, conversations := db.conversations[conversation := Conversation(agent, owner)]);
      var row := db.tasks[task];
      db := db.(tasks := db.tasks[task := row.(state := T.Assigned, assignedAgent := Some(agent),
                                               conversation := Some(conversation), version := version)]);
      CreateRunFrame(db, conversation, owner, Some(task), Some(assignment), env);
      var run := CreateRun(conversation, owner, Some(task), Some(assignment), env);
      reply := K.TaskReplyOf(db, task, Some(assignment), run);
    }

    // ---------------------------------------------------------------- commands of the proposing user

    method RememberTaskCommand(ck: CommandKey, reply: Reply)
      modifies this
      ensures db == K.Remember(old(db), ck, reply)
    {
      if ck.key != "" {
        db := db.(dedup := db.dedup[ck := reply]);
      }
    }

    method CreateTask(owner: nat, agent: Option<Id>, budget: Budget, key: string, env: RunEnv) returns (reply: Reply)
      modifies this
      ensures (db, reply) == K.CreateTask(old(db), owner, agent, budget, key, env)
    {
      hide K.StartAttempt, ValidBudget;
      if agent.Some? && !OwnsAgent(db, agent.value, owner) {
        return Conflict;
      }
      if !ValidBudget(budget) {
        return Conflict;
      }
      var ck := CommandKey(owner, None, User(owner), OpCreate, key);
      if key != "" && ck in db.dedup {
        return db.dedup[ck];
      }
      var task := db.nextId;
      var state := if agent.Some? then T.Assigned else T.Queued;
      db := db.(tasks := db.tasks[task := Task(task, None, owner, User(owner), budget, state, 1, agent, None, None)]);
      db := db.(nextId := task + 1);
      if agent.Some? {
        reply := StartAttempt(task, owner, agent.value, 1, env);
      } else {
        reply := K.TaskReplyOf(db, task, None, None);
      }
      RememberTaskCommand(ck, reply);
    }

    method AssignCloudTask(task: Id, owner: nat, agent: Id, key: string, expected: Option<nat>, env: RunEnv)
      returns (reply: Reply)
      modifies this
      ensures (db, reply) == K.AssignCloudTask(old(db), task, owner, agent, key, expected, env)
    {
      hide K.StartAttempt;
      if task !in db.tasks || db.tasks[task].owner != owner {
        return NotFound;
      }
      var row := db.tasks[task];
      if !IsProposer(row, User(owner)) {
        return Forbidden;
      }
      var ck := CommandKey(owner, Some(task), User(owner), OpAssign, key);
      if key != "" && ck in db.dedup {
        return db.dedup[ck];
      }
      if expected.Some? && row.version != expected.value {
        return Conflict;
      }
      if !T.CanTransition(row.state, T.Assigned) {
        return Conflict;
      }
      SupersedeActiveAssignments(task);
      if !OwnsAgent(db, agent, owner) {
        return Conflict;
      }
      var version := row.version + (if row.state == T.Assigned then 0 else 1);
      reply := StartAttempt(task, owner, agent, version, env);
      RememberTaskCommand(ck, reply);
    }

    method ResumeTask(task: Id, owner: nat, key: string, expected: Option<nat>, env: RunEnv) returns (reply: Reply)
      modifies this
      ensures (db, reply) == K.ResumeTask(old(db), task, owner, key, expected, env)
    {
      hide K.StartAttempt, K.Remember, K.SupersedeOpenAssignments, IsProposer;
      if task !in db.tasks || db.tasks[task].owner != owner {
        return NotFound;
      }
      var row := db.tasks[task];
      if !IsProposer(row, User(owner)) {
        return Forbidden;
      }
      var ck := CommandKey(owner, Some(task), User(owner), OpReopen, key);
      if key != "" && ck in db.dedup {
        return db.dedup[ck];
      }
      if expected.Some? && row.version != expected.value {
        return Conflict;
      }
      if row.state != T.AwaitingProposerClose && row.state != T.AttentionRequired {
        return Conflict;
      }
      if row.assignedAgent.None? || !OwnsAgent(db, row.assignedAgent.value, owner) {
        return Conflict;
      }
      var agent, version := row.assignedAgent.value, row.version + 1;
      SupersedeKeepsTasks(db, task);
      SupersedeActiveAssignments(task);
      reply := StartAttempt(task, owner, agent, version, env);
      RememberTaskCommand(ck, reply);
    }

    method RequestedRow(row: Task, target: T.TaskState, owner: nat) returns (next: Task)
      ensures next == K.Requested(row, target, owner)
    {
      next := row.(state := target, closedBy := None);
      if row.state != target {
        next := next.(version := row.version + 1);
      }
      if T.Terminal(target) {
        next := next.(closedBy := Some(User(owner)));
      }
    }

    method TransitionTask(task: Id, owner: nat, target: T.TaskState, key: string, expected: Option<nat>)
      returns (reply: Reply)
      modifies this
      ensures (db, reply) == K.TransitionTask(old(db), task, owner, target, key, expected)
    {
      hide T.CanTransition, K.Remember, K.Requested, IsProposer;
      if task !in db.tasks || db.tasks[task].owner != owner {
        return NotFound;
      }
      var row := db.tasks[task];
      if !IsProposer(row, User(owner)) {
        return Forbidden;
      }
      var ck := CommandKey(owner, Some(task), User(owner), OpTransition(target), key);
      if key != "" && ck in db.dedup {
        return db.dedup[ck];
      }
      if expected.Some? && row.version != expected.value {
        return Conflict;
      }
      if !T.CanTransition(row.state, target) {
        return Conflict;
      }
      var next := RequestedRow(row, target, owner);
      db := db.(tasks := db.tasks[task := next]);
      reply := K.TaskReplyOf(db, task, None, None);
      RememberTaskCommand(ck, reply);
    }

    // ---------------------------------------------------------------- projections of a run

    method SyncTaskRunState(run: Id, state: R.RunState)
      modifies this
      ensures db == K.SyncTaskRunState(old(db), run, state)
    {
      if run !in db.runs || db.runs[run].task.None? || db.runs[run].task.value !in db.tasks {
        return;
      }
      var task, target := db.runs[run].task.value, K.ProjectedState(state);
      var row := db.tasks[task];
      if target.None? || T.Terminal(row.state) || row.state == target.value || !T.CanTransition(row.state, target.value) {
        return;
      }
      db := db.(tasks := db.tasks[task := row.(state := target.value, version := row.version + 1)]);
      var assignment := db.runs[run].assignment;
      if assignment.Some? && assignment.value in db.assignments {
        var a := db.assignments[assignment.value];
        var next := a.state;
        if state == R.Running && a.state == Assigned {
          next := Accepted;
        } else if state == R.Failed && Open(a.state) {
          next := Expired;
        } else if state == R.Cancelled && Open(a.state) {
          next := AssignmentState.Cancelled;
        }
        db := db.(assignments := db.assignments[assignment.value := a.(state := next)]);
      }
    }

    method MarkTaskBudgetExhausted(run: Id)
      modifies this
      ensures db == K.MarkBudgetExhausted(old(db), run)
    {
      hide BudgetSpent;
      if run !in db.runs || db.runs[run].task.None? || db.runs[run].task.value !in db.tasks {
        return;
      }
      var task := db.runs[run].task.value;
      var error := TaskBudgetError(task, false);
      if error.None? {
        return;
      }
      var row := db.tasks[task];
      if row.state in {T.Closed, T.Cancelled, T.AttentionRequired} || !T.CanTransition(row.state, T.AttentionRequired) {
        return;
      }
      db := db.(tasks := db.tasks[task := row.(state := T.AttentionRequired, version := row.version + 1)]);
    }

    method UpdateUsage(run: Id, tokens: nat)
      modifies this
      ensures db == K.UpdateUsage(old(db), run, tokens)
    {
      hide BudgetSpent;
      if run in db.runs {
        db := db.(runs := db.runs[run := db.runs[run].(tokens := tokens)]);
        MarkTaskBudgetExhausted(run);
      }
    }

    // ---------------------------------------------------------------- task tools

    method SubmitTaskResult(task: Id, owner: nat, assignment: Id, p: Principal, content: string) returns (reply: Reply)
      modifies this
      ensures (db, reply) == K.SubmitTaskResult(old(db), task, owner, assignment, p, content)
    {
      hide CanRead;
      if task !in db.tasks || db.tasks[task].owner != owner {
        return NotFound;
      }
      if !CanRead(db, task, owner, p) {
        return Forbidden;
      }
      if !p.CloudAgent? || !OpenAssignment(db, assignment, task, p.id) {
        return Forbidden;
      }
      var row := db.tasks[task];
      if !T.CanTransition(row.state, T.AwaitingProposerClose) {
        return Conflict;
      }
      db := db.(nextId := db.nextId + 1, results := db.results[db.nextId := TaskResult(task, assignment, p, content)]);
      db := db.(tasks := db.tasks[task := row.(state := T.AwaitingProposerClose, version := row.version + 1)]);
      db := db.(assignments := db.assignments[assignment := db.assignments[assignment].(state := Completed)]);
      return ToolOk(task, T.AwaitingProposerClose);
    }

    // Follows parent links up to a task without one.
    method WalkToRoot(task: Id) returns (chain: Chain)
      requires task in db.tasks
      ensures chain == WalkUp(db.tasks, task, [task], 0)
    {
      var depth, path, cursor := 0, [task], task;
      while db.tasks[cursor].parent.Some?
        invariant cursor in db.tasks
        invariant WalkUp(db.tasks, task, [task], 0) == WalkUp(db.tasks, cursor, path, depth)
        decreases |db.tasks.Keys - Known(path)|
      {
        var parent := db.tasks[cursor].parent.value;
        if parent in path {
          return Cycle;
        }
        if parent !in db.tasks {
          return Broken;
        }
        PathGrows(db.tasks, path, parent);
        path := path + [parent];
        cursor := parent;
        depth := depth + 1;
      }
      return Chain(depth, cursor);
    }

    method DelegateTask(parent: Id, owner: nat, p: Principal, agent: Id, budget: Budget, blank: bool, env: RunEnv)
      returns (reply: Reply)
      modifies this
      ensures (db, reply) == K.DelegateTask(old(db), parent, owner, p, agent, budget, blank, env)
    {
      hide K.StartAttempt, WalkUp, CanRead, ValidBudget, TokensUsed, TokensAllocated;
      if !ValidBudget(budget) || blank {
        return ToolError;
      }
      if parent !in db.tasks || db.tasks[parent].owner != owner || !CanRead(db, parent, owner, p) {
        return ToolDenied;
      }
      var row := db.tasks[parent];
      if row.state != T.InProgress && row.state != T.AttentionRequired {
        return ToolError;
      }
      if !exists a :: a in db.assignments && db.assignments[a].task == parent && db.assignments[a].state == Accepted &&
                      p == CloudAgent(db.assignments[a].executor) {
        return ToolDenied;
      }
      if !OwnsAgent(db, agent, owner) {
        return ToolError;
      }
      var chain := WalkToRoot(parent);
      if !chain.Chain? {
        return ToolError;
      }
      if chain.depth + 1 > Limit(row.budget, MaxDepth, 3) {
        return ToolError;
      }
      if |Subtasks(db.tasks, chain.root)| >= Limit(row.budget, MaxSubtasks, 4) {
        return ToolError;
      }
      var parallel := Limit(row.budget, MaxConcurrentRuns, 0);
      if parallel != 0 && |ActiveTreeRuns(db, chain.root)| >= parallel {
        return ToolError;
      }
      var spare := SpareTokens(parent, budget);
      if !spare {
        return ToolError;
      }
      var child := db.nextId;
      var proposer := match p case User(u) => AgentProposer(u) case AgentProposer(a) => p case CloudAgent(a) => AgentProposer(a);
      db := db.(tasks := db.tasks[child := Task(chain.root, Some(parent), owner, proposer, budget, T.Assigned, 1, Some(agent), None, None)]);
      db := db.(nextId := child + 1);
      var started := StartAttempt(child, owner, agent, 1, env);
      return ToolChild(child, started.run);
    }

    // Both sides declare tokens, and what is neither used nor promised suffices.
    method SpareTokens(parent: Id, budget: Budget) returns (spare: bool)
      requires parent in db.tasks
      ensures spare <==>
                && Tokens(db.tasks[parent].budget) != 0 && Tokens(budget) != 0
                && Tokens(budget) <= Tokens(db.tasks[parent].budget) - TokensUsed(db, parent) - TokensAllocated(db.tasks, parent)
    {
      var parentTokens: int := Tokens(db.tasks[parent].budget);
      var requested := Tokens(budget);
      if parentTokens == 0 || requested == 0 {
        return false;
      }
      var used := SumOf(TaskUsage(db, parent));
      var promised := SumOf(ChildBudgets(db.tasks, parent));
      return requested <= parentTokens - used - promised;
    }

    method CollectChildResult(parent: Id, child: Id, owner: nat, p: Principal) returns (reply: Reply)
      ensures reply == K.CollectChildResult(db, parent, child, owner, p)
    {
      hide CanRead;
      if !K.DirectChild(db, parent, child, owner, p) {
        return Forbidden;
      }
      if !IsProposer(db.tasks[child], p) {
        return Forbidden;
      }
      if db.tasks[child].state != T.AwaitingProposerClose && db.tasks[child].state != T.Closed {
        return Conflict;
      }
      var results := set r | r in db.results && db.results[r].task == child;
      if results == {} {
        assert forall r :: K.LatestResult(db, child, r) ==> r in results;
        return Conflict;
      }
      var latest := MaxOf(results);
      assert latest in results;
      assert forall q :: q in db.results && db.results[q].task == child ==> q in results;
      assert K.LatestResult(db, child, latest);
      assert forall r :: K.LatestResult(db, child, r) ==> r in results && r == latest;
      return ToolResult(child, db.results[latest].content);
    }

    method CloseDelegatedTask(parent: Id, child: Id, owner: nat, p: Principal) returns (reply: Reply)
      modifies this
      ensures (db, reply) == K.CloseDelegatedTask(old(db), parent, child, owner, p)
    {
      hide CanRead;
      if !K.DirectChild(db, parent, child, owner, p) {
        return Forbidden;
      }
      var row := db.tasks[child];
      if !IsProposer(row, p) {
        return Forbidden;
      }
      if !T.CanTransition(row.state, T.Closed) {
        return Conflict;
      }
      var closer := match p case User(u) => AgentProposer(u) case AgentProposer(a) => p case CloudAgent(a) => AgentProposer(a);
      db := db.(tasks := db.tasks[child := row.(state := T.Closed, version := row.version + 1, closedBy := Some(closer))]);
      return ToolOk(child, T.Closed);
    }

    method DeclineAssignment(task: Id, assignment: Id) returns (reply: Reply)
      requires task in db.tasks && assignment in db.assignments
      modifies this
      ensures (db, reply) == K.DeclineAssignment(old(db), task, assignment)
    {
      db := db.(assignments := db.assignments[assignment := db.assignments[assignment].(state := Declined)]);
      var row := db.tasks[task];
      if row.state in {T.Closed, T.Cancelled, T.AttentionRequired} {
        return ToolStop(task);
      }
      if !T.CanTransition(row.state, T.AttentionRequired) {
        return Conflict;
      }
      db := db.(tasks := db.tasks[task := row.(state := T.AttentionRequired, version := row.version + 1)]);
      return ToolStop(task);
    }

    method RunTool(task: Id, assignment: Id, p: Principal, call: K.ToolCall, env: RunEnv) returns (reply: Reply)
      requires task in db.tasks && assignment in db.assignments
      modifies this
      ensures (db, reply) == K.RunTool(old(db), task, assignment, p, call, env)
    {
      hide K.SubmitTaskResult, K.DelegateTask, K.CollectChildResult, K.CloseDelegatedTask, K.DeclineAssignment;
      var row := db.tasks[task];
      match call {
        case Progress(valid) =>
          reply := if valid then ToolOk(task, row.state) else ToolError;
        case Submit(valid, content) =>
          if valid {
            reply := SubmitTaskResult(task, row.owner, assignment, p, content);
          } else {
            reply := ToolError;
          }
        case AskProposer(valid) =>
          if !valid {
            reply := ToolError;
          } else if !T.CanTransition(row.state, T.AttentionRequired) {
            reply := Conflict;
          } else {
            db := db.(tasks := db.tasks[task := row.(state := T.AttentionRequired, version := row.version + 1)]);
            reply := ToolOk(task, T.AttentionRequired);
          }
        case Accept =>
          if db.assignments[assignment].state == Assigned {
            db := db.(assignments := db.assignments[assignment := db.assignments[assignment].(state := Accepted)]);
          }
          reply := ToolAccepted(task);
        case Decline(valid) =>
          if valid {
            reply := DeclineAssignment(task, assignment);
          } else {
            reply := ToolError;
          }
        case Delegate(valid, agent, budget, blank) =>
          if valid {
            reply := DelegateTask(task, row.owner, p, agent, budget, blank, env);
          } else {
            reply := ToolError;
          }
        case Collect(valid, child) =>
          if valid {
            reply := CollectChildResult(task, child, row.owner, p);
          } else {
            reply := ToolError;
          }
        case CloseChild(valid, child) =>
          if valid {
            reply := CloseDelegatedTask(task, child, row.owner, p);
          } else {
            reply := ToolError;
          }
      }
    }

    method ExecuteTaskTool(run: Id, callId: string, call: K.ToolCall, env: RunEnv) returns (reply: Reply)
      modifies this
      ensures (db, reply) == K.ExecuteTaskTool(old(db), run, callId, call, env)
    {
      hide K.RunTool;
      if !K.BoundToOpenAssignment(db, run) {
        return ToolDenied;
      }
      var row := db.runs[run];
      var task, p := row.task.value, CloudAgent(row.agent);
      var ck := CommandKey(db.tasks[task].owner, Some(task), p, OpTool(K.NameOf(call)), callId);
      if callId != "" && ck in db.dedup {
        return db.dedup[ck];
      }
      reply := RunTool(task, row.assignment.value, p, call, env);
      if K.Stored(call, reply) {
        RememberTaskCommand(ck, reply);
      }
    }

    // ---------------------------------------------------------------- local execution

    method OfferLocalRun(device: Id, frozenLocal: set<Id>) returns (given: Option<(Id, Id)>)
      modifies this
      ensures var (after, marked) := LeaseCommands.OfferLocalRun(old(db), device);
              db == after && given == OfferAnswer(marked, frozenLocal)
    {
      hide Offerable;
      var waiting := set run | run in db.dispatches && Offerable(db, run, device);
      if waiting == {} {
        return None;
      }
      var run := MinOf(waiting);
      var lease := db.nextId;
      db := db.(nextId := lease + 1,
                dispatches := db.dispatches[run := db.dispatches[run].(
                  state := Offered, lease := Some(lease), expiresAt := db.clock + LEASE_SECONDS)]);
      if run !in frozenLocal {
        return None;
      }
      return Some((run, lease));
    }

    method ClaimLocalRun(run: Id, device: Id, lease: Id, session: string) returns (claimed: bool)
      modifies this
      ensures (db, claimed) == LeaseCommands.ClaimLocalRun(old(db), run, device, lease, session)
    {
      hide K.SyncTaskRunState;
      if !HoldsLease(db, run, device, lease, Offered) {
        return false;
      }
      var before := db;
      db := db.(dispatches := db.dispatches[run := db.dispatches[run].(state := Claimed, session := Some(session))]);
      if run !in db.runs || db.runs[run].state != R.Queued {
        db := before;
        return false;
      }
      db := db.(runs := db.runs[run := db.runs[run].(state := R.Running, attempt := db.runs[run].attempt + 1)]);
      SyncTaskRunState(run, R.Running);
      return true;
    }

    method RenewLocalLease(run: Id, device: Id, lease: Id) returns (cancelled: Option<bool>)
      modifies this
      ensures (db, cancelled) == LeaseCommands.RenewLocalLease(old(db), run, device, lease)
    {
      if !HoldsLease(db, run, device, lease, Claimed) {
        return None;
      }
      db := db.(dispatches := db.dispatches[run := db.dispatches[run].(expiresAt := db.clock + LEASE_SECONDS)]);
      return Some(run in db.runs && db.runs[run].state == R.Cancelled);
    }

    method AppendLocalRunEvent(run: Id, device: Id, lease: Id, sequence: int, kind: string) returns (event: Option<nat>)
      modifies this
      ensures (db, event) == LeaseCommands.AppendLocalRunEvent(old(db), run, device, lease, sequence, kind)
    {
      if !HoldsLease(db, run, device, lease, Claimed) || sequence <= db.dispatches[run].lastAcked {
        return None;
      }
      db := db.(dispatches := db.dispatches[run := db.dispatches[run].(lastAcked := sequence)]);
      event := AddEvent(run, kind);
    }

    method SubmitLocalTaskResult(run: Id, content: string) returns (submitted: bool)
      modifies this
      ensures (db, submitted) == LeaseCommands.SubmitLocalTaskResult(old(db), run, content)
    {
      hide K.SubmitTaskResult;
      if content == "" || run !in db.runs || db.runs[run].task.None? || db.runs[run].task.value !in db.tasks ||
         db.runs[run].assignment.None? {
        return false;
      }
      var row := db.runs[run];
      var task := row.task.value;
      var reply := SubmitTaskResult(task, db.tasks[task].owner, row.assignment.value, CloudAgent(row.agent), content);
      return reply.ToolOk?;
    }

    method FinishLocalRun(run: Id, device: Id, lease: Id, state: R.RunState, content: string) returns (finished: bool)
      modifies this
      ensures (db, finished) == LeaseCommands.FinishLocalRun(old(db), run, device, lease, state, content)
    {
      hide K.SyncTaskRunState, LeaseCommands.SubmitLocalTaskResult;
      if !R.Terminal(state) || !HoldsLease(db, run, device, lease, Claimed) {
        return false;
      }
      ghost var s := db;
      var updated := UpdateRun(run, state);
      if !updated {
        return false;
      }
      RefusedSubmission(db, run, content);
      SyncKeepsDispatch(db, run, state);
      var submitted := false;
      if state == R.Completed {
        submitted := SubmitLocalTaskResult(run, content);
      }
      if !submitted {
        SyncTaskRunState(run, state);
      }
      db := db.(dispatches := db.dispatches[run := db.dispatches[run].(state := Finished(state))]);
      return true;
    }

    // ---------------------------------------------------------------- every command

    method PerformTaskCommand(c: Command)
      requires c.CreateTask? || c.AssignTask? || c.ReopenTask? || c.ProposerTransition? || c.TaskTool? || c.SyncTask? || c.RecordUsage?
      modifies this
      ensures db == Step(old(db), c)
    {
      hide K.CreateTask, K.AssignCloudTask, K.ResumeTask, K.TransitionTask, K.ExecuteTaskTool, K.SyncTaskRunState, K.UpdateUsage,
           RunCommands.CreateRun, RunCommands.TryStartRun, RunCommands.UpdateRun, RunCommands.RecordToolInvocation,
           RunCommands.AddEvent, RunCommands.DeleteConversation, LeaseCommands.OfferLocalRun, LeaseCommands.ClaimLocalRun,
           LeaseCommands.RenewLocalLease, LeaseCommands.AppendLocalRunEvent, LeaseCommands.FinishLocalRun;
      match c
      case CreateTask(owner, agent, budget, key, env) => var _ := CreateTask(owner, agent, budget, key, env);
      case AssignTask(task, owner, agent, key, expected, env) => var _ := AssignCloudTask(task, owner, agent, key, expected, env);
      case ReopenTask(task, owner, key, expected, env) => var _ := ResumeTask(task, owner, key, expected, env);
      case ProposerTransition(task, owner, verb, key, expected) =>
        var _ := TransitionTask(task, owner, TargetOf(verb), key, expected);
      case TaskTool(run, callId, call, env) => var _ := ExecuteTaskTool(run, callId, call, env);
      case SyncTask(run, state) => SyncTaskRunState(run, state);
      case RecordUsage(run, tokens) => UpdateUsage(run, tokens);
    }

    method PerformRunCommand(c: Command)
      requires c.ChatRun? || c.StartRun? || c.ReportRun? || c.RecordInvocation? || c.RecordEvent? || c.DeleteConversation?
      modifies this
      ensures db == Step(old(db), c)
    {
      hide K.CreateTask, K.AssignCloudTask, K.ResumeTask, K.TransitionTask, K.ExecuteTaskTool, K.SyncTaskRunState, K.UpdateUsage,
           RunCommands.CreateRun, RunCommands.TryStartRun, RunCommands.UpdateRun, RunCommands.RecordToolInvocation,
           RunCommands.AddEvent, RunCommands.DeleteConversation, LeaseCommands.OfferLocalRun, LeaseCommands.ClaimLocalRun,
           LeaseCommands.RenewLocalLease, LeaseCommands.AppendLocalRunEvent, LeaseCommands.FinishLocalRun;
      match c
      case ChatRun(conversation, owner, env) => var _ := CreateRun(conversation, owner, None, None, env);
      case StartRun(run, recover, resume) => var _ := TryStartRun(run, recover, resume);
      case ReportRun(run, report) => var _ := UpdateRun(run, StateOf(report));
      case RecordInvocation(run) =>
        if run < db.nextId {
          var _ := RecordToolInvocation(run);
        }
      case RecordEvent(run, kind) => var _ := AddEvent(run, kind);
      case DeleteConversation(conversation, owner) => var _ := DeleteConversation(conversation, owner);
    }

    method PerformLeaseCommand(c: Command)
      requires c.Offer? || c.Claim? || c.Renew? || c.Append? || c.Finish?
      modifies this
      ensures db == Step(old(db), c)
    {
      hide K.CreateTask, K.AssignCloudTask, K.ResumeTask, K.TransitionTask, K.ExecuteTaskTool, K.SyncTaskRunState, K.UpdateUsage,
           RunCommands.CreateRun, RunCommands.TryStartRun, RunCommands.UpdateRun, RunCommands.RecordToolInvocation,
           RunCommands.AddEvent, RunCommands.DeleteConversation, LeaseCommands.OfferLocalRun, LeaseCommands.ClaimLocalRun,
           LeaseCommands.RenewLocalLease, LeaseCommands.AppendLocalRunEvent, LeaseCommands.FinishLocalRun;
      match c
      case Offer(device) => var _ := OfferLocalRun(device, {});
      case Claim(run, device, lease, session) => var _ := ClaimLocalRun(run, device, lease, session);
      case Renew(run, device, lease) => var _ := RenewLocalLease(run, device, lease);
      case Append(run, device, lease, sequence, kind) => var _ := AppendLocalRunEvent(run, device, lease, sequence, kind);
      case Finish(run, device, lease, state, content) => var _ := FinishLocalRun(run, device, lease, state, content);
    }

    method Perform(c: Command)
      modifies this
      ensures db == Step(old(db), c)
    {
      if c.CreateTask? || c.AssignTask? || c.ReopenTask? || c.ProposerTransition? || c.TaskTool? || c.SyncTask? || c.RecordUsage? {
        PerformTaskCommand(c);
      } else if c.ChatRun? || c.StartRun? || c.ReportRun? || c.RecordInvocation? || c.RecordEvent? || c.DeleteConversation? {
        PerformRunCommand(c);
      } else if c.Offer? || c.Claim? || c.Renew? || c.Append? || c.Finish? {
        PerformLeaseCommand(c);
      } else {
        match c
        case Tick(n) => db := db.(clock := db.clock + n);
        case PutAgent(id, row) => db := SetAgent(db, id, row);
        case NewConversation(owner, agent) => db := NewConversationRow(db, owner, agent);
        case EnqueueResume(run) => db := EnqueueConfirmationResume(db, run);
      }
    }
  }

  lemma SupersedeKeepsTasks(s: Tables, task: Id)
    ensures K.SupersedeOpenAssignments(s, task).tasks == s.tasks
  {
  }

  lemma RefusedSubmission(s: Tables, run: Id, content: string)
    ensures var (s', submitted) := LeaseCommands.SubmitLocalTaskResult(s, run, content);
            && s'.dispatches == s.dispatches && (!submitted ==> s' == s)
  {
    hide CanRead;
  }

  lemma SyncKeepsDispatch(s: Tables, run: Id, state: R.RunState)
    ensures K.SyncTaskRunState(s, run, state).dispatches == s.dispatches
  {
  }

  lemma PathGrows(tasks: map<Id, Task>, path: seq<Id>, p: Id)
    requires p in tasks && p !in path
    ensures |tasks.Keys - Known(path + [p])| < |tasks.Keys - Known(path)|
  {
    assert Known(path + [p]) == Known(path) + {p};
    assert tasks.Keys - Known(path + [p]) == (tasks.Keys - Known(path)) - {p};
  }

  // A store that performs a history of commands, one after the other, ends in the state of that
  // history.
  method PerformAll(history: seq<Command>) returns (store: AgentStore)
    ensures store.db == Exec(history)
  {
    store := new AgentStore();
    for i := 0 to |history|
      invariant fresh(store) && store.db == Exec(history[..i])
    {
      assert history[..i + 1][..i] == history[..i];
      store.Perform(history[i]);
    }
    assert history[..|history|] == history;
  }

  lemma AttemptFrame(s: Tables, task: Id, agent: Id)
    ensures K.CreateAssignment(s, task, agent).tasks == s.tasks
  {
  }
}
