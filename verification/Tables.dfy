// The rows of the agent service's database and the queries its commands run over them.
// A uuid is a number that was never handed out before; time is whole seconds.

module Options {
  datatype Option<+T> = None | Some(value: T)
}

// Sums over the values of a finite map, whatever order a query returns its rows in.
module MapSums {

  ghost function Sum<K(!new)>(m: map<K, nat>): nat {
    if m == map[] then 0
    else var k :| k in m; m[k] + Sum(m - {k})
  }

  lemma {:induction false} SumPick<K(!new)>(m: map<K, nat>, k: K)
    requires k in m
    ensures Sum(m) == m[k] + Sum(m - {k})
    decreases |m|
  {
    var p :| p in m && Sum(m) == m[p] + Sum(m - {p});
    if p != k {
      SumPick(m - {p}, k);
      SumPick(m - {k}, p);
      assert m - {p} - {k} == m - {k} - {p};
    }
  }

  lemma SumInsert<K(!new)>(m: map<K, nat>, k: K, v: nat)
    requires k !in m
    ensures Sum(m[k := v]) == Sum(m) + v
  {
    SumPick(m[k := v], k);
    assert m[k := v] - {k} == m;
  }

  // u holds exactly the entries of the disjoint maps a and b.
  ghost predicate Splits<K(!new)>(u: map<K, nat>, a: map<K, nat>, b: map<K, nat>) {
    && (forall k :: k in u <==> k in a || k in b)
    && (forall k :: k in a ==> k !in b && u[k] == a[k])
    && (forall k :: k in b ==> u[k] == b[k])
  }

  lemma {:induction false} SumUnion<K(!new)>(u: map<K, nat>, a: map<K, nat>, b: map<K, nat>)
    requires Splits(u, a, b)
    ensures Sum(u) == Sum(a) + Sum(b)
    decreases |b|
  {
    if b == map[] {
      assert u == a;
    } else {
      var k :| k in b;
      SumPick(b, k);
      SumPick(u, k);
      assert Splits(u - {k}, a, b - {k});
      SumUnion(u - {k}, a, b - {k});
    }
  }
}

module Tables {
  import opened Options
  import MapSums
  import T = TaskStates
  import R = RunStates

  type Id = nat

  // ---------------------------------------------------------------- budgets

  datatype BudgetField = MaxTotalTokens | MaxToolCalls | MaxConcurrentRuns | MaxDepth | MaxSubtasks | Unknown(name: string)

  type Budget = map<BudgetField, int>

  predicate InLimits(field: BudgetField, v: int) {
    match field
    case MaxTotalTokens => 1 <= v <= 100_000_000
    case MaxToolCalls => 0 <= v <= 100_000
    case MaxConcurrentRuns => 1 <= v <= 100
    case MaxDepth => 1 <= v <= 16
    case MaxSubtasks => 1 <= v <= 1_000
    case Unknown(_) => false
  }

  predicate ValidBudget(b: Budget) {
    forall f :: f in b ==> InLimits(f, b[f])
  }

  function Limit(b: Budget, f: BudgetField, default: int): int {
    if f in b then b[f] else default
  }

  // A declared token budget; 0 when none is declared.
  function Tokens(b: Budget): nat {
    var v := Limit(b, MaxTotalTokens, 0);
    if v < 0 then 0 else v
  }

  // ---------------------------------------------------------------- rows

  datatype Principal = User(id: nat) | AgentProposer(id: Id) | CloudAgent(id: Id)

  datatype Agent = Agent(
    owner: nat,
    active: bool,
    maxConcurrentRuns: int,
    onDevice: bool,
    device: Option<Id>,
    localDirect: bool)

  datatype Conversation = Conversation(agent: Id, owner: nat)

  datatype Task = Task(
    root: Id,
    parent: Option<Id>,
    owner: nat,
    proposer: Principal,
    budget: Budget,
    state: T.TaskState,
    version: nat,
    assignedAgent: Option<Id>,
    conversation: Option<Id>,
    closedBy: Option<Principal>)

  datatype AssignmentState = Assigned | Accepted | Declined | Superseded | Expired | Completed | Cancelled

  datatype Assignment = Assignment(task: Id, executor: Id, state: AssignmentState, attempt: nat)

  predicate Open(s: AssignmentState) {
    s == Assigned || s == Accepted
  }

  datatype TaskResult = TaskResult(task: Id, assignment: Id, submittedBy: Principal, content: string)

  datatype Run = Run(
    conversation: Id,
    agent: Id,
    initiator: nat,
    task: Option<Id>,
    assignment: Option<Id>,
    state: R.RunState,
    attempt: nat,
    tokens: nat,
    eventSequence: nat)

  datatype ExecutorState = Pending | Offered | Claimed | Finished(outcome: R.RunState)

  datatype Dispatch = Dispatch(
    device: Id,
    state: ExecutorState,
    lease: Option<Id>,
    expiresAt: int,
    session: Option<string>,
    lastAcked: int)

  datatype OutboxKind = RunQueued | RunConfirmed

  datatype OutboxRow = OutboxRow(kind: OutboxKind, run: Id)

  datatype TraceEvent = TraceEvent(run: Id, sequence: nat, kind: string)

  // ---------------------------------------------------------------- commands and their replies

  datatype Operation = OpCreate | OpAssign | OpReopen | OpTransition(target: T.TaskState) | OpTool(name: ToolName)

  datatype ToolName =
    | PostProgress
    | SubmitResult
    | RequestProposerDecision
    | DelegateTask
    | AcceptAssignment
    | DeclineAssignment
    | CollectChildResult
    | CloseDelegatedTask

  datatype CommandKey = CommandKey(owner: nat, scope: Option<Id>, actor: Principal, op: Operation, key: string)

  datatype Reply =
    | NotFound                       // the method returned None
    | Forbidden                      // it raised PermissionError
    | Conflict                       // it raised ValueError
    | TaskReply(task: Id, state: T.TaskState, version: nat, assignment: Option<Id>, run: Option<Id>)
    | ToolOk(task: Id, state: T.TaskState)
    | ToolAccepted(task: Id)
    | ToolStop(task: Id)             // ok, and the run must stop
    | ToolChild(child: Id, childRun: Option<Id>)
    | ToolResult(child: Id, content: string)
    | ToolError                      // {"status": "error"}
    | ToolDenied                     // {"status": "denied"}

  datatype Tables = Tables(
    nextId: Id,
    clock: int,
    agents: map<Id, Agent>,
    conversations: map<Id, Conversation>,
    tasks: map<Id, Task>,
    assignments: map<Id, Assignment>,
    results: map<Id, TaskResult>,
    runs: map<Id, Run>,
    dispatches: map<Id, Dispatch>,
    outbox: seq<OutboxRow>,
    invocations: map<Id, Id>,
    trace: seq<TraceEvent>,
    dedup: map<CommandKey, Reply>)

  const Empty := Tables(0, 0, map[], map[], map[], map[], map[], map[], map[], [], map[], [], map[])

  // ---------------------------------------------------------------- queries

  predicate OwnsAgent(s: Tables, agent: Id, owner: nat) {
    agent in s.agents && s.agents[agent].owner == owner
  }

  predicate OwnsTask(s: Tables, task: Id, owner: nat) {
    task in s.tasks && s.tasks[task].owner == owner
  }

  // The proposer of a task, an agent acting through its cloud identity included.
  predicate IsProposer(task: Task, p: Principal) {
    task.proposer == p || (p.CloudAgent? && task.proposer == AgentProposer(p.id))
  }

  predicate CanRead(s: Tables, task: Id, owner: nat, p: Principal)
    requires task in s.tasks
  {
    || p == User(owner)
    || IsProposer(s.tasks[task], p)
    || exists a :: a in s.assignments && s.assignments[a].task == task && p == CloudAgent(s.assignments[a].executor)
  }

  predicate VisibleTask(s: Tables, task: Id, owner: nat, p: Principal) {
    OwnsTask(s, task, owner) && CanRead(s, task, owner, p)
  }

  // SELECT ... FROM task_assignments WHERE id = ? AND task_id = ? AND executor_id = ? AND state IN ('assigned', 'accepted')
  predicate OpenAssignment(s: Tables, assignment: Id, task: Id, executor: Id) {
    assignment in s.assignments &&
    var a := s.assignments[assignment];
    a.task == task && a.executor == executor && Open(a.state)
  }

  function ActiveTaskRuns(s: Tables, task: Id): set<Id> {
    set r | r in s.runs && s.runs[r].task == Some(task) && R.Active(s.runs[r].state)
  }

  function ActiveTreeRuns(s: Tables, root: Id): set<Id> {
    set r | r in s.runs && s.runs[r].task.Some? && s.runs[r].task.value in s.tasks &&
            s.tasks[s.runs[r].task.value].root == root && R.Active(s.runs[r].state)
  }

  function ActiveAgentRuns(s: Tables, agent: Id): set<Id> {
    set r | r in s.runs && s.runs[r].agent == agent && R.Active(s.runs[r].state)
  }

  function TaskInvocations(s: Tables, task: Id): set<Id> {
    set i | i in s.invocations && s.invocations[i] in s.runs && s.runs[s.invocations[i]].task == Some(task)
  }

  function TaskUsage(s: Tables, task: Id): map<Id, nat> {
    map r | r in s.runs && s.runs[r].task == Some(task) :: s.runs[r].tokens
  }

  ghost function TokensUsed(s: Tables, task: Id): nat {
    MapSums.Sum(TaskUsage(s, task))
  }

  function ChildBudgets(tasks: map<Id, Task>, parent: Id): map<Id, nat> {
    map c | c in tasks && tasks[c].parent == Some(parent) :: Tokens(tasks[c].budget)
  }

  ghost function TokensAllocated(tasks: map<Id, Task>, parent: Id): nat {
    MapSums.Sum(ChildBudgets(tasks, parent))
  }

  function Subtasks(tasks: map<Id, Task>, root: Id): set<Id> {
    set t | t in tasks && tasks[t].root == root && t != root
  }

  function Attempts(assignments: map<Id, Assignment>, task: Id): set<nat> {
    set a | a in assignments && assignments[a].task == task :: assignments[a].attempt
  }

  ghost function Max(s: set<nat>): (m: nat)
    ensures forall x :: x in s ==> x <= m
    ensures if s == {} then m == 0 else m in s
  {
    if s == {} then 0
    else
      var x :| x in s;
      var rest := Max(s - {x});
      assert s == (s - {x}) + {x};
      if x < rest then rest else x
  }

  ghost function Min(s: set<nat>): (m: nat)
    requires s != {}
    ensures m in s && forall x :: x in s ==> m <= x
  {
    var x :| x in s;
    assert s == (s - {x}) + {x};
    if s == {x} then x
    else
      var rest := Min(s - {x});
      if x < rest then x else rest
  }

  // Why a task allows no further run or tool call.
  datatype BudgetError = TaskUnknown | TokensSpent | ToolCallsSpent | TooManyRuns

  // The budget of a task is spent: a token or tool-call limit that is reached, or too many runs.
  // A limit of 0 means there is none.
  ghost predicate BudgetSpent(s: Tables, task: Id, nextRun: bool)
    requires task in s.tasks
  {
    var b := s.tasks[task].budget;
    var tokens, calls, parallel := Limit(b, MaxTotalTokens, 0), Limit(b, MaxToolCalls, 0), Limit(b, MaxConcurrentRuns, 0);
    || (tokens != 0 && TokensUsed(s, task) >= tokens)
    || (calls != 0 && |TaskInvocations(s, task)| >= calls)
    || (parallel != 0 && |ActiveTaskRuns(s, task)| + (if nextRun then 1 else 0) > parallel)
  }

  // ---------------------------------------------------------------- the delegation chain

  // What walking up from a task can find: the whole chain, a task met twice, or a missing row.
  datatype Chain = Chain(depth: nat, root: Id) | Cycle | Broken

  function Known(path: seq<Id>): set<Id> {
    set x | x in path
  }

  function WalkUp(tasks: map<Id, Task>, cursor: Id, path: seq<Id>, depth: nat): Chain
    requires cursor in tasks
    decreases |tasks.Keys - Known(path)|
  {
    match tasks[cursor].parent
    case None => Chain(depth, cursor)
    case Some(p) =>
      if p in path then Cycle
      else if p !in tasks then Broken
      else
        assert Known(path + [p]) == Known(path) + {p};
        assert tasks.Keys - Known(path + [p]) == (tasks.Keys - Known(path)) - {p};
        WalkUp(tasks, p, path + [p], depth + 1)
  }
}
