// Theorems about the life of a task over every history of commands: attempts and results, terminal
// states and their closers, and the state version.
module LifecycleTheorems {
  import opened Options
  import opened Tables
  import opened RunCommands
  import opened Commands
  import opened DelegationTree
  import opened TaskHistory
  import opened AttemptHistory
  import opened AttemptEffects
  import opened TaskTheorems
  import K = TaskCommands
  import T = TaskStates
  import R = RunStates

  // The state after the first i commands of a history.
  ghost function At(h: seq<Command>, i: nat): Tables
    requires i <= |h|
  {
    Exec(h[..i])
  }

  lemma AtStep(h: seq<Command>, i: nat)
    requires i < |h|
    ensures At(h, i + 1) == Step(At(h, i), h[i])
  {
    hide Step;
    assert h[..i + 1][..i] == h[..i];
  }

  // ---------------------------------------------------------------- attempts and results

  ghost predicate Work(s: Tables) {
    Placed(s) && Numbered(s.assignments) && ResultsBacked(s)
  }

  lemma StepKeepsWork(s: Tables, c: Command)
    requires Work(s) && Tree(s.tasks, s.nextId) && ProposersNamed(s.tasks)
    ensures Work(Step(s, c))
  {
    hide Step, Tree, Placed, Numbered, ResultsBacked, ForestStep, RowsStep, AttemptsStep, DeliveryStep;
    TreeIds(s);
    StepTasks(s, c);
    StepWork(s, c);
    StepKeepsNumbering(s, Step(s, c));
    StepKeepsPlacement(s, Step(s, c), Closes(c));
    StepKeepsBacking(s, Step(s, c), Closes(c));
  }

  lemma {:induction false} WorkAlways(h: seq<Command>)
    ensures Work(Exec(h))
  {
    hide Step, Work, Tree, ProposersNamed;
    if h == [] {
      EmptyWork();
    } else {
      WorkAlways(h[..|h| - 1]);
      ForestAlways(h[..|h| - 1]);
      StepKeepsWork(Exec(h[..|h| - 1]), h[|h| - 1]);
    }
  }

  lemma EmptyWork()
    ensures Work(Empty)
  {
  }

  ghost function AttemptsOf(s: Tables, task: Id): set<Id> {
    set a | a in s.assignments && s.assignments[a].task == task
  }

  // In every reachable state the attempts of a task are exactly 1 to n, each number used once, and at
  // most one of them is open: the last.
  lemma AttemptsAndResults(h: seq<Command>, t: Id, a: Id, b: Id)
    requires t in Exec(h).tasks && a in AttemptsOf(Exec(h), t) && b in AttemptsOf(Exec(h), t)
    ensures var s := Exec(h);
            && (forall k: nat :: k in Attempts(s.assignments, t) <==> 1 <= k <= Max(Attempts(s.assignments, t)))
            && (a != b ==> s.assignments[a].attempt != s.assignments[b].attempt)
            && (Open(s.assignments[a].state) ==> s.assignments[a].attempt == Max(Attempts(s.assignments, t)))
            && (Open(s.assignments[a].state) && Open(s.assignments[b].state) ==> a == b)
  {
    hide Exec, Placed, ResultsBacked, Max;
    WorkAlways(h);
    var assignments := Exec(h).assignments;
    AttemptRange(assignments, t, a);
    if Open(assignments[a].state) {
      assert Max(Attempts(assignments, t)) in Attempts(assignments, t);
    }
  }

  lemma AttemptRange(assignments: map<Id, Assignment>, t: Id, a: Id)
    requires Numbered(assignments) && a in assignments && assignments[a].task == t
    ensures forall k: nat :: k in Attempts(assignments, t) <==> 1 <= k <= Max(Attempts(assignments, t))
    ensures assignments[a].attempt in Attempts(assignments, t)
    ensures Max(Attempts(assignments, t)) in Attempts(assignments, t)
  {
    var ks := Attempts(assignments, t);
    assert assignments[a].attempt in ks;
    var top :| top in assignments && assignments[top].task == t && assignments[top].attempt == Max(ks);
    forall k: nat | 1 <= k <= Max(ks)
      ensures k in ks
    {
      assert HasAttempt(assignments, assignments[top].task, k);
    }
  }

  // Each attempt yields at most one result, and only while it is open; a task that awaits its
  // proposer or is closed has one.
  lemma ResultsComeFromAttempts(h: seq<Command>, t: Id, p: Id, q: Id)
    ensures var s := Exec(h);
            && (t in s.tasks && Delivered(s.tasks[t].state) ==> HasResult(s.results, t))
            && (p in s.results ==> s.results[p].assignment in s.assignments &&
                                   s.assignments[s.results[p].assignment].state == Completed)
            && (p in s.results && q in s.results && p != q ==> s.results[p].assignment != s.results[q].assignment)
  {
    hide Exec, Placed, Numbered;
    WorkAlways(h);
  }

  // The store's own transition method would also hand a task over without a result; the endpoints
  // never ask it to. Exactly that target loses the guarantee.
  lemma DeliveryNeedsExecutor(s: Tables, task: Id, owner: nat, target: T.TaskState)
    requires OwnsTask(s, task, owner) && s.tasks[task].proposer == User(owner)
    requires T.CanTransition(s.tasks[task].state, target)
    requires ResultsBacked(s) && !HasResult(s.results, task)
    ensures ResultsBacked(K.TransitionTask(s, task, owner, target, "", None).0) <==> target != T.AwaitingProposerClose
  {
    var s' := K.TransitionTask(s, task, owner, target, "", None).0;
    assert s'.tasks == s.tasks[task := K.Requested(s.tasks[task], target, owner)];
    assert s'.results == s.results && s'.assignments == s.assignments;
    assert !Delivered(s.tasks[task].state);
    assert HasResult(s'.results, task) == HasResult(s.results, task);
    if target == T.AwaitingProposerClose {
      assert Delivered(s'.tasks[task].state);
    }
  }

  // A run whose assignment is no longer open changes nothing through any task tool.
  lemma FencedRunIsPowerless(s: Tables, run: Id, callId: string, call: K.ToolCall, env: RunEnv)
    requires !K.BoundToOpenAssignment(s, run)
    ensures K.ExecuteTaskTool(s, run, callId, call, env) == (s, ToolDenied)
  {
  }

  // ---------------------------------------------------------------- versions, terminal states, closers

  predicate Later(x: Task, y: Task) {
    && SameHead(x, y)
    && x.version <= y.version
    && (x.version == y.version ==> x.state == y.state)
    && (T.Terminal(x.state) ==> y.state == x.state)
  }

  predicate AllLater(a: map<Id, Task>, b: map<Id, Task>) {
    forall t {:trigger a[t]} {:trigger b[t]} :: t in a ==> t in b && Later(a[t], b[t])
  }

  lemma StepIsLater(s: Tables, c: Command)
    requires IdsBelow(s.tasks, s.nextId) && ProposersNamed(s.tasks)
    ensures AllLater(s.tasks, Step(s, c).tasks)
  {
    hide Step, ForestStep;
    StepTasks(s, c);
  }

  lemma LaterChains(a: map<Id, Task>, b: map<Id, Task>, c: map<Id, Task>)
    requires AllLater(a, b) && AllLater(b, c)
    ensures AllLater(a, c)
  {
    forall t | t in a
      ensures t in c && Later(a[t], c[t])
    {
      assert Later(a[t], b[t]) && Later(b[t], c[t]);
    }
  }

  // Over any stretch of a history a task keeps its head, its version never falls, an equal version
  // means an equal state, and a terminal state is final.
  lemma {:induction false} VersionsTellStates(h: seq<Command>, i: nat, j: nat)
    requires i <= j <= |h|
    ensures AllLater(At(h, i).tasks, At(h, j).tasks)
    decreases j - i
  {
    if i < j {
      hide AllLater, Exec, Tree;
      VersionsTellStates(h, i, j - 1);
      ForestAlways(h[..j - 1]);
      TreeIds(At(h, j - 1));
      StepIsLater(At(h, j - 1), h[j - 1]);
      AtStep(h, j - 1);
      LaterChains(At(h, i).tasks, At(h, j - 1).tasks, At(h, j).tasks);
    } else {
      assert AllLater(At(h, i).tasks, At(h, j).tasks);
    }
  }

  ghost predicate ClosersRecorded(tasks: map<Id, Task>) {
    forall t :: t in tasks ==> tasks[t].closedBy == if T.Terminal(tasks[t].state) then Some(tasks[t].proposer) else None
  }

  lemma StepKeepsClosers(s: Tables, s': Tables, closing: bool)
    requires RowsStep(s.tasks, s'.tasks, s.nextId, closing) && ClosersRecorded(s.tasks)
    ensures ClosersRecorded(s'.tasks)
  {
    forall t | t in s'.tasks
      ensures s'.tasks[t].closedBy == if T.Terminal(s'.tasks[t].state) then Some(s'.tasks[t].proposer) else None
    {
      if t in s.tasks {
        assert Evolves(s.tasks[t], s'.tasks[t], closing);
      }
    }
  }

  // The recorded closer of every closed or cancelled task is its proposer; open tasks have none.
  lemma {:induction false} ProposerCloses(h: seq<Command>)
    ensures ClosersRecorded(Exec(h).tasks)
  {
    if h == [] {
    } else {
      hide Step, Tree, ForestStep, RowsStep, ClosersRecorded;
      var s, c := Exec(h[..|h| - 1]), h[|h| - 1];
      ProposerCloses(h[..|h| - 1]);
      ForestAlways(h[..|h| - 1]);
      TreeIds(s);
      StepTasks(s, c);
      StepKeepsClosers(s, Step(s, c), Closes(c));
    }
  }

  // A task becomes closed or cancelled only by a command of its proposer, never by the projection of
  // a run, a device or a budget; and it becomes closed only out of awaiting_proposer_close.
  lemma OnlyProposersEndTasks(h: seq<Command>, i: nat, t: Id)
    requires i < |h| && t in At(h, i).tasks && t in At(h, i + 1).tasks
    requires !T.Terminal(At(h, i).tasks[t].state) && T.Terminal(At(h, i + 1).tasks[t].state)
    ensures Closes(h[i])
    ensures At(h, i + 1).tasks[t].state == T.Closed ==> At(h, i).tasks[t].state == T.AwaitingProposerClose
  {
    hide Exec, Step, Tree, ForestStep;
    ForestAlways(h[..i]);
    TreeIds(At(h, i));
    StepTasks(At(h, i), h[i]);
    AtStep(h, i);
    assert Evolves(At(h, i).tasks[t], At(h, i + 1).tasks[t], Closes(h[i]));
  }

  // ---------------------------------------------------------------- optimistic concurrency

  // The commands that carry an expected version, for one task.
  predicate Expects(c: Command, t: Id, v: nat) {
    || (c.AssignTask? && c.task == t && c.expected == Some(v))
    || (c.ReopenTask? && c.task == t && c.expected == Some(v))
    || (c.ProposerTransition? && c.task == t && c.expected == Some(v))
  }

  lemma StaleCommandChangesNothing(s: Tables, c: Command, t: Id, v: nat)
    requires Expects(c, t, v) && (t in s.tasks ==> s.tasks[t].version != v)
    ensures Step(s, c) == s
  {
    hide K.StartAttempt;
  }

  // Of two commands that expect the same version of a task, once the first has moved its state the
  // second leaves the whole store as it is, whatever happened in between.
  lemma OneExpectedVersionWins(h: seq<Command>, i: nat, j: nat, t: Id, v: nat)
    requires i < j < |h| && Expects(h[i], t, v) && Expects(h[j], t, v)
    requires t in At(h, i).tasks && t in At(h, i + 1).tasks
    requires At(h, i + 1).tasks[t].state != At(h, i).tasks[t].state
    ensures At(h, j + 1) == At(h, j)
  {
    hide Exec, Step, AllLater;
    AtStep(h, i);
    AtStep(h, j);
    if At(h, i).tasks[t].version != v {
      StaleCommandChangesNothing(At(h, i), h[i], t, v);
    } else {
      VersionsTellStates(h, i, i + 1);
      VersionsTellStates(h, i + 1, j);
      LaterRow(At(h, i).tasks, At(h, i + 1).tasks, t);
      LaterRow(At(h, i + 1).tasks, At(h, j).tasks, t);
      StaleCommandChangesNothing(At(h, j), h[j], t, v);
    }
  }

  lemma LaterRow(a: map<Id, Task>, b: map<Id, Task>, t: Id)
    requires AllLater(a, b) && t in a
    ensures t in b && Later(a[t], b[t])
  {
  }
}
