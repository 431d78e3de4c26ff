// Theorems about runs whose execution attempt is over: what they can still change, and what not.
module FenceTheorems {
  import opened Options
  import opened Tables
  import opened RunCommands
  import opened LeaseCommands
  import opened Commands
  import opened DelegationTree
  import opened TaskHistory
  import opened TaskTheorems
  import opened AttemptHistory
  import opened AttemptEffects
  import opened LifecycleTheorems
  import opened RunTheorems
  import Scenario
  import K = TaskCommands
  import T = TaskStates
  import R = RunStates

  lemma AgesChain(a: map<Id, Assignment>, b: map<Id, Assignment>, c: map<Id, Assignment>)
    requires AllAge(a, b) && AllAge(b, c)
    ensures AllAge(a, c)
  {
    forall x | x in a
      ensures x in c && Ages(a[x], c[x])
    {
      assert Ages(a[x], b[x]) && Ages(b[x], c[x]);
    }
  }

  lemma SameAges(a: map<Id, Assignment>)
    ensures AllAge(a, a)
  {
  }

  lemma WorkAges(s: Tables, s': Tables)
    requires WorkStep(s, s')
    ensures AllAge(s.assignments, s'.assignments)
  {
    hide Max, Attempts, DeliveryStep, Ages;
  }

  // Assignments are never deleted and never change hands, and once one is no longer open it stays so.
  lemma {:induction false} AssignmentsOnlyAge(h: seq<Command>, i: nat, j: nat)
    requires i <= j <= |h|
    ensures AllAge(At(h, i).assignments, At(h, j).assignments)
    decreases j - i
  {
    hide Exec, Step, AllAge, WorkStep, Placed, Numbered, ResultsBacked;
    if i < j {
      AssignmentsOnlyAge(h, i, j - 1);
      WorkAlways(h[..j - 1]);
      AtStep(h, j - 1);
      StepWork(At(h, j - 1), h[j - 1]);
      WorkAges(At(h, j - 1), At(h, j));
      AgesChain(At(h, i).assignments, At(h, j - 1).assignments, At(h, j).assignments);
    } else {
      SameAges(At(h, i).assignments);
    }
  }

  // The run belongs to an execution attempt that is over: superseded, declined, expired, completed or
  // cancelled.
  predicate Overtaken(s: Tables, run: Id) {
    && run in s.runs && s.runs[run].assignment.Some? && s.runs[run].assignment.value in s.assignments
    && !Open(s.assignments[s.runs[run].assignment.value].state)
  }

  lemma OvertakenStays(s: Tables, s': Tables, run: Id)
    requires Overtaken(s, run) && RunsLater(s, s') && AllAge(s.assignments, s'.assignments) && run < s.nextId
    ensures !K.BoundToOpenAssignment(s', run)
  {
    if run in s'.runs {
      var a := s.runs[run].assignment.value;
      assert RunLater(s.runs[run], s'.runs[run]);
      assert Ages(s.assignments[a], s'.assignments[a]);
    }
  }

  // Once its attempt is over, no task tool a run calls is carried out, then or at any later time,
  // whatever is reassigned, recovered or resumed: each is denied and changes nothing.
  lemma OvertakenRunIsPowerless(h: seq<Command>, i: nat, j: nat, run: Id, callId: string, call: K.ToolCall, env: RunEnv)
    requires i <= j <= |h| && Overtaken(At(h, i), run)
    ensures K.ExecuteTaskTool(At(h, j), run, callId, call, env) == (At(h, j), ToolDenied)
  {
    hide Exec, AllAge, RunsLater, OneHome, Traced, TasksOfRuns, RunsLimited, CallsLimited, KnownRuns;
    AssignmentsOnlyAge(h, i, j);
    RunsOnlyAge(h, i, j);
    RunInvariantAlways(h[..i]);
    RowsKnown(At(h, i), run);
    OvertakenStays(At(h, i), At(h, j), run);
    FencedRunIsPowerless(At(h, j), run, callId, call, env);
  }

  // ---------------------------------------------------------------- projections are not fenced

  // The task states that the projection of a run state moves on; a queued or completed run moves none.
  function MovedOnBy(state: R.RunState): set<T.TaskState> {
    match state
    case Running => {T.Queued, T.Assigned, T.WaitingConfirmation, T.AwaitingProposerClose, T.AttentionRequired}
    case WaitingConfirmation => {T.InProgress}
    case Failed => {T.Queued, T.Assigned, T.InProgress, T.WaitingConfirmation, T.AwaitingProposerClose}
    case Cancelled => {T.Queued, T.Assigned, T.InProgress, T.WaitingConfirmation, T.AwaitingProposerClose}
    case Queued => {}
    case Completed => {}
  }

  // Where it can leave a task.
  const Projected: set<T.TaskState> := {T.InProgress, T.WaitingConfirmation, T.AttentionRequired}

  lemma MovesOnAlongTheTable(current: T.TaskState, state: R.RunState)
    ensures current in MovedOnBy(state) <==>
              && K.ProjectedState(state).Some? && !T.Terminal(current) && current != K.ProjectedState(state).value
              && T.CanTransition(current, K.ProjectedState(state).value)
    ensures K.ProjectedState(state).Some? ==> K.ProjectedState(state).value in Projected
  {
  }

  lemma SyncAssignmentKeepsTasks(s: Tables, a: Option<Id>, state: R.RunState)
    ensures var s' := K.SyncAssignment(s, a, state); s'.tasks == s.tasks && s'.results == s.results
  {
  }

  // A projection moves its run's task exactly when the task's state is one of those; whether the run's
  // attempt is still the current one plays no part. It moves nothing else, and one version on.
  lemma ProjectionMovesIff(s: Tables, run: Id, state: R.RunState)
    ensures var s' := K.SyncTaskRunState(s, run, state);
            && (s'.tasks != s.tasks <==> K.HasTask(s, run) && s.tasks[s.runs[run].task.value].state in MovedOnBy(state))
            && (s'.tasks != s.tasks ==>
                  var t := s.runs[run].task.value;
                  && s'.tasks == s.tasks[t := K.Moved(s.tasks[t], K.ProjectedState(state).value)]
                  && s'.tasks[t].state in Projected)
            && s'.results == s.results
  {
    hide K.SyncAssignment, T.CanTransition, MovedOnBy, K.ProjectedState;
    if K.HasTask(s, run) {
      var t := s.runs[run].task.value;
      MovesOnAlongTheTable(s.tasks[t].state, state);
      if K.Projects(s, run, state) {
        var row := K.Moved(s.tasks[t], K.ProjectedState(state).value);
        SyncAssignmentKeepsTasks(K.SetTask(s, t, row), s.runs[run].assignment, state);
        assert s.tasks[t := row][t].version != s.tasks[t].version;
      }
    }
  }

  // A run whose attempt is over moves its task in exactly those states too, and touches no assignment.
  lemma OvertakenProjectionMovesIff(h: seq<Command>, i: nat, run: Id, state: R.RunState)
    requires i < |h| && Overtaken(At(h, i), run) && h[i] == SyncTask(run, state)
    ensures At(h, i + 1).tasks != At(h, i).tasks <==>
              K.HasTask(At(h, i), run) && At(h, i).tasks[At(h, i).runs[run].task.value].state in MovedOnBy(state)
    ensures At(h, i + 1).assignments == At(h, i).assignments
  {
    hide Exec, K.SyncTaskRunState, MovedOnBy;
    AtStep(h, i);
    SyncStep(At(h, i), run, state);
    ProjectionMovesIff(At(h, i), run, state);
    OvertakenAssignmentStays(At(h, i), run, state);
  }

  lemma SyncStep(s: Tables, run: Id, state: R.RunState)
    ensures Step(s, SyncTask(run, state)) == K.SyncTaskRunState(s, run, state)
  {
    hide K.SyncTaskRunState;
  }

  lemma OvertakenAssignmentStays(s: Tables, run: Id, state: R.RunState)
    requires Overtaken(s, run)
    ensures K.SyncTaskRunState(s, run, state).assignments == s.assignments
  {
    if K.Projects(s, run, state) {
      var a := s.runs[run].assignment.value;
      assert K.ProjectedAssignment(s.assignments[a].state, state) == s.assignments[a].state;
      assert s.assignments[a := s.assignments[a]] == s.assignments;
    }
  }

  // It happens: a history in which a second attempt has overtaken the first and has the task in
  // progress; then the first attempt's run fails, and the task goes back to its proposer.
  lemma OvertakenRunSendsTaskBack()
    ensures var h := Scenario.Beginning + Scenario.Overlap;
            var s, s' := Exec(h), Exec(h + [Scenario.FirstFails]);
            && Overtaken(s, Scenario.FIRST_RUN) && !K.BoundToOpenAssignment(s, Scenario.FIRST_RUN)
            && Scenario.SECOND in s'.assignments && s'.assignments[Scenario.SECOND].state == Accepted
            && Scenario.TASK in s.tasks && s.tasks[Scenario.TASK].state == T.InProgress
            && Scenario.TASK in s'.tasks && s'.tasks[Scenario.TASK].state == T.AttentionRequired
  {
    hide Exec;
    Scenario.OverlapRuns();
    Scenario.FailureRuns();
  }

  // ---------------------------------------------------------------- what an overtaken run cannot do

  // The commands that speak for a run.
  predicate SpeaksFor(c: Command, run: Id) {
    (c.SyncTask? || c.TaskTool? || c.RecordUsage? || c.Claim? || c.Finish?) && c.run == run
  }

  // No result appears, and only the run's own task may move, to a state a projection can leave it in.
  predicate OnlyProjected(s: Tables, s': Tables, run: Id) {
    && s'.results == s.results
    && (forall t :: t in s'.tasks ==>
          && t in s.tasks
          && (s'.tasks[t].state == s.tasks[t].state ||
              (s'.tasks[t].state in Projected && run in s.runs && s.runs[run].task == Some(t))))
  }

  lemma SyncOnlyProjects(s: Tables, run: Id, state: R.RunState)
    ensures OnlyProjected(s, K.SyncTaskRunState(s, run, state), run)
  {
    hide K.SyncTaskRunState, MovedOnBy, K.ProjectedState;
    ProjectionMovesIff(s, run, state);
  }

  lemma UsageOnlyProjects(s: Tables, run: Id, tokens: nat)
    ensures OnlyProjected(s, K.UpdateUsage(s, run, tokens), run)
  {
    hide BudgetSpent, T.CanTransition, K.MarkBudgetExhausted, OnlyProjected;
    if run in s.runs {
      var s1 := s.(runs := s.runs[run := s.runs[run].(tokens := tokens)]);
      MarkingOnlyProjects(s1, run);
      SameProjection(s1, s, K.MarkBudgetExhausted(s1, run), K.UpdateUsage(s, run, tokens), run);
    } else {
      NothingProjected(s, run);
    }
  }

  lemma MarkingOnlyProjects(s: Tables, run: Id)
    ensures OnlyProjected(s, K.MarkBudgetExhausted(s, run), run)
  {
    hide BudgetSpent, T.CanTransition;
  }

  lemma SameProjection(x: Tables, s: Tables, y: Tables, s': Tables, run: Id)
    requires OnlyProjected(x, y, run) && x.tasks == s.tasks && x.results == s.results && y.tasks == s'.tasks && y.results == s'.results
    requires run in x.runs ==> run in s.runs && s.runs[run].task == x.runs[run].task
    ensures OnlyProjected(s, s', run)
  {
  }

  lemma ClaimOnlyProjects(s: Tables, run: Id, device: Id, lease: Id, session: string)
    ensures OnlyProjected(s, ClaimLocalRun(s, run, device, lease, session).0, run)
  {
    hide K.SyncTaskRunState, OnlyProjected;
    var s' := ClaimLocalRun(s, run, device, lease, session).0;
    if s' == s {
      NothingProjected(s, run);
    } else {
      var s1 := SetDispatch(s, run, s.dispatches[run].(state := Claimed, session := Some(session)));
      var s2 := s1.(runs := s1.runs[run := Started(s1.runs[run])]);
      SyncOnlyProjects(s2, run, R.Running);
      SameProjection(s2, s, s', s', run);
    }
  }

  lemma NothingProjected(s: Tables, run: Id)
    ensures OnlyProjected(s, s, run)
  {
  }

  lemma OvertakenSubmitsNothing(s: Tables, run: Id, content: string)
    requires Overtaken(s, run)
    ensures SubmitLocalTaskResult(s, run, content) == (s, false)
  {
    hide CanRead;
  }

  lemma FinishOnlyProjects(s: Tables, run: Id, device: Id, lease: Id, state: R.RunState, content: string)
    requires Overtaken(s, run)
    ensures OnlyProjected(s, FinishLocalRun(s, run, device, lease, state, content).0, run)
  {
    hide K.SyncTaskRunState, SubmitLocalTaskResult, OnlyProjected, HoldsLease;
    var s' := FinishLocalRun(s, run, device, lease, state, content).0;
    if s' == s {
      NothingProjected(s, run);
    } else {
      var s1 := UpdateRun(s, run, state).0;
      OvertakenSubmitsNothing(s1, run, content);
      SyncOnlyProjects(s1, run, state);
      SameProjection(s1, s, K.SyncTaskRunState(s1, run, state), s', run);
    }
  }

  lemma OvertakenStepOnlyProjects(s: Tables, c: Command, run: Id)
    requires Overtaken(s, run) && SpeaksFor(c, run)
    ensures OnlyProjected(s, Step(s, c), run)
  {
    hide K.SyncTaskRunState, K.UpdateUsage, K.ExecuteTaskTool, ClaimLocalRun, FinishLocalRun, OnlyProjected;
    match c
    case SyncTask(_, state) => SyncOnlyProjects(s, run, state);
    case RecordUsage(_, tokens) => UsageOnlyProjects(s, run, tokens);
    case Claim(_, device, lease, session) => ClaimOnlyProjects(s, run, device, lease, session);
    case Finish(_, device, lease, state, content) => FinishOnlyProjects(s, run, device, lease, state, content);
    case TaskTool(_, callId, call, env) =>
      FencedRunIsPowerless(s, run, callId, call, env);
      NothingProjected(s, run);
  }

  // Whatever a run says once its attempt is over, at any later time: it delivers no result, and of all
  // tasks it can only move its own, never to be assigned, handed over, closed or cancelled.
  lemma OvertakenRunNeverDelivers(h: seq<Command>, i: nat, j: nat, run: Id)
    requires i <= j < |h| && Overtaken(At(h, i), run) && run in At(h, j).runs && SpeaksFor(h[j], run)
    ensures OnlyProjected(At(h, j), At(h, j + 1), run)
  {
    hide Exec, Step, AllAge, RunsLater, OneHome, Traced, TasksOfRuns, RunsLimited, CallsLimited, KnownRuns, OnlyProjected;
    AtStep(h, j);
    AssignmentsOnlyAge(h, i, j);
    RunsOnlyAge(h, i, j);
    RunInvariantAlways(h[..i]);
    RowsKnown(At(h, i), run);
    OvertakenLater(At(h, i), At(h, j), run);
    OvertakenStepOnlyProjects(At(h, j), h[j], run);
  }

  lemma OvertakenLater(s: Tables, s': Tables, run: Id)
    requires Overtaken(s, run) && RunsLater(s, s') && AllAge(s.assignments, s'.assignments) && run < s.nextId
    ensures run in s'.runs ==> Overtaken(s', run)
  {
    if run in s'.runs {
      assert RunLater(s.runs[run], s'.runs[run]);
      assert Ages(s.assignments[s.runs[run].assignment.value], s'.assignments[s.runs[run].assignment.value]);
    }
  }
}
