// A short history step by step: an agent, a task assigned to it, a first attempt that runs, a second
// attempt that overtakes it, and the failure of the first.
module Scenario {
  import opened Options
  import opened Tables
  import opened RunCommands
  import opened Commands
  import K = TaskCommands
  import T = TaskStates
  import R = RunStates

  const OWNER: nat := 7
  const AGENT: Id := 3
  const Ready := RunEnv(true, true)
  const Row := Agent(OWNER, true, 2, false, None, false)

  const PutTheAgent := PutAgent(AGENT, Row)
  const CreateTheTask := CreateTask(OWNER, Some(AGENT), map[], "", Ready)

  // The ids handed out: the task, and for each attempt an assignment, a conversation and a run.
  const TASK: Id := 0
  const FIRST: Id := 1
  const FIRST_RUN: Id := 3
  const SECOND: Id := 4
  const SECOND_RUN: Id := 6

  function TaskRow(state: T.TaskState, version: nat, conversation: Id): Task {
    Task(TASK, None, OWNER, User(OWNER), map[], state, version, Some(AGENT), Some(conversation), None)
  }

  function RunRow(conversation: Id, assignment: Id): Run {
    Run(conversation, AGENT, OWNER, Some(TASK), Some(assignment), R.Queued, 0, 0, 0)
  }

  // After the task was created with its first attempt.
  const Created := Empty.(
    nextId := 4,
    agents := map[AGENT := Row],
    tasks := map[TASK := TaskRow(T.Assigned, 1, 2)],
    assignments := map[FIRST := Assignment(TASK, AGENT, Assigned, 1)],
    conversations := map[2 := Conversation(AGENT, OWNER)],
    runs := map[FIRST_RUN := RunRow(2, FIRST)],
    outbox := [OutboxRow(RunQueued, FIRST_RUN)])

  lemma NoBudgetIsSpent(s: Tables, task: Id, nextRun: bool)
    requires task in s.tasks && s.tasks[task].budget == map[]
    ensures !BudgetSpent(s, task, nextRun)
  {
    hide TokensUsed;
  }

  lemma Append(h: seq<Command>, c: Command)
    ensures Exec(h + [c]) == Step(Exec(h), c)
  {
    hide Step;
    assert (h + [c])[..|h|] == h;
  }

  lemma AgentIsPut()
    ensures Exec([PutTheAgent]) == Empty.(agents := map[AGENT := Row])
  {
    Append([], PutTheAgent);
    assert [] + [PutTheAgent] == [PutTheAgent];
    assert Empty.agents[AGENT := Row] == map[AGENT := Row];
  }

  // The tables before the first run is created.
  const Inserted := Created.(runs := map[], outbox := [], nextId := 3)

  lemma RunIsCreated()
    ensures CreateRun(Inserted, 2, OWNER, Some(TASK), Some(FIRST), Ready) == (Created, Some(FIRST_RUN))
  {
    NoBudgetIsSpent(Inserted, TASK, true);
    assert ActiveAgentRuns(Inserted, AGENT) == {};
    assert MayCreateRun(Inserted, 2, OWNER, Some(TASK), Some(FIRST), Ready) by { hide BudgetSpent; }
    assert Inserted.runs[FIRST_RUN := RunRow(2, FIRST)] == Created.runs;
    assert Inserted.outbox + [OutboxRow(RunQueued, FIRST_RUN)] == Created.outbox;
  }

  lemma TaskIsInserted(s: Tables)
    requires s == Empty.(agents := map[AGENT := Row])
    ensures var s1 := K.SetTask(s, TASK, K.RootTask(TASK, OWNER, Some(AGENT), map[])).(nextId := 1);
            var s2 := K.OpenConversation(K.CreateAssignment(s1, TASK, AGENT), AGENT, OWNER);
            K.SetTask(s2, TASK, TaskRow(T.Assigned, 1, 2)) == Inserted
  {
    var s1 := K.SetTask(s, TASK, K.RootTask(TASK, OWNER, Some(AGENT), map[])).(nextId := 1);
    assert Attempts(s1.assignments, TASK) == {};
    assert Empty.assignments[FIRST := Assignment(TASK, AGENT, Assigned, 1)] == Inserted.assignments;
    assert Empty.conversations[2 := Conversation(AGENT, OWNER)] == Inserted.conversations;
    assert s1.tasks[TASK := TaskRow(T.Assigned, 1, 2)] == Inserted.tasks;
  }

  lemma CreationSteps(s: Tables)
    requires s == Empty.(agents := map[AGENT := Row])
    ensures K.CreateTask(s, OWNER, Some(AGENT), map[], "", Ready).0 == Created
  {
    hide CreateRun, Max, Attempts;
    TaskIsInserted(s);
    RunIsCreated();
    var s1 := K.SetTask(s, TASK, K.RootTask(TASK, OWNER, Some(AGENT), map[])).(nextId := 1);
    var s2 := K.OpenConversation(K.CreateAssignment(s1, TASK, AGENT), AGENT, OWNER);
    assert s2.tasks[TASK].(state := T.Assigned, assignedAgent := Some(AGENT), conversation := Some(2), version := 1)
        == TaskRow(T.Assigned, 1, 2);
    assert K.StartAttempt(s1, TASK, OWNER, AGENT, 1, Ready).0 == Created;
  }

  lemma CreationRuns()
    ensures Exec([PutTheAgent, CreateTheTask]) == Created
  {
    hide K.CreateTask, Exec;
    AgentIsPut();
    Append([PutTheAgent], CreateTheTask);
    assert [PutTheAgent] + [CreateTheTask] == [PutTheAgent, CreateTheTask];
    CreationSteps(Exec([PutTheAgent]));
  }

  // ---------------------------------------------------------------- the task is assigned again

  const AssignAgain := AssignTask(TASK, OWNER, AGENT, "", None, Ready)

  const Reassigned := Created.(
    nextId := 7,
    tasks := map[TASK := TaskRow(T.Assigned, 1, 5)],
    assignments := map[FIRST := Assignment(TASK, AGENT, Superseded, 1), SECOND := Assignment(TASK, AGENT, Assigned, 2)],
    conversations := map[2 := Conversation(AGENT, OWNER), 5 := Conversation(AGENT, OWNER)],
    runs := map[FIRST_RUN := RunRow(2, FIRST), SECOND_RUN := RunRow(5, SECOND)],
    outbox := [OutboxRow(RunQueued, FIRST_RUN), OutboxRow(RunQueued, SECOND_RUN)])

  const Reinserted := Reassigned.(runs := Created.runs, outbox := Created.outbox, nextId := 6)

  lemma SecondRunIsCreated()
    ensures CreateRun(Reinserted, 5, OWNER, Some(TASK), Some(SECOND), Ready) == (Reassigned, Some(SECOND_RUN))
  {
    NoBudgetIsSpent(Reinserted, TASK, true);
    assert ActiveAgentRuns(Reinserted, AGENT) == {FIRST_RUN};
    assert MayCreateRun(Reinserted, 5, OWNER, Some(TASK), Some(SECOND), Ready) by { hide BudgetSpent; }
    assert Reinserted.runs[SECOND_RUN := RunRow(5, SECOND)] == Reassigned.runs;
    assert Reinserted.outbox + [OutboxRow(RunQueued, SECOND_RUN)] == Reassigned.outbox;
  }

  const Withdrawn := Created.(assignments := map[FIRST := Assignment(TASK, AGENT, Superseded, 1)])

  lemma FirstIsSuperseded()
    ensures K.SupersedeOpenAssignments(Created, TASK) == Withdrawn
  {
    assert K.SupersedeOpenAssignments(Created, TASK).assignments == Withdrawn.assignments;
  }

  lemma SecondIsInserted()
    ensures var s2 := K.OpenConversation(K.CreateAssignment(Withdrawn, TASK, AGENT), AGENT, OWNER);
            K.SetTask(s2, TASK, TaskRow(T.Assigned, 1, 5)) == Reinserted
  {
    assert Withdrawn.assignments[FIRST].attempt in Attempts(Withdrawn.assignments, TASK);
    assert Attempts(Withdrawn.assignments, TASK) == {1};
    assert Withdrawn.assignments[SECOND := Assignment(TASK, AGENT, Assigned, 2)] == Reinserted.assignments;
    assert Withdrawn.conversations[5 := Conversation(AGENT, OWNER)] == Reinserted.conversations;
    assert Withdrawn.tasks[TASK := TaskRow(T.Assigned, 1, 5)] == Reinserted.tasks;
  }

  lemma AssignmentSteps()
    ensures K.AssignCloudTask(Created, TASK, OWNER, AGENT, "", None, Ready).0 == Reassigned
  {
    hide CreateRun, Max, Attempts, K.SupersedeOpenAssignments;
    FirstIsSuperseded();
    SecondIsInserted();
    SecondRunIsCreated();
    var s2 := K.OpenConversation(K.CreateAssignment(Withdrawn, TASK, AGENT), AGENT, OWNER);
    assert s2.tasks[TASK].(state := T.Assigned, assignedAgent := Some(AGENT), conversation := Some(5), version := 1)
        == TaskRow(T.Assigned, 1, 5);
    assert K.StartAttempt(Withdrawn, TASK, OWNER, AGENT, 1, Ready).0 == Reassigned;
  }

  // ---------------------------------------------------------------- both runs start, the first fails

  // The second attempt runs, and then the queue entry of the first is delivered.
  const Beginning := [PutTheAgent, CreateTheTask, AssignAgain]
  const Overlap := [StartRun(SECOND_RUN, false, false), SyncTask(SECOND_RUN, R.Running),
                    StartRun(FIRST_RUN, false, false), SyncTask(FIRST_RUN, R.Running), ReportRun(FIRST_RUN, Broke)]
  const FirstFails := SyncTask(FIRST_RUN, R.Failed)

  // What matters of a state: both runs, their assignments and the task.
  predicate Stands(s: Tables, task: T.TaskState, first: R.RunState, second: R.RunState, accepted: AssignmentState) {
    && TASK in s.tasks && s.tasks[TASK].state == task
    && FIRST in s.assignments && s.assignments[FIRST].state == Superseded
    && SECOND in s.assignments && s.assignments[SECOND].state == accepted
    && FIRST_RUN in s.runs && s.runs[FIRST_RUN].task == Some(TASK) && s.runs[FIRST_RUN].assignment == Some(FIRST)
    && s.runs[FIRST_RUN].state == first
    && SECOND_RUN in s.runs && s.runs[SECOND_RUN].task == Some(TASK) && s.runs[SECOND_RUN].assignment == Some(SECOND)
    && s.runs[SECOND_RUN].state == second
  }

  lemma BeginningRuns()
    ensures Exec(Beginning) == Reassigned
  {
    hide K.AssignCloudTask, Exec;
    CreationRuns();
    Append([PutTheAgent, CreateTheTask], AssignAgain);
    assert [PutTheAgent, CreateTheTask] + [AssignAgain] == Beginning;
    AssignmentSteps();
  }

  lemma SecondStarts(s: Tables)
    requires Stands(s, T.Assigned, R.Queued, R.Queued, Assigned)
    ensures Stands(TryStartRun(s, SECOND_RUN, false, false).0, T.Assigned, R.Queued, R.Running, Assigned)
  {
  }

  lemma SecondProjects(s: Tables)
    requires Stands(s, T.Assigned, R.Queued, R.Running, Assigned)
    ensures Stands(K.SyncTaskRunState(s, SECOND_RUN, R.Running), T.InProgress, R.Queued, R.Running, Accepted)
  {
  }

  lemma FirstStarts(s: Tables)
    requires Stands(s, T.InProgress, R.Queued, R.Running, Accepted)
    ensures Stands(TryStartRun(s, FIRST_RUN, false, false).0, T.InProgress, R.Running, R.Running, Accepted)
  {
  }

  lemma FirstProjectsNothing(s: Tables)
    requires Stands(s, T.InProgress, R.Running, R.Running, Accepted)
    ensures K.SyncTaskRunState(s, FIRST_RUN, R.Running) == s
  {
  }

  lemma FirstBreaks(s: Tables)
    requires Stands(s, T.InProgress, R.Running, R.Running, Accepted)
    ensures Stands(UpdateRun(s, FIRST_RUN, R.Failed).0, T.InProgress, R.Failed, R.Running, Accepted)
  {
    var s' := UpdateRun(s, FIRST_RUN, R.Failed).0;
    assert s' == s.(runs := s.runs[FIRST_RUN := s.runs[FIRST_RUN].(state := R.Failed)]);
  }

  lemma FirstProjectsFailure(s: Tables)
    requires Stands(s, T.InProgress, R.Failed, R.Running, Accepted)
    ensures Stands(K.SyncTaskRunState(s, FIRST_RUN, R.Failed), T.AttentionRequired, R.Failed, R.Running, Accepted)
  {
    hide K.SyncAssignment;
    var s1 := K.SetTask(s, TASK, K.Moved(s.tasks[TASK], T.AttentionRequired));
    assert K.Projects(s, FIRST_RUN, R.Failed);
    assert K.SyncTaskRunState(s, FIRST_RUN, R.Failed) == K.SyncAssignment(s1, Some(FIRST), R.Failed);
    SupersededStays(s1);
  }

  lemma SupersededStays(s: Tables)
    requires FIRST in s.assignments && s.assignments[FIRST].state == Superseded
    ensures K.SyncAssignment(s, Some(FIRST), R.Failed) == s
  {
    assert K.SyncAssignment(s, Some(FIRST), R.Failed).assignments == s.assignments;
  }

  lemma RunSteps(s: Tables, run: Id, state: R.RunState)
    ensures Step(s, StartRun(run, false, false)) == TryStartRun(s, run, false, false).0
    ensures Step(s, SyncTask(run, state)) == K.SyncTaskRunState(s, run, state)
    ensures Step(s, ReportRun(run, Broke)) == UpdateRun(s, run, R.Failed).0
  {
    hide TryStartRun, K.SyncTaskRunState, UpdateRun;
  }

  lemma OverlapRuns()
    ensures Stands(Exec(Beginning + Overlap), T.InProgress, R.Failed, R.Running, Accepted)
  {
    hide Step, Exec, Stands, TryStartRun, K.SyncTaskRunState, UpdateRun;
    var h1 := Beginning + [Overlap[0]];
    var h2 := h1 + [Overlap[1]];
    var h3 := h2 + [Overlap[2]];
    var h4 := h3 + [Overlap[3]];
    BeginningRuns();
    ReassignedStands();
    Append(Beginning, Overlap[0]);
    RunSteps(Exec(Beginning), SECOND_RUN, R.Running);
    SecondStarts(Exec(Beginning));
    Append(h1, Overlap[1]);
    RunSteps(Exec(h1), SECOND_RUN, R.Running);
    SecondProjects(Exec(h1));
    Append(h2, Overlap[2]);
    RunSteps(Exec(h2), FIRST_RUN, R.Running);
    FirstStarts(Exec(h2));
    Append(h3, Overlap[3]);
    RunSteps(Exec(h3), FIRST_RUN, R.Running);
    FirstProjectsNothing(Exec(h3));
    Append(h4, Overlap[4]);
    RunSteps(Exec(h4), FIRST_RUN, R.Running);
    FirstBreaks(Exec(h4));
    assert h4 + [Overlap[4]] == Beginning + Overlap;
  }

  lemma FailureRuns()
    ensures Stands(Exec(Beginning + Overlap + [FirstFails]), T.AttentionRequired, R.Failed, R.Running, Accepted)
  {
    hide Step, Exec, Stands, K.SyncTaskRunState;
    OverlapRuns();
    Append(Beginning + Overlap, FirstFails);
    RunSteps(Exec(Beginning + Overlap), FIRST_RUN, R.Failed);
    FirstProjectsFailure(Exec(Beginning + Overlap));
  }

  lemma ReassignedStands()
    ensures Stands(Reassigned, T.Assigned, R.Queued, R.Queued, Assigned)
  {
  }
}
