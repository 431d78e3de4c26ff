// Theorems about runs over every history of commands: the queue is left once, attempts count starts,
// terminal states are final, every run has one home, limits hold and traces are numbered without gaps.
module RunTheorems {
  import opened Options
  import opened Tables
  import opened RunCommands
  import opened LeaseCommands
  import opened Commands
  import opened DelegationTree
  import opened TaskHistory
  import opened TaskTheorems
  import opened LifecycleTheorems
  import opened RunHistory
  import opened RunEffects
  import R = RunStates

  // ---------------------------------------------------------------- ids

  ghost predicate KnownRuns(s: Tables) {
    && (forall r :: r in s.runs ==> r < s.nextId)
    && s.dispatches.Keys <= s.runs.Keys
    && (forall i :: i in s.invocations ==> i < s.nextId && s.invocations[i] < s.nextId)
    && (forall k :: 0 <= k < |s.outbox| && s.outbox[k].kind == RunQueued ==> s.outbox[k].run < s.nextId)
  }

  lemma MoveKeepsKnownRuns(s: Tables, s': Tables, m: RunMove)
    requires KnownRuns(s) && Moves(s, s', m)
    ensures KnownRuns(s')
  {
    hide TraceAfter, AllowsToolCall, HasRoom;
  }

  // ---------------------------------------------------------------- one home per run

  function QueuedRows(outbox: seq<OutboxRow>, run: Id): nat {
    if outbox == [] then 0
    else
      var last := outbox[|outbox| - 1];
      QueuedRows(outbox[..|outbox| - 1], run) + (if last.kind == RunQueued && last.run == run then 1 else 0)
  }

  lemma QueuedRowsAppend(outbox: seq<OutboxRow>, row: OutboxRow, run: Id)
    ensures QueuedRows(outbox + [row], run) ==
            QueuedRows(outbox, run) + (if row.kind == RunQueued && row.run == run then 1 else 0)
  {
    assert (outbox + [row])[..|outbox|] == outbox;
  }

  lemma {:induction false} NoRowsBeyond(outbox: seq<OutboxRow>, run: Id)
    requires forall k :: 0 <= k < |outbox| && outbox[k].kind == RunQueued ==> outbox[k].run != run
    ensures QueuedRows(outbox, run) == 0
  {
    if outbox == [] {
    } else {
      NoRowsBeyond(outbox[..|outbox| - 1], run);
    }
  }

  // A run waits either in the outbox, once, for a worker, or in a dispatch row for a device.
  ghost predicate OneHome(s: Tables) {
    forall r :: r in s.runs ==> QueuedRows(s.outbox, r) == if r in s.dispatches then 0 else 1
  }

  // Only a launch adds a run, and only with it a run gains or loses its dispatch row.
  lemma HomesStay(s: Tables, s': Tables, m: RunMove)
    requires Moves(s, s', m) && !m.Launch?
    ensures forall r :: r in s'.runs ==> r in s.runs && (r in s'.dispatches <==> r in s.dispatches)
    ensures s'.outbox == if m.Wake? then s.outbox + [OutboxRow(RunConfirmed, m.run)] else s.outbox
  {
    hide TraceAfter, InvocationsAfter, AllowsToolCall, HasRoom, Started;
  }

  lemma LaunchKeepsOneHome(s: Tables, s': Tables, m: RunMove)
    requires KnownRuns(s) && OneHome(s) && Moves(s, s', m) && m.Launch?
    ensures OneHome(s')
  {
    hide TraceAfter, InvocationsAfter, AllowsToolCall, HasRoom, Started, QueuedRows;
    NoRowsBeyond(s.outbox, m.run);
    forall r | r in s'.runs
      ensures QueuedRows(s'.outbox, r) == if r in s'.dispatches then 0 else 1
    {
      QueuedRowsAppend(s.outbox, OutboxRow(RunQueued, m.run), r);
    }
  }

  lemma MoveKeepsOneHome(s: Tables, s': Tables, m: RunMove)
    requires KnownRuns(s) && OneHome(s) && Moves(s, s', m)
    ensures OneHome(s')
  {
    hide Moves, KnownRuns, QueuedRows;
    if m.Launch? {
      LaunchKeepsOneHome(s, s', m);
    } else {
      HomesStay(s, s', m);
      if m.Wake? {
        forall r | r in s'.runs
          ensures QueuedRows(s'.outbox, r) == if r in s'.dispatches then 0 else 1
        {
          QueuedRowsAppend(s.outbox, OutboxRow(RunConfirmed, m.run), r);
        }
      }
    }
  }

  // ---------------------------------------------------------------- traces

  lemma TraceOfAppend(trace: seq<TraceEvent>, e: TraceEvent, run: Id)
    ensures TraceOf(trace + [e], run) == TraceOf(trace, run) + (if e.run == run then [e] else [])
  {
    assert (trace + [e])[..|trace|] == trace;
  }

  lemma {:induction false} TraceOfRest(trace: seq<TraceEvent>, gone: set<Id>, run: Id)
    requires run !in gone
    ensures TraceOf(TraceWithout(trace, gone), run) == TraceOf(trace, run)
  {
    if trace == [] {
    } else {
      var rest := TraceWithout(trace[..|trace| - 1], gone);
      TraceOfRest(trace[..|trace| - 1], gone, run);
      if trace[|trace| - 1].run !in gone {
        TraceOfAppend(rest, trace[|trace| - 1], run);
      }
    }
  }

  lemma {:induction false} NothingErasedRemains(trace: seq<TraceEvent>, gone: set<Id>)
    ensures forall e :: e in TraceWithout(trace, gone) ==> e in trace && e.run !in gone
  {
    if trace == [] {
    } else {
      NothingErasedRemains(trace[..|trace| - 1], gone);
    }
  }

  lemma {:induction false} NoTraceBeyond(trace: seq<TraceEvent>, run: Id)
    requires forall e :: e in trace ==> e.run != run
    ensures TraceOf(trace, run) == []
  {
    if trace == [] {
    } else {
      assert trace[|trace| - 1] in trace;
      forall e | e in trace[..|trace| - 1] ensures e.run != run { assert e in trace; }
      NoTraceBeyond(trace[..|trace| - 1], run);
    }
  }

  ghost predicate Gapless(events: seq<TraceEvent>, n: nat) {
    |events| == n && forall k :: 0 <= k < |events| ==> events[k].sequence == k + 1
  }

  // The trace of every run is numbered from 1 to its counter, in the order it was written.
  ghost predicate Traced(s: Tables) {
    && (forall e :: e in s.trace ==> e.run in s.runs)
    && (forall r :: r in s.runs ==> Gapless(TraceOf(s.trace, r), s.runs[r].eventSequence))
  }

  lemma TraceGrows(runs: map<Id, Run>, trace: seq<TraceEvent>, run: Id, kind: string, r: Id)
    requires run in runs && r in runs && Gapless(TraceOf(trace, r), runs[r].eventSequence)
    ensures Gapless(TraceOf(trace + [TraceEvent(run, runs[run].eventSequence + 1, kind)], r),
                    runs[r].eventSequence + (if r == run then 1 else 0))
  {
    TraceOfAppend(trace, TraceEvent(run, runs[run].eventSequence + 1, kind), r);
  }

  lemma NoteKeepsTraced(s: Tables, s': Tables, m: RunMove)
    requires Traced(s) && Moves(s, s', m) && (m.Note? || m.Hear?)
    ensures Traced(s')
  {
    hide DispatchesAfter, OutboxAfter, InvocationsAfter, AllowsToolCall, HasRoom, Gapless, TraceOf;
    if m.run in s.runs {
      forall r | r in s'.runs
        ensures Gapless(TraceOf(s'.trace, r), s'.runs[r].eventSequence)
      {
        TraceGrows(s.runs, s.trace, m.run, m.kind, r);
      }
    }
  }

  lemma EraseKeepsTraced(s: Tables, s': Tables, m: RunMove)
    requires Traced(s) && Moves(s, s', m) && m.Erase?
    ensures Traced(s')
  {
    hide DispatchesAfter, OutboxAfter, InvocationsAfter, AllowsToolCall, HasRoom, Gapless, TraceOf, TraceWithout;
    NothingErasedRemains(s.trace, m.gone);
    forall r | r in s'.runs
      ensures Gapless(TraceOf(s'.trace, r), s'.runs[r].eventSequence)
    {
      TraceOfRest(s.trace, m.gone, r);
    }
  }

  lemma MoveKeepsTraced(s: Tables, s': Tables, m: RunMove)
    requires KnownRuns(s) && Traced(s) && Moves(s, s', m)
    ensures Traced(s')
  {
    if m.Erase? {
      hide Moves, KnownRuns, Traced;
      EraseKeepsTraced(s, s', m);
    } else if m.Note? || m.Hear? {
      hide Moves, KnownRuns, Traced;
      NoteKeepsTraced(s, s', m);
    } else if m.Launch? {
      hide Moves, KnownRuns, Traced;
      LaunchKeepsTraced(s, s', m);
    } else {
      hide KnownRuns, DispatchesAfter, OutboxAfter, InvocationsAfter, AllowsToolCall, HasRoom, Gapless, TraceOf, TraceWithout;
    }
  }

  lemma LaunchKeepsTraced(s: Tables, s': Tables, m: RunMove)
    requires KnownRuns(s) && Traced(s) && Moves(s, s', m) && m.Launch?
    ensures Traced(s')
  {
    hide DispatchesAfter, OutboxAfter, InvocationsAfter, AllowsToolCall, HasRoom;
    NoTraceBeyond(s.trace, m.run);
  }

  // ---------------------------------------------------------------- budget limits

  lemma {:induction false} Fewer(a: set<Id>, b: set<Id>)
    requires a <= b
    ensures |a| <= |b|
  {
    if a == {} {
    } else {
      var x :| x in a;
      Fewer(a - {x}, b - {x});
    }
  }

  ghost predicate TasksOfRuns(s: Tables) {
    forall r :: r in s.runs && s.runs[r].task.Some? ==> s.runs[r].task.value in s.tasks
  }

  // Limits are kept by every task that declares them.
  ghost predicate RunsLimited(s: Tables) {
    forall t :: t in s.tasks ==> Within(s.tasks[t].budget, MaxConcurrentRuns, |ActiveTaskRuns(s, t)|)
  }

  ghost predicate CallsLimited(s: Tables) {
    forall t :: t in s.tasks ==> Within(s.tasks[t].budget, MaxToolCalls, |TaskInvocations(s, t)|)
  }

  // Tasks stay, with their budgets.
  ghost predicate BudgetsStay(s: Tables, s': Tables) {
    forall t :: t in s.tasks ==> t in s'.tasks && s'.tasks[t].budget == s.tasks[t].budget
  }

  lemma MoveKeepsTasksOfRuns(s: Tables, s': Tables, m: RunMove)
    requires TasksOfRuns(s) && BudgetsStay(s, s') && Moves(s, s', m)
    ensures TasksOfRuns(s')
  {
    hide DispatchesAfter, OutboxAfter, InvocationsAfter, TraceAfter, AllowsToolCall, HasRoom;
  }

  // No move wakes a terminal run, so only a launch adds an active one.
  lemma ActiveRunsAfter(s: Tables, s': Tables, m: RunMove, t: Id)
    requires Moves(s, s', m)
    ensures ActiveTaskRuns(s', t) <= ActiveTaskRuns(s, t) + (if m.Launch? && m.row.task == Some(t) then {m.run} else {})
  {
    hide DispatchesAfter, OutboxAfter, InvocationsAfter, TraceAfter, AllowsToolCall, HasRoom;
  }

  lemma MoveKeepsRunsLimited(s: Tables, s': Tables, m: RunMove)
    requires TasksOfRuns(s) && BudgetsStay(s, s') && RunsLimited(s) && Moves(s, s', m)
    ensures RunsLimited(s')
  {
    hide Moves, ActiveTaskRuns;
    forall t | t in s'.tasks
      ensures Within(s'.tasks[t].budget, MaxConcurrentRuns, |ActiveTaskRuns(s', t)|)
    {
      ActiveRunsAfter(s, s', m, t);
      if m.Launch? && m.row.task == Some(t) {
        Fewer(ActiveTaskRuns(s', t), ActiveTaskRuns(s, t) + {m.run});
        LaunchedWithin(s, s', m);
      } else {
        Fewer(ActiveTaskRuns(s', t), ActiveTaskRuns(s, t));
        if t !in s.tasks {
          NoRunsYet(s, t);
        }
      }
    }
  }

  lemma LaunchedWithin(s: Tables, s': Tables, m: RunMove)
    requires Moves(s, s', m) && m.Launch? && m.row.task.Some?
    ensures m.row.task.value in s'.tasks
    ensures Within(s'.tasks[m.row.task.value].budget, MaxConcurrentRuns, |ActiveTaskRuns(s, m.row.task.value)| + 1)
  {
    hide Result, Within, TokensUsed, TaskInvocations, ActiveTaskRuns;
  }

  lemma NoRunsYet(s: Tables, t: Id)
    requires TasksOfRuns(s) && t !in s.tasks
    ensures ActiveTaskRuns(s, t) == {} && TaskInvocations(s, t) == {}
  {
  }

  lemma InvocationsAfterMove(s: Tables, s': Tables, m: RunMove, t: Id)
    requires KnownRuns(s) && Moves(s, s', m)
    ensures TaskInvocations(s', t) <=
            TaskInvocations(s, t) + (if m.Invoke? && m.run in s.runs && s.runs[m.run].task == Some(t) then {m.id} else {})
  {
    hide DispatchesAfter, OutboxAfter, TraceAfter, AllowsToolCall, HasRoom;
  }

  lemma AllowedCallHasRoom(s: Tables, run: Id)
    requires AllowsToolCall(s, run) && run in s.runs && s.runs[run].task.Some? && s.runs[run].task.value in s.tasks
    ensures Within(s.tasks[s.runs[run].task.value].budget, MaxToolCalls, |TaskInvocations(s, s.runs[run].task.value)| + 1)
  {
    hide TokensUsed, TaskInvocations, ActiveTaskRuns;
  }

  lemma MoveKeepsCallsLimited(s: Tables, s': Tables, m: RunMove)
    requires KnownRuns(s) && TasksOfRuns(s) && BudgetsStay(s, s') && CallsLimited(s) && Moves(s, s', m)
    ensures CallsLimited(s')
  {
    hide Result, TaskInvocations, AllowsToolCall, KnownRuns;
    forall t | t in s'.tasks
      ensures Within(s'.tasks[t].budget, MaxToolCalls, |TaskInvocations(s', t)|)
    {
      InvocationsAfterMove(s, s', m, t);
      if m.Invoke? && m.run in s.runs && s.runs[m.run].task == Some(t) {
        Fewer(TaskInvocations(s', t), TaskInvocations(s, t) + {m.id});
        AllowedCallHasRoom(s, m.run);
      } else {
        Fewer(TaskInvocations(s', t), TaskInvocations(s, t));
        if t !in s.tasks {
          NoRunsYet(s, t);
        }
      }
    }
  }

  // ---------------------------------------------------------------- the invariant

  ghost predicate RunInvariant(s: Tables) {
    KnownRuns(s) && OneHome(s) && Traced(s) && TasksOfRuns(s) && RunsLimited(s) && CallsLimited(s)
  }

  lemma StepKeepsBudgets(s: Tables, c: Command)
    requires Tree(s.tasks, s.nextId) && ProposersNamed(s.tasks)
    ensures BudgetsStay(s, Step(s, c))
  {
    hide Step, Tree, ForestStep;
    TreeIds(s);
    StepTasks(s, c);
    forall t | t in s.tasks
      ensures t in Step(s, c).tasks && Step(s, c).tasks[t].budget == s.tasks[t].budget
    {
      assert Evolves(s.tasks[t], Step(s, c).tasks[t], Closes(c));
    }
  }

  lemma StepKeepsRunInvariant(s: Tables, c: Command)
    requires RunInvariant(s) && Tree(s.tasks, s.nextId) && ProposersNamed(s.tasks)
    ensures RunInvariant(Step(s, c))
  {
    hide Step, Tree, ProposersNamed, Moves, KnownRuns, OneHome, Traced, TasksOfRuns, RunsLimited, CallsLimited, BudgetsStay;
    var m := StepMoves(s, c);
    StepKeepsBudgets(s, c);
    MoveKeepsKnownRuns(s, Step(s, c), m);
    MoveKeepsOneHome(s, Step(s, c), m);
    MoveKeepsTraced(s, Step(s, c), m);
    MoveKeepsTasksOfRuns(s, Step(s, c), m);
    MoveKeepsRunsLimited(s, Step(s, c), m);
    MoveKeepsCallsLimited(s, Step(s, c), m);
  }

  lemma EmptyRuns()
    ensures RunInvariant(Empty)
  {
  }

  lemma {:induction false} RunInvariantAlways(h: seq<Command>)
    ensures RunInvariant(Exec(h))
  {
    hide Step, Tree, ProposersNamed, RunInvariant;
    if h == [] {
      EmptyRuns();
    } else {
      RunInvariantAlways(h[..|h| - 1]);
      ForestAlways(h[..|h| - 1]);
      StepKeepsRunInvariant(Exec(h[..|h| - 1]), h[|h| - 1]);
    }
  }

  // In every reachable state, whatever was recovered, resumed, reassigned or erased: a task that
  // declares a tool-call limit has at most that many recorded invocations, and one that declares a
  // run limit at most that many queued, running or waiting runs.
  lemma LimitsAlwaysHold(h: seq<Command>, t: Id)
    requires t in Exec(h).tasks
    ensures Within(Exec(h).tasks[t].budget, MaxConcurrentRuns, |ActiveTaskRuns(Exec(h), t)|)
    ensures Within(Exec(h).tasks[t].budget, MaxToolCalls, |TaskInvocations(Exec(h), t)|)
  {
    hide Exec, KnownRuns, OneHome, Traced, Within;
    RunInvariantAlways(h);
  }

  // In every reachable state a run has exactly one of a queueing row in the outbox and a dispatch
  // row for a device, and its trace is numbered 1, 2, 3 and so on up to its counter.
  lemma HomesAndTraces(h: seq<Command>, r: Id)
    requires r in Exec(h).runs
    ensures QueuedRows(Exec(h).outbox, r) == if r in Exec(h).dispatches then 0 else 1
    ensures Gapless(TraceOf(Exec(h).trace, r), Exec(h).runs[r].eventSequence)
  {
    hide Exec, KnownRuns, RunsLimited, CallsLimited, TasksOfRuns;
    RunInvariantAlways(h);
  }

  // ---------------------------------------------------------------- attempts count starts

  // How often a run was started in a history, by a worker or by the claim of a device.
  ghost function Starts(h: seq<Command>, run: Id): nat {
    if h == [] then 0
    else
      var before := h[..|h| - 1];
      Starts(before, run) + (if StartsRun(Exec(before), h[|h| - 1], run) then 1 else 0)
  }

  ghost predicate Counted(s: Tables, run: Id, starts: nat) {
    && (run in s.runs ==> s.runs[run].attempt == starts)
    && (run >= s.nextId ==> starts == 0)
  }

  lemma MoveCounts(s: Tables, s': Tables, m: RunMove, run: Id, starts: nat)
    requires KnownRuns(s) && Moves(s, s', m) && Counted(s, run, starts)
    ensures Counted(s', run, starts + (if StartedBy(m, run) then 1 else 0))
  {
    hide DispatchesAfter, OutboxAfter, InvocationsAfter, TraceAfter, AllowsToolCall, HasRoom;
  }

  // The attempt counter of a run is the number of times it was started.
  lemma {:induction false} AttemptsCountStarts(h: seq<Command>, run: Id)
    ensures Counted(Exec(h), run, Starts(h, run))
  {
    if h == [] {
    } else {
      hide Step, Moves, KnownRuns, OneHome, Traced, TasksOfRuns, RunsLimited, CallsLimited, Counted, StartsRun, StartedBy;
      var s, c := Exec(h[..|h| - 1]), h[|h| - 1];
      AttemptsCountStarts(h[..|h| - 1], run);
      RunInvariantAlways(h[..|h| - 1]);
      var m := StepMoves(s, c);
      assert StartedBy(m, run) <==> StartsRun(s, c, run);
      MoveCounts(s, Step(s, c), m, run, Starts(h[..|h| - 1], run));
    }
  }

  // ---------------------------------------------------------------- the queue is left once

  predicate RunLater(x: Run, y: Run) {
    && y.conversation == x.conversation && y.agent == x.agent && y.task == x.task && y.assignment == x.assignment
    && x.attempt <= y.attempt && x.eventSequence <= y.eventSequence
    && (x.state != R.Queued ==> y.state != R.Queued)
    && (R.Terminal(x.state) ==> y.state == x.state)
  }

  // Runs may vanish with their conversation, but an id is never used again.
  ghost predicate RunsLater(s: Tables, s': Tables) {
    && s.nextId <= s'.nextId
    && (forall r :: r in s'.runs && r < s.nextId ==> r in s.runs && RunLater(s.runs[r], s'.runs[r]))
  }

  lemma MoveIsLater(s: Tables, s': Tables, m: RunMove)
    requires Moves(s, s', m)
    ensures RunsLater(s, s')
  {
    hide DispatchesAfter, OutboxAfter, InvocationsAfter, TraceAfter, AllowsToolCall, HasRoom;
  }

  lemma RunsLaterChains(s1: Tables, s2: Tables, s3: Tables)
    requires RunsLater(s1, s2) && RunsLater(s2, s3)
    ensures RunsLater(s1, s3)
  {
  }

  lemma {:induction false} RunsOnlyAge(h: seq<Command>, i: nat, j: nat)
    requires i <= j <= |h|
    ensures RunsLater(At(h, i), At(h, j))
    decreases j - i
  {
    if i == j {
    } else {
      hide RunsLater, Exec, Step, Moves;
      RunsOnlyAge(h, i, j - 1);
      AtStep(h, j - 1);
      var m := StepMoves(At(h, j - 1), h[j - 1]);
      MoveIsLater(At(h, j - 1), At(h, j), m);
      RunsLaterChains(At(h, i), At(h, j - 1), At(h, j));
    }
  }

  predicate IsQueued(s: Tables, r: Id) {
    r in s.runs && s.runs[r].state == R.Queued
  }

  // Once a run has left the queue, by whatever command, it is never in it again.
  lemma QueueLeftOnce(h: seq<Command>, i: nat, j: nat, r: Id)
    requires i < j <= |h| && IsQueued(At(h, i), r) && !IsQueued(At(h, i + 1), r)
    ensures !IsQueued(At(h, j), r)
  {
    hide Exec, KnownRuns, OneHome, Traced, TasksOfRuns, RunsLimited, CallsLimited;
    RunsOnlyAge(h, i, i + 1);
    RunsOnlyAge(h, i + 1, j);
    RunInvariantAlways(h[..i]);
    assert r < At(h, i).nextId by { RowsKnown(At(h, i), r); }
  }

  lemma RowsKnown(s: Tables, r: Id)
    requires KnownRuns(s) && r in s.runs
    ensures r < s.nextId
  {
  }

  // A start that takes the run out of the queue: a device's claim, a worker's first delivery, or a
  // redelivery of a run that was never started.
  predicate FirstStart(s: Tables, c: Command, r: Id) {
    StartsRun(s, c, r) && IsQueued(s, r)
  }

  lemma ClaimsAndFreshDeliveriesAreFirst(s: Tables, c: Command, r: Id)
    requires StartsRun(s, c, r) && (c.Claim? || (!c.recover && !c.resume))
    ensures FirstStart(s, c, r)
  {
  }

  lemma FirstStartLeaves(s: Tables, c: Command, r: Id)
    requires FirstStart(s, c, r)
    ensures r in Step(s, c).runs && !IsQueued(Step(s, c), r)
  {
    hide Step, Moves;
    var m := StepMoves(s, c);
    assert StartedBy(m, r);
    StartLeaves(s, Step(s, c), m, r);
  }

  lemma StartLeaves(s: Tables, s': Tables, m: RunMove, r: Id)
    requires Moves(s, s', m) && StartedBy(m, r)
    ensures r in s'.runs && !IsQueued(s', r)
  {
  }

  // A run is started for the first time at most once, however often it is delivered, redelivered or
  // offered: worker starts and device claims exclude one another.
  lemma FirstStartIsUnique(h: seq<Command>, i: nat, j: nat, r: Id)
    requires i < j < |h| && FirstStart(At(h, i), h[i], r)
    ensures !FirstStart(At(h, j), h[j], r)
  {
    hide Exec, Step, StartsRun;
    AtStep(h, i);
    FirstStartLeaves(At(h, i), h[i], r);
    QueueLeftOnce(h, i, j, r);
  }

  // So of all claims and first deliveries of a run, by any devices and workers, one takes effect.
  lemma OneFreshStart(h: seq<Command>, i: nat, j: nat, r: Id)
    requires i < j < |h| && StartsRun(At(h, i), h[i], r) && (h[i].Claim? || (!h[i].recover && !h[i].resume))
    requires h[j].Claim? || (h[j].StartRun? && !h[j].recover && !h[j].resume)
    ensures !StartsRun(At(h, j), h[j], r)
  {
    hide Exec;
    ClaimsAndFreshDeliveriesAreFirst(At(h, i), h[i], r);
    FirstStartIsUnique(h, i, j, r);
    if StartsRun(At(h, j), h[j], r) {
      ClaimsAndFreshDeliveriesAreFirst(At(h, j), h[j], r);
      assert false;
    }
  }
}
