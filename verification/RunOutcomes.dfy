// What the commands on runs and device leases achieve, with every condition written out: when a run is
// created, when a task's budget stops it, and what a device's requests change.
module RunOutcomes {
  import opened Options
  import opened MapSums
  import opened Tables
  import opened RunCommands
  import opened LeaseCommands
  import opened Commands
  import opened TaskHistory
  import opened LifecycleTheorems
  import opened RunHistory
  import opened RunEffects
  import opened RunTheorems
  import K = TaskCommands
  import T = TaskStates
  import R = RunStates

  // ---------------------------------------------------------------- what a device is given and may do

  // A run of this device that waits to be offered: it is pending, or an offer of it has lapsed.
  predicate AwaitsOffer(s: Tables, run: Id, device: Id) {
    && run in s.dispatches && s.dispatches[run].device == device
    && (s.dispatches[run].state == Pending || (s.dispatches[run].state == Offered && s.clock >= s.dispatches[run].expiresAt))
    && run in s.runs && s.runs[run].agent in s.agents && s.agents[s.runs[run].agent].localDirect
  }

  // An offer takes the oldest run that waits for it and lends it out for 90 seconds under a lease that
  // was never used; nothing is offered exactly when none waits.
  lemma OfferOutcome(s: Tables, device: Id)
    ensures var (s', offered) := OfferLocalRun(s, device);
            && (offered == None <==> forall run :: !AwaitsOffer(s, run, device))
            && (offered == None ==> s' == s)
            && (offered.Some? ==>
                  var (run, lease) := offered.value;
                  && AwaitsOffer(s, run, device) && (forall other :: AwaitsOffer(s, other, device) ==> run <= other)
                  && s.nextId <= lease < s'.nextId
                  && s'.dispatches == s.dispatches[run := s.dispatches[run].(state := Offered, lease := Some(lease), expiresAt := s.clock + 90)])
  {
    var waiting := set run | run in s.dispatches && Offerable(s, run, device);
    assert forall run :: run in waiting <==> AwaitsOffer(s, run, device);
  }

  // The run's task, if it was waiting in one of five states, is in progress, one version on, and an
  // assignment that nobody had taken up is accepted.
  predicate PutsInProgress(s: Tables, s': Tables, run: Id)
    requires run in s.runs
  {
    var task, assignment := s.runs[run].task, s.runs[run].assignment;
    if task.Some? && task.value in s.tasks && s.tasks[task.value].state in
       {T.Queued, T.Assigned, T.WaitingConfirmation, T.AwaitingProposerClose, T.AttentionRequired}
    then
      && s'.tasks == s.tasks[task.value := s.tasks[task.value].(state := T.InProgress, version := s.tasks[task.value].version + 1)]
      && s'.assignments == (if assignment.Some? && assignment.value in s.assignments && s.assignments[assignment.value].state == Assigned
                            then s.assignments[assignment.value := s.assignments[assignment.value].(state := Accepted)]
                            else s.assignments)
    else s'.tasks == s.tasks && s'.assignments == s.assignments
  }

  // A claim is granted exactly to the device that holds the unexpired offer of a run still queued. The
  // run then runs for one more attempt, and its task is put in progress.
  lemma ClaimOutcome(s: Tables, run: Id, device: Id, lease: Id, session: string)
    ensures var (s', granted) := ClaimLocalRun(s, run, device, lease, session);
            && (granted <==>
                  && run in s.dispatches && s.dispatches[run].device == device && s.dispatches[run].lease == Some(lease)
                  && s.dispatches[run].state == Offered && s.clock < s.dispatches[run].expiresAt
                  && run in s.runs && s.runs[run].state == R.Queued)
            && (!granted ==> s' == s)
            && (granted ==>
                  && s'.dispatches == s.dispatches[run := s.dispatches[run].(state := Claimed, session := Some(session))]
                  && s'.runs == s.runs[run := s.runs[run].(state := R.Running, attempt := s.runs[run].attempt + 1)]
                  && PutsInProgress(s, s', run))
  {
    hide K.SyncTaskRunState, PutsInProgress;
    if ClaimLocalRun(s, run, device, lease, session).1 {
      var s1 := SetDispatch(s, run, s.dispatches[run].(state := Claimed, session := Some(session)));
      var s2 := s1.(runs := s1.runs[run := Started(s1.runs[run])]);
      SyncRests(s2, run, R.Running);
      StartIsProjected(s2, run);
      SameProgress(s, s2, ClaimLocalRun(s, run, device, lease, session).0, run);
    }
  }

  lemma SameProgress(s: Tables, x: Tables, s': Tables, run: Id)
    requires run in s.runs && run in x.runs && x.runs[run].task == s.runs[run].task && x.runs[run].assignment == s.runs[run].assignment
    requires x.tasks == s.tasks && x.assignments == s.assignments
    ensures PutsInProgress(x, s', run) <==> PutsInProgress(s, s', run)
  {
  }

  // The start of a run does the same for a worker, which projects it after its compare-and-set.
  lemma StartIsProjected(s: Tables, run: Id)
    requires run in s.runs
    ensures PutsInProgress(s, K.SyncTaskRunState(s, run, R.Running), run)
    ensures K.SyncTaskRunState(s, run, R.Running).results == s.results
  {
    hide K.SyncAssignment;
    if K.Projects(s, run, R.Running) {
      var t := s.runs[run].task.value;
      AssignmentStarts(K.SetTask(s, t, K.Moved(s.tasks[t], T.InProgress)), s.runs[run].assignment);
    }
  }

  lemma AssignmentStarts(s: Tables, assignment: Option<Id>)
    ensures var s' := K.SyncAssignment(s, assignment, R.Running);
            && s'.tasks == s.tasks && s'.results == s.results
            && s'.assignments == (if assignment.Some? && assignment.value in s.assignments && s.assignments[assignment.value].state == Assigned
                                  then s.assignments[assignment.value := s.assignments[assignment.value].(state := Accepted)]
                                  else s.assignments)
  {
    if assignment.Some? && assignment.value in s.assignments {
      var a := s.assignments[assignment.value];
      assert a.(state := a.state) == a;
    }
  }

  // The device that holds the unexpired claim extends it by another 90 seconds and learns whether the
  // run was cancelled; an event it reports is recorded exactly when its number is new.
  lemma HolderOutcome(s: Tables, run: Id, device: Id, lease: Id, sequence: int, kind: string)
    ensures var (s', renewed) := RenewLocalLease(s, run, device, lease);
            var (s'', recorded) := AppendLocalRunEvent(s, run, device, lease, sequence, kind);
            if run in s.dispatches && s.dispatches[run].device == device && s.dispatches[run].lease == Some(lease) &&
               s.dispatches[run].state == Claimed && s.clock < s.dispatches[run].expiresAt
            then
              && renewed == Some(run in s.runs && s.runs[run].state == R.Cancelled)
              && s'.dispatches == s.dispatches[run := s.dispatches[run].(expiresAt := s.clock + 90)]
              && s''.dispatches == (if sequence <= s.dispatches[run].lastAcked then s.dispatches
                                    else s.dispatches[run := s.dispatches[run].(lastAcked := sequence)])
              && s''.trace == s.trace + (if sequence <= s.dispatches[run].lastAcked || run !in s.runs then []
                                         else [TraceEvent(run, s.runs[run].eventSequence + 1, kind)])
            else renewed == None && s' == s && recorded == None && s'' == s
  {
  }

  // A conversation is erased exactly for its owner, when all its runs have ended and no task is worked
  // on in it. Its runs go with their dispatches, tool calls and events, and no others.
  lemma DeletionOutcome(s: Tables, conversation: Id, owner: nat)
    ensures var (s', deleted) := RunCommands.DeleteConversation(s, conversation, owner);
            && (deleted <==>
                  && conversation in s.conversations && s.conversations[conversation].owner == owner
                  && (forall r :: r in s.runs && s.runs[r].conversation == conversation ==> R.Terminal(s.runs[r].state))
                  && (forall t :: t in s.tasks ==> s.tasks[t].conversation != Some(conversation)))
            && (!deleted ==> s' == s)
            && (deleted ==> s'.conversations == s.conversations - {conversation} && ErasesRuns(s, s', conversation))
  {
    hide TraceWithout, ErasesRuns;
    if MayDelete(s, conversation, owner) {
      RunsErased(s, RunCommands.DeleteConversation(s, conversation, owner).0, conversation, owner);
    }
  }

  predicate IsIn(runs: map<Id, Run>, conversation: Id, r: Id) {
    r in runs && runs[r].conversation == conversation
  }

  // Everything about the conversation's runs is gone, and the rows of all other runs are as before.
  ghost predicate ErasesRuns(s: Tables, s': Tables, conversation: Id) {
    && (forall r :: r in s'.runs <==> r in s.runs && !IsIn(s.runs, conversation, r))
    && (forall r :: r in s'.runs ==> s'.runs[r] == s.runs[r])
    && (forall r :: r in s'.dispatches <==> r in s.dispatches && !IsIn(s.runs, conversation, r))
    && (forall i :: i in s'.invocations <==> i in s.invocations && !IsIn(s.runs, conversation, s.invocations[i]))
    && (forall r :: TraceOf(s'.trace, r) == if IsIn(s.runs, conversation, r) then [] else TraceOf(s.trace, r))
  }

  lemma RunsErased(s: Tables, s': Tables, conversation: Id, owner: nat)
    requires MayDelete(s, conversation, owner) && s' == RunCommands.DeleteConversation(s, conversation, owner).0
    ensures ErasesRuns(s, s', conversation)
  {
    hide TraceWithout, TraceOf, MayDelete;
    var gone := set r | r in s.runs && s.runs[r].conversation == conversation;
    forall r
      ensures TraceOf(TraceWithout(s.trace, gone), r) == if r in gone then [] else TraceOf(s.trace, r)
    {
      TraceErased(s.trace, gone, r);
    }
  }

  lemma TraceErased(trace: seq<TraceEvent>, gone: set<Id>, r: Id)
    ensures TraceOf(TraceWithout(trace, gone), r) == if r in gone then [] else TraceOf(trace, r)
  {
    if r in gone {
      NothingErasedRemains(trace, gone);
      NoTraceBeyond(TraceWithout(trace, gone), r);
    } else {
      TraceOfRest(trace, gone, r);
    }
  }

  // ---------------------------------------------------------------- finishing a device's run

  // The open assignment under which a run may deliver: its own, for its task, with its agent.
  predicate MayDeliver(s: Tables, run: Id, t: Id, a: Id) {
    && run in s.runs && s.runs[run].task == Some(t) && s.runs[run].assignment == Some(a)
    && t in s.tasks && (s.tasks[t].state == T.InProgress || s.tasks[t].state == T.AwaitingProposerClose)
    && a in s.assignments && s.assignments[a].task == t && s.assignments[a].executor == s.runs[run].agent
    && (s.assignments[a].state == Assigned || s.assignments[a].state == Accepted)
  }

  // A device's report is accepted under its claimed, unexpired lease, for an ending the run can take.
  lemma FinishIsAcceptedIff(s: Tables, run: Id, device: Id, lease: Id, state: R.RunState, content: string)
    ensures FinishLocalRun(s, run, device, lease, state, content).1 <==>
              && (state == R.Completed || state == R.Failed || state == R.Cancelled)
              && run in s.dispatches && s.dispatches[run].device == device && s.dispatches[run].lease == Some(lease)
              && s.dispatches[run].state == Claimed && s.clock < s.dispatches[run].expiresAt
              && run in s.runs
              && (s.runs[run].state == state || s.runs[run].state == R.Running ||
                  ((s.runs[run].state == R.Queued || s.runs[run].state == R.WaitingConfirmation) && state != R.Completed))
    ensures !FinishLocalRun(s, run, device, lease, state, content).1 ==>
              FinishLocalRun(s, run, device, lease, state, content).0 == s
  {
    hide K.SyncTaskRunState, SubmitLocalTaskResult;
  }

  lemma SubmissionOutcome(s: Tables, run: Id, content: string)
    ensures var (s', submitted) := SubmitLocalTaskResult(s, run, content);
            && (submitted <==> content != "" && exists t, a :: MayDeliver(s, run, t, a))
            && (!submitted ==> s' == s)
            && (submitted ==>
                  var t, a := s.runs[run].task.value, s.runs[run].assignment.value;
                  && s'.results == s.results[s.nextId := TaskResult(t, a, CloudAgent(s.runs[run].agent), content)]
                  && s'.tasks == s.tasks[t := K.Moved(s.tasks[t], T.AwaitingProposerClose)]
                  && s'.assignments == s.assignments[a := s.assignments[a].(state := Completed)])
  {
    hide K.Moved;
    if run in s.runs && s.runs[run].task.Some? && s.runs[run].assignment.Some? && s.runs[run].task.value in s.tasks {
      var t, a := s.runs[run].task.value, s.runs[run].assignment.value;
      if OpenAssignment(s, a, t, s.runs[run].agent) {
        assert CanRead(s, t, s.tasks[t].owner, CloudAgent(s.runs[run].agent));
      }
      hide CanRead;
      assert (exists x, y :: MayDeliver(s, run, x, y)) <==> MayDeliver(s, run, t, a);
    }
  }

  // The task states a run's failure or cancellation sends back to the proposer.
  predicate GoesBack(state: T.TaskState) {
    state == T.Queued || state == T.Assigned || state == T.InProgress || state == T.WaitingConfirmation || state == T.AwaitingProposerClose
  }

  function EndedAssignment(state: R.RunState): AssignmentState {
    if state == R.Failed then Expired else AssignmentState.Cancelled
  }

  // Whether the ending of this run sends its task back.
  predicate SendsBack(s: Tables, run: Id, state: R.RunState)
    requires run in s.runs
  {
    && (state == R.Failed || state == R.Cancelled)
    && s.runs[run].task.Some? && s.runs[run].task.value in s.tasks && GoesBack(s.tasks[s.runs[run].task.value].state)
  }

  // What a projected failure or cancellation changes: an unfinished task goes back to its proposer, and
  // the run's open assignment ends with it.
  lemma EndingIsProjected(s: Tables, run: Id, state: R.RunState)
    requires run in s.runs && (state == R.Completed || state == R.Failed || state == R.Cancelled)
    ensures !SendsBack(s, run, state) ==> K.SyncTaskRunState(s, run, state) == s
    ensures SendsBack(s, run, state) ==>
              var s', t := K.SyncTaskRunState(s, run, state), s.runs[run].task.value;
              && s'.results == s.results
              && s'.tasks == s.tasks[t := K.Moved(s.tasks[t], T.AttentionRequired)]
              && s'.assignments == EndedAssignments(s.assignments, s.runs[run].assignment, state)
  {
    hide K.Moved, K.SyncAssignment;
    if SendsBack(s, run, state) {
      var t := s.runs[run].task.value;
      AssignmentEnds(K.SetTask(s, t, K.Moved(s.tasks[t], T.AttentionRequired)), s.runs[run].assignment, state);
    }
  }

  function EndedAssignments(rows: map<Id, Assignment>, assignment: Option<Id>, state: R.RunState): map<Id, Assignment> {
    if assignment.Some? && assignment.value in rows && Open(rows[assignment.value].state)
    then rows[assignment.value := rows[assignment.value].(state := EndedAssignment(state))]
    else rows
  }

  lemma AssignmentEnds(s: Tables, assignment: Option<Id>, state: R.RunState)
    requires state == R.Failed || state == R.Cancelled
    ensures var s' := K.SyncAssignment(s, assignment, state);
            && s'.results == s.results && s'.tasks == s.tasks
            && s'.assignments == EndedAssignments(s.assignments, assignment, state)
  {
    if assignment.Some? && assignment.value in s.assignments {
      var a := s.assignments[assignment.value];
      assert a.(state := a.state) == a;
    }
  }

  // The text becomes the result of the run's task, which now awaits its proposer; the assignment is completed.
  predicate HandsIn(s: Tables, s': Tables, run: Id, content: string) {
    && run in s.runs && s.runs[run].task.Some? && s.runs[run].assignment.Some?
    && (var t, a := s.runs[run].task.value, s.runs[run].assignment.value;
        && t in s.tasks && a in s.assignments
        && s'.results == s.results[s.nextId := TaskResult(t, a, CloudAgent(s.runs[run].agent), content)]
        && s'.tasks == s.tasks[t := s.tasks[t].(state := T.AwaitingProposerClose, version := s.tasks[t].version + 1)]
        && s'.assignments == s.assignments[a := s.assignments[a].(state := Completed)])
  }

  // The task goes back to its proposer without a result, and the run's open assignment ends.
  predicate GivesUp(s: Tables, s': Tables, run: Id, state: R.RunState) {
    && run in s.runs && s.runs[run].task.Some? && s.runs[run].task.value in s.tasks
    && (var t := s.runs[run].task.value;
        && s'.results == s.results
        && s'.tasks == s.tasks[t := s.tasks[t].(state := T.AttentionRequired, version := s.tasks[t].version + 1)]
        && s'.assignments == EndedAssignments(s.assignments, s.runs[run].assignment, state))
  }

  // An accepted report ends the run and settles its dispatch. A completed run with some text delivers it
  // exactly when its assignment is open and its task in progress or already delivered: the result is on
  // record, the task awaits its proposer, the assignment is completed. Otherwise a failed or cancelled
  // run sends an unfinished task back and closes its open assignment, and nothing else changes.
  lemma FinishOutcome(s: Tables, run: Id, device: Id, lease: Id, state: R.RunState, content: string)
    requires FinishLocalRun(s, run, device, lease, state, content).1
    ensures var s', row := FinishLocalRun(s, run, device, lease, state, content).0, s.runs[run];
            && run in s'.runs && s'.runs == s.runs[run := row.(state := state)]
            && s'.dispatches == s.dispatches[run := s.dispatches[run].(state := Finished(state))]
            && (if state == R.Completed && content != "" && exists t, a :: MayDeliver(s, run, t, a) then HandsIn(s, s', run, content)
                else if SendsBack(s, run, state) then GivesUp(s, s', run, state)
                else
                  s'.results == s.results && s'.tasks == s.tasks && s'.assignments == s.assignments)
  {
    hide K.SyncTaskRunState, SubmitLocalTaskResult;
    FinishIsAcceptedIff(s, run, device, lease, state, content);
    var s1 := UpdateRun(s, run, state).0;
    SameDeliveries(s, s1, run);
    SubmissionOutcome(s1, run, content);
    EndingIsProjected(s1, run, state);
    var m := FinishMoves(s, run, device, lease, state, content);
    FinishedTables(s, FinishLocalRun(s, run, device, lease, state, content).0, run, state);
  }

  lemma FinishedTables(s: Tables, s': Tables, run: Id, state: R.RunState)
    requires run in s.runs && run in s.dispatches && Moves(s, s', Settle(run, state))
    ensures s'.runs == s.runs[run := s.runs[run].(state := state)]
    ensures s'.dispatches == s.dispatches[run := s.dispatches[run].(state := Finished(state))]
  {
    hide OutboxAfter, InvocationsAfter, TraceAfter;
  }

  lemma SameDeliveries(s: Tables, s1: Tables, run: Id)
    requires run in s.runs && run in s1.runs && s1.runs[run] == s.runs[run].(state := s1.runs[run].state)
    requires s1.tasks == s.tasks && s1.assignments == s.assignments
    ensures (exists t, a :: MayDeliver(s1, run, t, a)) <==> exists t, a :: MayDeliver(s, run, t, a)
  {
    forall t, a
      ensures MayDeliver(s1, run, t, a) <==> MayDeliver(s, run, t, a)
    {
    }
  }

  // ---------------------------------------------------------------- creating and starting runs

  // An agent takes another run exactly when it is active, has fewer active runs than its own limit,
  // which counts as at least 1, tokens are left and, on a device, that device is bound and ready.
  lemma AgentTakesRunIff(s: Tables, agent: Id, env: RunEnv)
    ensures AgentAllowsRun(s, agent, env) <==>
              && agent in s.agents && s.agents[agent].active && env.tokenBudgetOk
              && (ActiveAgentRuns(s, agent) == {} || |ActiveAgentRuns(s, agent)| < s.agents[agent].maxConcurrentRuns)
              && (!s.agents[agent].onDevice || (s.agents[agent].device != None && env.localReady))
  {
    hide ActiveAgentRuns;
  }

  // A run is created exactly for the conversation's owner, with an agent and, if it is a task's run, a
  // task that take another one, in the conversation the task is worked on in, and under an assignment
  // to that agent that nobody has taken up.
  lemma RunIsCreatedIff(s: Tables, conversation: Id, owner: nat, task: Option<Id>, assignment: Option<Id>, env: RunEnv)
    ensures var (s', run) := CreateRun(s, conversation, owner, task, assignment, env);
            && (run.Some? <==>
                  && conversation in s.conversations && s.conversations[conversation].owner == owner
                  && AgentAllowsRun(s, s.conversations[conversation].agent, env)
                  && (task.Some? ==>
                        && task.value in s.tasks && s.tasks[task.value].owner == owner
                        && s.tasks[task.value].conversation == Some(conversation)
                        && assignment.Some? && assignment.value in s.assignments
                        && s.assignments[assignment.value].task == task.value
                        && s.assignments[assignment.value].executor == s.conversations[conversation].agent
                        && s.assignments[assignment.value].state == Assigned
                        && !BudgetSpent(s, task.value, true)))
            && (run.None? ==> s' == s)
            && (run.Some? ==> s'.runs == s.runs[run.value := Run(conversation, s.conversations[conversation].agent, owner, task,
                                                                  assignment, R.Queued, 0, 0, 0)])
  {
    hide BudgetSpent, AgentAllowsRun;
  }

  // A worker's compare-and-set succeeds exactly on a queued run; on redelivery also on a running one;
  // after a confirmation only on one that waits for it.
  lemma WorkerStartsIff(s: Tables, run: Id, recover: bool, resume: bool)
    ensures var (s', started) := TryStartRun(s, run, recover, resume);
            && (started <==>
                  && run in s.runs
                  && (if recover then s.runs[run].state == R.Queued || s.runs[run].state == R.Running
                      else s.runs[run].state == (if resume then R.WaitingConfirmation else R.Queued)))
            && s'.runs == (if started then s.runs[run := s.runs[run].(state := R.Running, attempt := s.runs[run].attempt + 1)] else s.runs)
  {
  }

  // A run completes only while it runs, waits only from running, and fails or is cancelled until it has
  // ended; a repeated report is accepted.
  lemma ReportIsAcceptedIff(s: Tables, run: Id, report: RunReport)
    ensures var (s', updated) := UpdateRun(s, run, StateOf(report));
            && (updated <==>
                  && run in s.runs
                  && (match report
                      case Waiting => s.runs[run].state == R.Running || s.runs[run].state == R.WaitingConfirmation
                      case Done => s.runs[run].state == R.Running || s.runs[run].state == R.Completed
                      case Broke => !R.Terminal(s.runs[run].state) || s.runs[run].state == R.Failed
                      case Stopped => !R.Terminal(s.runs[run].state) || s.runs[run].state == R.Cancelled))
            && (updated ==> s'.runs[run].state == StateOf(report))
            && (!updated ==> s' == s)
  {
  }

  // ---------------------------------------------------------------- what a task's budget stops

  // Whatever command adds a run of a task, and in whatever history: before it, the task had used fewer
  // tokens, recorded fewer tool calls and had fewer active runs than it declares.
  lemma RunsStartWithinBudget(h: seq<Command>, c: Command, r: Id)
    requires r !in Exec(h).runs && r in Step(Exec(h), c).runs && Step(Exec(h), c).runs[r].task.Some?
    ensures var s, s', t := Exec(h), Step(Exec(h), c), Step(Exec(h), c).runs[r].task.value;
            && t in s'.tasks
            && (var b := s'.tasks[t].budget;
                && (Limit(b, MaxTotalTokens, 0) > 0 ==> TokensUsed(s, t) < Limit(b, MaxTotalTokens, 0))
                && (Limit(b, MaxToolCalls, 0) > 0 ==> |TaskInvocations(s, t)| < Limit(b, MaxToolCalls, 0))
                && (Limit(b, MaxConcurrentRuns, 0) > 0 ==> |ActiveTaskRuns(s, t)| < Limit(b, MaxConcurrentRuns, 0)))
  {
    hide Exec, Step;
    var m := StepMoves(Exec(h), c);
    NewRunHasRoom(Exec(h), Step(Exec(h), c), m, r);
  }

  lemma NewRunHasRoom(s: Tables, s': Tables, m: RunMove, r: Id)
    requires Moves(s, s', m) && r !in s.runs && r in s'.runs && s'.runs[r].task.Some?
    ensures var t := s'.runs[r].task.value;
            t in s'.tasks && HasRoom(s, t, s'.tasks[t].budget)
  {
    hide DispatchesAfter, OutboxAfter, InvocationsAfter, TraceAfter, AllowsToolCall, HasRoom;
  }

  // And whatever command records a tool call of a task's run: before it, the task had used fewer tokens
  // and recorded fewer calls than it declares, and no more active runs.
  lemma CallsRecordedWithinBudget(h: seq<Command>, c: Command, i: Id)
    requires i !in Exec(h).invocations && i in Step(Exec(h), c).invocations
    ensures var s, r := Exec(h), Step(Exec(h), c).invocations[i];
            r in s.runs && s.runs[r].task.Some? ==>
              var t := s.runs[r].task.value;
              && t in s.tasks
              && (var b := s.tasks[t].budget;
                  && (Limit(b, MaxTotalTokens, 0) > 0 ==> TokensUsed(s, t) < Limit(b, MaxTotalTokens, 0))
                  && (Limit(b, MaxToolCalls, 0) > 0 ==> |TaskInvocations(s, t)| < Limit(b, MaxToolCalls, 0))
                  && (Limit(b, MaxConcurrentRuns, 0) > 0 ==> |ActiveTaskRuns(s, t)| <= Limit(b, MaxConcurrentRuns, 0)))
  {
    hide Exec, Step;
    var m := StepMoves(Exec(h), c);
    NewCallIsAllowed(Exec(h), Step(Exec(h), c), m, i);
    hide Moves, TokensUsed, TaskInvocations, ActiveTaskRuns;
  }

  lemma NewCallIsAllowed(s: Tables, s': Tables, m: RunMove, i: Id)
    requires Moves(s, s', m) && i !in s.invocations && i in s'.invocations
    ensures AllowsToolCall(s, s'.invocations[i])
  {
    hide RunsAfter, DispatchesAfter, OutboxAfter, TraceAfter, AllowsToolCall, LaunchAllowed;
  }

  // A usage report replaces what the run had used so far, and sends the run's task back to its proposer
  // exactly when a limit is reached then and the task can still be sent back.
  lemma UsageSendsBackIff(s: Tables, run: Id, tokens: nat)
    requires run in s.runs && s.runs[run].task.Some? && s.runs[run].task.value in s.tasks
    ensures var s', t := K.UpdateUsage(s, run, tokens), s.runs[run].task.value;
            var b := s.tasks[t].budget;
            var spent :=
              || (Limit(b, MaxTotalTokens, 0) != 0 && TokensUsed(s', t) >= Limit(b, MaxTotalTokens, 0))
              || (Limit(b, MaxToolCalls, 0) != 0 && |TaskInvocations(s', t)| >= Limit(b, MaxToolCalls, 0))
              || (Limit(b, MaxConcurrentRuns, 0) != 0 && |ActiveTaskRuns(s', t)| > Limit(b, MaxConcurrentRuns, 0));
            && TokensUsed(s', t) == TokensUsed(s, t) - s.runs[run].tokens + tokens
            && s'.tasks == (if spent && GoesBack(s.tasks[t].state)
                            then s.tasks[t := s.tasks[t].(state := T.AttentionRequired, version := s.tasks[t].version + 1)]
                            else s.tasks)
  {
    hide TokensUsed, TaskInvocations, ActiveTaskRuns, K.MarkBudgetExhausted, BudgetSpent;
    var t := s.runs[run].task.value;
    var s1 := s.(runs := s.runs[run := s.runs[run].(tokens := tokens)]);
    UsageReplaced(s, s1, run, tokens);
    SpentGoesBack(s1, run);
    SameSpending(s1, K.UpdateUsage(s, run, tokens), t);
    SpentIff(s1, t, false);
  }

  // A task's budget is spent exactly when a limit it declares is reached.
  lemma SpentIff(s: Tables, t: Id, nextRun: bool)
    requires t in s.tasks
    ensures var b := s.tasks[t].budget;
            BudgetSpent(s, t, nextRun) <==>
            || (Limit(b, MaxTotalTokens, 0) != 0 && TokensUsed(s, t) >= Limit(b, MaxTotalTokens, 0))
            || (Limit(b, MaxToolCalls, 0) != 0 && |TaskInvocations(s, t)| >= Limit(b, MaxToolCalls, 0))
            || (Limit(b, MaxConcurrentRuns, 0) != 0 &&
                |ActiveTaskRuns(s, t)| + (if nextRun then 1 else 0) > Limit(b, MaxConcurrentRuns, 0))
  {
    hide TokensUsed, TaskInvocations, ActiveTaskRuns;
  }

  lemma SpentGoesBack(s: Tables, run: Id)
    requires K.HasTask(s, run)
    ensures var s', t := K.MarkBudgetExhausted(s, run), s.runs[run].task.value;
            && s'.runs == s.runs && s'.invocations == s.invocations
            && s'.tasks == (if BudgetSpent(s, t, false) && GoesBack(s.tasks[t].state)
                            then s.tasks[t := s.tasks[t].(state := T.AttentionRequired, version := s.tasks[t].version + 1)]
                            else s.tasks)
  {
    hide BudgetSpent;
  }

  lemma UsageReplaced(s: Tables, s1: Tables, run: Id, tokens: nat)
    requires run in s.runs && s.runs[run].task.Some?
    requires s1.runs == s.runs[run := s.runs[run].(tokens := tokens)]
    ensures var t := s.runs[run].task.value;
            TokensUsed(s1, t) == TokensUsed(s, t) - s.runs[run].tokens + tokens
  {
    hide MapSums.Sum;
    var t := s.runs[run].task.value;
    assert TaskUsage(s1, t) - {run} == TaskUsage(s, t) - {run};
    MapSums.SumPick(TaskUsage(s1, t), run);
    MapSums.SumPick(TaskUsage(s, t), run);
  }
}
