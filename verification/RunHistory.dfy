// What one command can do to runs, device dispatches, the outbox, tool invocations and traces: at
// most one of a few moves.
module RunHistory {
  import opened Options
  import opened Tables
  import opened RunCommands
  import opened LeaseCommands
  import opened Commands
  import R = RunStates

  datatype RunMove =
    | Rest
    | Launch(run: Id, row: Run, dispatch: Option<Dispatch>)
    | Start(run: Id)
    | Report(run: Id, state: R.RunState)
    | Spend(run: Id, tokens: nat)
    | Invoke(run: Id, id: Id)
    | Note(run: Id, kind: string)
    | Wake(run: Id)
    | Lend(run: Id, lease: Id)
    | Take(run: Id, session: string)
    | Extend(run: Id)
    | Hear(run: Id, sequence: int, kind: string)
    | Settle(run: Id, state: R.RunState)
    | Erase(gone: set<Id>)

  // A task is within a limit that it declares; 0 or absent means there is none.
  predicate Within(budget: Budget, field: BudgetField, count: nat) {
    Limit(budget, field, 0) > 0 ==> count <= Limit(budget, field, 0)
  }

  // Room for one more run: fewer tokens used, tool calls recorded and runs active than the budget allows.
  ghost predicate HasRoom(s: Tables, t: Id, budget: Budget) {
    && Within(budget, MaxTotalTokens, TokensUsed(s, t) + 1)
    && Within(budget, MaxToolCalls, |TaskInvocations(s, t)| + 1)
    && Within(budget, MaxConcurrentRuns, |ActiveTaskRuns(s, t)| + 1)
  }

  predicate Newborn(row: Run) {
    row.state == R.Queued && row.attempt == 0 && row.tokens == 0 && row.eventSequence == 0
  }

  ghost predicate LaunchAllowed(s: Tables, s': Tables, m: RunMove)
    requires m.Launch?
  {
    && s.nextId <= m.run < s'.nextId && Newborn(m.row)
    && (m.dispatch.Some? ==> m.dispatch.value.state == Pending && m.dispatch.value.lease == None && m.dispatch.value.lastAcked == 0)
    && (m.row.task.Some? ==>
          var t := m.row.task.value;
          && t in s'.tasks
          && (t in s.tasks || t >= s.nextId)
          && HasRoom(s, t, s'.tasks[t].budget))
  }

  // The row and lease guards under which a move happens.
  ghost predicate Allowed(s: Tables, s': Tables, m: RunMove) {
    match m
    case Rest => true
    case Launch(_, _, _) => LaunchAllowed(s, s', m)
    case Start(run) => run in s.runs && !R.Terminal(s.runs[run].state)
    case Report(run, state) => run in s.runs && R.CanTransition(s.runs[run].state, state) && state != R.Running && state != R.Queued
    case Spend(run, _) => run in s.runs
    case Invoke(run, id) => AllowsToolCall(s, run) && run < s.nextId && id == s.nextId
    case Note(run, _) => run in s.runs
    case Wake(_) => true
    case Lend(run, lease) =>
      && run in s.dispatches && lease == s.nextId && s.nextId < s'.nextId
      && (s.dispatches[run].state == Pending || (s.dispatches[run].state == Offered && s.dispatches[run].expiresAt <= s.clock))
    case Take(run, _) =>
      && run in s.dispatches && s.dispatches[run].state == Offered && s.dispatches[run].expiresAt > s.clock
      && run in s.runs && s.runs[run].state == R.Queued
    case Extend(run) => run in s.dispatches && s.dispatches[run].state == Claimed && s.dispatches[run].expiresAt > s.clock
    case Hear(run, sequence, _) =>
      && run in s.dispatches && s.dispatches[run].state == Claimed && s.dispatches[run].expiresAt > s.clock
      && s.dispatches[run].lastAcked < sequence
    case Settle(run, state) =>
      && run in s.dispatches && s.dispatches[run].state == Claimed && s.dispatches[run].expiresAt > s.clock
      && run in s.runs && R.Terminal(state) && R.CanTransition(s.runs[run].state, state)
    case Erase(gone) => gone <= s.runs.Keys && forall r :: r in gone ==> R.Terminal(s.runs[r].state)
  }

  function RunsAfter(runs: map<Id, Run>, m: RunMove): map<Id, Run> {
    match m
    case Launch(run, row, _) => runs[run := row]
    case Start(run) => if run in runs then runs[run := Started(runs[run])] else runs
    case Take(run, _) => if run in runs then runs[run := Started(runs[run])] else runs
    case Report(run, state) => if run in runs then runs[run := runs[run].(state := state)] else runs
    case Settle(run, state) => if run in runs then runs[run := runs[run].(state := state)] else runs
    case Spend(run, tokens) => if run in runs then runs[run := runs[run].(tokens := tokens)] else runs
    case Note(run, _) => if run in runs then runs[run := runs[run].(eventSequence := runs[run].eventSequence + 1)] else runs
    case Hear(run, _, _) => if run in runs then runs[run := runs[run].(eventSequence := runs[run].eventSequence + 1)] else runs
    case Erase(gone) => runs - gone
    case _ => runs
  }

  function DispatchesAfter(dispatches: map<Id, Dispatch>, clock: int, m: RunMove): map<Id, Dispatch> {
    match m
    case Launch(run, _, d) => if d.Some? then dispatches[run := d.value] else dispatches
    case Lend(run, lease) =>
      if run !in dispatches then dispatches
      else dispatches[run := dispatches[run].(state := Offered, lease := Some(lease), expiresAt := clock + LEASE_SECONDS)]
    case Take(run, session) =>
      if run !in dispatches then dispatches
      else dispatches[run := dispatches[run].(state := Claimed, session := Some(session))]
    case Extend(run) =>
      if run !in dispatches then dispatches
      else dispatches[run := dispatches[run].(expiresAt := clock + LEASE_SECONDS)]
    case Hear(run, sequence, _) =>
      if run !in dispatches then dispatches
      else dispatches[run := dispatches[run].(lastAcked := sequence)]
    case Settle(run, state) =>
      if run !in dispatches then dispatches
      else dispatches[run := dispatches[run].(state := Finished(state))]
    case Erase(gone) => dispatches - gone
    case _ => dispatches
  }

  function OutboxAfter(outbox: seq<OutboxRow>, m: RunMove): seq<OutboxRow> {
    match m
    case Launch(run, _, None) => outbox + [OutboxRow(RunQueued, run)]
    case Wake(run) => outbox + [OutboxRow(RunConfirmed, run)]
    case _ => outbox
  }

  function InvocationsAfter(invocations: map<Id, Id>, m: RunMove): map<Id, Id> {
    match m
    case Invoke(run, id) => invocations[id := run]
    case Erase(gone) => map i | i in invocations && invocations[i] !in gone :: invocations[i]
    case _ => invocations
  }

  function TraceAfter(trace: seq<TraceEvent>, runs: map<Id, Run>, m: RunMove): seq<TraceEvent> {
    match m
    case Note(run, kind) => if run in runs then trace + [TraceEvent(run, runs[run].eventSequence + 1, kind)] else trace
    case Hear(run, _, kind) => if run in runs then trace + [TraceEvent(run, runs[run].eventSequence + 1, kind)] else trace
    case Erase(gone) => TraceWithout(trace, gone)
    case _ => trace
  }

  ghost predicate Result(s: Tables, s': Tables, m: RunMove) {
    && s'.runs == RunsAfter(s.runs, m)
    && s'.dispatches == DispatchesAfter(s.dispatches, s.clock, m)
    && s'.outbox == OutboxAfter(s.outbox, m)
    && s'.invocations == InvocationsAfter(s.invocations, m)
    && s'.trace == TraceAfter(s.trace, s.runs, m)
  }

  ghost predicate Moves(s: Tables, s': Tables, m: RunMove) {
    && Allowed(s, s', m) && Result(s, s', m)
    && s.nextId <= s'.nextId && s.clock <= s'.clock
    && (m.Invoke? ==> s.nextId < s'.nextId)
  }
}
