// The two lifecycle tables of the agent service: tasks and runs.

module TaskStates {

  datatype TaskState =
    | Draft
    | Queued
    | Assigned
    | InProgress
    | WaitingConfirmation
    | AwaitingProposerClose
    | AttentionRequired
    | Closed
    | Cancelled

  function Targets(current: TaskState): set<TaskState> {
    match current
    case Draft => {Queued, Cancelled}
    case Queued => {Assigned, InProgress, AttentionRequired, Cancelled}
    case Assigned => {Queued, InProgress, AttentionRequired, Cancelled}
    case InProgress => {WaitingConfirmation, AwaitingProposerClose, AttentionRequired, Cancelled}
    case WaitingConfirmation => {InProgress, AttentionRequired, Cancelled}
    case AwaitingProposerClose => {InProgress, Assigned, AttentionRequired, Closed, Cancelled}
    case AttentionRequired => {Queued, Assigned, InProgress, Cancelled}
    case Closed => {}
    case Cancelled => {}
  }

  // A repeated request for the current state is allowed.
  predicate CanTransition(current: TaskState, target: TaskState) {
    current == target || target in Targets(current)
  }

  predicate Terminal(s: TaskState) {
    s == Closed || s == Cancelled
  }

  ghost predicate LegalPath(path: seq<TaskState>) {
    forall i :: 0 < i < |path| ==> CanTransition(path[i - 1], path[i])
  }

  // Whatever legal steps a task takes, it stays in the terminal state it once reached, and it
  // can only be closed by way of a delivered result.
  lemma {:induction false} PathsEndAtTerminalsAndCloseAfterDelivery(path: seq<TaskState>, i: nat, j: nat)
    requires LegalPath(path)
    requires i <= j < |path|
    ensures Terminal(path[i]) ==> path[j] == path[i]
    ensures path[i] != Closed && path[j] == Closed ==>
              exists k :: i <= k < j && path[k] == AwaitingProposerClose
  {
    if i == j {
    } else {
      PathsEndAtTerminalsAndCloseAfterDelivery(path, i, j - 1);
      assert CanTransition(path[j - 1], path[j]);
    }
  }
}

module RunStates {

  datatype RunState = Queued | Running | WaitingConfirmation | Completed | Failed | Cancelled

  function Targets(current: RunState): set<RunState> {
    match current
    case Queued => {Running, Failed, Cancelled}
    case Running => {WaitingConfirmation, Completed, Failed, Cancelled}
    case WaitingConfirmation => {Running, Failed, Cancelled}
    case Completed => {}
    case Failed => {}
    case Cancelled => {}
  }

  predicate CanTransition(current: RunState, target: RunState) {
    current == target || target in Targets(current)
  }

  predicate Terminal(s: RunState) {
    s == Completed || s == Failed || s == Cancelled
  }

  // The states counted as active by every concurrency limit.
  predicate Active(s: RunState) {
    s == Queued || s == Running || s == WaitingConfirmation
  }

  // A run is active exactly as long as something can still become of it.
  lemma ActiveIffUnfinished(s: RunState)
    ensures Active(s) <==> exists next :: next != s && CanTransition(s, next)
    ensures Terminal(s) <==> !Active(s)
  {
    assert CanTransition(Queued, Running) && CanTransition(Running, Failed) && CanTransition(WaitingConfirmation, Running);
  }
}
