// The orchestrator of one run as it works: nested loops that update the run's rows and the counter of
// tool calls in place, proved to compute the tool loop's specification.
module Orchestration {
  import opened Options
  import opened ToolLoop
  import R = RunStates

  class Orchestrator {
    const limit: int
    var run: R.RunState
    var used: int
    var confirmations: seq<Confirmation>
    var executions: seq<Execution>
    var status: Status

    function State(): Loop
      reads this
    {
      Loop(limit, run, used, confirmations, executions, status)
    }

    constructor (limit: int)
      ensures State() == After(limit, [])
    {
      this.limit := limit;
      run, used, confirmations, executions, status := R.Queued, 0, [], [], Answered;
    }

    method UpdateRun(target: R.RunState)
      modifies this`run
      ensures State() == Moved(old(State()), target)
    {
      if R.CanTransition(run, target) {
        run := target;
      }
    }

    method CreateConfirmation(call: Call, arguments: Arguments) returns (created: bool)
      modifies this`confirmations
      ensures created == !Asked(old(confirmations), CallId(call, used))
      ensures confirmations == old(confirmations) +
                if created then [Confirmation(CallId(call, used), call.tool, arguments, used, Pending, None)] else []
    {
      var callId := CallId(call, used);
      created := true;
      for k := 0 to |confirmations|
        invariant created == !exists j :: 0 <= j < k && confirmations[j].callId == callId
      {
        if confirmations[k].callId == callId {
          created := false;
        }
      }
      if created {
        confirmations := confirmations + [Confirmation(callId, call.tool, arguments, used, Pending, None)];
      }
    }

    // One tool call of the inner loop.
    method HandleCall(call: Call)
      modifies this
      ensures State() == OnCall(old(State()), call)
    {
      if call.userCancels {
        UpdateRun(R.Cancelled);
      }
      used := used + 1;
      if used > limit {
        UpdateRun(R.Failed);
        status := OverBudget;
      } else if call.kind == Unauthorized || call.arguments.None? || !call.budgetLeft {
        // The model is told that the call was denied or malformed.
      } else if call.kind == Gated {
        var created := CreateConfirmation(call, call.arguments.value);
        if created {
          if call.outcome == Crashes {
            status := Dead;
          } else if R.CanTransition(run, R.WaitingConfirmation) {
            run := R.WaitingConfirmation;
            status := Suspended;
          }
        }
      } else if (call.kind == Plain && !call.rateLeft) || !call.recorded {
        // Denied: the tool's or the task's limit is reached.
      } else {
        executions := executions + [Execution(call.tool, call.kind, call.arguments.value, None)];
        if call.outcome == StopsRun {
          UpdateRun(R.Cancelled);
          status := Stopped;
        } else if call.outcome == Crashes {
          status := Dead;
        }
      }
    }

    method HandleTurn(turn: Turn)
      requires status == Going
      modifies this
      ensures State() == OnTurn(old(State()), turn)
    {
      match turn
      case Offline =>
        UpdateRun(R.Failed);
        status := Failing;
      case Died => status := Dead;
      case Reply(calls, userCancels, streamed) =>
        if userCancels {
          UpdateRun(R.Cancelled);
        }
        if streamed && run == R.Cancelled {
          status := Stopped;
        } else if calls == [] {
          status := Answered;
        } else {
          HandleCalls(calls);
        }
    }

    method HandleCalls(calls: seq<Call>)
      requires status == Going
      modifies this
      ensures State() == OnCalls(old(State()), calls)
    {
      var i := 0;
      while i < |calls| && status == Going
        invariant 0 <= i <= |calls|
        invariant State() == OnCalls(old(State()), calls[..i])
      {
        HandleCall(calls[i]);
        assert calls[..i + 1][..i] == calls[..i];
        i := i + 1;
      }
      EndedEarly(old(State()), calls, i);
      assert calls[..|calls|] == calls;
    }

    // The loop of turns with its else branch, then the bookkeeping after an answer.
    method LoopTurns(turns: seq<Turn>)
      requires status == Going
      modifies this
      ensures State() == Loops(old(State()), turns)
    {
      var k := 0;
      while k < limit + 1 && status == Going
        invariant 0 <= k <= RoundsAllowed(limit)
        invariant State() == Rounds(old(State()), turns, k)
        invariant status != Going ==> k > 0
      {
        HandleTurn(TurnAt(turns, k));
        k := k + 1;
      }
      RoundsEndedEarly(old(State()), turns, k, RoundsAllowed(limit));
      if status == Going {
        UpdateRun(R.Failed);
        status := OutOfTurns;
      } else if status == Answered {
        UpdateRun(R.Completed);
      }
    }

    method OrchestrateRun(recover: bool, resume: bool, replay: Replay, turns: seq<Turn>)
      modifies this
      ensures State() == OnEvent(old(State()), Delivered(recover, resume, replay, turns))
    {
      if !MayStart(run, recover, resume) {
        return;
      }
      run, used, status := R.Running, 0, Going;
      if resume {
        var c := |confirmations| - 1;
        assert confirmations[..c + 1] == confirmations;
        while c >= 0 && confirmations[c].state != Approved
          invariant -1 <= c < |confirmations|
          invariant LatestApproved(confirmations) == LatestApproved(confirmations[..c + 1])
        {
          assert confirmations[..c + 1][..c] == confirmations[..c];
          c := c - 1;
        }
        if c < 0 {
          UpdateRun(R.Failed);
          status := Failing;
          return;
        }
        assert LatestApproved(confirmations) == Some(c);
        CarryOutApproved(c, replay);
        if status != Going {
          return;
        }
      }
      LoopTurns(turns);
    }

    method CarryOutApproved(c: nat, replay: Replay)
      requires c < |confirmations|
      modifies this
      ensures State() == CarryOut(old(State()), c, replay)
    {
      var row := confirmations[c];
      used := row.used;
      var carriedOut := replay.budgetLeft && replay.rateLeft && replay.recorded;
      if carriedOut {
        executions := executions + [Execution(row.tool, Gated, row.arguments, Some(c))];
      }
      if replay.crashes {
        status := Dead;
      } else if carriedOut && replay.raises {
        UpdateRun(R.Failed);
        status := Failing;
      } else {
        confirmations := confirmations[c := row.(state := Executed)];
      }
    }

    method DecideConfirmation(c: nat, hash: Arguments, approve: bool) returns (accepted: bool)
      modifies this
      ensures State() == OnEvent(old(State()), Decided(c, hash, approve))
      ensures accepted <==> c < |old(confirmations)| && old(confirmations)[c].state == Pending && old(confirmations)[c].arguments == hash
    {
      accepted := c < |confirmations| && confirmations[c].state == Pending && confirmations[c].arguments == hash;
      if accepted {
        if approve {
          confirmations := confirmations[c := confirmations[c].(state := Approved, agreedTo := Some(hash))];
        } else {
          confirmations := confirmations[c := confirmations[c].(state := Rejected)];
          UpdateRun(R.Cancelled);
        }
      }
    }
  }

  lemma {:induction false} EndedEarly(s: Loop, calls: seq<Call>, i: nat)
    requires i <= |calls| && (i < |calls| ==> OnCalls(s, calls[..i]).status != Going)
    ensures OnCalls(s, calls) == OnCalls(s, calls[..i])
    decreases |calls| - i
  {
    if i < |calls| {
      assert calls[..i + 1][..i] == calls[..i];
      EndedEarly(s, calls, i + 1);
    } else {
      assert calls[..i] == calls;
    }
  }
}
