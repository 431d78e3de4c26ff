// How a delivery of a run ends, told from its inputs: the state it was in, the replies of the model,
// the answers of the store and the tools, and what the user does meanwhile.
module ToolOutcomes {
  import opened Options
  import opened ToolLoop
  import R = RunStates

  // ---------------------------------------------------------------- one tool call

  // The call is carried out: counted within the limit, authorized without confirmation, well formed,
  // and allowed by the task's budget, the tool's rate and the record of invocations.
  predicate IsCarriedOut(s: Loop, call: Call) {
    && s.used + 1 <= s.limit && (call.kind == TaskTool || call.kind == Plain) && call.arguments.Some?
    && call.budgetLeft && call.recorded && (call.kind == Plain ==> call.rateLeft)
  }

  // A confirmation is created: the same for a gated call, under a call id that is new in this run.
  predicate IsAskedFor(s: Loop, call: Call) {
    && s.used + 1 <= s.limit && call.kind == Gated && call.arguments.Some? && call.budgetLeft
    && forall k :: 0 <= k < |s.confirmations| ==> s.confirmations[k].callId != CallId(call, s.used + 1)
  }

  // What one tool call does to a run that is being worked on, cancelled meanwhile or not.
  lemma CallOutcome(s: Loop, call: Call)
    requires s.status == Going && (s.run == R.Running || s.run == R.Cancelled)
    ensures var s', cancelled := OnCall(s, call), s.run == R.Cancelled || call.userCancels;
            && s'.used == s.used + 1 && s'.limit == s.limit
            && s'.run == (if cancelled then R.Cancelled
                          else if s.used + 1 > s.limit then R.Failed
                          else if IsAskedFor(s, call) then (if call.outcome == Crashes then R.Running else R.WaitingConfirmation)
                          else if IsCarriedOut(s, call) && call.outcome == StopsRun then R.Cancelled
                          else R.Running)
            && s'.executions == s.executions +
                 (if IsCarriedOut(s, call) then [Execution(call.tool, call.kind, call.arguments.value, None)] else [])
            && s'.confirmations == s.confirmations +
                 (if IsAskedFor(s, call)
                  then [Confirmation(CallId(call, s.used + 1), call.tool, call.arguments.value, s.used + 1, Pending, None)] else [])
            && (s'.status == Going <==>
                  && s.used + 1 <= s.limit
                  && (IsCarriedOut(s, call) ==> call.outcome == Returns)
                  && (IsAskedFor(s, call) ==> cancelled && call.outcome != Crashes))
  {
    assert IsAskedFor(s, call) <==>
        s.used + 1 <= s.limit && call.kind == Gated && call.arguments.Some? && call.budgetLeft && !Asked(s.confirmations, CallId(call, s.used + 1));
    hide CallId;
  }

  // ---------------------------------------------------------------- how a run is completed

  // The model answers without asking for a tool, in a round that is reached, and the run is not
  // cancelled then.
  ghost predicate AnsweredIn(s: Loop, turns: seq<Turn>) {
    exists k: nat :: AnswersAt(s, turns, k)
  }

  predicate AnswersAt(s: Loop, turns: seq<Turn>, k: nat) {
    && k < s.limit + 1
    && Rounds(s, turns, k).status == Going && Rounds(s, turns, k).run == R.Running
    && TurnAt(turns, k).Reply? && TurnAt(turns, k).calls == [] && !TurnAt(turns, k).userCancels
  }

  predicate InHand(s: Loop) {
    s.run == R.Running || s.run == R.Cancelled
  }

  lemma {:induction false} CallsStayInHand(s: Loop, calls: seq<Call>)
    requires s.status == Going && InHand(s)
    ensures OnCalls(s, calls).run != R.Completed && OnCalls(s, calls).status != Answered
    ensures OnCalls(s, calls).status == Going ==> InHand(OnCalls(s, calls))
    ensures OnCalls(s, calls).limit == s.limit
  {
    hide OnCall;
    if calls == [] {
    } else {
      CallsStayInHand(s, calls[..|calls| - 1]);
      var rest := OnCalls(s, calls[..|calls| - 1]);
      if rest.status == Going {
        CallOutcome(rest, calls[|calls| - 1]);
        NotAnswered(rest, calls[|calls| - 1]);
      }
    }
  }

  lemma NotAnswered(s: Loop, call: Call)
    requires s.status == Going
    ensures OnCall(s, call).status != Answered
  {
    hide CallId, Asked;
  }

  lemma TurnStaysInHand(s: Loop, turn: Turn)
    requires s.status == Going && InHand(s)
    ensures var s' := OnTurn(s, turn);
            && s'.run != R.Completed && s'.limit == s.limit
            && (s'.status == Going ==> InHand(s'))
            && (s'.status == Answered ==> InHand(s'))
            && (s'.status == Answered && s'.run == R.Running <==>
                  s.run == R.Running && turn.Reply? && turn.calls == [] && !turn.userCancels)
  {
    if turn.Reply? {
      CallsStayInHand(if turn.userCancels then Moved(s, R.Cancelled) else s, turn.calls);
    }
  }

  lemma {:induction false} RoundsStayInHand(s: Loop, turns: seq<Turn>, k: nat)
    requires s.status == Going && InHand(s)
    ensures var s' := Rounds(s, turns, k);
            s'.run != R.Completed && s'.limit == s.limit && (s'.status == Going || s'.status == Answered ==> InHand(s'))
  {
    if k == 0 {
    } else {
      RoundsStayInHand(s, turns, k - 1);
      if Rounds(s, turns, k - 1).status == Going {
        TurnStaysInHand(Rounds(s, turns, k - 1), TurnAt(turns, k - 1));
      }
    }
  }

  lemma {:induction false} LastRound(s: Loop, turns: seq<Turn>, n: nat) returns (k: nat)
    requires s.status == Going && Rounds(s, turns, n).status != Going
    ensures k < n && Rounds(s, turns, k).status == Going
    ensures Rounds(s, turns, n) == OnTurn(Rounds(s, turns, k), TurnAt(turns, k))
  {
    hide OnTurn;
    if Rounds(s, turns, n - 1).status == Going {
      k := n - 1;
    } else {
      k := LastRound(s, turns, n - 1);
    }
  }

  // The loop completes a run exactly when the model answered it, uncancelled, in a round it reached.
  lemma LoopCompletesIff(s: Loop, turns: seq<Turn>)
    requires s.status == Going && InHand(s)
    ensures Loops(s, turns).run == R.Completed <==> AnsweredIn(s, turns)
  {
    hide OnTurn, Rounds;
    var n := RoundsAllowed(s.limit);
    RoundsStayInHand(s, turns, n);
    if k: nat :| AnswersAt(s, turns, k) {
      TurnStaysInHand(Rounds(s, turns, k), TurnAt(turns, k));
      NextRound(s, turns, k);
      RoundsEndedEarly(s, turns, k + 1, n);
    }
    if Rounds(s, turns, n).status == Answered && Rounds(s, turns, n).run == R.Running {
      var k := LastRound(s, turns, n);
      RoundsStayInHand(s, turns, k);
      TurnStaysInHand(Rounds(s, turns, k), TurnAt(turns, k));
      assert AnswersAt(s, turns, k);
    }
  }

  lemma NextRound(s: Loop, turns: seq<Turn>, k: nat)
    requires Rounds(s, turns, k).status == Going
    ensures Rounds(s, turns, k + 1) == OnTurn(Rounds(s, turns, k), TurnAt(turns, k))
  {
    hide OnTurn;
  }

  // ---------------------------------------------------------------- deliveries

  // The delivery finds the run in a state it may start from.
  predicate Begins(s: Loop, e: Event) {
    && e.Delivered?
    && (if e.recover then s.run == R.Queued || s.run == R.Running
        else if e.resume then s.run == R.WaitingConfirmation else s.run == R.Queued)
  }

  // The confirmation approved last is the one resumed.
  predicate IsLatestApproved(confirmations: seq<Confirmation>, c: nat) {
    && c < |confirmations| && confirmations[c].state == Approved
    && forall k :: c < k < |confirmations| ==> confirmations[k].state != Approved
  }

  lemma {:induction false} LatestApprovedIsLatest(confirmations: seq<Confirmation>)
    ensures var r := LatestApproved(confirmations);
            && (r.Some? ==> IsLatestApproved(confirmations, r.value))
            && (r.None? <==> forall k :: 0 <= k < |confirmations| ==> confirmations[k].state != Approved)
  {
    if confirmations == [] {
    } else {
      LatestApprovedIsLatest(confirmations[..|confirmations| - 1]);
    }
  }

  // The state in which the loop over the model's replies begins, if the delivery gets there: with the
  // count started anew, or taken over from the approved call that was carried out before.
  ghost predicate LoopBegins(s: Loop, e: Event, s1: Loop) {
    && Begins(s, e)
    && (if !e.resume then s1 == s.(run := R.Running, used := 0, status := Going)
        else exists c: nat :: ResumesWith(s, e, c, s1))
  }

  predicate ResumesWith(s: Loop, e: Event, c: nat, s1: Loop)
    requires e.Delivered?
  {
    && IsLatestApproved(s.confirmations, c) && !e.replay.crashes
    && (var row, allowed := s.confirmations[c], e.replay.budgetLeft && e.replay.rateLeft && e.replay.recorded;
        && (allowed ==> !e.replay.raises)
        && s1 == s.(run := R.Running, used := row.used, status := Going,
                    executions := s.executions + (if allowed then [Execution(row.tool, Gated, row.arguments, Some(c))] else []),
                    confirmations := s.confirmations[c := row.(state := Executed)]))
  }

  lemma DeliveryReachesLoop(s: Loop, e: Event, s1: Loop)
    requires LoopBegins(s, e, s1)
    ensures OnEvent(s, e) == Loops(s1, e.turns) && s1.status == Going && s1.run == R.Running
    ensures s1.limit == s.limit
  {
    hide Loops;
    LatestApprovedIsLatest(s.confirmations);
    if e.resume {
      var c: nat :| ResumesWith(s, e, c, s1);
      assert LatestApproved(s.confirmations) == Some(c);
      assert CarryOut(s.(run := R.Running, used := 0, status := Going), c, e.replay) == s1;
    }
  }

  // Short of the loop a delivery changes nothing, fails the run, or leaves it to a recovery.
  lemma DeliveryWithoutLoop(s: Loop, e: Event)
    requires e.Delivered?
    ensures var s' := OnEvent(s, e);
            || (exists s1 :: LoopBegins(s, e, s1))
            || (!Begins(s, e) && s' == s)
            || (Begins(s, e) && e.resume && (exists c: nat :: IsLatestApproved(s.confirmations, c)) &&
                s'.run == if e.replay.crashes then R.Running else R.Failed)
            || (Begins(s, e) && e.resume && (forall k :: 0 <= k < |s.confirmations| ==> s.confirmations[k].state != Approved) &&
                s'.run == R.Failed && s'.executions == s.executions && s'.confirmations == s.confirmations)
  {
    hide Loops;
    LatestApprovedIsLatest(s.confirmations);
    var s0 := s.(run := R.Running, used := 0, status := Going);
    if Begins(s, e) {
      if !e.resume {
        assert LoopBegins(s, e, s0);
      } else if LatestApproved(s.confirmations).Some? {
        var c := LatestApproved(s.confirmations).value;
        var s2 := CarryOut(s0, c, e.replay);
        if s2.status == Going {
          assert ResumesWith(s, e, c, s2);
          assert LoopBegins(s, e, s2);
        }
      }
    }
  }

  // A delivery is answered without a cancellation.
  ghost predicate IsAnswered(s: Loop, e: Event) {
    exists s1 :: LoopBegins(s, e, s1) && AnsweredIn(s1, e.turns)
  }

  // An event completes a run that was not completed exactly when it is such a delivery.
  lemma EventCompletesIff(s: Loop, e: Event)
    ensures OnEvent(s, e).run == R.Completed <==> s.run == R.Completed || IsAnswered(s, e)
  {
    match e
    case Delivered(_, _, _, _) =>
      hide OnEvent, AnsweredIn;
      DeliveryWithoutLoop(s, e);
      forall s1 | LoopBegins(s, e, s1)
        ensures OnEvent(s, e).run == R.Completed <==> AnsweredIn(s1, e.turns)
        ensures s.run != R.Completed
      {
        DeliveryReachesLoop(s, e, s1);
        LoopCompletesIff(s1, e.turns);
      }
    case Decided(c, hash, approve) =>
    case Cancelled =>
  }

  // Over every history a run is completed exactly when some delivery of it was answered by the model
  // while it was not cancelled.
  lemma {:induction false} CompletedIffAnswered(limit: int, events: seq<Event>)
    ensures After(limit, events).run == R.Completed <==>
              exists i :: 0 <= i < |events| && IsAnswered(After(limit, events[..i]), events[i])
  {
    hide OnEvent, IsAnswered;
    if events == [] {
      assert After(limit, events).run == R.Queued;
    } else {
      var before, n := events[..|events| - 1], |events| - 1;
      CompletedIffAnswered(limit, before);
      EventCompletesIff(After(limit, before), events[n]);
      assert forall i :: 0 <= i < n ==> before[..i] == events[..i] && before[i] == events[i];
      if After(limit, before).run == R.Completed {
        var i :| 0 <= i < n && IsAnswered(After(limit, before[..i]), before[i]);
        assert IsAnswered(After(limit, events[..i]), events[i]);
      }
      if i :| 0 <= i < |events| && IsAnswered(After(limit, events[..i]), events[i]) {
        if i < n {
          assert IsAnswered(After(limit, before[..i]), before[i]);
        }
      }
    }
  }

  // ---------------------------------------------------------------- the other endings, from the inputs

  // A call that lets the model be asked again: denied, malformed, or carried out and answered.
  predicate Smooth(call: Call) {
    && !call.userCancels
    && (call.kind == Unauthorized || call.arguments.None? || !call.budgetLeft ||
        (call.kind != Gated && (!call.recorded || (call.kind == Plain && !call.rateLeft) || call.outcome == Returns)))
  }

  predicate AllSmooth(calls: seq<Call>) {
    forall i :: 0 <= i < |calls| ==> Smooth(calls[i])
  }

  // The first k replies each ask for tools, smoothly.
  predicate SmoothTurns(turns: seq<Turn>, k: nat) {
    k <= |turns| && forall i :: 0 <= i < k ==>
      turns[i].Reply? && turns[i].calls != [] && !turns[i].userCancels && AllSmooth(turns[i].calls)
  }

  // How many calls they ask for.
  function CallsIn(turns: seq<Turn>, k: nat): nat
    requires SmoothTurns(turns, k)
  {
    if k == 0 then 0 else CallsIn(turns, k - 1) + |turns[k - 1].calls|
  }

  lemma {:induction false} SmoothCalls(s: Loop, calls: seq<Call>)
    requires s.status == Going && s.run == R.Running && AllSmooth(calls) && s.used + |calls| <= s.limit
    ensures var s' := OnCalls(s, calls);
            s'.status == Going && s'.run == R.Running && s'.used == s.used + |calls| && s'.limit == s.limit
  {
    hide OnCall;
    if calls == [] {
    } else {
      SmoothCalls(s, calls[..|calls| - 1]);
      CallOutcome(OnCalls(s, calls[..|calls| - 1]), calls[|calls| - 1]);
    }
  }

  lemma {:induction false} SmoothRounds(s: Loop, turns: seq<Turn>, k: nat)
    requires s.status == Going && s.run == R.Running && SmoothTurns(turns, k) && s.used + CallsIn(turns, k) <= s.limit
    ensures var s' := Rounds(s, turns, k);
            s'.status == Going && s'.run == R.Running && s'.used == s.used + CallsIn(turns, k) && s'.limit == s.limit
    ensures k <= CallsIn(turns, k)
  {
    if k == 0 {
    } else {
      SmoothRounds(s, turns, k - 1);
      SmoothCalls(Rounds(s, turns, k - 1), turns[k - 1].calls);
    }
  }

  // Calls up to one that ends the loop.
  lemma {:induction false} CallsEndAt(s: Loop, calls: seq<Call>, j: nat)
    requires s.status == Going && j < |calls| && OnCalls(s, calls[..j + 1]).status != Going
    ensures OnCalls(s, calls) == OnCalls(s, calls[..j + 1])
    decreases |calls|
  {
    hide OnCall;
    if |calls| == j + 1 {
      assert calls[..j + 1] == calls;
    } else {
      assert calls[..|calls| - 1][..j + 1] == calls[..j + 1];
      CallsEndAt(s, calls[..|calls| - 1], j);
    }
  }

  // The j-th call of a round, after smooth ones.
  lemma CallsEndWith(s: Loop, calls: seq<Call>, j: nat)
    requires s.status == Going && s.run == R.Running && j < |calls| && AllSmooth(calls[..j]) && s.used + j <= s.limit
    ensures var s' := OnCalls(s, calls[..j]);
            && s'.status == Going && s'.run == R.Running && s'.used == s.used + j && s'.limit == s.limit
            && (OnCall(s', calls[j]).status != Going ==> OnCalls(s, calls) == OnCall(s', calls[j]))
  {
    hide OnCall;
    SmoothCalls(s, calls[..j]);
    assert calls[..j + 1][..j] == calls[..j];
    if OnCall(OnCalls(s, calls[..j]), calls[j]).status != Going {
      CallsEndAt(s, calls, j);
    }
  }

  lemma LoopEndsAt(s: Loop, turns: seq<Turn>, k: nat)
    requires s.status == Going && k < s.limit + 1 && Rounds(s, turns, k).status == Going
    requires OnTurn(Rounds(s, turns, k), TurnAt(turns, k)).status != Going
    ensures var s' := OnTurn(Rounds(s, turns, k), TurnAt(turns, k));
            s'.status != OutOfTurns ==> Loops(s, turns) == if s'.status == Answered then Moved(s', R.Completed) else s'
  {
    hide OnTurn;
    NextRound(s, turns, k);
    RoundsEndedEarly(s, turns, k + 1, RoundsAllowed(s.limit));
  }

  predicate Overruns(turn: Turn, used: int, limit: int) {
    turn.Reply? && turn.calls != [] && !turn.userCancels && AllSmooth(turn.calls) && used + |turn.calls| > limit
  }

  // A queued run, delivered: after k rounds of smooth calls within its limit, the next round decides.
  // An answer completes the run; an unreachable model or a call over the limit fails it; a worker that
  // dies leaves it running; a cancellation that is noticed ends it cancelled.
  lemma FreshDeliveryEnds(s: Loop, replay: Replay, turns: seq<Turn>, k: nat)
    requires s.run == R.Queued && SmoothTurns(turns, k) && CallsIn(turns, k) <= s.limit
    ensures var s', turn := OnEvent(s, Delivered(false, false, replay, turns)), TurnAt(turns, k);
            && (turn.Reply? && turn.calls == [] && !turn.userCancels ==> s'.run == R.Completed)
            && (turn.Reply? && turn.userCancels && turn.streamed ==> s'.run == R.Cancelled)
            && (turn.Offline? ==> s'.run == R.Failed)
            && (turn.Died? ==> s'.run == R.Running)
            && (Overruns(turn, CallsIn(turns, k), s.limit) ==> s'.run == R.Failed)
  {
    hide Loops;
    var s1 := s.(run := R.Running, used := 0, status := Going);
    var turn := TurnAt(turns, k);
    SmoothRounds(s1, turns, k);
    var t := Rounds(s1, turns, k);
    if Overruns(turn, CallsIn(turns, k), s.limit) {
      var j := s.limit - CallsIn(turns, k);
      CallsEndWith(t, turn.calls, j);
      CallOutcome(OnCalls(t, turn.calls[..j]), turn.calls[j]);
      OverrunIsNamed(OnCalls(t, turn.calls[..j]), turn.calls[j]);
      LoopEndsAt(s1, turns, k);
    } else if (turn.Reply? && (turn.calls == [] || (turn.userCancels && turn.streamed))) || turn.Offline? || turn.Died? {
      LoopEndsAt(s1, turns, k);
    }
  }

  lemma OverrunIsNamed(s: Loop, call: Call)
    requires s.status == Going
    ensures OnCall(s, call).status in {Going, OverBudget, Suspended, Stopped, Dead}
  {
    hide CallId, Asked;
  }

  // And the calls of that round: after smooth ones within the limit, one that asks for a confirmation
  // leaves the run waiting for it, and one whose tool stops the run leaves it cancelled.
  lemma FreshDeliveryEndsInRound(s: Loop, replay: Replay, turns: seq<Turn>, k: nat, j: nat)
    requires s.run == R.Queued && s.confirmations == [] && SmoothTurns(turns, k)
    requires TurnAt(turns, k).Reply? && !TurnAt(turns, k).userCancels && j < |TurnAt(turns, k).calls|
    requires AllSmooth(TurnAt(turns, k).calls[..j]) && CallsIn(turns, k) + j + 1 <= s.limit
    ensures var s', call := OnEvent(s, Delivered(false, false, replay, turns)), TurnAt(turns, k).calls[j];
            && (call.kind == Gated && call.arguments.Some? && call.budgetLeft && call.outcome != Crashes && !call.userCancels ==>
                  && s'.run == R.WaitingConfirmation && |s'.confirmations| == 1
                  && s'.confirmations[0].state == Pending && s'.confirmations[0].tool == call.tool
                  && s'.confirmations[0].arguments == call.arguments.value
                  && s'.confirmations[0].used == CallsIn(turns, k) + j + 1)
            && (call.kind == TaskTool && call.arguments.Some? && call.budgetLeft && call.recorded && call.outcome == StopsRun ==>
                  s'.run == R.Cancelled)
  {
    hide Loops, OnCall;
    var s1 := s.(run := R.Running, used := 0, status := Going);
    var turn := TurnAt(turns, k);
    var call := turn.calls[j];
    SmoothRounds(s1, turns, k);
    SmoothRoundsAskNothing(s1, turns, k);
    var t := Rounds(s1, turns, k);
    CallsEndWith(t, turn.calls, j);
    SmoothCallsAskNothing(t, turn.calls[..j]);
    CallOutcome(OnCalls(t, turn.calls[..j]), call);
    OverrunIsNamed(OnCalls(t, turn.calls[..j]), call);
    if OnCall(OnCalls(t, turn.calls[..j]), call).status != Going {
      LoopEndsAt(s1, turns, k);
    }
  }

  lemma {:induction false} SmoothCallsAskNothing(s: Loop, calls: seq<Call>)
    requires s.status == Going && s.run == R.Running && AllSmooth(calls) && s.used + |calls| <= s.limit
    ensures OnCalls(s, calls).confirmations == s.confirmations
  {
    hide OnCall;
    if calls == [] {
    } else {
      SmoothCallsAskNothing(s, calls[..|calls| - 1]);
      SmoothCalls(s, calls[..|calls| - 1]);
      CallOutcome(OnCalls(s, calls[..|calls| - 1]), calls[|calls| - 1]);
    }
  }

  lemma {:induction false} SmoothRoundsAskNothing(s: Loop, turns: seq<Turn>, k: nat)
    requires s.status == Going && s.run == R.Running && SmoothTurns(turns, k) && s.used + CallsIn(turns, k) <= s.limit
    ensures Rounds(s, turns, k).confirmations == s.confirmations
  {
    if k == 0 {
    } else {
      SmoothRoundsAskNothing(s, turns, k - 1);
      SmoothRounds(s, turns, k - 1);
      SmoothCallsAskNothing(Rounds(s, turns, k - 1), turns[k - 1].calls);
    }
  }

  // ---------------------------------------------------------------- what the user does

  // A decision counts exactly for a pending confirmation and the arguments on record. An approval marks
  // it and moves nothing else; a rejection also cancels the run, as the user's cancellation does, unless
  // the run has completed or failed.
  lemma UserOutcome(s: Loop, c: nat, hash: Arguments, approve: bool)
    ensures var s', stopped := OnEvent(s, Decided(c, hash, approve)), if s.run in {R.Completed, R.Failed} then s.run else R.Cancelled;
            if c < |s.confirmations| && s.confirmations[c].state == Pending && s.confirmations[c].arguments == hash
            then if approve
                 then s' == s.(confirmations := s.confirmations[c := s.confirmations[c].(state := Approved, agreedTo := Some(hash))])
                 else s' == s.(run := stopped, confirmations := s.confirmations[c := s.confirmations[c].(state := Rejected)])
            else s' == s
    ensures OnEvent(s, Cancelled) == s.(run := if s.run in {R.Completed, R.Failed} then s.run else R.Cancelled)
  {
  }
}
