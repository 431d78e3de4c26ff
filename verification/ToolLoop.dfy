// The tool loop of one run: turns of a model that ask for tools, confirmations that suspend the run
// and resume it later, and the budget of tool calls.
module ToolLoop {
  import opened Options
  import R = RunStates

  // Parsed arguments; two argument objects have the same hash exactly when they are equal.
  type Arguments = string

  datatype ToolKind = Unauthorized | Gated | TaskTool | Plain

  datatype Outcome = Returns | StopsRun | Crashes

  // One tool call of a model's reply, with what the store, the tool and the user answer to it.
  datatype Call = Call(
    id: string,                       // "" when the model gave none
    kind: ToolKind,
    tool: string,
    arguments: Option<Arguments>,     // None when they are not a JSON object
    budgetLeft: bool,                 // the task's budget allows a call
    rateLeft: bool,                   // the tool's own limit for this run is not reached
    recorded: bool,                   // the invocation could be recorded
    outcome: Outcome,
    userCancels: bool)                // the user cancels the run just before this call

  // One round with the model: what it asks for, whether the user cancels the run meanwhile, and
  // whether anything was streamed, since a cancellation is noticed only then.
  datatype Turn = Reply(calls: seq<Call>, userCancels: bool, streamed: bool) | Offline | Died

  datatype ConfirmationState = Pending | Approved | Rejected | Executed

  datatype Confirmation = Confirmation(
    callId: string, tool: string, arguments: Arguments, used: int, state: ConfirmationState, agreedTo: Option<Arguments>)

  datatype Execution = Execution(tool: string, kind: ToolKind, arguments: Arguments, confirmation: Option<nat>)

  // How the loop stands: still calling the model, or ended in one of the ways it can end.
  datatype Status = Going | Answered | Suspended | OverBudget | OutOfTurns | Failing | Stopped | Dead

  datatype Loop = Loop(
    limit: int,                       // max_tool_calls of the run's policy
    run: R.RunState,
    used: int,
    confirmations: seq<Confirmation>,
    executions: seq<Execution>,
    status: Status)

  function Fresh(limit: int): Loop {
    Loop(limit, R.Queued, 0, [], [], Answered)
  }

  // update_run, when the transition is allowed; it raises otherwise and the caller's state stands.
  function Moved(s: Loop, target: R.RunState): Loop {
    if R.CanTransition(s.run, target) then s.(run := target) else s
  }

  function Ended(s: Loop, target: R.RunState, status: Status): Loop {
    Moved(s, target).(status := status)
  }

  function CallId(call: Call, used: int): string {
    if call.id == "" then "call-" + Decimal(used) else call.id
  }

  function Decimal(n: int): string
    decreases if n < 0 then 1 - n else n
  {
    if n < 0 then "-" + Decimal(-n)
    else if n < 10 then ["0123456789"[n]]
    else Decimal(n / 10) + ["0123456789"[n % 10]]
  }

  predicate Asked(confirmations: seq<Confirmation>, callId: string) {
    exists k :: 0 <= k < |confirmations| && confirmations[k].callId == callId
  }

  // ---------------------------------------------------------------- one call

  // A gated call asks for a confirmation, once per call id, and suspends the run.
  function Ask(s: Loop, call: Call): Loop
    requires call.arguments.Some?
  {
    if Asked(s.confirmations, CallId(call, s.used)) then s
    else
      var row := Confirmation(CallId(call, s.used), call.tool, call.arguments.value, s.used, Pending, None);
      var s1 := s.(confirmations := s.confirmations + [row]);
      if call.outcome == Crashes then s1.(status := Dead)
      else if R.CanTransition(s1.run, R.WaitingConfirmation) then Ended(s1, R.WaitingConfirmation, Suspended)
      else s1
  }

  function Execute(s: Loop, call: Call): Loop
    requires call.arguments.Some?
  {
    var s1 := s.(executions := s.executions + [Execution(call.tool, call.kind, call.arguments.value, None)]);
    match call.outcome
    case Returns => s1
    case StopsRun => Ended(s1, R.Cancelled, Stopped)
    case Crashes => s1.(status := Dead)
  }

  function OnCall(s: Loop, call: Call): Loop {
    var s0 := if call.userCancels then Moved(s, R.Cancelled) else s;
    var s1 := s0.(used := s0.used + 1);
    if s1.used > s1.limit then Ended(s1, R.Failed, OverBudget)
    else if call.kind == Unauthorized || call.arguments.None? || !call.budgetLeft then s1
    else if call.kind == Gated then Ask(s1, call)
    else if (call.kind == Plain && !call.rateLeft) || !call.recorded then s1
    else Execute(s1, call)
  }

  // ---------------------------------------------------------------- the loop

  function OnCalls(s: Loop, calls: seq<Call>): Loop {
    if calls == [] then s
    else
      var rest := OnCalls(s, calls[..|calls| - 1]);
      if rest.status == Going then OnCall(rest, calls[|calls| - 1]) else rest
  }

  function OnTurn(s: Loop, turn: Turn): Loop {
    match turn
    case Offline => Ended(s, R.Failed, Failing)
    case Died => s.(status := Dead)
    case Reply(calls, userCancels, streamed) =>
      var s0 := if userCancels then Moved(s, R.Cancelled) else s;
      if streamed && s0.run == R.Cancelled then s0.(status := Stopped)
      else if calls == [] then s0.(status := Answered)
      else OnCalls(s0, calls)
  }

  // The replies of the model in order; after the last one it cannot be reached.
  function TurnAt(turns: seq<Turn>, k: nat): Turn {
    if k < |turns| then turns[k] else Offline
  }

  // The state after the first k rounds.
  function Rounds(s: Loop, turns: seq<Turn>, k: nat): Loop {
    if k == 0 then s
    else
      var before := Rounds(s, turns, k - 1);
      if before.status == Going then OnTurn(before, TurnAt(turns, k - 1)) else before
  }

  function RoundsAllowed(limit: int): nat {
    if limit + 1 < 0 then 0 else limit + 1
  }

  // The for loop with its else branch, and the bookkeeping after an answer.
  function Loops(s: Loop, turns: seq<Turn>): Loop {
    var s1 := Rounds(s, turns, RoundsAllowed(s.limit));
    if s1.status == Going then Ended(s1, R.Failed, OutOfTurns)
    else if s1.status == Answered then Moved(s1, R.Completed)
    else s1
  }

  // ---------------------------------------------------------------- deliveries and decisions

  // The latest approved confirmation.
  function LatestApproved(confirmations: seq<Confirmation>): (r: Option<nat>)
    ensures r.Some? ==> r.value < |confirmations| && confirmations[r.value].state == Approved
  {
    if confirmations == [] then None
    else if confirmations[|confirmations| - 1].state == Approved then Some(|confirmations| - 1)
    else LatestApproved(confirmations[..|confirmations| - 1])
  }

  // What the store and the tool answer when an approved call is carried out.
  datatype Replay = Replay(budgetLeft: bool, rateLeft: bool, recorded: bool, raises: bool, crashes: bool)

  function CarryOut(s: Loop, c: nat, replay: Replay): Loop
    requires c < |s.confirmations|
  {
    var row := s.confirmations[c];
    var s1 := s.(used := row.used);
    var carriedOut := replay.budgetLeft && replay.rateLeft && replay.recorded;
    var s2 := if carriedOut then s1.(executions := s1.executions + [Execution(row.tool, Gated, row.arguments, Some(c))]) else s1;
    if replay.crashes then s2.(status := Dead)
    else if carriedOut && replay.raises then Ended(s2, R.Failed, Failing)
    else s2.(confirmations := s2.confirmations[c := row.(state := Executed)])
  }

  predicate MayStart(run: R.RunState, recover: bool, resume: bool) {
    if recover then run == R.Queued || run == R.Running
    else if resume then run == R.WaitingConfirmation
    else run == R.Queued
  }

  // orchestrate_run, from the compare-and-set that starts it to its return.
  function Deliver(s: Loop, recover: bool, resume: bool, replay: Replay, turns: seq<Turn>): Loop {
    if !MayStart(s.run, recover, resume) then s
    else
      var s1 := s.(run := R.Running, used := 0, status := Going);
      if !resume then Loops(s1, turns)
      else
        var c := LatestApproved(s1.confirmations);
        if c.None? then Ended(s1, R.Failed, Failing)
        else
          var s2 := CarryOut(s1, c.value, replay);
          if s2.status == Going then Loops(s2, turns) else s2
  }

  // A decision counts only for a pending confirmation and the very arguments it was asked for.
  function Decide(s: Loop, c: nat, hash: Arguments, approve: bool): Loop {
    if c >= |s.confirmations| || s.confirmations[c].state != Pending || s.confirmations[c].arguments != hash then s
    else if approve then s.(confirmations := s.confirmations[c := s.confirmations[c].(state := Approved, agreedTo := Some(hash))])
    else Moved(s.(confirmations := s.confirmations[c := s.confirmations[c].(state := Rejected)]), R.Cancelled)
  }

  datatype Event =
    | Delivered(recover: bool, resume: bool, replay: Replay, turns: seq<Turn>)
    | Decided(confirmation: nat, hash: Arguments, approve: bool)
    | Cancelled

  function OnEvent(s: Loop, e: Event): Loop {
    match e
    case Delivered(recover, resume, replay, turns) => Deliver(s, recover, resume, replay, turns)
    case Decided(c, hash, approve) => Decide(s, c, hash, approve)
    case Cancelled => Moved(s, R.Cancelled)
  }

  function After(limit: int, events: seq<Event>): Loop {
    if events == [] then Fresh(limit) else OnEvent(After(limit, events[..|events| - 1]), events[|events| - 1])
  }

  // ---------------------------------------------------------------- the loop never runs out of turns

  lemma {:induction false} CallsAreCounted(s: Loop, calls: seq<Call>)
    requires OnCalls(s, calls).status == Going
    ensures OnCalls(s, calls).used == s.used + |calls| && OnCalls(s, calls).limit == s.limit
    ensures |calls| > 0 ==> OnCalls(s, calls).used <= s.limit
    ensures s.status == Going
  {
    if calls == [] {
    } else {
      CallsAreCounted(s, calls[..|calls| - 1]);
    }
  }

  lemma {:induction false} RoundsAreCounted(s: Loop, turns: seq<Turn>, k: nat)
    requires Rounds(s, turns, k).status == Going
    ensures s.used + k <= Rounds(s, turns, k).used && Rounds(s, turns, k).limit == s.limit
    ensures k > 0 ==> Rounds(s, turns, k).used <= s.limit
    ensures s.status == Going
  {
    if k == 0 {
    } else {
      RoundsAreCounted(s, turns, k - 1);
      var before, turn := Rounds(s, turns, k - 1), TurnAt(turns, k - 1);
      assert turn.Reply? && turn.calls != [];
      CallsAreCounted(if turn.userCancels then Moved(before, R.Cancelled) else before, turn.calls);
    }
  }

  lemma {:induction false} EndingIsKnown(s: Loop, calls: seq<Call>)
    requires s.status != OutOfTurns
    ensures OnCalls(s, calls).status != OutOfTurns
  {
    if calls == [] {
    } else {
      EndingIsKnown(s, calls[..|calls| - 1]);
    }
  }

  lemma {:induction false} RoundsEndKnown(s: Loop, turns: seq<Turn>, k: nat)
    requires s.status == Going
    ensures Rounds(s, turns, k).status != OutOfTurns
  {
    if k == 0 {
    } else {
      RoundsEndKnown(s, turns, k - 1);
      var turn := TurnAt(turns, k - 1);
      if turn.Reply? {
        var before := Rounds(s, turns, k - 1);
        EndingIsKnown(if turn.userCancels then Moved(before, R.Cancelled) else before, turn.calls);
      }
    }
  }

  // Rounds after one that ended the loop change nothing.
  lemma {:induction false} RoundsEndedEarly(s: Loop, turns: seq<Turn>, k: nat, n: nat)
    requires k <= n && (k < n ==> Rounds(s, turns, k).status != Going)
    ensures Rounds(s, turns, n) == Rounds(s, turns, k)
    decreases n - k
  {
    if k == n {
    } else {
      RoundsEndedEarly(s, turns, k + 1, n);
    }
  }

  // The else branch of the loop is reached exactly when the limit is negative, which the accepted
  // policies, 0 to 20, exclude.
  lemma ElseBranchIffNegativeLimit(s: Loop, turns: seq<Turn>)
    requires s.status == Going && s.used >= 0
    ensures Loops(s, turns).status == OutOfTurns <==> s.limit < 0
  {
    var k := RoundsAllowed(s.limit);
    RoundsEndKnown(s, turns, k);
    if Rounds(s, turns, k).status == Going && s.limit >= 0 {
      RoundsAreCounted(s, turns, k);
    }
  }

  // ---------------------------------------------------------------- confirmations

  // What was approved was approved for exactly the arguments on record, and every gated call that was
  // carried out belongs to such a confirmation.
  ghost predicate Consented(s: Loop) {
    && (forall c :: 0 <= c < |s.confirmations| && s.confirmations[c].state in {Approved, Executed} ==>
                      s.confirmations[c].agreedTo == Some(s.confirmations[c].arguments))
    && (forall i :: 0 <= i < |s.executions| ==> Covered(s.confirmations, s.executions[i]))
  }

  predicate Covered(confirmations: seq<Confirmation>, e: Execution) {
    match e.confirmation
    case None => e.kind != Gated
    case Some(c) =>
      && e.kind == Gated && c < |confirmations|
      && confirmations[c].tool == e.tool && confirmations[c].arguments == e.arguments
      && confirmations[c].agreedTo == Some(e.arguments)
  }

  // Confirmations are only added; their tool and arguments never change.
  predicate KeepsRequests(a: seq<Confirmation>, b: seq<Confirmation>) {
    |a| <= |b| && forall c :: 0 <= c < |a| ==>
      b[c].tool == a[c].tool && b[c].arguments == a[c].arguments && (a[c].agreedTo.Some? ==> b[c].agreedTo == a[c].agreedTo)
  }

  lemma CoveredStays(a: seq<Confirmation>, b: seq<Confirmation>, e: Execution)
    requires KeepsRequests(a, b) && Covered(a, e)
    ensures Covered(b, e)
  {
  }

  // One call, round, loop, delivery or decision changes little: what it carries out is new, and only
  // the delivery itself carries out an approved call.
  ghost predicate Extends(s: Loop, s': Loop) {
    && |s.executions| <= |s'.executions| && s'.executions[..|s.executions|] == s.executions
    && |s.confirmations| <= |s'.confirmations| && s'.confirmations[..|s.confirmations|] == s.confirmations
    && (forall c :: |s.confirmations| <= c < |s'.confirmations| ==> s'.confirmations[c].state == Pending)
    && (forall i :: |s.executions| <= i < |s'.executions| ==> s'.executions[i].confirmation == None && s'.executions[i].kind != Gated)
  }

  lemma ExtendsChains(a: Loop, b: Loop, c: Loop)
    requires Extends(a, b) && Extends(b, c)
    ensures Extends(a, c)
  {
    assert c.executions[..|a.executions|] == c.executions[..|b.executions|][..|a.executions|];
    assert c.confirmations[..|a.confirmations|] == c.confirmations[..|b.confirmations|][..|a.confirmations|];
    forall i | |a.executions| <= i < |c.executions|
      ensures c.executions[i].confirmation == None && c.executions[i].kind != Gated
    {
      if i < |b.executions| {
        assert c.executions[i] == c.executions[..|b.executions|][i];
      }
    }
    forall k | |a.confirmations| <= k < |c.confirmations|
      ensures c.confirmations[k].state == Pending
    {
      if k < |b.confirmations| {
        assert c.confirmations[k] == c.confirmations[..|b.confirmations|][k];
      }
    }
  }

  lemma CallExtends(s: Loop, call: Call)
    ensures Extends(s, OnCall(s, call))
  {
  }

  lemma {:induction false} CallsExtend(s: Loop, calls: seq<Call>)
    ensures Extends(s, OnCalls(s, calls))
  {
    if calls == [] {
    } else {
      hide Extends, OnCall;
      CallsExtend(s, calls[..|calls| - 1]);
      var rest := OnCalls(s, calls[..|calls| - 1]);
      CallExtends(rest, calls[|calls| - 1]);
      ExtendsChains(s, rest, OnCall(rest, calls[|calls| - 1]));
    }
  }

  lemma TurnExtends(s: Loop, turn: Turn)
    ensures Extends(s, OnTurn(s, turn))
  {
    if turn.Reply? {
      CallsExtend(if turn.userCancels then Moved(s, R.Cancelled) else s, turn.calls);
    }
  }

  lemma {:induction false} RoundsExtend(s: Loop, turns: seq<Turn>, k: nat)
    ensures Extends(s, Rounds(s, turns, k))
  {
    if k > 0 {
      hide Extends, OnTurn;
      RoundsExtend(s, turns, k - 1);
      var before := Rounds(s, turns, k - 1);
      TurnExtends(before, TurnAt(turns, k - 1));
      ExtendsChains(s, before, OnTurn(before, TurnAt(turns, k - 1)));
    } else {
      assert Extends(s, s);
    }
  }

  lemma LoopsExtend(s: Loop, turns: seq<Turn>)
    ensures Extends(s, Loops(s, turns))
  {
    RoundsExtend(s, turns, RoundsAllowed(s.limit));
  }

  lemma ExtensionKeepsConsent(s: Loop, s': Loop)
    requires Consented(s) && Extends(s, s')
    ensures Consented(s')
  {
    assert KeepsRequests(s.confirmations, s'.confirmations) by {
      assert forall c :: 0 <= c < |s.confirmations| ==> s'.confirmations[c] == s'.confirmations[..|s.confirmations|][c];
    }
    forall i | 0 <= i < |s'.executions|
      ensures Covered(s'.confirmations, s'.executions[i])
    {
      if i < |s.executions| {
        assert s'.executions[i] == s'.executions[..|s.executions|][i];
        CoveredStays(s.confirmations, s'.confirmations, s.executions[i]);
      }
    }
    forall c | 0 <= c < |s'.confirmations| && s'.confirmations[c].state in {Approved, Executed}
      ensures s'.confirmations[c].agreedTo == Some(s'.confirmations[c].arguments)
    {
      assert s'.confirmations[c] == s.confirmations[c];
    }
  }

  lemma CarryOutKeepsConsent(s: Loop, c: nat, replay: Replay)
    requires Consented(s) && c < |s.confirmations| && s.confirmations[c].state == Approved
    ensures Consented(CarryOut(s, c, replay))
  {
    var s' := CarryOut(s, c, replay);
    assert KeepsRequests(s.confirmations, s'.confirmations);
    forall i | 0 <= i < |s'.executions|
      ensures Covered(s'.confirmations, s'.executions[i])
    {
      if i < |s.executions| {
        assert s'.executions[i] == s.executions[i];
        CoveredStays(s.confirmations, s'.confirmations, s.executions[i]);
      }
    }
  }

  lemma EventKeepsConsent(s: Loop, e: Event)
    requires Consented(s)
    ensures Consented(OnEvent(s, e))
  {
    hide Loops, CarryOut, Consented;
    match e
    case Delivered(recover, resume, replay, turns) =>
      if MayStart(s.run, recover, resume) {
        var s1 := s.(run := R.Running, used := 0, status := Going);
        SameConsent(s, s1);
        if resume {
          var c := LatestApproved(s1.confirmations);
          if c.Some? {
            var s2 := CarryOut(s1, c.value, replay);
            CarryOutKeepsConsent(s1, c.value, replay);
            LoopsExtend(s2, turns);
            ExtensionKeepsConsent(s2, Loops(s2, turns));
          } else {
            SameConsent(s, OnEvent(s, e));
          }
        } else {
          LoopsExtend(s1, turns);
          ExtensionKeepsConsent(s1, Loops(s1, turns));
        }
      }
    case Decided(c, hash, approve) => DecisionKeepsConsent(s, c, hash, approve);
    case Cancelled => SameConsent(s, OnEvent(s, e));
  }

  lemma SameConsent(s: Loop, s': Loop)
    requires Consented(s) && s'.confirmations == s.confirmations && s'.executions == s.executions
    ensures Consented(s')
  {
  }

  lemma DecisionKeepsConsent(s: Loop, c: nat, hash: Arguments, approve: bool)
    requires Consented(s)
    ensures Consented(Decide(s, c, hash, approve))
  {
    var s' := Decide(s, c, hash, approve);
    if s' != s {
      forall i | 0 <= i < |s'.executions|
        ensures Covered(s'.confirmations, s'.executions[i])
      {
        assert Covered(s.confirmations, s.executions[i]);
      }
    }
  }

  // Whatever is delivered, recovered, crashed or cancelled: a gated tool is carried out only for a
  // confirmation the user approved, with exactly the tool and the arguments that were asked for.
  lemma {:induction false} GatedCallsAreApproved(limit: int, events: seq<Event>)
    ensures Consented(After(limit, events))
  {
    if events == [] {
    } else {
      GatedCallsAreApproved(limit, events[..|events| - 1]);
      EventKeepsConsent(After(limit, events[..|events| - 1]), events[|events| - 1]);
    }
  }

  // No confirmation was used twice, and none that could still be resumed was used at all.
  ghost predicate UsedOnce(s: Loop) {
    && (forall i, j :: 0 <= i < j < |s.executions| && s.executions[i].confirmation.Some? ==>
                         s.executions[j].confirmation != s.executions[i].confirmation)
    && (forall i :: 0 <= i < |s.executions| && s.executions[i].confirmation.Some? ==>
                      && s.executions[i].confirmation.value < |s.confirmations|
                      && (s.confirmations[s.executions[i].confirmation.value].state == Executed ||
                          (s.run != R.Queued && s.run != R.WaitingConfirmation)))
  }

  // While the model is being called every used confirmation is marked as executed.
  ghost predicate UsedMarked(s: Loop) {
    UsedOnce(s.(run := R.Queued))
  }

  lemma ExtensionKeepsUse(s: Loop, s': Loop)
    requires UsedMarked(s) && Extends(s, s')
    ensures UsedMarked(s') && UsedOnce(s')
  {
    forall i | 0 <= i < |s.executions|
      ensures s'.executions[i] == s.executions[i]
    {
      assert s'.executions[i] == s'.executions[..|s.executions|][i];
    }
    forall c | 0 <= c < |s.confirmations|
      ensures s'.confirmations[c] == s.confirmations[c]
    {
      assert s'.confirmations[c] == s'.confirmations[..|s.confirmations|][c];
    }
  }

  lemma CarryOutUsesOnce(s: Loop, c: nat, replay: Replay)
    requires UsedMarked(s) && s.run == R.Running && s.status == Going && c < |s.confirmations| && s.confirmations[c].state == Approved
    ensures var s' := CarryOut(s, c, replay); UsedOnce(s') && (s'.status == Going ==> UsedMarked(s'))
  {
  }

  // The redelivery of a run whose worker stopped sending signs of life.
  predicate Recovers(e: Event) {
    e.Delivered? && e.recover
  }

  lemma EventKeepsUse(s: Loop, e: Event)
    requires UsedOnce(s) && !Recovers(e)
    ensures UsedOnce(OnEvent(s, e))
  {
    match e
    case Delivered(recover, resume, replay, turns) => DeliveryKeepsUse(s, resume, replay, turns);
    case Decided(c, hash, approve) =>
    case Cancelled =>
  }

  lemma DeliveryKeepsUse(s: Loop, resume: bool, replay: Replay, turns: seq<Turn>)
    requires UsedOnce(s)
    ensures UsedOnce(Deliver(s, false, resume, replay, turns))
  {
    hide Loops, CarryOut;
    if MayStart(s.run, false, resume) {
      var s1 := s.(run := R.Running, used := 0, status := Going);
      assert UsedMarked(s1);
      if resume {
        var c := LatestApproved(s1.confirmations);
        if c.Some? {
          hide UsedOnce;
          var s2 := CarryOut(s1, c.value, replay);
          CarryOutUsesOnce(s1, c.value, replay);
          if s2.status == Going {
            LoopsExtend(s2, turns);
            ExtensionKeepsUse(s2, Loops(s2, turns));
          }
        }
      } else {
        LoopsExtend(s1, turns);
        ExtensionKeepsUse(s1, Loops(s1, turns));
      }
    }
  }

  // Without recovery every execution of a gated tool uses a confirmation of its own.
  lemma {:induction false} ConfirmationsAreUsedOnce(limit: int, events: seq<Event>)
    requires forall e :: e in events ==> !Recovers(e)
    ensures UsedOnce(After(limit, events))
  {
    if events != [] {
      hide OnEvent, UsedOnce;
      var before := events[..|events| - 1];
      assert forall e :: e in before ==> e in events;
      ConfirmationsAreUsedOnce(limit, before);
      EventKeepsUse(After(limit, before), events[|events| - 1]);
    } else {
      assert UsedOnce(Fresh(limit));
    }
  }

  // A gated call that the run may still ask for.
  predicate CanAsk(s: Loop, call: Call) {
    && s.status == Going && s.run == R.Running && s.used + 1 <= s.limit
    && call.kind == Gated && call.arguments.Some? && call.budgetLeft && call.outcome == Returns && !call.userCancels
    && !Asked(s.confirmations, CallId(call, s.used + 1))
  }

  lemma AskedCallSuspends(s: Loop, call: Call)
    requires CanAsk(s, call)
    ensures var s1 := OnCall(s, call);
            && s1.status == Suspended && s1.run == R.WaitingConfirmation && s1.executions == s.executions
            && |s1.confirmations| == |s.confirmations| + 1
            && s1.confirmations[|s.confirmations|].state == Pending
            && s1.confirmations[|s.confirmations|].tool == call.tool
            && s1.confirmations[|s.confirmations|].arguments == call.arguments.value
  {
  }

  // A gated call suspends the run without being carried out. Approved with its own arguments and
  // resumed, exactly that call is carried out next; rejected, the run is cancelled and a resumption
  // does nothing; approved with other arguments, nothing is decided.
  lemma ApprovalRoundTrip(s: Loop, call: Call, hash: Arguments, approve: bool, turns: seq<Turn>)
    requires CanAsk(s, call)
    ensures var c, args := |s.confirmations|, call.arguments.value;
            var asked := OnCall(s, call);
            var decided := Decide(asked, c, hash, approve);
            var resumed := Deliver(decided, false, true, Replay(true, true, true, false, false), turns);
            && asked.run == R.WaitingConfirmation && asked.executions == s.executions
            && (hash != args ==> decided == asked)
            && (hash == args && !approve ==> decided.run == R.Cancelled && resumed == decided)
            && (hash == args && approve ==>
                  |resumed.executions| > |s.executions| && resumed.executions[..|s.executions| + 1] ==
                    s.executions + [Execution(call.tool, Gated, args, Some(c))])
  {
    hide Loops, OnCall;
    AskedCallSuspends(s, call);
    var asked := OnCall(s, call);
    var decided := Decide(asked, |s.confirmations|, hash, approve);
    if hash == call.arguments.value && approve {
      var s1 := decided.(run := R.Running, used := 0, status := Going);
      var s2 := CarryOut(s1, |s.confirmations|, Replay(true, true, true, false, false));
      LoopsExtend(s2, turns);
      assert s2.executions == s.executions + [Execution(call.tool, Gated, call.arguments.value, Some(|s.confirmations|))];
    }
  }

  // ---------------------------------------------------------------- decisions during a delivery

  function Approve(s: Loop, c: nat, hash: Arguments): Loop {
    Decide(s, c, hash, true)
  }

  lemma ApprovalCommutesWithAsk(s: Loop, call: Call, c: nat, hash: Arguments)
    requires c < |s.confirmations| && call.arguments.Some?
    ensures Ask(Approve(s, c, hash), call) == Approve(Ask(s, call), c, hash)
  {
    hide Asked, CallId;
    SameIds(s, c, hash, CallId(call, s.used));
    var row := Confirmation(CallId(call, s.used), call.tool, call.arguments.value, s.used, Pending, None);
    var decided := s.confirmations[c].(state := Approved, agreedTo := Some(hash));
    assert (s.confirmations + [row])[c] == s.confirmations[c];
    assert s.confirmations[c := decided] + [row] == (s.confirmations + [row])[c := decided];
  }

  lemma ApprovalCommutesWithExecute(s: Loop, call: Call, c: nat, hash: Arguments)
    requires c < |s.confirmations| && call.arguments.Some?
    ensures Execute(Approve(s, c, hash), call) == Approve(Execute(s, call), c, hash)
  {
  }

  lemma ApprovalCommutesWithCall(s: Loop, call: Call, c: nat, hash: Arguments)
    requires c < |s.confirmations|
    ensures OnCall(Approve(s, c, hash), call) == Approve(OnCall(s, call), c, hash)
    ensures |s.confirmations| <= |OnCall(s, call).confirmations|
  {
    hide Ask, Execute;
    var s0 := if call.userCancels then Moved(s, R.Cancelled) else s;
    var s1 := s0.(used := s0.used + 1);
    if call.arguments.Some? {
      ApprovalCommutesWithAsk(s1, call, c, hash);
      ApprovalCommutesWithExecute(s1, call, c, hash);
    }
    CallExtends(s, call);
  }

  lemma SameIds(s: Loop, c: nat, hash: Arguments, callId: string)
    requires c < |s.confirmations|
    ensures Asked(Approve(s, c, hash).confirmations, callId) == Asked(s.confirmations, callId)
  {
    var t := Approve(s, c, hash);
    assert forall k :: 0 <= k < |s.confirmations| ==> t.confirmations[k].callId == s.confirmations[k].callId;
  }

  lemma {:induction false} ApprovalCommutesWithCalls(s: Loop, calls: seq<Call>, c: nat, hash: Arguments)
    requires c < |s.confirmations|
    ensures OnCalls(Approve(s, c, hash), calls) == Approve(OnCalls(s, calls), c, hash)
    ensures |s.confirmations| <= |OnCalls(s, calls).confirmations|
  {
    hide OnCall;
    if calls == [] {
    } else {
      ApprovalCommutesWithCalls(s, calls[..|calls| - 1], c, hash);
      ApprovalCommutesWithCall(OnCalls(s, calls[..|calls| - 1]), calls[|calls| - 1], c, hash);
    }
  }

  lemma ApprovalCommutesWithTurn(s: Loop, turn: Turn, c: nat, hash: Arguments)
    requires c < |s.confirmations|
    ensures OnTurn(Approve(s, c, hash), turn) == Approve(OnTurn(s, turn), c, hash)
    ensures |s.confirmations| <= |OnTurn(s, turn).confirmations|
  {
    if turn.Reply? {
      ApprovalCommutesWithCalls(if turn.userCancels then Moved(s, R.Cancelled) else s, turn.calls, c, hash);
    }
  }

  lemma {:induction false} ApprovalCommutesWithRounds(s: Loop, turns: seq<Turn>, k: nat, c: nat, hash: Arguments)
    requires c < |s.confirmations|
    ensures Rounds(Approve(s, c, hash), turns, k) == Approve(Rounds(s, turns, k), c, hash)
    ensures |s.confirmations| <= |Rounds(s, turns, k).confirmations|
  {
    hide OnTurn;
    if k == 0 {
    } else {
      ApprovalCommutesWithRounds(s, turns, k - 1, c, hash);
      ApprovalCommutesWithTurn(Rounds(s, turns, k - 1), TurnAt(turns, k - 1), c, hash);
    }
  }

  // An approval given after any number of rounds of the loop, for a confirmation that was there when
  // they began, might as well have been given before them or after the loop.
  lemma ApprovalCommutesWithLoop(s: Loop, turns: seq<Turn>, k: nat, c: nat, hash: Arguments)
    requires c < |s.confirmations|
    ensures Rounds(Approve(s, c, hash), turns, k) == Approve(Rounds(s, turns, k), c, hash)
    ensures Loops(Approve(s, c, hash), turns) == Approve(Loops(s, turns), c, hash)
  {
    hide Rounds;
    ApprovalCommutesWithRounds(s, turns, k, c, hash);
    ApprovalCommutesWithRounds(s, turns, RoundsAllowed(s.limit), c, hash);
  }
}
