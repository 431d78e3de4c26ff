// How often tools are carried out: bounds over every history of a run, recoveries from crashes
// included, and histories that reach them.
module ToolBounds {
  import opened Options
  import opened ToolLoop
  import R = RunStates

  // ---------------------------------------------------------------- what may still be carried out

  function Budget(limit: int): nat {
    if limit < 0 then 0 else limit
  }

  // The calls that remain behind an undecided or unused confirmation, once it is carried out.
  function Behind(row: Confirmation, limit: int): int {
    if row.state == Pending || row.state == Approved then limit - row.used else 0
  }

  function Spare(confirmations: seq<Confirmation>, limit: int): int {
    if confirmations == [] then 0
    else Spare(confirmations[..|confirmations| - 1], limit) + Behind(confirmations[|confirmations| - 1], limit)
  }

  // Every confirmation was counted when it was asked for.
  predicate Sound(s: Loop) {
    forall k :: 0 <= k < |s.confirmations| ==> 1 <= s.confirmations[k].used <= s.limit
  }

  lemma SpareAppends(confirmations: seq<Confirmation>, row: Confirmation, limit: int)
    ensures Spare(confirmations + [row], limit) == Spare(confirmations, limit) + Behind(row, limit)
  {
    assert (confirmations + [row])[..|confirmations|] == confirmations;
  }

  lemma {:induction false} SpareUpdates(confirmations: seq<Confirmation>, k: nat, row: Confirmation, limit: int)
    requires k < |confirmations|
    ensures Spare(confirmations[k := row], limit) ==
            Spare(confirmations, limit) - Behind(confirmations[k], limit) + Behind(row, limit)
  {
    var n := |confirmations| - 1;
    if k == n {
      assert confirmations[k := row][..n] == confirmations[..n];
    } else {
      assert confirmations[k := row][..n] == confirmations[..n][k := row];
      SpareUpdates(confirmations[..n], k, row, limit);
    }
  }

  lemma {:induction false} SpareIsNotNegative(confirmations: seq<Confirmation>, limit: int)
    requires forall k :: 0 <= k < |confirmations| ==> confirmations[k].used <= limit
    ensures Spare(confirmations, limit) >= 0
  {
    if confirmations == [] {
    } else {
      SpareIsNotNegative(confirmations[..|confirmations| - 1], limit);
    }
  }

  // While the model is called: what was carried out and what still can be stay below the cap.
  predicate Working(s: Loop, cap: int) {
    && s.status == Going && Sound(s) && 0 <= s.used <= Budget(s.limit)
    && (s.run == R.Running || s.run == R.Cancelled)
    && |s.executions| + (Budget(s.limit) - s.used) <= cap
    && (s.run == R.Running ==> |s.executions| + Spare(s.confirmations, s.limit) + (Budget(s.limit) - s.used) <= cap)
  }

  // Between deliveries. A suspended run may carry out one confirmed call; a run whose worker died waits
  // for a recovery, which grants a whole budget.
  predicate AtRest(s: Loop, cap: int) {
    && Sound(s) && |s.executions| <= cap
    && (s.run == R.Queued ==> s.confirmations == [] && |s.executions| + Budget(s.limit) <= cap)
    && (s.run == R.Running ==> |s.executions| + Spare(s.confirmations, s.limit) <= cap)
    && (s.run == R.WaitingConfirmation ==> |s.executions| + Spare(s.confirmations, s.limit) + 1 <= cap)
  }

  predicate Keeps(s: Loop, s': Loop, cap: int) {
    s'.limit == s.limit && if s'.status == Going then Working(s', cap) else AtRest(s', cap)
  }

  lemma AskKeepsBudget(s: Loop, call: Call, cap: int)
    requires Sound(s) && 1 <= s.used <= s.limit && call.arguments.Some? && s.status == Going
    requires s.run == R.Running || s.run == R.Cancelled
    requires |s.executions| + (s.limit - s.used) + 1 <= cap
    requires s.run == R.Running ==> |s.executions| + Spare(s.confirmations, s.limit) + (s.limit - s.used) + 1 <= cap
    ensures Keeps(s, Ask(s, call), cap)
  {
    hide Spare, Asked, CallId;
    SpareAppends(s.confirmations, Confirmation(CallId(call, s.used), call.tool, call.arguments.value, s.used, Pending, None), s.limit);
  }

  lemma ExecutionKeepsBudget(s: Loop, call: Call, cap: int)
    requires Sound(s) && 1 <= s.used <= s.limit && call.arguments.Some? && s.status == Going
    requires s.run == R.Running || s.run == R.Cancelled
    requires |s.executions| + (s.limit - s.used) + 1 <= cap
    requires s.run == R.Running ==> |s.executions| + Spare(s.confirmations, s.limit) + (s.limit - s.used) + 1 <= cap
    ensures Keeps(s, Execute(s, call), cap)
  {
    hide Spare;
  }

  lemma CallKeepsBudget(s: Loop, call: Call, cap: int)
    requires Working(s, cap)
    ensures Keeps(s, OnCall(s, call), cap)
  {
    hide Ask, Spare, Execute;
    SpareIsNotNegative(s.confirmations, s.limit);
    var s0 := if call.userCancels then Moved(s, R.Cancelled) else s;
    var s1 := s0.(used := s0.used + 1);
    if s1.used <= s1.limit && call.arguments.Some? {
      AskKeepsBudget(s1, call, cap);
      ExecutionKeepsBudget(s1, call, cap);
    }
  }

  lemma {:induction false} CallsKeepBudget(s: Loop, calls: seq<Call>, cap: int)
    requires Working(s, cap)
    ensures Keeps(s, OnCalls(s, calls), cap)
  {
    hide Working, AtRest;
    if calls == [] {
      assert OnCalls(s, calls) == s && s.status == Going by { StillGoing(s, cap); }
    } else {
      CallsKeepBudget(s, calls[..|calls| - 1], cap);
      var rest := OnCalls(s, calls[..|calls| - 1]);
      if rest.status == Going {
        CallKeepsBudget(rest, calls[|calls| - 1], cap);
      }
    }
  }

  lemma StillGoing(s: Loop, cap: int)
    requires Working(s, cap)
    ensures s.status == Going
  {
  }

  lemma TurnKeepsBudget(s: Loop, turn: Turn, cap: int)
    requires Working(s, cap)
    ensures Keeps(s, OnTurn(s, turn), cap)
  {
    hide Spare;
    SpareIsNotNegative(s.confirmations, s.limit);
    if turn.Reply? {
      CallsKeepBudget(if turn.userCancels then Moved(s, R.Cancelled) else s, turn.calls, cap);
    }
  }

  lemma {:induction false} RoundsKeepBudget(s: Loop, turns: seq<Turn>, k: nat, cap: int)
    requires Working(s, cap)
    ensures Keeps(s, Rounds(s, turns, k), cap)
  {
    hide AtRest;
    if k == 0 {
    } else {
      RoundsKeepBudget(s, turns, k - 1, cap);
      var before := Rounds(s, turns, k - 1);
      if before.status == Going {
        TurnKeepsBudget(before, TurnAt(turns, k - 1), cap);
      }
    }
  }

  lemma LoopsKeepBudget(s: Loop, turns: seq<Turn>, cap: int)
    requires Working(s, cap)
    ensures Loops(s, turns).limit == s.limit && AtRest(Loops(s, turns), cap)
  {
    hide Spare;
    RoundsKeepBudget(s, turns, RoundsAllowed(s.limit), cap);
    var s1 := Rounds(s, turns, RoundsAllowed(s.limit));
    SpareIsNotNegative(s1.confirmations, s1.limit);
  }

  lemma CarryOutKeepsBudget(s: Loop, c: nat, replay: Replay, cap: int)
    requires Sound(s) && s.status == Going && s.run == R.Running && c < |s.confirmations| && s.confirmations[c].state == Approved
    requires |s.executions| + Spare(s.confirmations, s.limit) + 1 <= cap
    ensures Keeps(s, CarryOut(s, c, replay), cap)
  {
    hide Spare;
    SpareIsNotNegative(s.confirmations, s.limit);
    SpareUpdates(s.confirmations, c, s.confirmations[c].(state := Executed), s.limit);
    SpareIsNotNegative(s.confirmations[c := s.confirmations[c].(state := Executed)], s.limit);
  }

  // A delivery recovers a run that was already started.
  predicate Restarts(s: Loop, e: Event) {
    Recovers(e) && s.run == R.Running
  }

  lemma DeliveryKeepsBudget(s: Loop, e: Event, cap: int)
    requires e.Delivered? && AtRest(s, cap)
    ensures OnEvent(s, e).limit == s.limit
    ensures AtRest(OnEvent(s, e), cap + if Restarts(s, e) then Budget(s.limit) else 0)
  {
    hide Loops, CarryOut, Spare;
    var more := cap + if Restarts(s, e) then Budget(s.limit) else 0;
    SpareIsNotNegative(s.confirmations, s.limit);
    if MayStart(s.run, e.recover, e.resume) {
      var s1 := s.(run := R.Running, used := 0, status := Going);
      var c := LatestApproved(s1.confirmations);
      if !e.resume {
        NoConfirmations(s1);
        LoopsKeepBudget(s1, e.turns, more);
      } else if c.Some? {
        var s2 := CarryOut(s1, c.value, e.replay);
        CarryOutKeepsBudget(s1, c.value, e.replay, more);
        if s2.status == Going {
          LoopsKeepBudget(s2, e.turns, more);
        }
      }
    }
  }

  lemma NoConfirmations(s: Loop)
    ensures s.confirmations == [] ==> Spare(s.confirmations, s.limit) == 0
  {
  }

  lemma EventKeepsBudget(s: Loop, e: Event, cap: int)
    requires AtRest(s, cap)
    ensures OnEvent(s, e).limit == s.limit
    ensures AtRest(OnEvent(s, e), cap + if Restarts(s, e) then Budget(s.limit) else 0)
  {
    match e
    case Delivered(_, _, _, _) =>
      hide OnEvent, AtRest;
      DeliveryKeepsBudget(s, e, cap);
    case Decided(c, hash, approve) =>
      hide Spare;
      if c < |s.confirmations| {
        SpareUpdates(s.confirmations, c, s.confirmations[c].(state := Approved, agreedTo := Some(hash)), s.limit);
      }
    case Cancelled =>
  }

  // ---------------------------------------------------------------- the bound on tool calls

  // How often a started run was recovered in a history.
  function Recoveries(limit: int, events: seq<Event>): nat {
    if events == [] then 0
    else
      var before := events[..|events| - 1];
      Recoveries(limit, before) + (if Restarts(After(limit, before), events[|events| - 1]) then 1 else 0)
  }

  lemma {:induction false} AlwaysAtRest(limit: int, events: seq<Event>)
    ensures After(limit, events).limit == limit
    ensures AtRest(After(limit, events), Budget(limit) * (1 + Recoveries(limit, events)))
  {
    hide OnEvent, AtRest, Restarts;
    if events == [] {
      assert AtRest(Fresh(limit), Budget(limit)) by { StartsAtRest(limit); }
    } else {
      var before, e := events[..|events| - 1], events[|events| - 1];
      var r := Recoveries(limit, before);
      AlwaysAtRest(limit, before);
      EventKeepsBudget(After(limit, before), e, Budget(limit) * (1 + r));
      assert Budget(limit) * (1 + (r + 1)) == Budget(limit) * (1 + r) + Budget(limit);
    }
  }

  lemma StartsAtRest(limit: int)
    ensures AtRest(Fresh(limit), Budget(limit))
  {
  }

  // Over every history of a run, with any crashes, recoveries, decisions and duplicates, it carries out
  // at most its limit of tool calls, and that many again for each recovery.
  lemma ToolCallsWithinRecoveredLimits(limit: int, events: seq<Event>)
    ensures |After(limit, events).executions| <= Budget(limit) * (1 + Recoveries(limit, events))
  {
    hide After, Recoveries;
    AlwaysAtRest(limit, events);
  }

  lemma {:induction false} NothingRecovered(limit: int, events: seq<Event>)
    requires forall e :: e in events ==> !Recovers(e)
    ensures Recoveries(limit, events) == 0
  {
    if events == [] {
    } else {
      var before := events[..|events| - 1];
      assert forall e :: e in before ==> e in events;
      NothingRecovered(limit, before);
      assert events[|events| - 1] in events;
    }
  }

  // So without recoveries, over any suspensions and resumptions, it carries out at most its limit.
  lemma ToolCallsWithinLimit(limit: int, events: seq<Event>)
    requires forall e :: e in events ==> !Recovers(e)
    ensures |After(limit, events).executions| <= Budget(limit)
  {
    hide After;
    NothingRecovered(limit, events);
    ToolCallsWithinRecoveredLimits(limit, events);
  }

  // A limit that is not negative never lets the loop run out of turns, over any history.
  lemma {:induction false} TurnsAlwaysSuffice(limit: nat, events: seq<Event>)
    ensures After(limit, events).status != OutOfTurns
  {
    if events == [] {
    } else {
      hide OnEvent;
      var before := events[..|events| - 1];
      TurnsAlwaysSuffice(limit, before);
      AlwaysAtRest(limit, before);
      EventHasTurns(After(limit, before), events[|events| - 1]);
    }
  }

  lemma EventHasTurns(s: Loop, e: Event)
    requires Sound(s) && s.limit >= 0 && s.status != OutOfTurns
    ensures OnEvent(s, e).status != OutOfTurns
  {
    hide Loops;
    if e.Delivered? && MayStart(s.run, e.recover, e.resume) {
      var s1 := s.(run := R.Running, used := 0, status := Going);
      var c := LatestApproved(s1.confirmations);
      if !e.resume {
        ElseBranchIffNegativeLimit(s1, e.turns);
      } else if c.Some? {
        var s2 := CarryOut(s1, c.value, e.replay);
        if s2.status == Going {
          ElseBranchIffNegativeLimit(s2, e.turns);
        }
      }
    }
  }

  // ---------------------------------------------------------------- the bound is reached

  const AllGoesWell := Replay(true, true, true, false, false)
  const DiesBeforeMarking := Replay(true, true, true, false, true)

  function PlainRound(): Turn {
    Reply([Call("", Plain, "tool", Some(""), true, true, true, Returns, false)], false, true)
  }

  // Each of the first rounds carries out one call, then the worker dies.
  function LifeTurns(limit: nat): seq<Turn> {
    seq(limit, _ => PlainRound()) + [Died]
  }

  lemma {:induction false} LifeRounds(s: Loop, k: nat)
    requires s.status == Going && s.run == R.Running && s.used == 0 && k <= s.limit
    ensures var s' := Rounds(s, LifeTurns(s.limit), k);
            && s'.status == Going && s'.run == R.Running && s'.used == k && s'.limit == s.limit
            && |s'.executions| == |s.executions| + k
  {
    if k == 0 {
    } else {
      LifeRounds(s, k - 1);
      var before := Rounds(s, LifeTurns(s.limit), k - 1);
      assert TurnAt(LifeTurns(s.limit), k - 1) == PlainRound();
      OneCall(before, PlainRound().calls[0]);
    }
  }

  lemma OneCall(s: Loop, call: Call)
    requires s.status == Going
    ensures OnCalls(s, [call]) == OnCall(s, call)
  {
    assert [call][..0] == [];
    assert OnCalls(s, []) == s;
  }

  lemma OneLife(s: Loop)
    requires s.status == Going && s.run == R.Running && s.used == 0 && 0 <= s.limit
    ensures var s' := Loops(s, LifeTurns(s.limit));
            s'.run == R.Running && s'.limit == s.limit && |s'.executions| == |s.executions| + s.limit
  {
    LifeRounds(s, s.limit);
    assert TurnAt(LifeTurns(s.limit), s.limit) == Died;
  }

  function LifeEvent(limit: nat, recover: bool): Event {
    Delivered(recover, false, AllGoesWell, LifeTurns(limit))
  }

  lemma OneMoreLife(s: Loop, recover: bool)
    requires s.limit >= 0 && s.run == if recover then R.Running else R.Queued
    ensures var s' := OnEvent(s, LifeEvent(s.limit, recover));
            s'.run == R.Running && s'.limit == s.limit && |s'.executions| == |s.executions| + s.limit
    ensures Restarts(s, LifeEvent(s.limit, recover)) == recover
  {
    hide Loops, LifeTurns;
    OneLife(s.(run := R.Running, used := 0, status := Going));
  }

  // A first delivery, and n recoveries, that each carry out as many calls as the limit allows.
  function Lives(limit: nat, n: nat): seq<Event> {
    if n == 0 then [LifeEvent(limit, false)] else Lives(limit, n - 1) + [LifeEvent(limit, true)]
  }

  lemma LivesEnd(limit: nat, n: nat)
    ensures var events := Lives(limit, n);
            events != [] && events[|events| - 1] == LifeEvent(limit, n > 0) &&
            events[..|events| - 1] == if n == 0 then [] else Lives(limit, n - 1)
  {
    hide LifeEvent;
  }

  // For every limit and every number of recoveries some history reaches the bound exactly.
  lemma {:induction false} RecoveredLimitsAreReached(limit: nat, n: nat)
    ensures Recoveries(limit, Lives(limit, n)) == n
    ensures |After(limit, Lives(limit, n)).executions| == Budget(limit) * (1 + n)
    ensures After(limit, Lives(limit, n)).run == R.Running && After(limit, Lives(limit, n)).limit == limit
  {
    hide OnEvent, LifeEvent, Lives, Restarts;
    LivesEnd(limit, n);
    if n == 0 {
      OneMoreLife(Fresh(limit), false);
    } else {
      RecoveredLimitsAreReached(limit, n - 1);
      OneMoreLife(After(limit, Lives(limit, n - 1)), true);
      assert limit * (1 + n) == limit * (1 + (n - 1)) + limit;
    }
  }

  // ---------------------------------------------------------------- one confirmation

  // How often a confirmation was carried out.
  function Carried(executions: seq<Execution>, c: nat): nat {
    if executions == [] then 0
    else Carried(executions[..|executions| - 1], c) + (if executions[|executions| - 1].confirmation == Some(c) then 1 else 0)
  }

  // The delivery carries a confirmation out and its worker dies before marking it.
  predicate DiesCarrying(s: Loop, e: Event, c: nat) {
    && e.Delivered? && e.resume && MayStart(s.run, e.recover, e.resume) && LatestApproved(s.confirmations) == Some(c)
    && e.replay.budgetLeft && e.replay.rateLeft && e.replay.recorded && e.replay.crashes
  }

  function Deaths(limit: int, events: seq<Event>, c: nat): nat {
    if events == [] then 0
    else
      var before := events[..|events| - 1];
      Deaths(limit, before, c) + (if DiesCarrying(After(limit, before), events[|events| - 1], c) then 1 else 0)
  }

  // A confirmation that may still be carried out was so only by workers that died.
  predicate CarriedFairly(s: Loop, c: nat, deaths: nat) {
    var carried := Carried(s.executions, c);
    if c >= |s.confirmations| then carried == 0
    else
      match s.confirmations[c].state
      case Pending => carried == 0
      case Rejected => carried == 0
      case Approved => carried <= deaths + (if R.Terminal(s.run) then 1 else 0)
      case Executed => carried <= deaths + 1
  }

  lemma CarriedAppends(executions: seq<Execution>, e: Execution, c: nat)
    ensures Carried(executions + [e], c) == Carried(executions, c) + if e.confirmation == Some(c) then 1 else 0
  {
    assert (executions + [e])[..|executions|] == executions;
  }

  lemma {:induction false} CarriedElsewhere(a: seq<Execution>, b: seq<Execution>, c: nat)
    requires |a| <= |b| && b[..|a|] == a && forall i :: |a| <= i < |b| ==> b[i].confirmation == None
    ensures Carried(b, c) == Carried(a, c)
    decreases |b|
  {
    if |a| == |b| {
      assert a == b;
    } else {
      assert b[..|b| - 1][..|a|] == a;
      CarriedElsewhere(a, b[..|b| - 1], c);
    }
  }

  // The loop itself carries out no confirmation.
  lemma ExtensionIsFair(s: Loop, s': Loop, c: nat, deaths: nat)
    requires Extends(s, s') && CarriedFairly(s, c, deaths) && s.run == R.Running
    ensures CarriedFairly(s', c, deaths)
  {
    CarriedElsewhere(s.executions, s'.executions, c);
    if c < |s.confirmations| {
      assert s'.confirmations[c] == s'.confirmations[..|s.confirmations|][c];
    }
  }

  lemma CarryOutIsFair(s: Loop, k: nat, replay: Replay, c: nat, deaths: nat)
    requires CarriedFairly(s, c, deaths) && s.run == R.Running && s.status == Going
    requires k < |s.confirmations| && s.confirmations[k].state == Approved
    ensures var s' := CarryOut(s, k, replay);
            var died := k == c && replay.budgetLeft && replay.rateLeft && replay.recorded && replay.crashes;
            CarriedFairly(s', c, deaths + if died then 1 else 0) && (s'.status == Going ==> s'.run == R.Running)
  {
    var row := s.confirmations[k];
    CarriedAppends(s.executions, Execution(row.tool, Gated, row.arguments, Some(k)), c);
  }

  lemma EventIsFair(s: Loop, e: Event, c: nat, deaths: nat)
    requires CarriedFairly(s, c, deaths)
    ensures CarriedFairly(OnEvent(s, e), c, deaths + if DiesCarrying(s, e, c) then 1 else 0)
  {
    hide Loops, CarryOut, Carried;
    if e.Delivered? && MayStart(s.run, e.recover, e.resume) {
      var s1 := s.(run := R.Running, used := 0, status := Going);
      var k := LatestApproved(s1.confirmations);
      if !e.resume {
        LoopsExtend(s1, e.turns);
        ExtensionIsFair(s1, Loops(s1, e.turns), c, deaths);
      } else if k.Some? {
        var s2 := CarryOut(s1, k.value, e.replay);
        CarryOutIsFair(s1, k.value, e.replay, c, deaths);
        if s2.status == Going {
          LoopsExtend(s2, e.turns);
          ExtensionIsFair(s2, Loops(s2, e.turns), c, deaths + if DiesCarrying(s, e, c) then 1 else 0);
        }
      }
    }
  }

  // Over every history a confirmation is carried out at most once, and once more for every worker that
  // died between carrying it out and marking it.
  lemma {:induction false} CarriedOncePlusDeaths(limit: int, events: seq<Event>, c: nat)
    ensures CarriedFairly(After(limit, events), c, Deaths(limit, events, c))
    ensures Carried(After(limit, events).executions, c) <= 1 + Deaths(limit, events, c)
  {
    hide OnEvent, DiesCarrying;
    if events == [] {
    } else {
      var before := events[..|events| - 1];
      CarriedOncePlusDeaths(limit, before, c);
      EventIsFair(After(limit, before), events[|events| - 1], c, Deaths(limit, before, c));
    }
  }

  // ---------------------------------------------------------------- and that bound is reached

  function AskRound(): Turn {
    Reply([Call("call", Gated, "tool", Some("x"), true, true, true, Returns, false)], false, true)
  }

  // A gated call is asked for and approved, then n workers die while carrying it out.
  function Dying(n: nat): seq<Event> {
    if n == 0 then [Delivered(false, false, AllGoesWell, [AskRound()]), Decided(0, "x", true)]
    else Dying(n - 1) + [Delivered(n > 1, true, DiesBeforeMarking, [])]
  }

  predicate IsDying(s: Loop, n: nat) {
    && s.run == (if n == 0 then R.WaitingConfirmation else R.Running)
    && |s.confirmations| == 1 && s.confirmations[0].state == Approved && LatestApproved(s.confirmations) == Some(0)
    && Carried(s.executions, 0) == n
  }

  lemma AskedAndApproved(limit: int)
    requires limit >= 1
    ensures IsDying(After(limit, Dying(0)), 0) && Deaths(limit, Dying(0), 0) == 0
  {
    var events := Dying(0);
    var s1 := Fresh(limit).(run := R.Running, used := 0, status := Going);
    assert events[..1] == [events[0]] && events[..1][..0] == [];
    var asked := OnCall(s1, AskRound().calls[0]);
    OneCall(s1, AskRound().calls[0]);
    assert asked.status == Suspended && |asked.confirmations| == 1;
    assert Rounds(s1, [AskRound()], 0) == s1;
    assert Rounds(s1, [AskRound()], 1) == asked;
    SuspendedStays(s1, [AskRound()], 1, RoundsAllowed(limit));
    assert After(limit, events[..1]) == asked;
    assert Deaths(limit, [], 0) == 0 && Deaths(limit, events[..1], 0) == 0;
    assert !DiesCarrying(asked, events[1], 0);
  }

  lemma {:induction false} SuspendedStays(s: Loop, turns: seq<Turn>, k: nat, n: nat)
    requires k <= n && Rounds(s, turns, k).status != Going
    ensures Rounds(s, turns, n) == Rounds(s, turns, k)
  {
    if n == k {
    } else {
      SuspendedStays(s, turns, k, n - 1);
    }
  }

  lemma OneMoreDies(s: Loop, n: nat)
    requires IsDying(s, n)
    ensures var e := Delivered(n > 0, true, DiesBeforeMarking, []);
            IsDying(OnEvent(s, e), n + 1) && DiesCarrying(s, e, 0)
  {
    CarriedAppends(s.executions, Execution(s.confirmations[0].tool, Gated, s.confirmations[0].arguments, Some(0)), 0);
  }

  lemma {:induction false} WorkersDie(limit: int, n: nat)
    requires limit >= 1
    ensures IsDying(After(limit, Dying(n)), n) && Deaths(limit, Dying(n), 0) == n
  {
    if n == 0 {
      AskedAndApproved(limit);
    } else {
      hide IsDying, OnEvent, DiesCarrying;
      WorkersDie(limit, n - 1);
      assert Dying(n)[..|Dying(n)| - 1] == Dying(n - 1);
      OneMoreDies(After(limit, Dying(n - 1)), n - 1);
    }
  }

  // For every number of such deaths some history carries one approved call out once more than that.
  lemma DeathsRepeatAnApprovedCall(limit: int, n: nat)
    requires limit >= 1
    ensures var events := Dying(n) + [Delivered(n > 0, true, AllGoesWell, [])];
            Deaths(limit, events, 0) == n && Carried(After(limit, events).executions, 0) == 1 + n
  {
    hide Loops, Dying;
    WorkersDie(limit, n);
    var e := Delivered(n > 0, true, AllGoesWell, []);
    var s := After(limit, Dying(n));
    assert (Dying(n) + [e])[..|Dying(n)|] == Dying(n);
    var s1 := s.(run := R.Running, used := 0, status := Going);
    var s2 := CarryOut(s1, 0, AllGoesWell);
    CarriedAppends(s.executions, Execution(s.confirmations[0].tool, Gated, s.confirmations[0].arguments, Some(0)), 0);
    LoopsExtend(s2, []);
    CarriedElsewhere(s2.executions, Loops(s2, []).executions, 0);
  }
}
