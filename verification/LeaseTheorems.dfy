// Theorems about device leases over every history of commands, whatever expires, is offered again,
// repeated or reordered.
module LeaseTheorems {
  import opened Options
  import opened Tables
  import opened RunCommands
  import opened LeaseCommands
  import opened Commands
  import opened LifecycleTheorems
  import opened RunHistory
  import opened RunEffects
  import opened RunTheorems
  import K = TaskCommands
  import R = RunStates

  // ---------------------------------------------------------------- the requests of devices

  // A device's request about one run.
  predicate About(c: Command, run: Id) {
    (c.Claim? || c.Renew? || c.Append? || c.Finish?) && c.run == run
  }

  // Whether the server accepts the request.
  predicate Accepts(s: Tables, c: Command) {
    match c
    case Claim(run, device, lease, session) => ClaimLocalRun(s, run, device, lease, session).1
    case Renew(run, device, lease) => RenewLocalLease(s, run, device, lease).1.Some?
    case Append(run, device, lease, sequence, kind) => HoldsLease(s, run, device, lease, Claimed) && sequence > s.dispatches[run].lastAcked
    case Finish(run, device, lease, state, content) => FinishLocalRun(s, run, device, lease, state, content).1
    case _ => false
  }

  // A refused request leaves the whole store as it was: a losing claim is rolled back.
  lemma RefusedRequestChangesNothing(s: Tables, c: Command, run: Id)
    requires About(c, run) && !Accepts(s, c)
    ensures Step(s, c) == s
  {
    hide K.SyncTaskRunState, SubmitLocalTaskResult, UpdateRun;
  }

  // ---------------------------------------------------------------- a dispatch row over time

  predicate Taken(x: Dispatch) {
    x.state == Claimed || x.state.Finished?
  }

  // How a dispatch row looks later: once taken it keeps its lease and is never offered again, and
  // once finished it stays as it is.
  predicate DispatchLater(x: Dispatch, y: Dispatch) {
    && y.device == x.device && x.lastAcked <= y.lastAcked
    && (Taken(x) ==> Taken(y) && y.lease == x.lease && y.session == x.session)
    && (x.state.Finished? ==> y == x)
  }

  // A claimed lease that has run out stays claimed and run out.
  predicate Lapsed(s: Tables, run: Id) {
    run in s.dispatches && s.dispatches[run].state == Claimed && s.dispatches[run].expiresAt <= s.clock
  }

  ghost predicate DispatchesLater(s: Tables, s': Tables) {
    && s.nextId <= s'.nextId
    && (forall r :: r in s'.dispatches && r < s.nextId ==> r in s.dispatches && DispatchLater(s.dispatches[r], s'.dispatches[r]))
    && (forall r :: Lapsed(s, r) && r in s'.dispatches ==> Lapsed(s', r))
  }

  lemma MoveIsLaterForDispatches(s: Tables, s': Tables, m: RunMove)
    requires KnownRuns(s) && Moves(s, s', m)
    ensures DispatchesLater(s, s')
  {
    hide RunsAfter, OutboxAfter, InvocationsAfter, TraceAfter, AllowsToolCall, Within;
  }

  lemma DispatchesLaterChains(s1: Tables, s2: Tables, s3: Tables)
    requires KnownRuns(s1) && DispatchesLater(s1, s2) && DispatchesLater(s2, s3)
    ensures DispatchesLater(s1, s3)
  {
  }

  lemma {:induction false} DispatchesOnlyAge(h: seq<Command>, i: nat, j: nat)
    requires i <= j <= |h|
    ensures KnownRuns(At(h, i)) && DispatchesLater(At(h, i), At(h, j))
    decreases j - i
  {
    hide KnownRuns, DispatchesLater, OneHome, Traced, TasksOfRuns, RunsLimited, CallsLimited, Exec, Step, Moves;
    RunInvariantAlways(h[..i]);
    if i < j {
      RunInvariantAlways(h[..j - 1]);
      DispatchesOnlyAge(h, i, j - 1);
      AtStep(h, j - 1);
      var m := StepMoves(At(h, j - 1), h[j - 1]);
      MoveIsLaterForDispatches(At(h, j - 1), At(h, j), m);
      DispatchesLaterChains(At(h, i), At(h, j - 1), At(h, j));
    } else {
      SameDispatches(At(h, i));
    }
  }

  lemma SameDispatches(s: Tables)
    requires KnownRuns(s)
    ensures DispatchesLater(s, s)
  {
  }

  // ---------------------------------------------------------------- accepted requests

  // Only the run's current lease is ever accepted, from its own device, before it expires.
  lemma AcceptedIsCurrent(s: Tables, c: Command, run: Id)
    requires About(c, run) && Accepts(s, c)
    ensures run in s.dispatches
    ensures s.dispatches[run].lease == Some(c.lease) && s.dispatches[run].device == c.device
    ensures s.clock < s.dispatches[run].expiresAt
    ensures s.dispatches[run].state == if c.Claim? then Offered else Claimed
  {
  }

  lemma ClaimTakes(s: Tables, c: Command)
    requires c.Claim? && Accepts(s, c)
    ensures var s' := Step(s, c);
            c.run in s'.dispatches && Taken(s'.dispatches[c.run]) && s'.dispatches[c.run].lease == Some(c.lease)
  {
    hide ClaimLocalRun;
    var m := ClaimMoves(s, c.run, c.device, c.lease, c.session);
    AcceptedIsCurrent(s, c, c.run);
  }

  lemma FinishSettles(s: Tables, c: Command)
    requires c.Finish? && Accepts(s, c)
    ensures c.run in Step(s, c).dispatches && Step(s, c).dispatches[c.run].state.Finished?
    ensures c.run in Step(s, c).runs && R.Terminal(Step(s, c).runs[c.run].state)
  {
    hide FinishLocalRun;
    var m := FinishMoves(s, c.run, c.device, c.lease, c.state, c.content);
  }

  lemma AppendAcknowledges(s: Tables, c: Command)
    requires c.Append? && Accepts(s, c)
    ensures c.run in Step(s, c).dispatches && Step(s, c).dispatches[c.run].lastAcked == c.sequence
  {
  }

  // What a stretch of history does to one dispatch row, if it is still there.
  lemma RowAged(h: seq<Command>, i: nat, j: nat, run: Id)
    requires i <= j <= |h| && run in At(h, i).dispatches && run in At(h, j).dispatches
    ensures DispatchLater(At(h, i).dispatches[run], At(h, j).dispatches[run])
    ensures Lapsed(At(h, i), run) ==> Lapsed(At(h, j), run)
  {
    hide Exec, Lapsed, OneHome, Traced, TasksOfRuns, RunsLimited, CallsLimited;
    DispatchesOnlyAge(h, i, j);
  }

  // A run is claimed successfully at most once; any further claim leaves the whole store as it is.
  lemma OneClaimEver(h: seq<Command>, i: nat, j: nat, run: Id)
    requires i < j < |h| && h[i].Claim? && h[i].run == run && Accepts(At(h, i), h[i])
    requires h[j].Claim? && h[j].run == run
    ensures !Accepts(At(h, j), h[j]) && At(h, j + 1) == At(h, j)
  {
    hide Exec, Step, Accepts;
    AtStep(h, i);
    ClaimTakes(At(h, i), h[i]);
    if Accepts(At(h, j), h[j]) {
      AcceptedIsCurrent(At(h, j), h[j], run);
      RowAged(h, i + 1, j, run);
      assert false;
    }
    AtStep(h, j);
    RefusedRequestChangesNothing(At(h, j), h[j], run);
  }

  // After a run was finished no device request about it is accepted or changes anything; so it is
  // finished at most once.
  lemma OneFinishEver(h: seq<Command>, i: nat, j: nat, run: Id)
    requires i < j < |h| && h[i].Finish? && h[i].run == run && Accepts(At(h, i), h[i])
    requires About(h[j], run)
    ensures !Accepts(At(h, j), h[j]) && At(h, j + 1) == At(h, j)
  {
    hide Exec, Step, Accepts;
    AtStep(h, i);
    FinishSettles(At(h, i), h[i]);
    if Accepts(At(h, j), h[j]) {
      AcceptedIsCurrent(At(h, j), h[j], run);
      RowAged(h, i + 1, j, run);
      assert false;
    }
    AtStep(h, j);
    RefusedRequestChangesNothing(At(h, j), h[j], run);
  }

  // A claimed lease that has once run out is never accepted again, and nothing presented changes the store.
  lemma LapsedLeaseIsDead(h: seq<Command>, i: nat, j: nat, run: Id)
    requires i <= j < |h| && Lapsed(At(h, i), run) && About(h[j], run)
    ensures !Accepts(At(h, j), h[j]) && At(h, j + 1) == At(h, j)
  {
    hide Exec, Step, Accepts;
    if Accepts(At(h, j), h[j]) {
      AcceptedIsCurrent(At(h, j), h[j], run);
      RowAged(h, i, j, run);
      assert false;
    }
    AtStep(h, j);
    RefusedRequestChangesNothing(At(h, j), h[j], run);
  }

  // An event the server has acknowledged adds nothing when it, or any earlier one, is sent again.
  lemma ResendAddsNothing(h: seq<Command>, i: nat, j: nat, run: Id)
    requires i < j < |h| && h[i].Append? && h[i].run == run && Accepts(At(h, i), h[i])
    requires h[j].Append? && h[j].run == run && h[j].sequence <= h[i].sequence
    ensures At(h, j + 1) == At(h, j)
  {
    hide Exec, Step, HoldsLease;
    AtStep(h, i);
    AtStep(h, j);
    AppendAcknowledges(At(h, i), h[i]);
    if Accepts(At(h, j), h[j]) {
      AcceptedIsCurrent(At(h, j), h[j], run);
      RowAged(h, i + 1, j, run);
      assert false;
    }
    RefusedRequestChangesNothing(At(h, j), h[j], run);
  }

  // ---------------------------------------------------------------- the lease on record

  function OfferedTo(given: Option<(Id, Id)>, run: Id, earlier: Option<Id>): Option<Id> {
    if given.Some? && given.value.0 == run then Some(given.value.1) else earlier
  }

  // The lease of the latest offer of a run in a history, whether or not the device was told of it.
  ghost function LatestOffer(h: seq<Command>, run: Id): Option<Id> {
    if h == [] then None
    else
      var before, c := h[..|h| - 1], h[|h| - 1];
      if c.Offer? then OfferedTo(OfferLocalRun(Exec(before), c.device).1, run, LatestOffer(before, run))
      else LatestOffer(before, run)
  }

  lemma OfferLends(s: Tables, device: Id, run: Id, earlier: Option<Id>)
    requires run in s.dispatches && s.dispatches[run].lease == earlier
    ensures var (s', given) := OfferLocalRun(s, device);
            run in s'.dispatches && s'.dispatches[run].lease == OfferedTo(given, run, earlier)
  {
    hide Offerable;
  }

  lemma LeaseStays(s: Tables, s': Tables, m: RunMove, run: Id)
    requires KnownRuns(s) && Moves(s, s', m) && !m.Lend? && run in s'.dispatches
    ensures run in s.dispatches ==> s'.dispatches[run].lease == s.dispatches[run].lease
    ensures run !in s.dispatches ==> s'.dispatches[run].lease == None && run >= s.nextId
  {
    hide RunsAfter, OutboxAfter, InvocationsAfter, TraceAfter, AllowsToolCall, Within;
  }

  ghost predicate OnRecord(s: Tables, run: Id, offered: Option<Id>) {
    && (run in s.dispatches ==> s.dispatches[run].lease == offered)
    && (run >= s.nextId ==> offered == None)
  }

  lemma OfferKeepsRecord(s: Tables, device: Id, run: Id, earlier: Option<Id>)
    requires KnownRuns(s) && OnRecord(s, run, earlier)
    ensures var (s', given) := OfferLocalRun(s, device); OnRecord(s', run, OfferedTo(given, run, earlier))
  {
    hide OfferedTo, Offerable;
    if run in s.dispatches {
      OfferLends(s, device, run, earlier);
    }
    OfferReaches(s, device, run, earlier);
  }

  lemma OfferReaches(s: Tables, device: Id, run: Id, earlier: Option<Id>)
    requires KnownRuns(s)
    ensures var (s', given) := OfferLocalRun(s, device);
            && s.nextId <= s'.nextId && s'.dispatches.Keys == s.dispatches.Keys
            && (run !in s.dispatches ==> OfferedTo(given, run, earlier) == earlier)
  {
  }

  // The lease on record for a run is the one of its latest offer.
  lemma {:induction false} LeaseIsLatestOffer(h: seq<Command>, run: Id)
    ensures OnRecord(Exec(h), run, LatestOffer(h, run))
  {
    hide Step, Moves, OneHome, Traced, TasksOfRuns, RunsLimited, CallsLimited, KnownRuns, OnRecord, OfferLocalRun, OfferedTo;
    if h == [] {
      assert OnRecord(Empty, run, None) by { NoRecord(run); }
    } else {
      var s, c := Exec(h[..|h| - 1]), h[|h| - 1];
      LeaseIsLatestOffer(h[..|h| - 1], run);
      RunInvariantAlways(h[..|h| - 1]);
      if c.Offer? {
        OfferKeepsRecord(s, c.device, run, LatestOffer(h[..|h| - 1], run));
        OfferStep(s, c);
      } else {
        var m := StepMoves(s, c);
        MoveKeepsRecord(s, Step(s, c), m, run, LatestOffer(h[..|h| - 1], run));
      }
    }
  }

  lemma NoRecord(run: Id)
    ensures OnRecord(Empty, run, None)
  {
  }

  lemma OfferStep(s: Tables, c: Command)
    requires c.Offer?
    ensures Step(s, c) == OfferLocalRun(s, c.device).0
  {
    hide OfferLocalRun;
  }

  lemma MoveKeepsRecord(s: Tables, s': Tables, m: RunMove, run: Id, offered: Option<Id>)
    requires KnownRuns(s) && Moves(s, s', m) && !m.Lend? && OnRecord(s, run, offered)
    ensures OnRecord(s', run, offered)
  {
    hide Allowed, Result, KnownRuns;
    if run in s'.dispatches {
      LeaseStays(s, s', m, run);
    }
  }

  // Whatever request is accepted for a run, it carries the lease of the latest offer of that run:
  // every lease handed out earlier is worthless from then on.
  lemma OnlyLatestOfferIsAccepted(h: seq<Command>, i: nat, run: Id)
    requires i < |h| && About(h[i], run) && Accepts(At(h, i), h[i])
    ensures LatestOffer(h[..i], run) == Some(h[i].lease)
  {
    hide Exec, Accepts, LatestOffer;
    AcceptedIsCurrent(At(h, i), h[i], run);
    LeaseIsLatestOffer(h[..i], run);
  }
}
