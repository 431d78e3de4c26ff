// What an exchange between the daemon and the server that nothing disturbs achieves.
module ExchangeOutcomes {
  import opened Options
  import opened Tables
  import opened RunCommands
  import opened LeaseCommands
  import opened Commands
  import opened RunOutcomes
  import opened LeaseProtocol
  import R = RunStates

  // The server offers a run, the daemon claims it, the server decides, the daemon hears of it.
  ghost function Exchange(p: Net, run: Id, lease: Id, session: string, hasWorkspace: bool): Net {
    var p1 := Act(Act(p, ServerOffers(false)), DaemonReceives(session, hasWorkspace));
    Act(Act(p1, ServerHandles(ClaimMsg(run, lease, session), false)), DaemonReceives(session, hasWorkspace))
  }

  // The device holds the run under this lease, and the server has the run running.
  predicate Held(s: Tables, device: Id, run: Id, lease: Id) {
    && run in s.dispatches && s.dispatches[run].device == device && s.dispatches[run].lease == Some(lease)
    && s.dispatches[run].state == Claimed && s.clock < s.dispatches[run].expiresAt
    && run in s.runs && s.runs[run].state == R.Running
  }

  lemma OfferIsClaimable(s: Tables, device: Id)
    requires OfferLocalRun(s, device).1.Some?
    ensures var (s', offered) := OfferLocalRun(s, device);
            var (run, lease) := offered.value;
            && s'.runs == s.runs && s'.clock == s.clock
            && run in s'.dispatches && s'.dispatches[run].device == device && s'.dispatches[run].lease == Some(lease)
            && s'.dispatches[run].state == Offered && s'.clock < s'.dispatches[run].expiresAt
  {
    hide OfferLocalRun;
    OfferOutcome(s, device);
    OfferFrame(s, device);
  }

  lemma OfferFrame(s: Tables, device: Id)
    ensures OfferLocalRun(s, device).0.runs == s.runs && OfferLocalRun(s, device).0.clock == s.clock
  {
  }

  lemma ClaimHolds(s: Tables, run: Id, device: Id, lease: Id, session: string)
    requires ClaimLocalRun(s, run, device, lease, session).1
    ensures Held(ClaimLocalRun(s, run, device, lease, session).0, device, run, lease)
  {
    hide ClaimLocalRun;
    ClaimOutcome(s, run, device, lease, session);
    ClaimFrame(s, run, device, lease, session);
  }

  lemma ClaimFrame(s: Tables, run: Id, device: Id, lease: Id, session: string)
    ensures ClaimLocalRun(s, run, device, lease, session).0.clock == s.clock
  {
  }

  lemma ClaimIsHandled(p: Net, run: Id, lease: Id, session: string)
    requires ClaimMsg(run, lease, session) in p.up
    ensures var p' := Act(p, ServerHandles(ClaimMsg(run, lease, session), false));
            p' == p.(server := ClaimLocalRun(p.server, run, p.device, lease, session).0,
                     down := p.down + [ClaimedMsg(run, ClaimLocalRun(p.server, run, p.device, lease, session).1)])
  {
    hide ClaimLocalRun;
  }

  lemma OfferIsReceived(p: Net, run: Id, lease: Id, session: string, hasWorkspace: bool)
    requires p.down == [] && OfferLocalRun(p.server, p.device).1 == Some((run, lease))
    ensures var p' := Act(Act(p, ServerOffers(false)), DaemonReceives(session, hasWorkspace));
            && p'.server == OfferLocalRun(p.server, p.device).0 && p'.device == p.device && p'.down == []
            && run in p'.pending && p'.pending[run] == lease && ClaimMsg(run, lease, session) in p'.up
            && p'.active == p.active && p'.tracked == p.tracked && p'.begun == p.begun
  {
    hide OfferLocalRun;
    var p1 := Act(p, ServerOffers(false));
    assert p1.down == [OfferMsg(run, lease)];
  }

  // An offer of a run that is still queued ends with the daemon executing it under the lease that the
  // server has on record; without a workspace it reports the run as failed under that lease instead.
  // An offer of a run that left the queue meanwhile begins nothing.
  lemma ExchangeBegins(p: Net, run: Id, lease: Id, session: string, hasWorkspace: bool)
    requires p.down == [] && OfferLocalRun(p.server, p.device).1 == Some((run, lease))
    ensures var p', queued := Exchange(p, run, lease, session, hasWorkspace), run in p.server.runs && p.server.runs[run].state == R.Queued;
            && run !in p'.pending
            && (queued ==> Held(p'.server, p.device, run, lease))
            && (if queued && hasWorkspace
                then run in p'.active && p'.active[run] == lease && run in p'.tracked && p'.tracked[run] == lease && p'.begun == p.begun + [run]
                else p'.active == p.active && p'.begun == p.begun)
            && (queued && !hasWorkspace ==> FinishMsg(run, lease, R.Failed, "") in p'.up)
  {
    hide OfferLocalRun, ClaimLocalRun, Act, Held;
    OfferIsReceived(p, run, lease, session, hasWorkspace);
    OfferIsClaimable(p.server, p.device);
    var p1 := Act(Act(p, ServerOffers(false)), DaemonReceives(session, hasWorkspace));
    ClaimIsHandled(p1, run, lease, session);
    ClaimOutcome(p1.server, run, p.device, lease, session);
    var granted := ClaimLocalRun(p1.server, run, p.device, lease, session).1;
    if granted {
      ClaimHolds(p1.server, run, p.device, lease, session);
    }
    var p2 := Act(p1, ServerHandles(ClaimMsg(run, lease, session), false));
    AnswerIsReceived(p2, run, granted, session, hasWorkspace);
  }

  lemma AnswerIsReceived(p: Net, run: Id, granted: bool, session: string, hasWorkspace: bool)
    requires p.down == [ClaimedMsg(run, granted)] && run in p.pending
    ensures var p', lease := Act(p, DaemonReceives(session, hasWorkspace)), p.pending[run];
            && p'.server == p.server && run !in p'.pending
            && (if granted && hasWorkspace
                then p'.active == p.active[run := lease] && p'.tracked == p.tracked[run := lease] && p'.begun == p.begun + [run]
                else p'.active == p.active && p'.begun == p.begun)
            && (granted && !hasWorkspace ==> FinishMsg(run, lease, R.Failed, "") in p'.up)
  {
  }

  // A run that the daemon executes while it holds it ends as the daemon says, in one message.
  lemma ExchangeFinishes(p: Net, run: Id, state: R.RunState, content: string)
    requires run in p.active && Held(p.server, p.device, run, p.active[run])
    requires state == R.Completed || state == R.Failed || state == R.Cancelled
    ensures var m := FinishMsg(run, p.active[run], state, content);
            var p' := Act(Act(p, DaemonFinishes(run, state, content)), ServerHandles(m, false));
            && run in p'.server.runs && p'.server.runs[run] == p.server.runs[run].(state := state)
            && run in p'.server.dispatches && p'.server.dispatches[run].state == Finished(state)
            && run !in p'.tracked
  {
    hide FinishLocalRun;
    var m := FinishMsg(run, p.active[run], state, content);
    FinishIsAcceptedIff(p.server, run, p.device, p.active[run], state, content);
    FinishOutcome(p.server, run, p.device, p.active[run], state, content);
    FinishIsHandled(Act(p, DaemonFinishes(run, state, content)), m);
  }

  lemma FinishIsHandled(p: Net, m: Up)
    requires m.FinishMsg? && m in p.up
    ensures var p' := Act(p, ServerHandles(m, false));
            && p'.server == FinishLocalRun(p.server, m.run, p.device, m.lease, m.state, m.content).0 && p'.tracked == p.tracked
  {
    hide FinishLocalRun;
  }
}
