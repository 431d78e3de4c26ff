// The daemon of a device as it works: the maps it keeps about offers, runs and leases, updated by the
// handlers of its socket, each proved to be the daemon's part of the lease protocol.
module LocalAgent {
  import opened Options
  import opened Tables
  import opened LeaseCommands
  import opened LeaseTheorems
  import opened Commands
  import opened LeaseProtocol
  import R = RunStates

  // Renews the leases of the runs being executed.
  class LocalAgentTransport {
    var leases: map<Id, Id>
    var sent: set<Up>

    constructor ()
      ensures leases == map[] && sent == {}
    {
      leases, sent := map[], {};
    }

    method Send(m: Up)
      modifies this`sent
      ensures sent == old(sent) + {m}
    {
      sent := sent + {m};
    }

    method TrackLease(run: Id, lease: Id)
      modifies this`leases
      ensures leases == old(leases)[run := lease]
    {
      leases := leases[run := lease];
    }

    method UntrackLease(run: Id)
      modifies this`leases
      ensures leases == old(leases) - {run}
    {
      leases := leases - {run};
    }

    // Sends one renewal for every tracked lease.
    method RenewLeases()
      modifies this`sent
      ensures sent == old(sent) + set run | run in leases :: RenewMsg(run, leases[run])
    {
      var rest := leases.Keys;
      while rest != {}
        invariant rest <= leases.Keys
        invariant sent == old(sent) + set run | run in leases && run !in rest :: RenewMsg(run, leases[run])
        decreases |rest|
      {
        var run :| run in rest;
        Send(RenewMsg(run, leases[run]));
        rest := rest - {run};
      }
    }
  }

  class LocalAgentDaemon {
    var pendingOffers: map<Id, Id>
    var runs: map<Id, Id>
    const transport: LocalAgentTransport

    // The daemon's part of a state of the protocol.
    predicate IsIn(p: Net)
      reads this, transport
    {
      p.pending == pendingOffers && p.active == runs && p.tracked == transport.leases && p.up == transport.sent
    }

    constructor (device: Id)
      ensures fresh(transport) && IsIn(NetAfter(device, []))
    {
      pendingOffers, runs := map[], map[];
      transport := new LocalAgentTransport();
    }

    method OfferRemoteRun(run: Id, lease: Id, session: string, ghost p: Net)
      requires IsIn(p)
      modifies this, transport
      ensures IsIn(OnMessage(p, OfferMsg(run, lease), session, true))
    {
      pendingOffers := pendingOffers[run := lease];
      transport.Send(ClaimMsg(run, lease, session));
    }

    // Executes the run only if the server granted a claim and the offer is still remembered.
    method ClaimRemoteRun(run: Id, claimed: bool, hasWorkspace: bool, ghost p: Net)
      requires IsIn(p)
      modifies this, transport
      ensures IsIn(OnMessage(p, ClaimedMsg(run, claimed), "", hasWorkspace))
    {
      var known := run in pendingOffers;
      var lease := if known then pendingOffers[run] else 0;
      pendingOffers := pendingOffers - {run};
      if !known || !claimed {
        return;
      }
      if !hasWorkspace {
        transport.Send(FinishMsg(run, lease, R.Failed, ""));
        return;
      }
      runs := runs[run := lease];
      transport.TrackLease(run, lease);
    }

    method EmitEvent(run: Id, sequence: int, kind: string, ghost p: Net)
      requires IsIn(p) && run in runs
      modifies transport
      ensures IsIn(Act(p, DaemonEmits(run, sequence, kind)))
    {
      transport.Send(EventMsg(run, runs[run], sequence, kind));
    }

    method FinishRun(run: Id, state: R.RunState, content: string, ghost p: Net)
      requires IsIn(p) && run in runs
      modifies transport
      ensures IsIn(Act(p, DaemonFinishes(run, state, content)))
    {
      transport.Send(FinishMsg(run, runs[run], state, content));
      transport.UntrackLease(run);
    }

    method RenewLeases(ghost p: Net)
      requires IsIn(p)
      modifies transport
      ensures IsIn(Act(p, DaemonRenews))
    {
      transport.RenewLeases();
    }

    method Receive(m: Down, session: string, hasWorkspace: bool, ghost p: Net)
      requires IsIn(p)
      modifies this, transport
      ensures IsIn(OnMessage(p, m, session, hasWorkspace))
    {
      match m
      case OfferMsg(run, lease) => OfferRemoteRun(run, lease, session, p);
      case ClaimedMsg(run, claimed) => ClaimRemoteRun(run, claimed, hasWorkspace, p);
      case AckMsg(_, _) =>
    }

    // A restarted daemon has forgotten offers, runs and leases.
    method Restart(ghost p: Net)
      requires IsIn(p)
      modifies this, transport
      ensures IsIn(Act(p, DaemonRestarts))
    {
      pendingOffers, runs := map[], map[];
      transport.leases := map[];
    }

    // One action of the protocol. What happens elsewhere does not reach the daemon; what it receives is
    // the next message on the wire.
    method Perform(a: Action, message: Option<Down>, ghost p: Net)
      requires IsIn(p) && (a.DaemonReceives? ==> message == NextMessage(p))
      modifies this, transport
      ensures IsIn(Act(p, a))
    {
      hide Step, OfferLocalRun, ClaimLocalRun, RenewLocalLease;
      match a {
        case DaemonReceives(session, hasWorkspace) =>
          if message.Some? {
            Receive(message.value, session, hasWorkspace, p.(down := p.down[1..]));
          }
        case DaemonEmits(run, sequence, kind) =>
          if run in runs {
            EmitEvent(run, sequence, kind, p);
          }
        case DaemonFinishes(run, state, content) =>
          if run in runs {
            FinishRun(run, state, content, p);
          }
        case DaemonRenews => RenewLeases(p);
        case DaemonRestarts => Restart(p);
        case _ =>
      }
    }
  }

  function NextMessage(p: Net): Option<Down> {
    if p.down == [] then None else Some(p.down[0])
  }

  // Every message a daemon is given is the next one on the wire.
  ghost predicate FromTheWire(device: Id, actions: seq<Action>, messages: seq<Option<Down>>) {
    && |messages| == |actions|
    && (forall i :: 0 <= i < |actions| && actions[i].DaemonReceives? ==> messages[i] == NextMessage(NetAfter(device, actions[..i])))
  }

  // A daemon that goes through the actions of a device one after the other ends as the protocol says,
  // so all it has sent but claims carries the leases the server has on record.
  method PerformAll(device: Id, actions: seq<Action>, messages: seq<Option<Down>>) returns (daemon: LocalAgentDaemon)
    requires FromTheWire(device, actions, messages)
    ensures daemon.IsIn(NetAfter(device, actions))
    ensures var s := NetAfter(device, actions).server;
            forall m :: m in daemon.transport.sent && !m.ClaimMsg? && m.run in s.dispatches ==>
              s.dispatches[m.run].lease == Some(m.lease) && Taken(s.dispatches[m.run])
  {
    hide Act;
    daemon := new LocalAgentDaemon(device);
    assert actions[..0] == [];
    for i := 0 to |actions|
      invariant fresh(daemon) && fresh(daemon.transport)
      invariant daemon.IsIn(NetAfter(device, actions[..i]))
    {
      assert actions[..i + 1][..i] == actions[..i];
      daemon.Perform(actions[i], messages[i], NetAfter(device, actions[..i]));
    }
    assert actions[..|actions|] == actions;
    forall m | m in daemon.transport.sent && !m.ClaimMsg? && m.run in NetAfter(device, actions).server.dispatches
      ensures var d := NetAfter(device, actions).server.dispatches[m.run]; d.lease == Some(m.lease) && Taken(d)
    {
      DaemonSendsTheRecordedLease(device, actions, m);
    }
  }
}
