// One device's daemon and the server, connected by sockets that may break: which lease the daemon
// believes in, and which one the server has on record.
module LeaseProtocol {
  import opened Options
  import opened Tables
  import opened RunCommands
  import opened LeaseCommands
  import opened Commands
  import opened RunHistory
  import opened RunEffects
  import opened RunTheorems
  import opened LeaseTheorems
  import R = RunStates

  datatype Down = OfferMsg(run: Id, lease: Id) | ClaimedMsg(run: Id, claimed: bool) | AckMsg(run: Id, cancelled: bool)

  datatype Up =
    | ClaimMsg(run: Id, lease: Id, session: string)
    | RenewMsg(run: Id, lease: Id)
    | EventMsg(run: Id, lease: Id, sequence: int, kind: string)
    | FinishMsg(run: Id, lease: Id, state: R.RunState, content: string)

  // What the server sends arrives in order or, when the socket breaks, not at all. What the daemon
  // sends may be lost, reordered or repeated: a message once sent may be handled any number of times.
  datatype Net = Net(
    device: Id,
    server: Tables,
    down: seq<Down>,
    up: set<Up>,
    pending: map<Id, Id>,      // the daemon's pendingOffers: run to lease
    active: map<Id, Id>,       // the runs it executes, with the lease of each
    tracked: map<Id, Id>,      // the leases it renews
    received: map<Id, Id>,     // history: the latest lease it was ever offered, by run
    begun: seq<Id>)            // history: the runs it began to execute

  datatype Action =
    | Elsewhere(command: Command)                       // anything but this device's own requests
    | ServerOffers(lost: bool)                          // lost, or not sent although the run is marked
    | ServerHandles(message: Up, lost: bool)
    | DaemonReceives(session: string, hasWorkspace: bool)
    | DaemonEmits(run: Id, sequence: int, kind: string)
    | DaemonFinishes(run: Id, state: R.RunState, content: string)
    | DaemonRenews
    | SocketBreaks
    | DaemonRestarts

  predicate FromDevice(c: Command, device: Id) {
    (c.Offer? || c.Claim? || c.Renew? || c.Append? || c.Finish?) && c.device == device
  }

  function RequestOf(m: Up, device: Id): Command {
    match m
    case ClaimMsg(run, lease, session) => Claim(run, device, lease, session)
    case RenewMsg(run, lease) => Renew(run, device, lease)
    case EventMsg(run, lease, sequence, kind) => Append(run, device, lease, sequence, kind)
    case FinishMsg(run, lease, state, content) => Finish(run, device, lease, state, content)
  }

  // The replies the daemon acts on.
  function RepliesTo(s: Tables, m: Up, device: Id): seq<Down> {
    match m
    case ClaimMsg(run, lease, session) => [ClaimedMsg(run, ClaimLocalRun(s, run, device, lease, session).1)]
    case RenewMsg(run, lease) => [AckMsg(run, RenewLocalLease(s, run, device, lease).1 == Some(true))]
    case _ => []
  }

  function OnMessage(p: Net, m: Down, session: string, hasWorkspace: bool): Net {
    match m
    case OfferMsg(run, lease) =>
      p.(pending := p.pending[run := lease], received := p.received[run := lease],
         up := p.up + {ClaimMsg(run, lease, session)})
    case ClaimedMsg(run, claimed) =>
      var p1 := p.(pending := p.pending - {run});
      if run !in p.pending || !claimed then p1
      else if !hasWorkspace then p1.(up := p1.up + {FinishMsg(run, p.pending[run], R.Failed, "")})
      else p1.(active := p1.active[run := p.pending[run]], tracked := p1.tracked[run := p.pending[run]], begun := p1.begun + [run])
    case AckMsg(_, _) => p
  }

  ghost function OfferMessages(given: Option<(Id, Id)>, lost: bool): seq<Down> {
    if given.Some? && !lost then [OfferMsg(given.value.0, given.value.1)] else []
  }

  ghost function Act(p: Net, a: Action): Net {
    match a
    case Elsewhere(c) => if FromDevice(c, p.device) then p else p.(server := Step(p.server, c))
    case ServerOffers(lost) =>
      var (s, given) := OfferLocalRun(p.server, p.device);
      p.(server := s, down := p.down + OfferMessages(given, lost))
    case ServerHandles(m, lost) =>
      if m !in p.up then p
      else p.(server := Step(p.server, RequestOf(m, p.device)),
              down := if lost then p.down else p.down + RepliesTo(p.server, m, p.device))
    case DaemonReceives(session, hasWorkspace) =>
      if p.down == [] then p else OnMessage(p.(down := p.down[1..]), p.down[0], session, hasWorkspace)
    case DaemonEmits(run, sequence, kind) =>
      if run !in p.active then p else p.(up := p.up + {EventMsg(run, p.active[run], sequence, kind)})
    case DaemonFinishes(run, state, content) =>
      if run !in p.active then p
      else p.(up := p.up + {FinishMsg(run, p.active[run], state, content)}, tracked := p.tracked - {run})
    case DaemonRenews => p.(up := p.up + set run | run in p.tracked :: RenewMsg(run, p.tracked[run]))
    case SocketBreaks => p.(down := [])
    case DaemonRestarts => p.(down := [], pending := map[], active := map[], tracked := map[])
  }

  ghost function NetAfter(device: Id, actions: seq<Action>): Net {
    if actions == [] then Net(device, Empty, [], {}, map[], map[], map[], map[], [])
    else Act(NetAfter(device, actions[..|actions| - 1]), actions[|actions| - 1])
  }

  // ---------------------------------------------------------------- the invariant

  // The run was claimed, here or before its rows were erased, and no offer of it is under way.
  predicate Won(s: Tables, down: seq<Down>, run: Id) {
    && run < s.nextId
    && (run in s.dispatches ==> Taken(s.dispatches[run]))
    && (forall k :: 0 <= k < |down| ==> !(down[k].OfferMsg? && down[k].run == run))
  }

  predicate LeaseAtLeast(s: Tables, device: Id, run: Id, lease: Id) {
    && run < s.nextId && lease < s.nextId
    && (run in s.dispatches ==>
          && s.dispatches[run].device == device
          && s.dispatches[run].lease.Some? && lease <= s.dispatches[run].lease.value)
  }

  // Offers under way are newer than what the daemon was offered before, and arrive in order.
  predicate OffersInOrder(s: Tables, device: Id, down: seq<Down>, received: map<Id, Id>) {
    && (forall k :: 0 <= k < |down| && down[k].OfferMsg? ==>
          && LeaseAtLeast(s, device, down[k].run, down[k].lease)
          && (down[k].run in received ==> received[down[k].run] < down[k].lease))
    && (forall j, k :: 0 <= j < k < |down| && down[j].OfferMsg? && down[k].OfferMsg? && down[j].run == down[k].run ==>
                         down[j].lease < down[k].lease)
  }

  predicate ReceivedBounded(s: Tables, device: Id, received: map<Id, Id>) {
    && (forall r :: r in received ==> LeaseAtLeast(s, device, r, received[r]))
    && (forall r :: r in s.dispatches && s.dispatches[r].device == device && Taken(s.dispatches[r]) ==>
                      r in received && s.dispatches[r].lease == Some(received[r]))
  }

  predicate Holds(s: Tables, down: seq<Down>, received: map<Id, Id>, run: Id, lease: Id) {
    Won(s, down, run) && run in received && received[run] == lease
  }

  predicate SentRightly(s: Tables, down: seq<Down>, received: map<Id, Id>, m: Up) {
    if m.ClaimMsg? then m.run in received && m.lease <= received[m.run]
    else Holds(s, down, received, m.run, m.lease)
  }

  ghost predicate DaemonRight(p: Net) {
    && (forall r :: r in p.pending ==> r in p.received && p.received[r] == p.pending[r])
    && (forall r :: r in p.active ==> Holds(p.server, p.down, p.received, r, p.active[r]))
    && (forall r :: r in p.tracked ==> Holds(p.server, p.down, p.received, r, p.tracked[r]))
    && (forall m :: m in p.up ==> SentRightly(p.server, p.down, p.received, m))
    && (forall k :: 0 <= k < |p.down| && p.down[k].ClaimedMsg? && p.down[k].claimed ==> Won(p.server, p.down, p.down[k].run))
  }

  ghost predicate Agree(p: Net) {
    && KnownRuns(p.server)
    && OffersInOrder(p.server, p.device, p.down, p.received)
    && ReceivedBounded(p.server, p.device, p.received)
    && DaemonRight(p)
  }

  // ---------------------------------------------------------------- the server's side

  // The device's rows keep their leases, and none is newly taken.
  ghost predicate Quiet(s: Tables, s': Tables, device: Id) {
    && KnownRuns(s') && s.nextId <= s'.nextId
    && (forall r :: r in s'.dispatches && r < s.nextId ==>
          && r in s.dispatches && s'.dispatches[r].device == s.dispatches[r].device
          && (s.dispatches[r].device == device ==> s'.dispatches[r].lease == s.dispatches[r].lease)
          && (Taken(s.dispatches[r]) ==> Taken(s'.dispatches[r]))
          && (s.dispatches[r].device == device && Taken(s'.dispatches[r]) ==> Taken(s.dispatches[r])))
    && (forall r :: r in s'.dispatches && r >= s.nextId ==> !Taken(s'.dispatches[r]))
  }

  lemma MoveIsQuiet(s: Tables, s': Tables, m: RunMove, device: Id)
    requires KnownRuns(s) && Moves(s, s', m) && !m.Lend?
    requires m.Take? && m.run in s.dispatches ==> s.dispatches[m.run].device != device
    ensures Quiet(s, s', device)
  {
    hide RunsAfter, OutboxAfter, InvocationsAfter, TraceAfter, AllowsToolCall, Within, KnownRuns;
    MoveKeepsKnownRuns(s, s', m);
    assert s.dispatches.Keys <= s.runs.Keys && forall r :: r in s.runs ==> r < s.nextId by { RowsBelow(s); }
  }

  lemma RowsBelow(s: Tables)
    requires KnownRuns(s)
    ensures s.dispatches.Keys <= s.runs.Keys && forall r :: r in s.runs ==> r < s.nextId
  {
  }

  // An offer of one waiting run of the device, under a lease that was never used before.
  ghost predicate Offers(s: Tables, s': Tables, device: Id, run: Id) {
    && run in s.dispatches && s.dispatches[run].device == device && !Taken(s.dispatches[run])
    && s'.nextId == s.nextId + 1
    && s'.dispatches.Keys == s.dispatches.Keys
    && (forall r :: r in s.dispatches && r != run ==> s'.dispatches[r] == s.dispatches[r])
    && s'.dispatches[run].device == device && s'.dispatches[run].lease == Some(s.nextId) && !Taken(s'.dispatches[run])
  }

  lemma OfferChangesOneRow(s: Tables, device: Id)
    ensures var (s', given) := OfferLocalRun(s, device);
            if given.None? then s' == s
            else Offers(s, s', device, given.value.0) && given.value.1 == s.nextId
  {
  }

  lemma OfferKnown(s: Tables, device: Id)
    requires KnownRuns(s)
    ensures KnownRuns(OfferLocalRun(s, device).0)
  {
    hide KnownRuns, Moves, OfferLocalRun;
    var m := OfferMoves(s, device);
    MoveKeepsKnownRuns(s, OfferLocalRun(s, device).0, m);
  }

  lemma OtherOffersAreQuiet(s: Tables, other: Id, device: Id)
    requires KnownRuns(s) && other != device
    ensures Quiet(s, OfferLocalRun(s, other).0, device)
  {
    hide OfferLocalRun, KnownRuns;
    OfferKnown(s, other);
    OfferChangesOneRow(s, other);
    RowsBelow(s);
  }

  lemma CommandIsQuiet(s: Tables, c: Command, device: Id)
    requires KnownRuns(s) && !(c.Offer? && c.device == device)
    requires c.Claim? && c.device == device ==> !Accepts(s, c)
    ensures Quiet(s, Step(s, c), device)
  {
    hide Step, KnownRuns, Moves, Quiet, OfferLocalRun, Accepts;
    if c.Offer? {
      OtherOffersAreQuiet(s, c.device, device);
      OfferStep(s, c);
    } else {
      var m := StepMoves(s, c);
      if m.Take? && m.run in s.dispatches && s.dispatches[m.run].device == device {
        assert StartedBy(m, m.run);
        TakenByClaim(s, c, m.run, m);
        assert false;
      }
      MoveIsQuiet(s, Step(s, c), m, device);
    }
  }

  lemma TakenByClaim(s: Tables, c: Command, run: Id, m: RunMove)
    requires KnownRuns(s) && m.Take? && m.run == run && StartsRun(s, c, run) && Moves(s, Step(s, c), m)
    ensures c.Claim? && Accepts(s, c) && run in s.dispatches && s.dispatches[run].device == c.device
  {
  }

  // ---------------------------------------------------------------- every action keeps the invariant

  lemma QuietKeepsWon(s: Tables, s': Tables, device: Id, down: seq<Down>, run: Id)
    requires KnownRuns(s) && Quiet(s, s', device) && Won(s, down, run)
    ensures Won(s', down, run)
  {
  }

  lemma QuietKeepsAgree(p: Net, s': Tables)
    requires Agree(p) && Quiet(p.server, s', p.device)
    ensures Agree(p.(server := s'))
  {
    hide KnownRuns, Won;
    QuietKeepsOffers(p, s');
    QuietKeepsDaemon(p, s');
  }

  lemma QuietKeepsOffers(p: Net, s': Tables)
    requires Agree(p) && Quiet(p.server, s', p.device)
    ensures OffersInOrder(s', p.device, p.down, p.received) && ReceivedBounded(s', p.device, p.received)
  {
    hide Won, DaemonRight;
  }

  lemma QuietKeepsDaemon(p: Net, s': Tables)
    requires KnownRuns(p.server) && DaemonRight(p) && Quiet(p.server, s', p.device)
    ensures DaemonRight(p.(server := s'))
  {
    hide KnownRuns, Won, Quiet;
    forall r | Won(p.server, p.down, r) ensures Won(s', p.down, r) {
      QuietKeepsWon(p.server, s', p.device, p.down, r);
    }
  }

  // A reply keeps everything, if the claims it grants were won.
  lemma ReplyKeepsAgree(p: Net, m: Down)
    requires Agree(p) && !m.OfferMsg? && (m.ClaimedMsg? && m.claimed ==> Won(p.server, p.down, m.run))
    ensures Agree(p.(down := p.down + [m]))
  {
    hide KnownRuns, ReceivedBounded;
    var down := p.down + [m];
    assert forall k :: 0 <= k < |down| ==> down[k] == if k < |p.down| then p.down[k] else m;
    forall r | Won(p.server, p.down, r) ensures Won(p.server, down, r) {
    }
  }

  // The server takes the claim of a device that holds the current offer.
  ghost predicate Grants(s: Tables, s': Tables, device: Id, run: Id, lease: Id) {
    && run in s.dispatches && s.dispatches[run].device == device && s.dispatches[run].lease == Some(lease)
    && s'.nextId == s.nextId && s'.dispatches.Keys == s.dispatches.Keys
    && (forall r :: r in s.dispatches && r != run ==> s'.dispatches[r] == s.dispatches[r])
    && s'.dispatches[run].device == device && s'.dispatches[run].lease == Some(lease) && Taken(s'.dispatches[run])
  }

  lemma ClaimGrants(s: Tables, device: Id, run: Id, lease: Id, session: string)
    requires KnownRuns(s) && ClaimLocalRun(s, run, device, lease, session).1
    ensures var s' := ClaimLocalRun(s, run, device, lease, session).0; KnownRuns(s') && Grants(s, s', device, run, lease)
  {
    hide ClaimLocalRun, KnownRuns;
    var m := ClaimMoves(s, run, device, lease, session);
    MoveKeepsKnownRuns(s, ClaimLocalRun(s, run, device, lease, session).0, m);
    HeldLease(s, device, run, lease, session);
    TakeGrants(s, ClaimLocalRun(s, run, device, lease, session).0, m, device, lease);
  }

  lemma HeldLease(s: Tables, device: Id, run: Id, lease: Id, session: string)
    requires ClaimLocalRun(s, run, device, lease, session).1
    ensures run in s.dispatches && s.dispatches[run].device == device && s.dispatches[run].lease == Some(lease)
    ensures ClaimLocalRun(s, run, device, lease, session).0.nextId == s.nextId
  {
  }

  lemma TakeGrants(s: Tables, s': Tables, m: RunMove, device: Id, lease: Id)
    requires Moves(s, s', m) && m.Take? && s'.nextId == s.nextId
    requires m.run in s.dispatches && s.dispatches[m.run].device == device && s.dispatches[m.run].lease == Some(lease)
    ensures Grants(s, s', device, m.run, lease)
  {
    hide RunsAfter, OutboxAfter, InvocationsAfter, TraceAfter, AllowsToolCall, Within;
  }

  // The claim carried the lease the daemon was last offered, and no newer offer is under way.
  lemma GrantIsCurrent(p: Net, s': Tables, run: Id, lease: Id)
    requires Agree(p) && Grants(p.server, s', p.device, run, lease)
    requires run in p.received && lease <= p.received[run]
    ensures p.received[run] == lease && Won(s', p.down, run)
  {
    assert KnownRuns(p.server);
  }

  lemma GrantKeepsOffers(p: Net, s': Tables, run: Id, lease: Id)
    requires Agree(p) && Grants(p.server, s', p.device, run, lease)
    requires run in p.received && p.received[run] == lease
    ensures OffersInOrder(s', p.device, p.down, p.received) && ReceivedBounded(s', p.device, p.received)
  {
    hide DaemonRight;
  }

  lemma GrantKeepsDaemon(p: Net, s': Tables, run: Id, lease: Id)
    requires DaemonRight(p) && Grants(p.server, s', p.device, run, lease)
    ensures DaemonRight(p.(server := s'))
  {
    forall r | Won(p.server, p.down, r) ensures Won(s', p.down, r) {
    }
  }

  lemma GrantKeepsAgree(p: Net, s': Tables, run: Id, lease: Id)
    requires Agree(p) && KnownRuns(s') && Grants(p.server, s', p.device, run, lease)
    requires run in p.received && lease <= p.received[run]
    ensures Agree(p.(server := s')) && Won(s', p.down, run)
  {
    hide KnownRuns, OffersInOrder, ReceivedBounded, DaemonRight, Grants, Won;
    GrantIsCurrent(p, s', run, lease);
    GrantKeepsOffers(p, s', run, lease);
    GrantKeepsDaemon(p, s', run, lease);
  }

  lemma OfferKeepsOffers(p: Net, s': Tables, run: Id, lost: bool)
    requires Agree(p) && Offers(p.server, s', p.device, run)
    ensures var down := p.down + if lost then [] else [OfferMsg(run, p.server.nextId)];
            OffersInOrder(s', p.device, down, p.received) && ReceivedBounded(s', p.device, p.received)
  {
    hide DaemonRight;
    assert KnownRuns(p.server);
    var down := p.down + if lost then [] else [OfferMsg(run, p.server.nextId)];
    assert forall k :: 0 <= k < |down| ==> down[k] == if k < |p.down| then p.down[k] else OfferMsg(run, p.server.nextId);
  }

  lemma OfferKeepsDaemon(p: Net, s': Tables, run: Id, lost: bool)
    requires DaemonRight(p) && Offers(p.server, s', p.device, run)
    ensures DaemonRight(p.(server := s', down := p.down + if lost then [] else [OfferMsg(run, p.server.nextId)]))
  {
    var down := p.down + if lost then [] else [OfferMsg(run, p.server.nextId)];
    assert forall k :: 0 <= k < |down| ==> down[k] == if k < |p.down| then p.down[k] else OfferMsg(run, p.server.nextId);
    forall r | Won(p.server, p.down, r) ensures Won(s', down, r) {
    }
  }

  lemma OfferActKeepsAgree(p: Net, lost: bool)
    requires Agree(p)
    ensures Agree(Act(p, ServerOffers(lost)))
  {
    hide KnownRuns, OffersInOrder, ReceivedBounded, DaemonRight, OfferLocalRun, Offers;
    var (s', given) := OfferLocalRun(p.server, p.device);
    OfferChangesOneRow(p.server, p.device);
    OfferKnown(p.server, p.device);
    if given.Some? {
      OfferKeepsOffers(p, s', given.value.0, lost);
      OfferKeepsDaemon(p, s', given.value.0, lost);
    } else {
      assert p.down + [] == p.down;
    }
  }

  lemma ClaimActKeepsAgree(p: Net, m: Up, lost: bool)
    requires Agree(p) && m in p.up && m.ClaimMsg?
    ensures Agree(Act(p, ServerHandles(m, lost)))
  {
    hide KnownRuns, OffersInOrder, ReceivedBounded, Won, Holds, ClaimLocalRun, Agree;
    var s', ok := Step(p.server, RequestOf(m, p.device)), ClaimLocalRun(p.server, m.run, p.device, m.lease, m.session).1;
    ClaimStep(p.server, m, p.device);
    ClaimSent(p, m);
    AgreeKnown(p);
    if ok {
      ClaimGrants(p.server, p.device, m.run, m.lease, m.session);
      GrantKeepsAgree(p, s', m.run, m.lease);
    } else {
      CommandIsQuiet(p.server, RequestOf(m, p.device), p.device);
      QuietKeepsAgree(p, s');
    }
    ReplyKeepsAgree(p.(server := s'), ClaimedMsg(m.run, ok));
  }

  lemma AgreeKnown(p: Net)
    requires Agree(p)
    ensures KnownRuns(p.server)
  {
  }

  lemma ClaimSent(p: Net, m: Up)
    requires Agree(p) && m in p.up && m.ClaimMsg?
    ensures m.run in p.received && m.lease <= p.received[m.run]
  {
    assert SentRightly(p.server, p.down, p.received, m);
  }

  lemma ClaimStep(s: Tables, m: Up, device: Id)
    requires m.ClaimMsg?
    ensures Step(s, RequestOf(m, device)) == ClaimLocalRun(s, m.run, device, m.lease, m.session).0
    ensures Accepts(s, RequestOf(m, device)) == ClaimLocalRun(s, m.run, device, m.lease, m.session).1
  {
    hide ClaimLocalRun;
  }

  lemma HandleActKeepsAgree(p: Net, m: Up, lost: bool)
    requires Agree(p) && m in p.up && !m.ClaimMsg?
    ensures Agree(Act(p, ServerHandles(m, lost)))
  {
    hide KnownRuns, OffersInOrder, ReceivedBounded, Won, Holds, Agree, Step, RenewLocalLease, Accepts;
    var s' := Step(p.server, RequestOf(m, p.device));
    AgreeKnown(p);
    CommandIsQuiet(p.server, RequestOf(m, p.device), p.device);
    QuietKeepsAgree(p, s');
    if m.RenewMsg? {
      ReplyKeepsAgree(p.(server := s'), AckMsg(m.run, RenewLocalLease(p.server, m.run, p.device, m.lease).1 == Some(true)));
    } else {
      assert p.down + [] == p.down;
    }
  }

  // ---------------------------------------------------------------- the daemon's side

  lemma PopKeepsWon(s: Tables, down: seq<Down>, run: Id)
    requires |down| > 0 && Won(s, down, run)
    ensures Won(s, down[1..], run) && !(down[0].OfferMsg? && down[0].run == run)
  {
  }

  // A message other than an offer leaves the queue.
  lemma PopKeepsAgree(p: Net)
    requires Agree(p) && |p.down| > 0
    ensures var m := p.down[0];
            if m.OfferMsg? then Agree(p.(down := p.down[1..], received := p.received[m.run := m.lease], pending := p.pending[m.run := m.lease]))
            else Agree(p.(down := p.down[1..]))
  {
    hide KnownRuns;
    PopKeepsOffers(p);
    PopKeepsDaemon(p);
  }

  lemma PopKeepsOffers(p: Net)
    requires Agree(p) && |p.down| > 0
    ensures var m := p.down[0];
            var received := if m.OfferMsg? then p.received[m.run := m.lease] else p.received;
            OffersInOrder(p.server, p.device, p.down[1..], received) && ReceivedBounded(p.server, p.device, received)
  {
    hide KnownRuns, DaemonRight;
    var m, down := p.down[0], p.down[1..];
    assert forall k :: 0 <= k < |down| ==> down[k] == p.down[k + 1];
    if m.OfferMsg? {
      assert LeaseAtLeast(p.server, p.device, m.run, m.lease);
    }
  }

  lemma PopKeepsDaemon(p: Net)
    requires DaemonRight(p) && |p.down| > 0
    requires p.down[0].OfferMsg? && p.down[0].run in p.received ==> p.received[p.down[0].run] < p.down[0].lease
    ensures var m := p.down[0];
            if m.OfferMsg? then DaemonRight(p.(down := p.down[1..], received := p.received[m.run := m.lease], pending := p.pending[m.run := m.lease]))
            else DaemonRight(p.(down := p.down[1..]))
  {
    hide Won;
    var down := p.down[1..];
    assert forall k :: 0 <= k < |down| ==> down[k] == p.down[k + 1];
    forall r | Won(p.server, p.down, r) ensures Won(p.server, down, r) && !(p.down[0].OfferMsg? && p.down[0].run == r) {
      PopKeepsWon(p.server, p.down, r);
    }
  }

  lemma SendKeepsAgree(p: Net, m: Up)
    requires Agree(p) && SentRightly(p.server, p.down, p.received, m)
    ensures Agree(p.(up := p.up + {m}))
  {
    hide KnownRuns, OffersInOrder, ReceivedBounded, Holds;
  }

  lemma ReceiveKeepsAgree(p: Net, session: string, hasWorkspace: bool)
    requires Agree(p) && |p.down| > 0
    ensures Agree(Act(p, DaemonReceives(session, hasWorkspace)))
  {
    hide KnownRuns, OffersInOrder, ReceivedBounded, Won;
    var m, p0 := p.down[0], p.(down := p.down[1..]);
    PopKeepsAgree(p);
    match m
    case OfferMsg(run, lease) =>
      SendKeepsAgree(p.(down := p.down[1..], received := p.received[run := lease], pending := p.pending[run := lease]),
                     ClaimMsg(run, lease, session));
    case AckMsg(_, _) =>
    case ClaimedMsg(run, claimed) =>
      if run in p.pending && claimed {
        PopKeepsWon(p.server, p.down, run);
        ClaimedKeepsAgree(p0, run, hasWorkspace);
      }
  }

  lemma ClaimedKeepsAgree(p: Net, run: Id, hasWorkspace: bool)
    requires Agree(p) && run in p.pending && Won(p.server, p.down, run)
    ensures Agree(OnMessage(p, ClaimedMsg(run, true), "", hasWorkspace))
  {
    hide KnownRuns, OffersInOrder, ReceivedBounded, Won;
    assert Holds(p.server, p.down, p.received, run, p.pending[run]);
  }

  lemma SendingKeepsAgree(p: Net, a: Action)
    requires Agree(p) && (a.DaemonEmits? || a.DaemonFinishes? || a.DaemonRenews?)
    ensures Agree(Act(p, a))
  {
    hide KnownRuns, OffersInOrder, ReceivedBounded, Holds;
  }

  lemma LosingKeepsAgree(p: Net, a: Action)
    requires Agree(p) && (a.SocketBreaks? || a.DaemonRestarts?)
    ensures Agree(Act(p, a))
  {
    hide KnownRuns, ReceivedBounded, LeaseAtLeast;
    forall r | Won(p.server, p.down, r) ensures Won(p.server, [], r) {
    }
  }

  lemma ActKeepsAgree(p: Net, a: Action)
    requires Agree(p)
    ensures Agree(Act(p, a))
  {
    hide Agree, Step, OfferLocalRun, FromDevice;
    match a
    case Elsewhere(c) =>
      if !FromDevice(c, p.device) {
        AgreeKnown(p);
        ElsewhereIsQuiet(p.server, c, p.device);
        QuietKeepsAgree(p, Step(p.server, c));
      }
    case ServerOffers(lost) => OfferActKeepsAgree(p, lost);
    case ServerHandles(m, lost) =>
      if m in p.up {
        if m.ClaimMsg? {
          ClaimActKeepsAgree(p, m, lost);
        } else {
          HandleActKeepsAgree(p, m, lost);
        }
      }
    case DaemonReceives(session, hasWorkspace) =>
      if p.down != [] {
        ReceiveKeepsAgree(p, session, hasWorkspace);
      }
    case SocketBreaks => LosingKeepsAgree(p, a);
    case DaemonRestarts => LosingKeepsAgree(p, a);
    case _ => SendingKeepsAgree(p, a);
  }

  lemma ElsewhereIsQuiet(s: Tables, c: Command, device: Id)
    requires KnownRuns(s) && !FromDevice(c, device)
    ensures Quiet(s, Step(s, c), device)
  {
    hide Step, KnownRuns, Quiet;
    CommandIsQuiet(s, c, device);
  }

  lemma EmptyAgrees(device: Id)
    ensures Agree(Net(device, Empty, [], {}, map[], map[], map[], map[], []))
  {
  }

  lemma {:induction false} AlwaysAgree(device: Id, actions: seq<Action>)
    ensures Agree(NetAfter(device, actions))
  {
    hide Act, Agree;
    if actions == [] {
      EmptyAgrees(device);
    } else {
      AlwaysAgree(device, actions[..|actions| - 1]);
      ActKeepsAgree(NetAfter(device, actions[..|actions| - 1]), actions[|actions| - 1]);
    }
  }

  lemma {:induction false} DeviceStays(device: Id, actions: seq<Action>)
    ensures NetAfter(device, actions).device == device
  {
    hide Step, OfferLocalRun, ClaimLocalRun, RenewLocalLease;
    if actions == [] {
    } else {
      DeviceStays(device, actions[..|actions| - 1]);
    }
  }

  // Whatever is lost, reordered, repeated, expired, offered again or restarted: every renewal, event
  // and finish the daemon sends for a run carries exactly the lease the server has on record for it,
  // on a dispatch row that is claimed or finished.
  lemma DaemonSendsTheRecordedLease(device: Id, actions: seq<Action>, m: Up)
    requires m in NetAfter(device, actions).up && !m.ClaimMsg?
    ensures var s := NetAfter(device, actions).server;
            m.run in s.dispatches ==>
              && s.dispatches[m.run].device == device
              && s.dispatches[m.run].lease == Some(m.lease) && Taken(s.dispatches[m.run])
  {
    hide NetAfter, KnownRuns, OffersInOrder;
    AlwaysAgree(device, actions);
    DeviceStays(device, actions);
    assert SentRightly(NetAfter(device, actions).server, NetAfter(device, actions).down, NetAfter(device, actions).received, m);
  }

  // ---------------------------------------------------------------- executed once

  // The run can be claimed no more.
  predicate Over(s: Tables, run: Id) {
    run < s.nextId && (run in s.dispatches ==> Taken(s.dispatches[run]))
  }

  // Granted claims under way, and executions begun.
  function Granted(p: Net, run: Id): nat {
    multiset(p.down)[ClaimedMsg(run, true)] + multiset(p.begun)[run]
  }

  ghost predicate Once(p: Net, run: Id) {
    Granted(p, run) <= if Over(p.server, run) then 1 else 0
  }

  lemma OverStays(s: Tables, s': Tables, device: Id, run: Id)
    requires Quiet(s, s', device) || (KnownRuns(s) && exists r :: Offers(s, s', device, r))
             || (exists r, l :: Grants(s, s', device, r, l))
    ensures Over(s, run) ==> Over(s', run)
  {
    hide KnownRuns;
  }

  lemma GrantEnds(s: Tables, s': Tables, device: Id, run: Id, lease: Id, session: string)
    requires KnownRuns(s) && ClaimLocalRun(s, run, device, lease, session).1
    requires s' == ClaimLocalRun(s, run, device, lease, session).0
    ensures !Over(s, run) && Over(s', run)
  {
    hide ClaimLocalRun;
    ClaimGrants(s, device, run, lease, session);
    RowsBelow(s);
    assert s.dispatches[run].state == Offered by { ClaimedFromOffer(s, device, run, lease, session); }
  }

  lemma ClaimedFromOffer(s: Tables, device: Id, run: Id, lease: Id, session: string)
    requires ClaimLocalRun(s, run, device, lease, session).1
    ensures run in s.dispatches && s.dispatches[run].state == Offered
  {
  }

  lemma HandleKeepsOnce(p: Net, m: Up, lost: bool, run: Id)
    requires Agree(p) && m in p.up && Once(p, run)
    ensures Once(Act(p, ServerHandles(m, lost)), run)
  {
    hide Agree, Step, ClaimLocalRun, RenewLocalLease, Over, Once, Accepts;
    var s, c := p.server, RequestOf(m, p.device);
    var more := if lost then [] else RepliesTo(s, m, p.device);
    AgreeKnown(p);
    assert p.down + [] == p.down;
    if m.ClaimMsg? {
      ClaimStep(s, m, p.device);
    }
    if m.ClaimMsg? && ClaimLocalRun(s, m.run, p.device, m.lease, m.session).1 {
      GrantEnds(s, Step(s, c), p.device, m.run, m.lease, m.session);
      ClaimGrants(s, p.device, m.run, m.lease, m.session);
      OverStays(s, Step(s, c), p.device, run);
      GrantKeepsOnce(p, Step(s, c), more, m.run, run);
    } else {
      CommandIsQuiet(s, c, p.device);
      OverStays(s, Step(s, c), p.device, run);
      ServerKeepsOnce(p, Step(s, c), more, run);
    }
  }

  lemma ActKeepsOnce(p: Net, a: Action, run: Id)
    requires Agree(p) && Once(p, run)
    ensures Once(Act(p, a), run)
  {
    hide Agree, Step, OfferLocalRun, FromDevice, Over, Once, OnMessage;
    match a
    case Elsewhere(c) =>
      if !FromDevice(c, p.device) {
        AgreeKnown(p);
        ElsewhereIsQuiet(p.server, c, p.device);
        OverStays(p.server, Step(p.server, c), p.device, run);
        ServerKeepsOnce(p, Step(p.server, c), [], run);
      }
    case ServerOffers(lost) =>
      AgreeKnown(p);
      OfferChangesOneRow(p.server, p.device);
      var (s', given) := OfferLocalRun(p.server, p.device);
      if given.Some? {
        OverStays(p.server, s', p.device, run);
      }
      ServerKeepsOnce(p, s', OfferMessages(given, lost), run);
    case ServerHandles(m, lost) =>
      if m in p.up {
        HandleKeepsOnce(p, m, lost, run);
      }
    case DaemonReceives(session, hasWorkspace) =>
      if p.down != [] {
        ReceiveKeepsOnce(p, session, hasWorkspace, run);
      }
    case _ => SendingKeepsOnce(p, a, run);
  }

  lemma ServerKeepsOnce(p: Net, s': Tables, more: seq<Down>, run: Id)
    requires Once(p, run) && (Over(p.server, run) ==> Over(s', run))
    requires ClaimedMsg(run, true) !in more
    ensures Once(p.(server := s', down := p.down + more), run)
    ensures more == [] ==> Once(p.(server := s'), run)
  {
    hide Over;
    assert multiset(p.down + more) == multiset(p.down) + multiset(more);
    assert multiset(more)[ClaimedMsg(run, true)] == 0;
  }

  // A claim is granted only while the run can still be claimed.
  lemma GrantKeepsOnce(p: Net, s': Tables, more: seq<Down>, claimed: Id, run: Id)
    requires Once(p, run) && !Over(p.server, claimed) && Over(s', claimed) && (Over(p.server, run) ==> Over(s', run))
    requires more == [] || more == [ClaimedMsg(claimed, true)]
    ensures Once(p.(server := s', down := p.down + more), run)
  {
    hide Over;
    assert multiset(p.down + more) == multiset(p.down) + multiset(more);
  }

  lemma ReceiveKeepsOnce(p: Net, session: string, hasWorkspace: bool, run: Id)
    requires Once(p, run) && p.down != []
    ensures Once(OnMessage(p.(down := p.down[1..]), p.down[0], session, hasWorkspace), run)
  {
    hide Over;
    assert p.down == [p.down[0]] + p.down[1..];
    assert multiset(p.down) == multiset([p.down[0]]) + multiset(p.down[1..]);
    assert multiset(p.begun + [p.down[0].run]) == multiset(p.begun) + multiset([p.down[0].run]);
  }

  lemma SendingKeepsOnce(p: Net, a: Action, run: Id)
    requires Once(p, run) && (a.DaemonEmits? || a.DaemonFinishes? || a.DaemonRenews? || a.SocketBreaks? || a.DaemonRestarts?)
    ensures Once(Act(p, a), run)
  {
    hide Over;
  }

  // The daemon begins to execute a run at most once, even if it is restarted in between.
  lemma {:induction false} BegunOnce(device: Id, actions: seq<Action>, run: Id)
    ensures Once(NetAfter(device, actions), run)
    ensures multiset(NetAfter(device, actions).begun)[run] <= 1
  {
    hide Act, Agree, Over;
    if actions == [] {
    } else {
      BegunOnce(device, actions[..|actions| - 1], run);
      AlwaysAgree(device, actions[..|actions| - 1]);
      ActKeepsOnce(NetAfter(device, actions[..|actions| - 1]), actions[|actions| - 1], run);
    }
  }
}