// The reply pipeline of the chat gateway: durable inbox and outbound rows, one task per event, and a
// process that may crash between any two of its writes.
module ReplyPipeline {
  import opened Options

  type Key = string

  datatype InboxStatus = Processing | Failed | Completed | Expired

  datatype Inbox = Inbox(status: InboxStatus, attempts: nat, updatedAt: int)

  datatype OutboundStatus = Sending | Sent | SendFailed

  datatype Outbound = Outbound(status: OutboundStatus, attempts: nat, updatedAt: int)

  datatype Rows = Rows(inbox: map<Key, Inbox>, outbound: map<Key, Outbound>)

  datatype OutboundClaim = AlreadySent | InFlight | Claimed

  // ---------------------------------------------------------------- the store's commands

  function Terminal(s: InboxStatus): bool {
    s == Completed || s == Expired
  }

  function ClaimEvent(s: Rows, key: Key, now: int, retryAfter: int): (Rows, bool) {
    if key !in s.inbox then (s.(inbox := s.inbox[key := Inbox(Processing, 1, now)]), true)
    else
      var row := s.inbox[key];
      if Terminal(row.status) then (s, false)
      else if row.status == Processing && now - row.updatedAt < retryAfter then (s, false)
      else (s.(inbox := s.inbox[key := Inbox(Processing, row.attempts + 1, now)]), true)
  }

  function SetStatus(s: Rows, key: Key, status: InboxStatus, now: int): Rows {
    if key !in s.inbox then s
    else s.(inbox := s.inbox[key := s.inbox[key].(status := status, updatedAt := now)])
  }

  function TouchEvent(s: Rows, key: Key, now: int): Rows {
    if key !in s.inbox || s.inbox[key].status != Processing then s
    else s.(inbox := s.inbox[key := s.inbox[key].(updatedAt := now)])
  }

  function ClaimOutbound(s: Rows, key: Key, now: int, retryAfter: int): (Rows, OutboundClaim) {
    if key !in s.outbound then (s.(outbound := s.outbound[key := Outbound(Sending, 1, now)]), Claimed)
    else
      var row := s.outbound[key];
      if row.status == Sent then (s, AlreadySent)
      else if row.status == Sending && now - row.updatedAt < retryAfter then (s, InFlight)
      else (s.(outbound := s.outbound[key := Outbound(Sending, row.attempts + 1, now)]), Claimed)
  }

  function SetOutbound(s: Rows, key: Key, status: OutboundStatus, now: int): Rows {
    if key !in s.outbound then s
    else s.(outbound := s.outbound[key := s.outbound[key].(status := status, updatedAt := now)])
  }

  // ---------------------------------------------------------------- the pipeline

  // Where the task of an event stands, between two writes.
  datatype Phase =
    | Scheduled          // claimed, its task not begun
    | Submitted          // handed to the agent service
    | Answered           // the run has ended
    | Delivering         // the outbound row is claimed, the provider is being asked
    | Accepted           // the provider took the reply, the outbound row does not say so yet
    | Confirming         // the outbound row says sent, the inbox row is not completed yet
    | Broken             // the outbound row says failed, the inbox row does not say so yet

  datatype Gateway = Gateway(
    rows: Rows,
    now: int,
    retryAfter: int,
    active: map<Key, Phase>,       // one task per active event key
    accepted: map<Key, nat>,       // history: replies the provider took, by event
    lost: map<Key, nat>)           // history: crashes that caught an event between acceptance and its record

  datatype Action =
    | Tick(seconds: nat)
    | Arrive(key: Key)                          // from the socket, or again from the retry loop
    | Begin(key: Key, late: bool)
    | AgentDone(key: Key)
    | AgentFails(key: Key)                      // submission or waiting fails or times out
    | Reply(key: Key, late: bool)
    | ProviderAccepts(key: Key)
    | ProviderFails(key: Key)
    | RecordSent(key: Key)
    | RecordCompleted(key: Key)
    | RecordFailed(key: Key)
    | Crash

  function Count(m: map<Key, nat>, key: Key): nat {
    if key in m then m[key] else 0
  }

  predicate In(g: Gateway, key: Key, phase: Phase) {
    key in g.active && g.active[key] == phase
  }

  // The task of the event ends.
  function Ends(g: Gateway, key: Key, rows: Rows): Gateway {
    g.(rows := rows, active := g.active - {key})
  }

  function Moves(g: Gateway, key: Key, rows: Rows, phase: Phase): Gateway {
    g.(rows := rows, active := g.active[key := phase])
  }

  function Act(g: Gateway, a: Action): Gateway {
    match a
    case Tick(n) => g.(now := g.now + n)
    case Arrive(key) =>
      if key in g.active then g
      else
        var (rows, claimed) := ClaimEvent(g.rows, key, g.now, g.retryAfter);
        if claimed then Moves(g, key, rows, Scheduled) else g
    case Begin(key, late) =>
      if !In(g, key, Scheduled) then g
      else if late then Ends(g, key, SetStatus(g.rows, key, Expired, g.now))
      else Moves(g, key, TouchEvent(g.rows, key, g.now), Submitted)
    case AgentDone(key) =>
      if !In(g, key, Submitted) then g else Moves(g, key, TouchEvent(g.rows, key, g.now), Answered)
    case AgentFails(key) =>
      if !In(g, key, Submitted) then g else Ends(g, key, SetStatus(g.rows, key, Failed, g.now))
    case Reply(key, late) =>
      if !In(g, key, Answered) then g
      else if late then Ends(g, key, SetStatus(g.rows, key, Expired, g.now))
      else
        var (rows, claim) := ClaimOutbound(g.rows, key, g.now, g.retryAfter);
        (match claim
         case AlreadySent => Moves(g, key, rows, Confirming)
         case InFlight => Ends(g, key, rows)
         case Claimed => Moves(g, key, rows, Delivering))
    case ProviderAccepts(key) =>
      if !In(g, key, Delivering) then g
      else Moves(g, key, g.rows, Accepted).(accepted := g.accepted[key := Count(g.accepted, key) + 1])
    case ProviderFails(key) =>
      if !In(g, key, Delivering) then g
      else Moves(g, key, SetOutbound(g.rows, key, SendFailed, g.now), Broken)
    case RecordFailed(key) =>
      if !In(g, key, Broken) then g else Ends(g, key, SetStatus(g.rows, key, Failed, g.now))
    case RecordSent(key) =>
      if !In(g, key, Accepted) then g else Moves(g, key, SetOutbound(g.rows, key, Sent, g.now), Confirming)
    case RecordCompleted(key) =>
      if !In(g, key, Confirming) then g else Ends(g, key, SetStatus(g.rows, key, Completed, g.now))
    case Crash =>
      g.(active := map[],
         lost := map key | key in g.lost.Keys + g.active.Keys :: Count(g.lost, key) + (if In(g, key, Accepted) then 1 else 0))
  }

  function After(retryAfter: int, actions: seq<Action>): Gateway {
    if actions == [] then Gateway(Rows(map[], map[]), 0, retryAfter, map[], map[], map[])
    else Act(After(retryAfter, actions[..|actions| - 1]), actions[|actions| - 1])
  }

  // ---------------------------------------------------------------- the invariant

  predicate IsSent(g: Gateway, key: Key) {
    key in g.rows.outbound && g.rows.outbound[key].status == Sent
  }

  predicate IsOpen(g: Gateway, key: Key) {
    key in g.rows.inbox && g.rows.inbox[key].status == Processing
  }

  // For one event: every acceptance is on record, about to be, or was lost in a crash.
  predicate Accounted(g: Gateway, key: Key) {
    && Count(g.accepted, key) == Count(g.lost, key) + (if IsSent(g, key) || In(g, key, Accepted) then 1 else 0)
    && (key in g.active ==> IsOpen(g, key))
    && (In(g, key, Delivering) || In(g, key, Accepted) ==> key in g.rows.outbound && g.rows.outbound[key].status == Sending)
    && (In(g, key, Confirming) ==> IsSent(g, key))
    && (key in g.rows.inbox && g.rows.inbox[key].status == Completed ==> IsSent(g, key))
  }

  // What concerns one event.
  predicate SameEvent(g: Gateway, g': Gateway, key: Key) {
    && (key in g'.active <==> key in g.active) && (key in g.active ==> g'.active[key] == g.active[key])
    && (key in g'.rows.inbox <==> key in g.rows.inbox) && (key in g.rows.inbox ==> g'.rows.inbox[key] == g.rows.inbox[key])
    && (key in g'.rows.outbound <==> key in g.rows.outbound) && (key in g.rows.outbound ==> g'.rows.outbound[key] == g.rows.outbound[key])
    && Count(g'.accepted, key) == Count(g.accepted, key) && Count(g'.lost, key) == Count(g.lost, key)
  }

  lemma OtherTasksUntouched(g: Gateway, a: Action, key: Key)
    requires !a.Tick? && !a.Crash? && a.key != key
    requires a.ProviderAccepts? || a.ProviderFails? || a.RecordSent?
    ensures SameEvent(g, Act(g, a), key)
  {
  }

  lemma OtherClaimsUntouched(g: Gateway, a: Action, key: Key)
    requires (a.Arrive? || a.Reply?) && a.key != key
    ensures SameEvent(g, Act(g, a), key)
  {
  }

  lemma OthersUntouched(g: Gateway, a: Action, key: Key)
    requires !a.Tick? && !a.Crash? && a.key != key
    ensures SameEvent(g, Act(g, a), key)
  {
    if a.Arrive? || a.Reply? {
      hide Act;
      OtherClaimsUntouched(g, a, key);
    } else if a.ProviderAccepts? || a.ProviderFails? || a.RecordSent? {
      hide Act;
      OtherTasksUntouched(g, a, key);
    }
  }

  lemma SameEventSameAccount(g: Gateway, g': Gateway, key: Key)
    requires SameEvent(g, g', key) && Accounted(g, key)
    ensures Accounted(g', key)
  {
  }

  lemma TaskKeepsAccount(g: Gateway, a: Action, key: Key)
    requires Accounted(g, key) && !a.Tick? && !a.Crash? && !a.Reply? && !a.Arrive? && a.key == key
    ensures Accounted(Act(g, a), key)
  {
  }

  lemma ClaimKeepsAccount(g: Gateway, key: Key, late: bool)
    requires Accounted(g, key)
    ensures Accounted(Act(g, Arrive(key)), key)
    ensures Accounted(Act(g, Reply(key, late)), key)
  {
  }

  lemma ActKeepsAccount(g: Gateway, a: Action, key: Key)
    requires Accounted(g, key)
    ensures Accounted(Act(g, a), key)
  {
    if a.Tick? || a.Crash? {
    } else {
      hide Act, Accounted;
      if a.key != key {
        OthersUntouched(g, a, key);
        SameEventSameAccount(g, Act(g, a), key);
      } else if a.Arrive? {
        ClaimKeepsAccount(g, key, false);
      } else if a.Reply? {
        ClaimKeepsAccount(g, key, a.late);
      } else {
        TaskKeepsAccount(g, a, key);
      }
    }
  }

  // For every event, over every run of the gateway with any crashes, retries and repeated deliveries:
  // the provider accepts its reply at most once, plus once for every crash that falls between an
  // acceptance and its record; and a completed event's reply was accepted.
  lemma {:induction false} AcceptancesAreAccounted(retryAfter: int, actions: seq<Action>, key: Key)
    ensures var g := After(retryAfter, actions);
            && Accounted(g, key)
            && Count(g.accepted, key) <= 1 + Count(g.lost, key)
            && (key in g.rows.inbox && g.rows.inbox[key].status == Completed ==> Count(g.accepted, key) >= 1)
  {
    if actions == [] {
    } else {
      hide Act, Accounted;
      AcceptancesAreAccounted(retryAfter, actions[..|actions| - 1], key);
      ActKeepsAccount(After(retryAfter, actions[..|actions| - 1]), actions[|actions| - 1], key);
    }
    assert Accounted(After(retryAfter, actions), key) ==>
        Count(After(retryAfter, actions).accepted, key) <= 1 + Count(After(retryAfter, actions).lost, key);
  }

  predicate IsOver(g: Gateway, key: Key) {
    key in g.rows.inbox && Terminal(g.rows.inbox[key].status)
  }

  lemma ActKeepsOver(g: Gateway, a: Action, key: Key)
    requires Accounted(g, key) && IsOver(g, key)
    ensures IsOver(Act(g, a), key) && key !in Act(g, a).active && Act(g, a).rows.inbox[key] == g.rows.inbox[key]
  {
    if !a.Tick? && !a.Crash? && a.key != key {
      OthersUntouched(g, a, key);
    }
  }

  // A completed or expired event is never claimed again: no task for it ever starts, and its row stays.
  lemma {:induction false} OverIsFinal(retryAfter: int, actions: seq<Action>, i: nat, key: Key)
    requires i <= |actions| && IsOver(After(retryAfter, actions[..i]), key)
    ensures var g := After(retryAfter, actions);
            && IsOver(g, key) && key !in g.active
            && g.rows.inbox[key] == After(retryAfter, actions[..i]).rows.inbox[key]
    decreases |actions|
  {
    AcceptancesAreAccounted(retryAfter, actions[..i], key);
    if i == |actions| {
      assert actions[..i] == actions;
    } else {
      hide Act;
      var n := |actions| - 1;
      assert actions[..n][..i] == actions[..i];
      OverIsFinal(retryAfter, actions[..n], i, key);
      AcceptancesAreAccounted(retryAfter, actions[..n], key);
      ActKeepsOver(After(retryAfter, actions[..n]), actions[n], key);
    }
  }

  // The actions from position k on deliver an event as far as the acceptance of its reply.
  predicate DeliversAt(actions: seq<Action>, key: Key, k: nat) {
    && k + 5 <= |actions|
    && actions[k] == Arrive(key) && actions[k + 1] == Begin(key, false) && actions[k + 2] == AgentDone(key)
    && actions[k + 3] == Reply(key, false) && actions[k + 4] == ProviderAccepts(key)
  }

  // The bound is reached: a crash right after the acceptance makes the next attempt send again.
  lemma CrashDuplicatesReply(retryAfter: int, actions: seq<Action>, key: Key)
    requires retryAfter >= 1 && |actions| == 12
    requires DeliversAt(actions, key, 0) && actions[5] == Crash && actions[6] == Tick(retryAfter) && DeliversAt(actions, key, 7)
    ensures Count(After(retryAfter, actions).accepted, key) == 2
  {
    hide Act, Ready, Taken, After, Before, DeliversAt;
    StartsReady(retryAfter, actions, key);
    Delivers(retryAfter, actions, key, 0, 0);
    Next(retryAfter, actions, 5);
    Next(retryAfter, actions, 6);
    RetriesAfterCrash(Before(retryAfter, actions, 5), key, 1);
    Delivers(retryAfter, actions, key, 7, 1);
    Next(retryAfter, actions, 11);
    TakenCount(Before(retryAfter, actions, 12), key, 2);
  }

  lemma TakenCount(g: Gateway, key: Key, taken: nat)
    requires Taken(g, key, taken)
    ensures Count(g.accepted, key) == taken
  {
  }

  lemma StartsReady(retryAfter: int, actions: seq<Action>, key: Key)
    ensures Ready(Before(retryAfter, actions, 0), key, 0) && Before(retryAfter, actions, 0).retryAfter == retryAfter
  {
    assert actions[..0] == [];
  }

  // The state before action k.
  function Before(retryAfter: int, actions: seq<Action>, k: nat): Gateway
    requires k <= |actions|
  {
    After(retryAfter, actions[..k])
  }

  lemma Next(retryAfter: int, actions: seq<Action>, k: nat)
    requires k < |actions|
    ensures Before(retryAfter, actions, k + 1) == Act(Before(retryAfter, actions, k), actions[k])
    ensures Before(retryAfter, actions, |actions|) == After(retryAfter, actions)
  {
    hide Act;
    assert actions[..k + 1][..k] == actions[..k];
    assert actions[..|actions|] == actions;
  }

  // The event can be claimed, and so can its reply.
  predicate Ready(g: Gateway, key: Key, taken: nat) {
    && Count(g.accepted, key) == taken && key !in g.active
    && ClaimEvent(g.rows, key, g.now, g.retryAfter).1 && ClaimOutbound(g.rows, key, g.now, g.retryAfter).1 == Claimed
  }

  // Its reply was just accepted.
  predicate Taken(g: Gateway, key: Key, taken: nat) {
    && Count(g.accepted, key) == taken && In(g, key, Accepted)
    && key in g.rows.inbox && g.rows.inbox[key].status == Processing && g.rows.inbox[key].updatedAt == g.now
    && key in g.rows.outbound && g.rows.outbound[key].status == Sending && g.rows.outbound[key].updatedAt == g.now
  }

  // Claimed, begun and answered: the outbound row is as it was.
  predicate AnsweredAs(g: Gateway, g0: Gateway, key: Key) {
    && In(g, key, Answered) && g.rows.outbound == g0.rows.outbound && g.accepted == g0.accepted
    && g.now == g0.now && g.retryAfter == g0.retryAfter
    && key in g.rows.inbox && g.rows.inbox[key].status == Processing && g.rows.inbox[key].updatedAt == g.now
  }

  lemma Answers(g: Gateway, key: Key, taken: nat)
    requires Ready(g, key, taken)
    ensures AnsweredAs(Act(Act(Act(g, Arrive(key)), Begin(key, false)), AgentDone(key)), g, key)
  {
    var g1 := Act(g, Arrive(key));
    assert In(g1, key, Scheduled) && key in g1.rows.inbox && g1.rows.inbox[key].status == Processing;
    var g2 := Act(g1, Begin(key, false));
    assert In(g2, key, Submitted) && key in g2.rows.inbox && g2.rows.inbox[key].status == Processing;
  }

  lemma Sends(g: Gateway, g0: Gateway, key: Key, taken: nat)
    requires Ready(g0, key, taken) && AnsweredAs(g, g0, key)
    ensures Taken(Act(Act(g, Reply(key, false)), ProviderAccepts(key)), key, taken + 1)
    ensures Act(Act(g, Reply(key, false)), ProviderAccepts(key)).retryAfter == g0.retryAfter
  {
    var g1 := Act(g, Reply(key, false));
    assert In(g1, key, Delivering) && g1.accepted == g0.accepted;
  }

  lemma DeliversOnce(g: Gateway, key: Key, taken: nat)
    requires Ready(g, key, taken)
    ensures var g' := Act(Act(Act(Act(Act(g, Arrive(key)), Begin(key, false)), AgentDone(key)), Reply(key, false)), ProviderAccepts(key));
            Taken(g', key, taken + 1) && g'.retryAfter == g.retryAfter
  {
    hide Act, Ready, Taken, AnsweredAs;
    Answers(g, key, taken);
    Sends(Act(Act(Act(g, Arrive(key)), Begin(key, false)), AgentDone(key)), g, key, taken);
  }

  lemma Delivers(retryAfter: int, actions: seq<Action>, key: Key, k: nat, taken: nat)
    requires DeliversAt(actions, key, k)
    requires Ready(Before(retryAfter, actions, k), key, taken)
    ensures Taken(Before(retryAfter, actions, k + 5), key, taken + 1)
    ensures Before(retryAfter, actions, k + 5).retryAfter == Before(retryAfter, actions, k).retryAfter
  {
    hide Act, Ready, Taken, Before;
    DeliversOnce(Before(retryAfter, actions, k), key, taken);
    Next(retryAfter, actions, k);
    Next(retryAfter, actions, k + 1);
    Next(retryAfter, actions, k + 2);
    Next(retryAfter, actions, k + 3);
    Next(retryAfter, actions, k + 4);
  }

  // After a crash and the retry interval it is ready again.
  lemma RetriesAfterCrash(g: Gateway, key: Key, taken: nat)
    requires Taken(g, key, taken) && g.retryAfter >= 1
    ensures Ready(Act(Act(g, Crash), Tick(g.retryAfter)), key, taken)
  {
  }
}
