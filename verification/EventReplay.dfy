// How the numbered events of one run reach one browser: a replay from the trace, a live queue, a
// reconnecting socket and the client's cursor.
module EventReplay {

  // The events of a run are numbered 1 to n; an event is its number.
  datatype Phase =
    | Off                        // no subscription
    | Read(upTo: nat)            // the server read the trace, the hub does not know the socket yet
    | On                         // the hub queues events for the socket

  datatype Channel = Channel(
    start: nat,                  // the cursor the client began with
    n: nat,                      // events on record
    phase: Phase,
    queue: seq<nat>,             // the hub's queue for this socket
    last: nat,                   // last_sequence of the server's loop
    wire: seq<nat>,              // sent, not yet received
    after: nat,                  // afterSequence of the client
    log: seq<nat>)               // what the client was shown, over all connections

  function Connectable(start: nat, n: nat): Channel {
    Channel(start, n, Off, [], 0, [], start, [])
  }

  datatype Action =
    | Record(queued: bool)       // an event is appended to the trace, and queued for the socket or not
    | Requeue(event: nat)        // the hub queues a recorded event: late, again or out of order
    | ReadTrace                  // the client subscribes with its cursor
    | Subscribe                  // the hub adds the queue, and the server sends what it read
    | TakeFromQueue
    | Poll                       // nothing was queued for a second
    | Receive
    | Break                      // the socket breaks; what is on the wire is lost

  // The events after a cursor, in order.
  function Range(a: nat, b: nat): (r: seq<nat>)
    ensures |r| == if a <= b then b - a else 0
    ensures forall k :: 0 <= k < |r| ==> r[k] == a + 1 + k
    decreases b
  {
    if b <= a then [] else Range(a, b - 1) + [b]
  }

  // What of the candidates is sent: only what is newer than everything sent before.
  function Fresh(last: nat, candidates: seq<nat>): seq<nat>
    decreases |candidates|
  {
    if candidates == [] then []
    else if candidates[0] <= last then Fresh(last, candidates[1..])
    else [candidates[0]] + Fresh(candidates[0], candidates[1..])
  }

  function Top(last: nat, sent: seq<nat>): nat {
    if sent == [] then last else sent[|sent| - 1]
  }

  function Send(c: Channel, candidates: seq<nat>): Channel {
    var sent := Fresh(c.last, candidates);
    c.(wire := c.wire + sent, last := Top(c.last, sent))
  }

  function Act(c: Channel, a: Action): Channel {
    match a
    case Record(queued) =>
      var c1 := c.(n := c.n + 1);
      if queued && c.phase.On? then c1.(queue := c.queue + [c.n + 1]) else c1
    case Requeue(event) => if 1 <= event <= c.n && c.phase.On? then c.(queue := c.queue + [event]) else c
    case ReadTrace => if c.phase.Off? then c.(phase := Read(c.n), wire := []) else c
    case Subscribe =>
      if !c.phase.Read? then c
      else Send(c.(phase := On, queue := [], last := c.after), Range(c.after, c.phase.upTo))
    case TakeFromQueue =>
      if !c.phase.On? || c.queue == [] then c
      else Send(c.(queue := c.queue[1..]), [c.queue[0]])
    case Poll => if !c.phase.On? || c.queue != [] then c else Send(c, Range(c.last, c.n))
    case Receive =>
      if c.wire == [] then c
      else c.(wire := c.wire[1..], after := if c.after < c.wire[0] then c.wire[0] else c.after, log := c.log + [c.wire[0]])
    case Break => c.(phase := Off, queue := [], wire := [])
  }

  function After(c: Channel, actions: seq<Action>): Channel {
    if actions == [] then c else Act(After(c, actions[..|actions| - 1]), actions[|actions| - 1])
  }

  // ---------------------------------------------------------------- no event twice, none out of order

  ghost predicate Rising(from: nat, xs: seq<nat>) {
    && (forall k :: 0 <= k < |xs| ==> from < xs[k])
    && (forall j, k :: 0 <= j < k < |xs| ==> xs[j] < xs[k])
  }

  lemma {:induction false} FreshRises(last: nat, candidates: seq<nat>)
    ensures Rising(last, Fresh(last, candidates))
    ensures forall x :: x in Fresh(last, candidates) ==> x in candidates
    decreases |candidates|
  {
    if candidates == [] {
    } else {
      if candidates[0] <= last {
        FreshRises(last, candidates[1..]);
      } else {
        FreshRises(candidates[0], candidates[1..]);
        assert forall x :: x in candidates[1..] ==> x in candidates;
      }
    }
  }

  // What was shown and what is on the wire rises above the starting cursor, up to the server's last.
  ghost predicate Ordered(c: Channel) {
    && Rising(c.start, c.log + c.wire)
    && c.after == Top(c.start, c.log)
    && (c.phase.On? ==> c.last == Top(c.start, c.log + c.wire))
    && (!c.phase.On? ==> c.wire == [])
  }

  lemma SendKeepsOrder(c: Channel, candidates: seq<nat>)
    requires Ordered(c) && c.phase.On?
    ensures Ordered(Send(c, candidates))
  {
    FreshRises(c.last, candidates);
    var sent := Fresh(c.last, candidates);
    assert c.log + (c.wire + sent) == (c.log + c.wire) + sent;
    RisingAppends(c.start, c.log + c.wire, sent);
  }

  lemma RisingAppends(from: nat, xs: seq<nat>, ys: seq<nat>)
    requires Rising(from, xs) && Rising(Top(from, xs), ys)
    ensures Rising(from, xs + ys)
  {
  }

  lemma ActKeepsOrder(c: Channel, a: Action)
    requires Ordered(c)
    ensures Ordered(Act(c, a)) && Act(c, a).start == c.start
  {
    match a
    case Subscribe =>
      if c.phase.Read? {
        assert c.log + [] == c.log;
        SendKeepsOrder(c.(phase := On, queue := [], last := c.after), Range(c.after, c.phase.upTo));
      }
    case TakeFromQueue =>
      if c.phase.On? && c.queue != [] {
        SendKeepsOrder(c.(queue := c.queue[1..]), [c.queue[0]]);
      }
    case Poll =>
      if c.phase.On? && c.queue == [] {
        SendKeepsOrder(c, Range(c.last, c.n));
      }
    case Receive =>
      if c.wire != [] {
        assert (c.log + [c.wire[0]]) + c.wire[1..] == c.log + c.wire;
        assert (c.log + c.wire)[|c.log|] == c.wire[0];
        assert c.start < (c.log + c.wire)[|c.log|];
        if c.log != [] {
          assert (c.log + c.wire)[|c.log| - 1] == c.log[|c.log| - 1];
        }
      }
    case Break => BreakKeepsOrder(c);
    case ReadTrace =>
    case Record(_) =>
    case Requeue(_) =>
  }

  lemma BreakKeepsOrder(c: Channel)
    requires Ordered(c)
    ensures Ordered(Act(c, Break))
  {
    assert forall k :: 0 <= k < |c.log| ==> (c.log + c.wire)[k] == c.log[k];
    assert c.log + [] == c.log;
  }

  // Over any number of reconnects, and whatever the hub loses, repeats or reorders, the events shown
  // to one browser subscription rise strictly above the cursor it began with.
  lemma {:induction false} ShownEventsRise(start: nat, n: nat, actions: seq<Action>)
    ensures Ordered(After(Connectable(start, n), actions))
    ensures After(Connectable(start, n), actions).start == start
    ensures Rising(start, After(Connectable(start, n), actions).log)
  {
    hide Rising, Act, Ordered;
    var c := Connectable(start, n);
    StartsOrdered(start, n);
    if actions == [] {
    } else {
      var before := After(c, actions[..|actions| - 1]);
      ShownEventsRise(start, n, actions[..|actions| - 1]);
      ActKeepsOrder(before, actions[|actions| - 1]);
    }
    OrderedLog(After(c, actions));
  }

  lemma StartsOrdered(start: nat, n: nat)
    ensures Ordered(Connectable(start, n))
  {
  }

  lemma OrderedLog(c: Channel)
    requires Ordered(c)
    ensures Rising(c.start, c.log)
  {
    PrefixRises(c.start, c.log, c.wire);
  }

  lemma PrefixRises(from: nat, xs: seq<nat>, ys: seq<nat>)
    requires Rising(from, xs + ys)
    ensures Rising(from, xs)
  {
    assert forall k :: 0 <= k < |xs| ==> (xs + ys)[k] == xs[k];
  }

  // ---------------------------------------------------------------- no event left out

  ghost predicate Consecutive(from: nat, xs: seq<nat>) {
    forall k :: 0 <= k < |xs| ==> xs[k] == from + 1 + k
  }

  // The live queue hands over an event although an older one was never sent.
  predicate Skips(c: Channel, a: Action) {
    a.TakeFromQueue? && c.phase.On? && c.queue != [] && c.queue[0] > c.last + 1
  }

  lemma ConsecutiveAppends(from: nat, xs: seq<nat>, ys: seq<nat>)
    requires Consecutive(from, xs)
    ensures Consecutive(from, xs + ys) <==> Consecutive(Top(from, xs), ys)
  {
    if Consecutive(from, xs + ys) {
      assert forall k :: 0 <= k < |ys| ==> (xs + ys)[|xs| + k] == ys[k];
    }
  }

  lemma {:induction false} FreshOfRange(a: nat, b: nat, last: nat, xs: seq<nat>)
    requires Consecutive(a, xs) && last == a
    ensures Fresh(last, xs) == xs
    decreases |xs|
  {
    if xs == [] {
    } else {
      assert xs[0] == a + 1;
      assert forall k :: 0 <= k < |xs| - 1 ==> xs[1..][k] == xs[k + 1];
      FreshOfRange(a + 1, b, a + 1, xs[1..]);
      assert [xs[0]] + xs[1..] == xs;
    }
  }

  ghost predicate Gapless(c: Channel) {
    Consecutive(c.start, c.log + c.wire)
  }

  lemma SendIsGapless(c: Channel, candidates: seq<nat>)
    requires Gapless(c) && c.last == Top(c.start, c.log + c.wire)
    ensures Gapless(Send(c, candidates)) <==> Consecutive(c.last, Fresh(c.last, candidates))
  {
    var sent := Fresh(c.last, candidates);
    assert c.log + (c.wire + sent) == (c.log + c.wire) + sent;
    ConsecutiveAppends(c.start, c.log + c.wire, sent);
  }

  lemma RangeIsGapless(c: Channel, b: nat)
    requires Gapless(c) && c.last == Top(c.start, c.log + c.wire)
    ensures Gapless(Send(c, Range(c.last, b)))
  {
    FreshOfRange(c.last, b, c.last, Range(c.last, b));
    SendIsGapless(c, Range(c.last, b));
  }

  lemma TakingIsGapless(c: Channel)
    requires Gapless(c) && c.phase.On? && c.queue != [] && c.last == Top(c.start, c.log + c.wire)
    ensures Gapless(Act(c, TakeFromQueue)) <==> c.queue[0] <= c.last + 1
  {
    assert Fresh(c.last, [c.queue[0]]) == if c.queue[0] <= c.last then [] else [c.queue[0]];
    SendIsGapless(c.(queue := c.queue[1..]), [c.queue[0]]);
  }

  lemma ReceivingIsGapless(c: Channel)
    requires Gapless(c)
    ensures Gapless(Act(c, Receive)) && Consecutive(c.start, c.log)
  {
    if c.wire != [] {
      assert (c.log + [c.wire[0]]) + c.wire[1..] == c.log + c.wire;
    }
    assert forall k :: 0 <= k < |c.log| ==> (c.log + c.wire)[k] == c.log[k];
  }

  // Sent events stay gapless by every action but a skip, and a skip leaves a gap.
  lemma OnlySkipsLeaveGaps(c: Channel, a: Action)
    requires Ordered(c) && Gapless(c)
    ensures Gapless(Act(c, a)) <==> !Skips(c, a)
  {
    hide Rising, Send, Consecutive;
    match a
    case Subscribe =>
      if c.phase.Read? {
        assert c.log + [] == c.log;
        assert c.log + c.wire == c.log;
        RangeIsGapless(c.(phase := On, queue := [], last := c.after), c.phase.upTo);
      }
    case TakeFromQueue =>
      if c.phase.On? && c.queue != [] {
        TakingIsGapless(c);
      }
    case Poll =>
      if c.phase.On? && c.queue == [] {
        RangeIsGapless(c, c.n);
      }
    case Receive => ReceivingIsGapless(c);
    case Break =>
      ReceivingIsGapless(c);
      assert c.log + [] == c.log;
    case ReadTrace =>
    case Record(_) =>
    case Requeue(_) =>
  }

  ghost predicate NeverSkips(c: Channel, actions: seq<Action>) {
    forall i :: 0 <= i < |actions| ==> !Skips(After(c, actions[..i]), actions[i])
  }

  // Without skips the browser is shown every event after its first cursor, in order.
  lemma {:induction false} GaplessWithoutSkips(start: nat, n: nat, actions: seq<Action>)
    requires NeverSkips(Connectable(start, n), actions)
    ensures Gapless(After(Connectable(start, n), actions))
    ensures Consecutive(start, After(Connectable(start, n), actions).log)
  {
    hide Act, Ordered, Rising, Consecutive, Gapless, Skips;
    var c := Connectable(start, n);
    if actions == [] {
      StartsGapless(start, n);
    } else {
      var i := |actions| - 1;
      assert forall k :: 0 <= k < i ==> actions[..i][..k] == actions[..k];
      GaplessWithoutSkips(start, n, actions[..i]);
      ShownEventsRise(start, n, actions[..i]);
      assert !Skips(After(c, actions[..i]), actions[i]);
      OnlySkipsLeaveGaps(After(c, actions[..i]), actions[i]);
      ShownEventsRise(start, n, actions);
    }
    ReceivingIsGapless(After(c, actions));
  }

  lemma StartsGapless(start: nat, n: nat)
    ensures Gapless(Connectable(start, n))
  {
  }

  // ---------------------------------------------------------------- a hub that queues in order

  // The newest event the hub has handled for the socket: what the server read from the trace, then
  // whatever was queued. Recording and queueing are separate steps, perhaps of separate processes.
  function Handled(c: Channel, q: nat, a: Action): nat {
    match a
    case ReadTrace => if c.phase.Off? then c.n else q
    case Record(queued) => if queued && c.phase.On? then c.n + 1 else q
    case Requeue(event) => if c.phase.On? && q < event <= c.n then event else q
    case _ => q
  }

  function Cursor(c: Channel, actions: seq<Action>): nat {
    if actions == [] then 0
    else
      var before := actions[..|actions| - 1];
      Handled(After(c, before), Cursor(c, before), actions[|actions| - 1])
  }

  // The hub queues the events newer than the trace that was read in order, at once or at any later
  // time, perhaps repeating some: an event is queued only after all between the trace and it.
  predicate Faithful(c: Channel, q: nat, a: Action) {
    match a
    case Record(queued) => queued && c.phase.On? ==> q == c.n
    case Requeue(event) => c.phase.On? && event <= c.n ==> event <= q + 1
    case _ => true
  }

  // The highest number sent once the queue is handed over.
  function Reach(last: nat, queue: seq<nat>): nat
    decreases |queue|
  {
    if queue == [] then last
    else Reach(if last < queue[0] then queue[0] else last, queue[1..])
  }

  // Handing the queue over never jumps.
  predicate Jumpless(last: nat, queue: seq<nat>)
    decreases |queue|
  {
    queue == [] || (queue[0] <= last + 1 && Jumpless(if last < queue[0] then queue[0] else last, queue[1..]))
  }

  lemma {:induction false} QueueAppends(last: nat, queue: seq<nat>, e: nat)
    ensures Reach(last, queue + [e]) == if Reach(last, queue) < e then e else Reach(last, queue)
    ensures Jumpless(last, queue + [e]) <==> Jumpless(last, queue) && e <= Reach(last, queue) + 1
    decreases |queue|
  {
    if queue == [] {
      assert (queue + [e])[1..] == [];
    } else {
      assert (queue + [e])[1..] == queue[1..] + [e];
      QueueAppends(if last < queue[0] then queue[0] else last, queue[1..], e);
    }
  }

  // What was sent and what is queued reach at least as far as the hub's cursor, and the queue has no
  // jump.
  predicate Joined(c: Channel, q: nat) {
    && c.after <= c.n
    && (c.phase.Read? ==> c.phase.upTo == q <= c.n)
    && (c.phase.On? ==> Jumpless(c.last, c.queue) && q <= Reach(c.last, c.queue) <= c.n && c.last <= c.n)
    && (forall x :: x in c.wire ==> x <= c.n)
  }

  lemma SubscribingJoins(c: Channel, q: nat)
    requires Joined(c, q) && c.phase.Read?
    ensures Joined(Act(c, Subscribe), q)
  {
    FreshOfRange(c.after, c.phase.upTo, c.after, Range(c.after, c.phase.upTo));
  }

  lemma PollingJoins(c: Channel, q: nat)
    requires Joined(c, q) && c.phase.On? && c.queue == []
    ensures Joined(Act(c, Poll), q)
  {
    FreshOfRange(c.last, c.n, c.last, Range(c.last, c.n));
  }

  lemma {:induction false} ReachesLast(last: nat, queue: seq<nat>)
    ensures last <= Reach(last, queue)
    decreases |queue|
  {
    if queue == [] {
    } else {
      ReachesLast(if last < queue[0] then queue[0] else last, queue[1..]);
    }
  }

  lemma TakingJoins(c: Channel, q: nat)
    requires Joined(c, q) && c.phase.On? && c.queue != []
    ensures Joined(Act(c, TakeFromQueue), q) && c.queue[0] <= c.last + 1
  {
    assert Fresh(c.last, [c.queue[0]]) == if c.queue[0] <= c.last then [] else [c.queue[0]];
    ReachesLast(if c.last < c.queue[0] then c.queue[0] else c.last, c.queue[1..]);
  }

  lemma QueueingJoins(c: Channel, q: nat, a: Action)
    requires Joined(c, q) && Faithful(c, q, a) && (a.Record? || a.Requeue?)
    ensures Joined(Act(c, a), Handled(c, q, a))
  {
    if c.phase.On? {
      QueueAppends(c.last, c.queue, if a.Record? then c.n + 1 else a.event);
    }
  }

  lemma FaithfulKeepsJoined(c: Channel, q: nat, a: Action)
    requires Joined(c, q) && Faithful(c, q, a)
    ensures Joined(Act(c, a), Handled(c, q, a)) && !Skips(c, a)
  {
    hide Send, Jumpless, Reach;
    match a
    case Subscribe => if c.phase.Read? { SubscribingJoins(c, q); }
    case Poll => if c.phase.On? && c.queue == [] { PollingJoins(c, q); }
    case TakeFromQueue => if c.phase.On? && c.queue != [] { TakingJoins(c, q); }
    case Record(_) => QueueingJoins(c, q, a);
    case Requeue(_) => QueueingJoins(c, q, a);
    case ReadTrace =>
    case Receive =>
      if c.wire != [] {
        assert c.wire[0] in c.wire;
        assert forall x :: x in c.wire[1..] ==> x in c.wire;
      }
    case Break =>
  }

  // The hub is faithful at every step.
  ghost predicate AlwaysFaithful(c: Channel, actions: seq<Action>) {
    forall i :: 0 <= i < |actions| ==> Faithful(After(c, actions[..i]), Cursor(c, actions[..i]), actions[i])
  }

  lemma FaithfulBefore(c: Channel, actions: seq<Action>)
    requires AlwaysFaithful(c, actions) && actions != []
    ensures AlwaysFaithful(c, actions[..|actions| - 1])
  {
    var before := actions[..|actions| - 1];
    forall i | 0 <= i < |before|
      ensures Faithful(After(c, before[..i]), Cursor(c, before[..i]), before[i])
    {
      assert before[..i] == actions[..i] && before[i] == actions[i];
    }
  }

  // A hub that queues in order every event newer than the trace that was read, however late and with
  // whatever repetitions, never skips: the browser is shown every event after its first cursor, over
  // any number of reconnects.
  lemma {:induction false} FaithfulHubIsGapless(start: nat, n: nat, actions: seq<Action>)
    requires start <= n && AlwaysFaithful(Connectable(start, n), actions)
    ensures NeverSkips(Connectable(start, n), actions)
    ensures Joined(After(Connectable(start, n), actions), Cursor(Connectable(start, n), actions))
    ensures Consecutive(start, After(Connectable(start, n), actions).log)
  {
    hide Act, Faithful, Handled, Skips, Joined, Consecutive, After, Cursor, NeverSkips;
    var c := Connectable(start, n);
    if actions == [] {
      StartsJoined(start, n);
      NothingYet(c);
    } else {
      var i := |actions| - 1;
      FaithfulBefore(c, actions);
      FaithfulHubIsGapless(start, n, actions[..i]);
      FaithfulKeepsJoined(After(c, actions[..i]), Cursor(c, actions[..i]), actions[i]);
      OneMoreUnskipped(c, actions);
      AfterAndCursor(c, actions);
    }
    GaplessWithoutSkips(start, n, actions);
  }

  lemma NothingYet(c: Channel)
    ensures After(c, []) == c && Cursor(c, []) == 0 && NeverSkips(c, [])
  {
  }

  lemma OneMoreUnskipped(c: Channel, actions: seq<Action>)
    requires actions != [] && NeverSkips(c, actions[..|actions| - 1])
    requires !Skips(After(c, actions[..|actions| - 1]), actions[|actions| - 1])
    ensures NeverSkips(c, actions)
  {
    hide Skips, After;
    var before := actions[..|actions| - 1];
    forall i | 0 <= i < |actions|
      ensures !Skips(After(c, actions[..i]), actions[i])
    {
      if i < |before| {
        assert before[..i] == actions[..i] && before[i] == actions[i];
      }
    }
  }

  lemma AfterAndCursor(c: Channel, actions: seq<Action>)
    requires actions != []
    ensures var before, a := actions[..|actions| - 1], actions[|actions| - 1];
            && After(c, actions) == Act(After(c, before), a)
            && Cursor(c, actions) == Handled(After(c, before), Cursor(c, before), a)
  {
    hide Act, Handled;
  }

  lemma StartsJoined(start: nat, n: nat)
    requires start <= n
    ensures Joined(Connectable(start, n), 0)
  {
  }

  // An event whose publication failed is on record but never queued; once a later one is queued and
  // sent, it is left out.
  lemma UnpublishedEventIsLost()
    ensures After(Connectable(0, 0), [ReadTrace, Subscribe, Record(false), Record(true), TakeFromQueue, Receive]).log == [2]
  {
    var c := Connectable(0, 0);
    var acts := [ReadTrace, Subscribe, Record(false), Record(true), TakeFromQueue, Receive];
    assert acts[..5][..4] == acts[..4] && acts[..4][..3] == acts[..3] && acts[..3][..2] == acts[..2] && acts[..2][..1] == acts[..1] && acts[..1][..0] == [];
    assert After(c, acts[..1]) == c.(phase := Read(0));
    assert After(c, acts[..2]) == c.(phase := On);
    assert After(c, acts[..3]) == c.(phase := On, n := 1);
    assert After(c, acts[..4]) == c.(phase := On, n := 2, queue := [2]);
    assert Fresh(0, [2]) == [2];
    assert After(c, acts[..5]) == c.(phase := On, n := 2, wire := [2], last := 2);
  }

  // An event that was passed over is never shown later.
  lemma {:induction false} SkippedIsNeverShown(c: Channel, actions: seq<Action>, k: nat)
    requires Ordered(c) && k !in c.log && k < c.after
    ensures k !in After(c, actions).log && Ordered(After(c, actions)) && k < After(c, actions).after
  {
    hide Act, Ordered;
    if actions == [] {
    } else {
      var b, a := After(c, actions[..|actions| - 1]), actions[|actions| - 1];
      SkippedIsNeverShown(c, actions[..|actions| - 1], k);
      ActKeepsOrder(b, a);
      ShowsOnlyNewer(b, a);
    }
  }

  lemma ShowsOnlyNewer(c: Channel, a: Action)
    requires Ordered(c)
    ensures c.after <= Act(c, a).after
    ensures Act(c, a).log == c.log || (a.Receive? && c.wire != [] && c.after < c.wire[0] && Act(c, a).log == c.log + [c.wire[0]])
  {
    if a.Receive? && c.wire != [] {
      assert (c.log + c.wire)[|c.log|] == c.wire[0];
      if c.log != [] {
        assert (c.log + c.wire)[|c.log| - 1] == c.after;
      }
    }
  }

  // ---------------------------------------------------------------- catching up

  // Only recorded events are queued, sent or shown.
  predicate UpTo(xs: seq<nat>, n: nat) {
    forall k :: 0 <= k < |xs| ==> xs[k] <= n
  }

  ghost predicate Recorded(c: Channel) {
    && UpTo(c.log, c.n) && UpTo(c.wire, c.n) && UpTo(c.queue, c.n)
    && (c.phase.Read? ==> c.phase.upTo <= c.n)
  }

  lemma SendKeepsRecorded(c: Channel, candidates: seq<nat>)
    requires Recorded(c) && !c.phase.Read? && UpTo(candidates, c.n)
    ensures Recorded(Send(c, candidates))
  {
    FreshRises(c.last, candidates);
    var sent := Fresh(c.last, candidates);
    assert forall k :: 0 <= k < |sent| ==> sent[k] in candidates;
    assert UpTo(c.wire + sent, c.n);
  }

  lemma ActKeepsRecorded(c: Channel, a: Action)
    requires Recorded(c)
    ensures Recorded(Act(c, a)) && c.n <= Act(c, a).n
  {
    match a
    case Subscribe =>
      if c.phase.Read? {
        SendKeepsRecorded(c.(phase := On, queue := [], last := c.after), Range(c.after, c.phase.upTo));
      }
    case TakeFromQueue =>
      if c.phase.On? && c.queue != [] {
        assert UpTo([c.queue[0]], c.n) && UpTo(c.queue[1..], c.n);
        SendKeepsRecorded(c.(queue := c.queue[1..]), [c.queue[0]]);
      }
    case Poll =>
      if c.phase.On? && c.queue == [] {
        SendKeepsRecorded(c, Range(c.last, c.n));
      }
    case Receive =>
      if c.wire != [] {
        assert UpTo(c.wire[1..], c.n) && UpTo(c.log + [c.wire[0]], c.n);
      }
    case Break =>
    case ReadTrace =>
    case Record(_) =>
    case Requeue(_) =>
  }

  lemma {:induction false} OnlyRecordedIsShown(start: nat, n: nat, actions: seq<Action>)
    ensures Recorded(After(Connectable(start, n), actions))
  {
    if actions == [] {
    } else {
      hide Act, Recorded;
      OnlyRecordedIsShown(start, n, actions[..|actions| - 1]);
      ActKeepsRecorded(After(Connectable(start, n), actions[..|actions| - 1]), actions[|actions| - 1]);
    }
  }

  // Sending the recorded rest after consecutive events completes them.
  lemma RestCompletes(start: nat, xs: seq<nat>, n: nat)
    requires Consecutive(start, xs) && UpTo(xs, n)
    ensures Fresh(Top(start, xs), Range(Top(start, xs), n)) == Range(Top(start, xs), n)
    ensures xs + Range(Top(start, xs), n) == Range(start, n)
  {
    hide Range, Fresh;
    var last := Top(start, xs);
    var rest, all := Range(last, n), Range(start, n);
    FreshOfRange(last, n, last, rest);
    assert forall k :: 0 <= k < |xs| + |rest| ==> (xs + rest)[k] == start + 1 + k;
  }

  // A subscription that skipped nothing misses nothing once it polls with an empty queue: all events
  // recorded after its first cursor are then shown or on the wire.
  lemma PollCatchesUp(start: nat, n: nat, actions: seq<Action>)
    requires NeverSkips(Connectable(start, n), actions)
    requires After(Connectable(start, n), actions).phase.On? && After(Connectable(start, n), actions).queue == []
    ensures var c := Act(After(Connectable(start, n), actions), Poll);
            c.log + c.wire == Range(start, c.n)
  {
    hide After, NeverSkips, Rising, Consecutive;
    var c := After(Connectable(start, n), actions);
    ShownEventsRise(start, n, actions);
    GaplessWithoutSkips(start, n, actions);
    OnlyRecordedIsShown(start, n, actions);
    assert UpTo(c.log + c.wire, c.n);
    RestCompletes(start, c.log + c.wire, c.n);
    assert c.log + (c.wire + Range(c.last, c.n)) == (c.log + c.wire) + Range(c.last, c.n);
  }

  // And so it is after every reconnect, wherever the socket broke and whatever was lost on the wire.
  lemma ReconnectCatchesUp(start: nat, n: nat, actions: seq<Action>)
    requires NeverSkips(Connectable(start, n), actions)
    ensures var c := Act(Act(Act(After(Connectable(start, n), actions), Break), ReadTrace), Subscribe);
            c.phase.On? && c.log + c.wire == Range(start, c.n) && c.n == After(Connectable(start, n), actions).n
  {
    hide After, NeverSkips, Rising;
    var c := After(Connectable(start, n), actions);
    ShownEventsRise(start, n, actions);
    GaplessWithoutSkips(start, n, actions);
    OnlyRecordedIsShown(start, n, actions);
    RestCompletes(start, c.log, c.n);
  }

  // What is on the wire is shown once it is received, in order.
  lemma {:induction false} WireIsShown(c: Channel, actions: seq<Action>)
    requires |actions| <= |c.wire| && forall i :: 0 <= i < |actions| ==> actions[i] == Receive
    ensures After(c, actions).log == c.log + c.wire[..|actions|] && After(c, actions).wire == c.wire[|actions|..]
  {
    if actions == [] {
    } else {
      WireIsShown(c, actions[..|actions| - 1]);
    }
  }
}
