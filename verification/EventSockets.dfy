// The two ends of an event subscription as they work: the server's forwarding loop and the browser's
// reconnecting socket.
module EventSockets {
  import opened EventReplay

  // The server's side of one subscription.
  class Subscription {
    var queue: seq<nat>
    var last: nat
    var sent: seq<nat>

    // Subscribes with a cursor and sends the events read from the trace before.
    constructor (after: nat, upTo: nat)
      ensures queue == []
      ensures sent == Range(after, upTo) && last == if after < upTo then upTo else after
    {
      queue, last, sent := [], after, [];
      new;
      var previous := Range(after, upTo);
      FreshOfRange(after, upTo, after, previous);
      Forward(previous);
    }

    // Sends what is newer than everything sent before.
    method Forward(candidates: seq<nat>)
      modifies this`last, this`sent
      ensures sent == old(sent) + Fresh(old(last), candidates)
      ensures last == Top(old(last), Fresh(old(last), candidates))
    {
      var i := 0;
      while i < |candidates|
        invariant 0 <= i <= |candidates|
        invariant old(sent) + Fresh(old(last), candidates) == sent + Fresh(last, candidates[i..])
        invariant Top(old(last), Fresh(old(last), candidates)) == Top(last, Fresh(last, candidates[i..]))
      {
        assert candidates[i..][1..] == candidates[i + 1..];
        if candidates[i] > last {
          sent := sent + [candidates[i]];
          last := candidates[i];
        }
        i := i + 1;
      }
    }

    // One round of the loop: the next queued event, or the trace when nothing was queued for a second.
    method ForwardNext(n: nat)
      modifies this
      ensures queue == if old(queue) == [] then [] else old(queue)[1..]
      ensures var candidates := if old(queue) == [] then Range(old(last), n) else [old(queue)[0]];
              sent == old(sent) + Fresh(old(last), candidates) && last == Top(old(last), Fresh(old(last), candidates))
    {
      if queue == [] {
        Forward(Range(last, n));
      } else {
        var candidates := [queue[0]];
        queue := queue[1..];
        Forward(candidates);
      }
    }
  }

  // The browser's socket: it remembers the highest number it was shown and backs off between attempts.
  class AgentWebSocket {
    var running: bool
    var connected: bool
    var retrying: bool
    var afterSequence: nat
    var delay: nat
    var shown: seq<nat>

    // The cursor is the highest number shown or connected with, and waiting never exceeds 30 seconds.
    ghost predicate Valid(start: nat)
      reads this
    {
      && 1000 <= delay <= 30000
      && start <= afterSequence
      && (forall k :: 0 <= k < |shown| ==> shown[k] <= afterSequence)
      && (afterSequence == start || afterSequence in shown)
    }

    constructor (start: nat)
      ensures Valid(start) && afterSequence == start && shown == [] && running
    {
      running, connected, retrying, afterSequence, delay, shown := true, false, false, start, 1000, [];
    }

    method OnOpen() returns (subscribeAfter: nat)
      requires running
      modifies this`connected, this`retrying, this`delay
      ensures connected && delay == 1000 && subscribeAfter == afterSequence
    {
      connected, retrying, delay := true, false, 1000;
      subscribeAfter := afterSequence;
    }

    method OnMessage(sequence: nat, ghost start: nat)
      requires Valid(start)
      modifies this`afterSequence, this`shown
      ensures Valid(start)
      ensures shown == old(shown) + [sequence]
      ensures afterSequence == if old(afterSequence) < sequence then sequence else old(afterSequence)
    {
      if afterSequence < sequence {
        afterSequence := sequence;
      }
      shown := shown + [sequence];
    }

    method OnClose(ghost start: nat)
      requires Valid(start)
      modifies this`connected, this`retrying, this`delay
      ensures Valid(start) && !connected
      ensures if running then retrying && delay == (if 2 * old(delay) < 30000 then 2 * old(delay) else 30000)
              else delay == old(delay) && retrying == old(retrying)
    {
      connected := false;
      if running {
        retrying := true;
        delay := if delay * 2 < 30000 then delay * 2 else 30000;
      }
    }

    method Disconnect()
      modifies this`running, this`connected, this`retrying
      ensures !running && !connected && !retrying
    {
      running, connected, retrying := false, false, false;
    }
  }
}
