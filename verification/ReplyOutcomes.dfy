// How an event of the gateway ends: which actions end it, and that a pass nothing disturbs completes it.
module ReplyOutcomes {
  import opened Options
  import opened ReplyPipeline

  function InboxStatusOf(g: Gateway, key: Key): Option<InboxStatus> {
    if key in g.rows.inbox then Some(g.rows.inbox[key].status) else None
  }

  function OutboundStatusOf(g: Gateway, key: Key): Option<OutboundStatus> {
    if key in g.rows.outbound then Some(g.rows.outbound[key].status) else None
  }

  // ---------------------------------------------------------------- what ends an event

  predicate Expires(g: Gateway, a: Action, key: Key) {
    (a == Begin(key, true) && In(g, key, Scheduled)) || (a == Reply(key, true) && In(g, key, Answered))
  }

  predicate Fails(g: Gateway, a: Action, key: Key) {
    (a == AgentFails(key) && In(g, key, Submitted)) || (a == RecordFailed(key) && In(g, key, Broken))
  }

  // The record of a delivered reply.
  predicate Completes(g: Gateway, a: Action, key: Key) {
    a == RecordCompleted(key) && In(g, key, Confirming)
  }

  // A new event, or one that failed, is taken up again.
  predicate TakesUp(g: Gateway, a: Action, key: Key) {
    a == Arrive(key) && key !in g.active && (InboxStatusOf(g, key) == None || InboxStatusOf(g, key) == Some(Failed))
  }

  // Every change of an event's inbox row.
  lemma InboxStatusAfter(g: Gateway, a: Action, key: Key)
    requires Accounted(g, key)
    ensures InboxStatusOf(Act(g, a), key) ==
            if Expires(g, a, key) then Some(Expired)
            else if Fails(g, a, key) then Some(Failed)
            else if Completes(g, a, key) then Some(Completed)
            else if TakesUp(g, a, key) then Some(Processing)
            else InboxStatusOf(g, key)
  {
    if !a.Tick? && !a.Crash? && a.key != key {
      hide Act, Accounted;
      OthersUntouched(g, a, key);
    } else if a.Reply? {
      hide Act, Accounted;
      ReplyStatus(g, a.key, a.late);
    } else if a.Arrive? {
      hide Act, Accounted;
      ArrivalStatus(g, a.key);
    }
  }

  lemma ArrivalStatus(g: Gateway, key: Key)
    requires Accounted(g, key)
    ensures InboxStatusOf(Act(g, Arrive(key)), key) == if TakesUp(g, Arrive(key), key) then Some(Processing) else InboxStatusOf(g, key)
  {
  }

  lemma ReplyStatus(g: Gateway, key: Key, late: bool)
    requires Accounted(g, key)
    ensures InboxStatusOf(Act(g, Reply(key, late)), key) == if late && In(g, key, Answered) then Some(Expired) else InboxStatusOf(g, key)
  {
  }

  // Every change of its outbound row: claimed anew when it is missing or failed, then sent or failed.
  lemma OutboundStatusAfter(g: Gateway, a: Action, key: Key)
    requires Accounted(g, key)
    ensures OutboundStatusOf(Act(g, a), key) ==
            if a == RecordSent(key) && In(g, key, Accepted) then Some(Sent)
            else if a == ProviderFails(key) && In(g, key, Delivering) then Some(SendFailed)
            else if a == Reply(key, false) && In(g, key, Answered) && OutboundStatusOf(g, key) in {None, Some(SendFailed)} then Some(Sending)
            else OutboundStatusOf(g, key)
  {
    if !a.Tick? && !a.Crash? && a.key != key {
      hide Act, Accounted;
      OthersUntouched(g, a, key);
    } else if a.Reply? || a.Arrive? {
    }
  }

  // The state before action i of a run, and the action.
  predicate CompletesAt(retryAfter: int, actions: seq<Action>, i: nat, key: Key) {
    i < |actions| && Completes(After(retryAfter, actions[..i]), actions[i], key)
  }

  predicate ExpiresAt(retryAfter: int, actions: seq<Action>, i: nat, key: Key) {
    i < |actions| && Expires(After(retryAfter, actions[..i]), actions[i], key)
  }

  lemma ShorterRun(actions: seq<Action>, i: nat)
    requires i < |actions| - 1
    ensures actions[..|actions| - 1][..i] == actions[..i]
  {
  }

  // Over every run of the gateway an event is completed exactly when the record of its delivered reply
  // was written, and expired exactly when it was found too old, before it began or before its reply.
  lemma {:induction false} EndedIff(retryAfter: int, actions: seq<Action>, key: Key)
    ensures InboxStatusOf(After(retryAfter, actions), key) == Some(Completed) <==>
              exists i :: CompletesAt(retryAfter, actions, i, key)
    ensures InboxStatusOf(After(retryAfter, actions), key) == Some(Expired) <==>
              exists i :: ExpiresAt(retryAfter, actions, i, key)
  {
    if actions == [] {
    } else {
      hide Act, Accounted, Expires, Completes, Fails, TakesUp, InboxStatusOf;
      var n := |actions| - 1;
      var front, last := actions[..n], actions[n];
      var g := After(retryAfter, front);
      EndedIff(retryAfter, front, key);
      AcceptancesAreAccounted(retryAfter, front, key);
      InboxStatusAfter(g, last, key);
      EndingsDiffer(g, last, key);
      EndingsSoFar(retryAfter, actions, key);
    }
  }

  lemma EndingsSoFar(retryAfter: int, actions: seq<Action>, key: Key)
    requires actions != []
    ensures var n := |actions| - 1;
            var g := After(retryAfter, actions[..n]);
            && ((exists i :: CompletesAt(retryAfter, actions, i, key)) <==>
                  (exists i :: CompletesAt(retryAfter, actions[..n], i, key)) || Completes(g, actions[n], key))
            && ((exists i :: ExpiresAt(retryAfter, actions, i, key)) <==>
                  (exists i :: ExpiresAt(retryAfter, actions[..n], i, key)) || Expires(g, actions[n], key))
  {
    hide Act, After, Completes, Expires;
    var n := |actions| - 1;
    forall i: nat | i < n
      ensures CompletesAt(retryAfter, actions, i, key) <==> CompletesAt(retryAfter, actions[..n], i, key)
      ensures ExpiresAt(retryAfter, actions, i, key) <==> ExpiresAt(retryAfter, actions[..n], i, key)
    {
      ShorterRun(actions, i);
    }
    assert CompletesAt(retryAfter, actions, n, key) <==> Completes(After(retryAfter, actions[..n]), actions[n], key);
    assert ExpiresAt(retryAfter, actions, n, key) <==> Expires(After(retryAfter, actions[..n]), actions[n], key);
  }

  // What ends an event finds it unfinished, and the two endings exclude one another.
  lemma EndingsDiffer(g: Gateway, a: Action, key: Key)
    requires Accounted(g, key)
    ensures Completes(g, a, key) || Expires(g, a, key) ==> InboxStatusOf(g, key) == Some(Processing)
    ensures InboxStatusOf(g, key) in {Some(Completed), Some(Expired)} ==> !Fails(g, a, key) && !TakesUp(g, a, key)
    ensures !(Completes(g, a, key) && Expires(g, a, key))
    ensures !(Completes(g, a, key) && Fails(g, a, key)) && !(Expires(g, a, key) && Fails(g, a, key))
  {
  }

  // ---------------------------------------------------------------- a pass that nothing disturbs

  // The reply was not handed to the provider before, or that failed.
  predicate Unsent(g: Gateway, key: Key) {
    key !in g.rows.outbound || g.rows.outbound[key].status == SendFailed
  }

  // The event arrives, is begun in time and answered.
  function UpToAnswer(g: Gateway, key: Key): Gateway {
    Act(Act(Act(g, Arrive(key)), Begin(key, false)), AgentDone(key))
  }

  // An event that is new or failed is claimed and answered, and only then is its outbound row touched.
  lemma AnswersAgain(g: Gateway, key: Key)
    requires TakesUp(g, Arrive(key), key)
    ensures var g' := UpToAnswer(g, key);
            && In(g', key, Answered) && g'.rows.outbound == g.rows.outbound && g'.accepted == g.accepted
            && key in g'.rows.inbox && g'.rows.inbox[key].status == Processing
  {
    var g1 := Act(g, Arrive(key));
    assert In(g1, key, Scheduled) && key in g1.rows.inbox && g1.rows.inbox[key].status == Processing;
    var g2 := Act(g1, Begin(key, false));
    assert In(g2, key, Submitted) && key in g2.rows.inbox && g2.rows.inbox[key].status == Processing;
  }

  predicate Done(g: Gateway, key: Key) {
    && key !in g.active && key in g.rows.inbox && g.rows.inbox[key].status == Completed
    && key in g.rows.outbound && g.rows.outbound[key].status == Sent
  }

  // An undisturbed pass over a new or failed event completes it: its reply is accepted once more, and
  // not at all when an earlier pass had it on record as sent.
  lemma PassCompletes(g: Gateway, key: Key)
    requires TakesUp(g, Arrive(key), key)
    ensures Unsent(g, key) ==>
              var g' := Act(Act(Act(Act(UpToAnswer(g, key), Reply(key, false)), ProviderAccepts(key)), RecordSent(key)), RecordCompleted(key));
              Done(g', key) && Count(g'.accepted, key) == Count(g.accepted, key) + 1
    ensures OutboundStatusOf(g, key) == Some(Sent) ==>
              var g' := Act(Act(UpToAnswer(g, key), Reply(key, false)), RecordCompleted(key));
              Done(g', key) && g'.accepted == g.accepted
  {
    hide Act, UpToAnswer, Done, TakesUp, In;
    AnswersAgain(g, key);
    var g3 := UpToAnswer(g, key);
    if Unsent(g, key) {
      ReplyIsClaimed(g3, key);
      DeliveryCompletes(Act(g3, Reply(key, false)), key);
    } else if OutboundStatusOf(g, key) == Some(Sent) {
      SentReplyCompletes(g3, key);
    }
  }

  lemma ReplyIsClaimed(g: Gateway, key: Key)
    requires In(g, key, Answered) && Unsent(g, key) && key in g.rows.inbox
    ensures var g' := Act(g, Reply(key, false));
            In(g', key, Delivering) && key in g'.rows.inbox && key in g'.rows.outbound && g'.accepted == g.accepted
  {
  }

  lemma DeliveryCompletes(g: Gateway, key: Key)
    requires In(g, key, Delivering) && key in g.rows.inbox && key in g.rows.outbound
    ensures var g' := Act(Act(Act(g, ProviderAccepts(key)), RecordSent(key)), RecordCompleted(key));
            Done(g', key) && Count(g'.accepted, key) == Count(g.accepted, key) + 1
  {
    var g5 := Act(g, ProviderAccepts(key));
    assert In(g5, key, Accepted) && key in g5.rows.inbox && key in g5.rows.outbound;
    var g6 := Act(g5, RecordSent(key));
    assert In(g6, key, Confirming) && key in g6.rows.inbox && key in g6.rows.outbound && g6.rows.outbound[key].status == Sent;
  }

  lemma SentReplyCompletes(g: Gateway, key: Key)
    requires In(g, key, Answered) && OutboundStatusOf(g, key) == Some(Sent) && key in g.rows.inbox
    ensures var g' := Act(Act(g, Reply(key, false)), RecordCompleted(key));
            Done(g', key) && g'.accepted == g.accepted
  {
    var g4 := Act(g, Reply(key, false));
    assert In(g4, key, Confirming) && key in g4.rows.inbox && key in g4.rows.outbound && g4.rows.outbound[key].status == Sent;
  }

  lemma DeliveryBreaks(g: Gateway, key: Key)
    requires In(g, key, Delivering) && key in g.rows.inbox && key in g.rows.outbound
    ensures var g' := Act(Act(g, ProviderFails(key)), RecordFailed(key));
            TakesUp(g', Arrive(key), key) && Unsent(g', key) && g'.accepted == g.accepted
  {
    var g5 := Act(g, ProviderFails(key));
    assert In(g5, key, Broken) && key in g5.rows.inbox && key in g5.rows.outbound && g5.rows.outbound[key].status == SendFailed;
  }

  // A pass that fails, at the agent service or at the provider, leaves an event that is taken up again
  // at once, with a reply that may be sent again.
  lemma FailedPassIsRepeatable(g: Gateway, key: Key)
    requires TakesUp(g, Arrive(key), key)
    ensures TakesUp(Act(Act(Act(g, Arrive(key)), Begin(key, false)), AgentFails(key)), Arrive(key), key)
    ensures Unsent(g, key) ==>
              var g' := Act(Act(Act(UpToAnswer(g, key), Reply(key, false)), ProviderFails(key)), RecordFailed(key));
              TakesUp(g', Arrive(key), key) && Unsent(g', key) && g'.accepted == g.accepted
  {
    hide Act, UpToAnswer, TakesUp, In;
    AnswersAgain(g, key);
    BreaksAgain(g, key);
    if Unsent(g, key) {
      ReplyIsClaimed(UpToAnswer(g, key), key);
      DeliveryBreaks(Act(UpToAnswer(g, key), Reply(key, false)), key);
    }
  }

  lemma BreaksAgain(g: Gateway, key: Key)
    requires TakesUp(g, Arrive(key), key)
    ensures TakesUp(Act(Act(Act(g, Arrive(key)), Begin(key, false)), AgentFails(key)), Arrive(key), key)
  {
    var g1 := Act(g, Arrive(key));
    assert In(g1, key, Scheduled) && key in g1.rows.inbox;
    var g2 := Act(g1, Begin(key, false));
    assert In(g2, key, Submitted) && key in g2.rows.inbox;
  }
}
