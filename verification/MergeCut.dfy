// Which of the merged messages survive the cut to the latest, and what the merge loses of them.
module MergeCut {
  import opened MessageMerge

  lemma {:induction false} OfConcat(rank: Collation, a: seq<Message>, b: seq<Message>, key: real)
    ensures Of(rank, a + b, key) == Of(rank, a, key) + Of(rank, b, key)
  {
    if b == [] {
      assert a + b == a;
    } else {
      OfConcat(rank, a, b[..|b| - 1], key);
      assert (a + b)[..|a + b| - 1] == a + b[..|b| - 1];
    }
  }

  // How many of n entries a limit keeps: that many at most, all for 0, and for a negative limit all but
  // the first ones.
  function KeptOf(n: nat, limit: int): nat {
    if limit > 0 then (if n <= limit then n else limit)
    else if n + limit >= 0 then n + limit
    else 0
  }

  // The entries are split into those left out and those kept: none left out ranks higher than one kept,
  // and among equal ranks those left out stand before those kept.
  ghost predicate CutBelow(rank: Collation, all: seq<Message>, left: seq<Message>, kept: seq<Message>) {
    && multiset(left) + multiset(kept) == multiset(all)
    && (forall i, j :: 0 <= i < |left| && 0 <= j < |kept| ==> rank(CreatedAt(left[i])) <= rank(CreatedAt(kept[j])))
    && (forall key :: Of(rank, all, key) == Of(rank, left, key) + Of(rank, kept, key))
  }

  // For every limit the merge keeps exactly the latest entries of the collapsed lists, as many as it says.
  lemma MergeKeepsLatest(rank: Collation, history: seq<Message>, current: seq<Message>, limit: int) returns (left: seq<Message>)
    ensures var all, kept := Collapse(history + current), Merge(rank, history, current, limit);
            |kept| == KeptOf(|all|, limit) && CutBelow(rank, all, left, kept)
  {
    hide Collapse, Sort, Latest, CutBelow;
    var all := Collapse(history + current);
    var sorted := Sort(rank, all);
    SortSorts(rank, all);
    SameSize(all, sorted);
    LatestIsSuffix(sorted, limit);
    var n := |sorted| - KeptOf(|sorted|, limit);
    left := sorted[..n];
    forall key
      ensures Of(rank, all, key) == Of(rank, sorted, key)
    {
      SortIsStable(rank, all, key);
    }
    SuffixCuts(rank, all, sorted, n);
  }

  lemma LatestIsSuffix(messages: seq<Message>, limit: int)
    ensures KeptOf(|messages|, limit) <= |messages| && Latest(messages, limit) == messages[|messages| - KeptOf(|messages|, limit)..]
  {
  }

  lemma SuffixCuts(rank: Collation, all: seq<Message>, sorted: seq<Message>, n: nat)
    requires n <= |sorted| && Sorted(rank, sorted) && multiset(sorted) == multiset(all)
    requires forall key :: Of(rank, all, key) == Of(rank, sorted, key)
    ensures CutBelow(rank, all, sorted[..n], sorted[n..])
  {
    hide Of, CreatedAt;
    assert sorted[..n] + sorted[n..] == sorted;
    forall key
      ensures Of(rank, all, key) == Of(rank, sorted[..n], key) + Of(rank, sorted[n..], key)
    {
      OfConcat(rank, sorted[..n], sorted[n..], key);
    }
  }

  lemma MergeIsCut(rank: Collation, history: seq<Message>, current: seq<Message>, limit: int)
    ensures var all, kept := Collapse(history + current), Merge(rank, history, current, limit);
            && kept == Latest(Sort(rank, all), limit)
            && |kept| == KeptOf(|all|, limit) && exists left :: CutBelow(rank, all, left, kept)
  {
    hide Collapse, Sort, Latest, CutBelow;
    var left := MergeKeepsLatest(rank, history, current, limit);
  }

  lemma SameSize(a: seq<Message>, b: seq<Message>)
    requires multiset(a) == multiset(b)
    ensures |a| == |b|
  {
    assert |multiset(a)| == |a| && |multiset(b)| == |b|;
  }

  // No entry ranks higher than the k-th, and none behind it ranks as high.
  predicate Outranks(rank: Collation, messages: seq<Message>, k: nat)
    requires k < |messages|
  {
    forall j :: 0 <= j < |messages| ==>
      rank(CreatedAt(messages[j])) < rank(CreatedAt(messages[k])) ||
      (j <= k && rank(CreatedAt(messages[j])) == rank(CreatedAt(messages[k])))
  }

  lemma {:induction false} LastOfKey(rank: Collation, messages: seq<Message>, k: nat)
    requires k < |messages| && Outranks(rank, messages, k)
    ensures var of := Of(rank, messages, rank(CreatedAt(messages[k]))); of != [] && of[|of| - 1] == messages[k]
  {
    if k < |messages| - 1 {
      assert forall j :: 0 <= j < |messages| - 1 ==> messages[..|messages| - 1][j] == messages[j];
      LastOfKey(rank, messages[..|messages| - 1], k);
    }
  }

  lemma {:induction false} OfRanks(rank: Collation, messages: seq<Message>, key: real)
    ensures forall x :: x in Of(rank, messages, key) <==> x in messages && rank(CreatedAt(x)) == key
  {
    if messages == [] {
    } else {
      OfRanks(rank, messages[..|messages| - 1], key);
      assert messages == messages[..|messages| - 1] + [messages[|messages| - 1]];
    }
  }

  lemma HighestComesLast(rank: Collation, all: seq<Message>, k: nat)
    requires k < |all| && Outranks(rank, all, k)
    ensures var sorted := Sort(rank, all); |sorted| == |all| && sorted[|sorted| - 1] == all[k]
  {
    hide Sort, CreatedAt;
    var key, sorted := rank(CreatedAt(all[k])), Sort(rank, all);
    SortSorts(rank, all);
    SameSize(all, sorted);
    var last := sorted[|sorted| - 1];
    LastOfKey(rank, all, k);
    SortIsStable(rank, all, key);
    assert all[k] in multiset(sorted) && last in multiset(all);
    assert rank(CreatedAt(last)) == key;
  }

  // The latest entry of all survives every cut that keeps anything, as the last of the list.
  lemma OutrankingIsKept(rank: Collation, history: seq<Message>, current: seq<Message>, limit: int, k: nat)
    requires k < |Collapse(history + current)| && Outranks(rank, Collapse(history + current), k)
    requires KeptOf(|Collapse(history + current)|, limit) > 0
    ensures var kept := Merge(rank, history, current, limit);
            kept != [] && kept[|kept| - 1] == Collapse(history + current)[k]
  {
    hide Sort, Collapse, Outranks;
    HighestComesLast(rank, Collapse(history + current), k);
  }

  // ---------------------------------------------------------------- the message put in last

  // The entry that carries the upserted message is the last of the list whenever it outranks the others;
  // a message that is new, and not older than the others, is that entry itself.
  lemma UpsertedIsKept(rank: Collation, messages: seq<Message>, m: Message, limit: int) returns (k: nat)
    ensures var all, kept := Collapse(messages + [m]), Upsert(rank, messages, m, limit);
            && k < |all| && Carries(all[k], m)
            && (limit >= 0 && Outranks(rank, all, k) ==> kept != [] && kept[|kept| - 1] == all[k])
            && (limit >= 0 && (forall x :: x in Collapse(messages) ==> !IsSame(x, m) && rank(CreatedAt(x)) <= rank(CreatedAt(m))) ==>
                  kept != [] && kept[|kept| - 1] == m)
  {
    hide IsSame, Carries, Collapse, Merge, Outranks, CreatedAt;
    var before := Collapse(messages);
    CollapseAppend(messages, m);
    AbsorbCarries(before, m);
    var all := Collapse(messages + [m]);
    k :| 0 <= k < |all| && Carries(all[k], m);
    assert [] + (messages + [m]) == messages + [m];
    if limit >= 0 && Outranks(rank, all, k) {
      OutrankingIsKept(rank, [], messages + [m], limit, k);
    }
    if limit >= 0 && forall x :: x in before ==> !IsSame(x, m) && rank(CreatedAt(x)) <= rank(CreatedAt(m)) {
      AbsorbAppends(before, m);
      NewestOutranks(rank, before, m);
      OutrankingIsKept(rank, [], messages + [m], limit, |before|);
    }
  }

  lemma NewestOutranks(rank: Collation, messages: seq<Message>, m: Message)
    requires forall x :: x in messages ==> rank(CreatedAt(x)) <= rank(CreatedAt(m))
    ensures Outranks(rank, messages + [m], |messages|)
  {
  }

  // A message that updates an entry can be cut although nothing ranks higher: it keeps the entry's place,
  // and an entry of the same time behind it is kept instead.
  lemma UpdateIsCut(rank: Collation, a: Message, b: Message, update: Message)
    requires IsSame(a, update) && !IsSame(b, update) && !IsSame(a, b)
    requires rank(CreatedAt(a + update)) == rank(CreatedAt(b))
    ensures Upsert(rank, [a, b], update, 1) == [b]
  {
    hide IsSame, Collapse, CreatedAt, Sort;
    DistinctStays([a, b]);
    CollapseAppend([a, b], update);
    AbsorbsFirst(a, b, update);
    assert [] + ([a, b] + [update]) == [a, b] + [update];
    OutrankingIsKept(rank, [], [a, b] + [update], 1, 1);
    MergedListIsClean(rank, [], [a, b] + [update], 1);
  }

  lemma EqualRankCanBeCut(rank: Collation)
    ensures var a: Message := map["id" := Text("7"), "created_at" := Text("1")];
            var b: Message := map["id" := Text("8"), "created_at" := Text("1")];
            var update: Message := map["id" := Text("7"), "created_at" := Text("1"), "text" := Text("new")];
            Upsert(rank, [a, b], update, 1) == [b]
  {
    hide Upsert;
    var a: Message := map["id" := Text("7"), "created_at" := Text("1")];
    var b: Message := map["id" := Text("8"), "created_at" := Text("1")];
    var update: Message := map["id" := Text("7"), "created_at" := Text("1"), "text" := Text("new")];
    UpdateIsCut(rank, a, b, update);
  }

  lemma AbsorbsFirst(a: Message, b: Message, m: Message)
    requires IsSame(a, m) && !IsSame(b, m)
    ensures Absorb([a, b], m) == [a + m, b]
  {
    hide IsSame, Spread;
    OneEntry(a, m);
    assert [a, b][1..] == [b];
    assert Matching([b], m) == [] && Others([b], m) == [b];
    assert Matching([a], m) == [a] && Matching([a, b], m) == [a];
  }

  // ---------------------------------------------------------------- which messages are taken for one

  // A text that names a message for good: not empty, and not given by the client for the time being.
  predicate Names(m: Message, id: string) {
    "id" in m && m["id"] == Text(id) && id != "" && !("temp_" <= id)
  }

  // Two messages are the same exactly when they share a lasting id or a client's message id.
  lemma SameIff(a: Message, b: Message)
    ensures IsSame(a, b) <==>
              || (exists id :: Names(a, id) && Names(b, id))
              || (exists id :: id != "" && "client_message_id" in a && a["client_message_id"] == Text(id) &&
                               "client_message_id" in b && b["client_message_id"] == Text(id))
  {
    var id, client := PersistedId(a), ClientId(a);
    assert id != "" ==> Names(a, id);
    assert id != "" && id == PersistedId(b) ==> Names(b, id);
    forall x | Names(a, x) && Names(b, x) ensures PersistedId(a) == x == PersistedId(b) { }
  }

  // ---------------------------------------------------------------- nothing is lost before the cut

  // Some entry has every property that the message was given.
  predicate Kept(messages: seq<Message>, m: Message) {
    exists k :: 0 <= k < |messages| && m.Keys <= messages[k].Keys
  }

  lemma {:induction false} SpreadKeepsKeys(messages: seq<Message>, k: nat)
    requires k < |messages|
    ensures messages[k].Keys <= Spread(messages).Keys
  {
    if k < |messages| - 1 {
      SpreadKeepsKeys(messages[..|messages| - 1], k);
    }
  }

  lemma {:induction false} MatchingFinds(merged: seq<Message>, m: Message, k: nat)
    requires k < |merged|
    ensures if IsSame(merged[k], m) then merged[k] in Matching(merged, m) else merged[k] in Others(merged, m)
  {
    if k > 0 {
      MatchingFinds(merged[1..], m, k - 1);
    }
  }

  // Where the entry is combined with others, and where it stays beside them.
  lemma CombinedKeeps(merged: seq<Message>, m: Message, k: nat)
    requires k < |merged| && IsSame(merged[k], m)
    ensures merged[k].Keys <= Spread(Matching(merged, m) + [m]).Keys
  {
    hide IsSame, Spread, Matching;
    MatchingFinds(merged, m, k);
    var parts := Matching(merged, m) + [m];
    var i :| 0 <= i < |Matching(merged, m)| && Matching(merged, m)[i] == merged[k];
    assert parts[i] == merged[k];
    SpreadKeepsKeys(parts, i);
  }

  lemma KeptIn(messages: seq<Message>, i: nat, m: Message)
    requires i < |messages| && m.Keys <= messages[i].Keys
    ensures Kept(messages, m)
  {
  }

  lemma {:induction false} AbsorbKeeps(merged: seq<Message>, m: Message, k: nat)
    requires k < |merged|
    ensures Kept(Absorb(merged, m), merged[k])
  {
    hide IsSame, Spread, Matching, Others, Kept;
    var next := Absorb(merged, m);
    if IsSame(merged[0], m) {
      if IsSame(merged[k], m) {
        CombinedKeeps(merged, m, k);
        KeptIn(next, 0, merged[k]);
      } else {
        MatchingFinds(merged[1..], m, k - 1);
        var i :| 0 <= i < |Others(merged[1..], m)| && Others(merged[1..], m)[i] == merged[k];
        KeptIn(next, i + 1, merged[k]);
      }
    } else if k == 0 {
      KeptIn(next, 0, merged[k]);
    } else {
      AbsorbKeeps(merged[1..], m, k - 1);
      var i := KeptAt(Absorb(merged[1..], m), merged[k]);
      KeptIn(next, i + 1, merged[k]);
    }
  }

  lemma KeptAt(messages: seq<Message>, m: Message) returns (i: nat)
    requires Kept(messages, m)
    ensures i < |messages| && m.Keys <= messages[i].Keys
  {
    i :| 0 <= i < |messages| && m.Keys <= messages[i].Keys;
  }

  // Every message of the two lists is in an entry with all its properties, whatever it is merged with.
  lemma {:induction false} NothingIsLost(messages: seq<Message>, k: nat)
    requires k < |messages|
    ensures Kept(Collapse(messages), messages[k])
  {
    hide Absorb, Carries;
    var front, last := messages[..|messages| - 1], messages[|messages| - 1];
    var before := Collapse(front);
    if k == |front| {
      AbsorbCarries(before, last);
      var i :| 0 <= i < |Collapse(messages)| && Carries(Collapse(messages)[i], last);
      CarriesKeys(Collapse(messages)[i], last);
    } else {
      NothingIsLost(front, k);
      var i :| 0 <= i < |before| && messages[k].Keys <= before[i].Keys;
      AbsorbKeeps(before, last, i);
    }
  }

  lemma CarriesKeys(entry: Message, m: Message)
    requires Carries(entry, m)
    ensures m.Keys <= entry.Keys
  {
  }
}
