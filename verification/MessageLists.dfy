// The merge as it works: one array that is pushed to, overwritten and spliced, entry by entry.
module MessageLists {
  import opened MessageMerge
  import opened MergeCut

  // ---------------------------------------------------------------- indexes of matching entries

  predicate Rising(idx: seq<nat>) {
    forall i, j :: 0 <= i < j < |idx| ==> idx[i] < idx[j]
  }

  // Exactly the indexes below n of the entries that match.
  ghost predicate Indexes(merged: seq<Message>, m: Message, n: nat, idx: seq<nat>)
    requires n <= |merged|
  {
    && Rising(idx)
    && (forall k :: 0 <= k < |idx| ==> idx[k] < n && IsSame(merged[idx[k]], m))
    && (forall i :: 0 <= i < n && IsSame(merged[i], m) ==> i in idx)
  }

  method MatchingIndexes(merged: seq<Message>, m: Message) returns (idx: seq<nat>)
    ensures Indexes(merged, m, |merged|, idx)
  {
    hide IsSame;
    idx := [];
    for index := 0 to |merged|
      invariant Indexes(merged, m, index, idx)
    {
      if IsSame(merged[index], m) {
        idx := idx + [index];
      }
    }
  }

  // ---------------------------------------------------------------- how the index form reads

  lemma Regroup(a: seq<Message>, b: seq<Message>, c: seq<Message>)
    ensures a + (b + c) == (a + b) + c
  {
  }

  lemma Headed(x: seq<Message>, y: seq<Message>)
    requires x != []
    ensures x + y != [] && (x + y)[0] == x[0] && (x + y)[1..] == x[1..] + y
  {
  }

  lemma {:induction false} OthersSplit(x: seq<Message>, y: seq<Message>, m: Message)
    ensures Others(x + y, m) == Others(x, m) + Others(y, m)
  {
    hide IsSame;
    if x == [] {
      assert x + y == y;
    } else {
      Headed(x, y);
      OthersSplit(x[1..], y, m);
      Regroup(if IsSame(x[0], m) then [] else [x[0]], Others(x[1..], m), Others(y, m));
    }
  }

  lemma {:induction false} MatchingSplit(x: seq<Message>, y: seq<Message>, m: Message)
    ensures Matching(x + y, m) == Matching(x, m) + Matching(y, m)
  {
    hide IsSame;
    if x == [] {
      assert x + y == y;
    } else {
      Headed(x, y);
      MatchingSplit(x[1..], y, m);
      Regroup(if IsSame(x[0], m) then [x[0]] else [], Matching(x[1..], m), Matching(y, m));
    }
  }

  lemma {:induction false} AbsorbSplit(x: seq<Message>, y: seq<Message>, m: Message)
    requires forall e :: e in x ==> !IsSame(e, m)
    ensures Absorb(x + y, m) == x + Absorb(y, m)
  {
    hide IsSame;
    if x == [] {
      assert x + y == y;
    } else {
      assert x[0] in x && forall e :: e in x[1..] ==> e in x;
      assert (x + y)[0] == x[0] && (x + y)[1..] == x[1..] + y;
      AbsorbSplit(x[1..], y, m);
      assert x == [x[0]] + x[1..];
    }
  }

  // Nothing matches between a and b.
  predicate Clear(s: seq<Message>, m: Message, a: nat, b: nat)
    requires a <= b <= |s|
  {
    forall i :: a <= i < b ==> !IsSame(s[i], m)
  }

  lemma ClearTail(s: seq<Message>, m: Message, a: nat, b: nat)
    requires a <= b <= |s| && Clear(s, m, a, b)
    ensures Others(s[a..], m) == s[a..b] + Others(s[b..], m) && Matching(s[a..], m) == Matching(s[b..], m)
  {
    hide IsSame;
    assert s[a..] == s[a..b] + s[b..];
    OthersSplit(s[a..b], s[b..], m);
    MatchingSplit(s[a..b], s[b..], m);
    OthersAll(s[a..b], m);
  }

  // The same with a match at b.
  lemma NextMatch(s: seq<Message>, m: Message, a: nat, b: nat)
    requires a <= b < |s| && Clear(s, m, a, b) && IsSame(s[b], m)
    ensures Others(s[a..], m) == s[a..b] + Others(s[b + 1..], m)
    ensures Matching(s[a..], m) == [s[b]] + Matching(s[b + 1..], m)
  {
    hide IsSame;
    ClearTail(s, m, a, b);
    assert s[b..][0] == s[b] && s[b..][1..] == s[b + 1..];
  }

  lemma AbsorbFirst(y: seq<Message>, m: Message)
    requires y != [] && IsSame(y[0], m)
    ensures Absorb(y, m) == [Spread(Matching(y, m) + [m])] + Others(y[1..], m)
  {
  }

  lemma AbsorbAt(s: seq<Message>, n: nat, m: Message)
    requires n < |s| && IsSame(s[n], m) && Clear(s, m, 0, n)
    ensures Absorb(s, m) == s[..n] + [Spread(Matching(s, m) + [m])] + Others(s[n + 1..], m)
  {
    hide IsSame, Spread, Absorb, Others, Matching;
    var x, y := s[..n], s[n..];
    assert s == x + y && s[0..] == s;
    AbsorbSplit(x, y, m);
    ClearTail(s, m, 0, n);
    assert y[0] == s[n] && y[1..] == s[n + 1..];
    AbsorbFirst(y, m);
    Regroup(x, [Spread(Matching(s, m) + [m])], Others(s[n + 1..], m));
  }

  // The entries at the given indexes.
  function At(s: seq<Message>, idx: seq<nat>): seq<Message>
    requires forall k :: 0 <= k < |idx| ==> idx[k] < |s|
  {
    if idx == [] then [] else At(s, idx[..|idx| - 1]) + [s[idx[|idx| - 1]]]
  }

  // Between two consecutive matching indexes nothing matches.
  lemma GapIsClear(s: seq<Message>, m: Message, idx: seq<nat>, k: nat)
    requires Indexes(s, m, |s|, idx) && k <= |idx|
    ensures var a, b := if k == 0 then 0 else idx[k - 1] + 1, if k == |idx| then |s| else idx[k];
            a <= b && Clear(s, m, a, b)
  {
    hide IsSame;
    var a, b := if k == 0 then 0 else idx[k - 1] + 1, if k == |idx| then |s| else idx[k];
    forall i | a <= i < b
      ensures !IsSame(s[i], m)
    {
      assert forall j :: 0 <= j < |idx| ==> idx[j] != i;
      assert i !in idx;
    }
  }

  function Start(idx: seq<nat>, k: nat): nat
    requires k <= |idx|
  {
    if k == 0 then 0 else idx[k - 1] + 1
  }

  // The matching entries are those at the first k indexes and those behind them.
  lemma {:induction false} MatchingFrom(s: seq<Message>, m: Message, idx: seq<nat>, k: nat)
    requires Indexes(s, m, |s|, idx) && k <= |idx|
    ensures At(s, idx[..k]) + Matching(s[Start(idx, k)..], m) == Matching(s, m)
  {
    hide IsSame, Clear, Matching, At;
    if k == 0 {
      assert At(s, idx[..0]) == [] by { AtNone(s); }
      assert s[0..] == s;
    } else {
      MatchingFrom(s, m, idx, k - 1);
      GapIsClear(s, m, idx, k - 1);
      assert IsSame(s[idx[k - 1]], m);
      NextMatch(s, m, Start(idx, k - 1), idx[k - 1]);
      AtNext(s, idx, k);
      Regroup(At(s, idx[..k - 1]), [s[idx[k - 1]]], Matching(s[idx[k - 1] + 1..], m));
    }
  }

  lemma AtNone(s: seq<Message>)
    ensures At(s, []) == []
  {
  }

  lemma AtNext(s: seq<Message>, idx: seq<nat>, k: nat)
    requires 1 <= k <= |idx| && forall i :: 0 <= i < |idx| ==> idx[i] < |s|
    ensures At(s, idx[..k]) == At(s, idx[..k - 1]) + [s[idx[k - 1]]]
  {
    hide IsSame, Spread, Matching, Others, Clear, Indexes;
    var front := idx[..k];
    assert front[..|front| - 1] == idx[..k - 1] && front[|front| - 1] == idx[k - 1];
  }

  lemma AllMatching(s: seq<Message>, m: Message, idx: seq<nat>)
    requires Indexes(s, m, |s|, idx)
    ensures At(s, idx) == Matching(s, m)
  {
    hide IsSame, Clear;
    MatchingFrom(s, m, idx, |idx|);
    assert idx[..|idx|] == idx;
    GapIsClear(s, m, idx, |idx|);
    ClearTail(s, m, Start(idx, |idx|), |s|);
    assert s[|s|..] == [];
  }

  // ---------------------------------------------------------------- the loops

  lemma SpreadAppends(messages: seq<Message>, m: Message)
    ensures Spread(messages + [m]) == Spread(messages) + m
  {
    assert (messages + [m])[..|messages|] == messages;
  }

  // The entries at the indexes, spread over one another.
  method Combine(merged: seq<Message>, idx: seq<nat>) returns (combined: Message)
    requires idx != [] && forall k :: 0 <= k < |idx| ==> idx[k] < |merged|
    ensures combined == Spread(At(merged, idx))
  {
    hide Spread, At;
    combined := merged[idx[0]];
    FirstEntry(merged, idx);
    for index := 1 to |idx|
      invariant combined == Spread(At(merged, idx[..index]))
    {
      AtNext(merged, idx, index + 1);
      SpreadAppends(At(merged, idx[..index]), merged[idx[index]]);
      combined := combined + merged[idx[index]];
    }
    assert idx[..|idx|] == idx;
  }

  lemma FirstEntry(s: seq<Message>, idx: seq<nat>)
    requires idx != [] && forall i :: 0 <= i < |idx| ==> idx[i] < |s|
    ensures Spread(At(s, idx[..1])) == s[idx[0]]
  {
    hide Spread, At;
    AtNext(s, idx, 1);
    AtNone(s);
    assert idx[..0] == [];
    SpreadOne(s[idx[0]]);
    assert [] + [s[idx[0]]] == [s[idx[0]]];
  }

  lemma SpreadOne(m: Message)
    ensures Spread([m]) == m
  {
    assert [m][..0] == [];
    assert Spread([m]) == map[] + m;
  }

  // One removal: the entry at b goes, what lies between a and b stays.
  lemma SpliceOne(x: seq<Message>, a: nat, b: nat, rest: seq<Message>)
    requires a <= b < |x|
    ensures var r := x[..b + 1] + rest; b < |r| && r[..b] + r[b + 1..] == x[..a] + (x[a..b] + rest)
  {
    var r := x[..b + 1] + rest;
    assert r[..b] == x[..b] && r[b + 1..] == rest && x[..b] == x[..a] + x[a..b];
    Regroup(x[..a], x[a..b], rest);
  }

  lemma Overwritten(s: seq<Message>, f: nat, entry: Message, a: nat, b: nat)
    requires f < a <= b <= |s|
    ensures s[f := entry][a..b] == s[a..b] && s[f := entry][..f + 1] == s[..f] + [entry]
  {
  }

  // The list when everything behind position i is spliced.
  function SplicedBehind(s: seq<Message>, m: Message, f: nat, entry: Message, i: nat): seq<Message>
    requires f <= i < |s|
  {
    s[f := entry][..i + 1] + Others(s[i + 1..], m)
  }

  lemma SpliceStarts(s: seq<Message>, m: Message, idx: seq<nat>, entry: Message)
    requires Indexes(s, m, |s|, idx) && idx != []
    ensures idx[0] <= idx[|idx| - 1]
    ensures SplicedBehind(s, m, idx[0], entry, idx[|idx| - 1]) == s[idx[0] := entry]
  {
    hide IsSame, Others, Clear;
    var i, base := idx[|idx| - 1], s[idx[0] := entry];
    GapIsClear(s, m, idx, |idx|);
    ClearTail(s, m, i + 1, |s|);
    NothingLeft(m);
    assert s[|s|..] == [] && s[i + 1..|s|] + [] == s[i + 1..|s|];
    Overwritten(s, idx[0], entry, i + 1, |s|);
    assert base == base[..i + 1] + base[i + 1..|s|];
  }

  lemma SpliceContinues(s: seq<Message>, m: Message, idx: seq<nat>, entry: Message, k: nat, r: seq<Message>)
    requires Indexes(s, m, |s|, idx) && 1 <= k < |idx| && idx[0] <= idx[k - 1] && idx[0] <= idx[k]
    requires r == SplicedBehind(s, m, idx[0], entry, idx[k])
    ensures idx[k] < |r| && r[..idx[k]] + r[idx[k] + 1..] == SplicedBehind(s, m, idx[0], entry, idx[k - 1])
  {
    hide IsSame, Others, Clear;
    var a, b, base := idx[k - 1] + 1, idx[k], s[idx[0] := entry];
    GapIsClear(s, m, idx, k);
    NextMatch(s, m, a, b);
    SpliceOne(base, a, b, Others(s[b + 1..], m));
    Overwritten(s, idx[0], entry, a, b);
  }

  // Removes the matching entries after the first, from the back.
  method SpliceOut(merged: seq<Message>, m: Message, idx: seq<nat>, entry: Message) returns (r: seq<Message>)
    requires Indexes(merged, m, |merged|, idx) && idx != []
    ensures r == merged[..idx[0]] + [entry] + Others(merged[idx[0] + 1..], m)
  {
    hide IsSame, Others, SplicedBehind;
    SpliceStarts(merged, m, idx, entry);
    r := merged[idx[0] := entry];
    var index := |idx| - 1;
    while index >= 1
      invariant 0 <= index < |idx|
      invariant idx[0] <= idx[index]
      invariant r == SplicedBehind(merged, m, idx[0], entry, idx[index])
    {
      SpliceContinues(merged, m, idx, entry, index, r);
      r := r[..idx[index]] + r[idx[index] + 1..];
      index := index - 1;
    }
    SpliceEnds(merged, m, idx[0], entry);
  }

  lemma SpliceEnds(s: seq<Message>, m: Message, f: nat, entry: Message)
    requires f < |s|
    ensures SplicedBehind(s, m, f, entry, f) == s[..f] + [entry] + Others(s[f + 1..], m)
  {
    Overwritten(s, f, entry, f + 1, |s|);
  }

  lemma NothingLeft(m: Message)
    ensures Others([], m) == []
  {
  }

  method MergeMessageLists(rank: Collation, history: seq<Message>, current: seq<Message>, limit: int) returns (r: seq<Message>)
    ensures r == Merge(rank, history, current, limit)
    ensures |r| == KeptOf(|Collapse(history + current)|, limit)
    ensures exists left :: CutBelow(rank, Collapse(history + current), left, r)
  {
    hide IsSame, CutBelow, Merge, Sort, Latest, KeptOf;
    var messages := history + current;
    var merged: seq<Message> := [];
    for i := 0 to |messages|
      invariant merged == Collapse(messages[..i])
    {
      var message := messages[i];
      CollapseAppend(messages[..i], message);
      assert messages[..i + 1] == messages[..i] + [message];
      var matchingIndexes := MatchingIndexes(merged, message);
      if |matchingIndexes| == 0 {
        AbsorbAppends(merged, message);
        merged := merged + [message];
      } else {
        var first := matchingIndexes[0];
        GapIsClear(merged, message, matchingIndexes, 0);
        AbsorbAt(merged, first, message);
        AllMatching(merged, message, matchingIndexes);
        var combined := Combine(merged, matchingIndexes);
        SpreadAppends(Matching(merged, message), message);
        merged := SpliceOut(merged, message, matchingIndexes, combined + message);
      }
    }
    assert messages[..|messages|] == messages;
    MergeIsCut(rank, history, current, limit);
    r := Latest(Sort(rank, merged), limit);
  }

  method UpsertMessage(rank: Collation, messages: seq<Message>, message: Message, limit: int) returns (r: seq<Message>)
    ensures r == Upsert(rank, messages, message, limit)
    ensures limit >= 1 ==> Clean(rank, r, limit)
    ensures (limit >= 0 && forall x :: x in Collapse(messages) ==> !IsSame(x, message) && rank(CreatedAt(x)) <= rank(CreatedAt(message))) ==>
              r != [] && r[|r| - 1] == message
  {
    hide IsSame, Collapse, Merge, CutBelow;
    ghost var k := UpsertedIsKept(rank, messages, message, limit);
    r := MergeMessageLists(rank, [], messages + [message], limit);
    if limit >= 1 {
      MergedListIsClean(rank, [], messages + [message], limit);
    }
  }
}
