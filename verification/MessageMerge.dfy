// The cached-message merge of the chat client: entries that share an identifier are collapsed into
// one, sorted by creation time and cut to the latest.
module MessageMerge {

  // A property holds null or some text; numeric ids are the text they are converted to.
  datatype Value = Null | Text(text: string)

  // An object with the properties it was given; spreading one over another is map merge.
  type Message = map<string, Value>

  // How the runtime's locale ranks strings; any total preorder of strings has such a ranking.
  type Collation = string -> real

  function StringAt(m: Message, property: string): string {
    if property in m && m[property].Text? then m[property].text else ""
  }

  predicate Temporary(id: string) {
    |id| >= 5 && id[..5] == "temp_"
  }

  // The stable identifiers; "" when there is none.
  function PersistedId(m: Message): string {
    if Temporary(StringAt(m, "id")) then "" else StringAt(m, "id")
  }

  function ClientId(m: Message): string {
    StringAt(m, "client_message_id")
  }

  predicate IsSame(a: Message, b: Message) {
    (PersistedId(a) != "" && PersistedId(a) == PersistedId(b)) || (ClientId(a) != "" && ClientId(a) == ClientId(b))
  }

  function CreatedAt(m: Message): string {
    StringAt(m, "created_at")
  }

  // ---------------------------------------------------------------- collapsing

  function Matching(merged: seq<Message>, m: Message): seq<Message> {
    if merged == [] then []
    else (if IsSame(merged[0], m) then [merged[0]] else []) + Matching(merged[1..], m)
  }

  function Others(merged: seq<Message>, m: Message): seq<Message> {
    if merged == [] then []
    else (if IsSame(merged[0], m) then [] else [merged[0]]) + Others(merged[1..], m)
  }

  // Later objects spread over earlier ones.
  function Spread(messages: seq<Message>): Message {
    if messages == [] then map[] else Spread(messages[..|messages| - 1]) + messages[|messages| - 1]
  }

  // One entry arrives: all entries it matches become one, at the place of the first.
  function Absorb(merged: seq<Message>, m: Message): seq<Message> {
    if merged == [] then [m]
    else if IsSame(merged[0], m) then [Spread(Matching(merged, m) + [m])] + Others(merged[1..], m)
    else [merged[0]] + Absorb(merged[1..], m)
  }

  function Collapse(messages: seq<Message>): seq<Message> {
    if messages == [] then []
    else Absorb(Collapse(messages[..|messages| - 1]), messages[|messages| - 1])
  }

  // ---------------------------------------------------------------- sorting and cutting

  // Insertion behind everything that ranks no higher.
  function Insert(rank: Collation, sorted: seq<Message>, m: Message): seq<Message> {
    if sorted == [] then [m]
    else if rank(CreatedAt(sorted[|sorted| - 1])) <= rank(CreatedAt(m)) then sorted + [m]
    else Insert(rank, sorted[..|sorted| - 1], m) + [sorted[|sorted| - 1]]
  }

  function Sort(rank: Collation, messages: seq<Message>): seq<Message> {
    if messages == [] then []
    else Insert(rank, Sort(rank, messages[..|messages| - 1]), messages[|messages| - 1])
  }

  // slice(-limit): the last entries, but all of them for a limit of 0.
  function Latest(messages: seq<Message>, limit: int): seq<Message> {
    if limit > 0 then (if |messages| <= limit then messages else messages[|messages| - limit..])
    else if -limit <= |messages| then messages[-limit..]
    else []
  }

  function Merge(rank: Collation, history: seq<Message>, current: seq<Message>, limit: int): seq<Message> {
    Latest(Sort(rank, Collapse(history + current)), limit)
  }

  function Upsert(rank: Collation, messages: seq<Message>, m: Message, limit: int): seq<Message> {
    Merge(rank, [], messages + [m], limit)
  }

  // ---------------------------------------------------------------- no two entries are the same

  predicate Distinct(messages: seq<Message>) {
    forall i, j :: 0 <= i < j < |messages| ==> !IsSame(messages[i], messages[j])
  }

  lemma {:induction false} OthersDiffer(merged: seq<Message>, m: Message)
    ensures forall x :: x in Others(merged, m) ==> x in merged && !IsSame(x, m)
    ensures Distinct(merged) ==> Distinct(Others(merged, m))
  {
    if merged == [] {
    } else {
      var rest := merged[1..];
      OthersDiffer(rest, m);
      assert forall x :: x in rest ==> x in merged;
      if Distinct(merged) {
        assert forall i, j :: 0 <= i < j < |rest| ==> rest[i] == merged[i + 1] && rest[j] == merged[j + 1];
        assert forall x :: x in rest ==> !IsSame(merged[0], x);
      }
    }
  }

  lemma {:induction false} MatchingMatch(merged: seq<Message>, m: Message)
    ensures forall x :: x in Matching(merged, m) ==> x in merged && IsSame(x, m)
  {
    if merged == [] {
    } else {
      MatchingMatch(merged[1..], m);
    }
  }

  // A property of a spread object is the property of one of its parts.
  lemma {:induction false} SpreadTakesFrom(messages: seq<Message>, property: string)
    ensures property in Spread(messages) ==>
              exists k :: 0 <= k < |messages| && property in messages[k] && Spread(messages)[property] == messages[k][property]
  {
    if messages == [] {
    } else {
      var last := |messages| - 1;
      SpreadTakesFrom(messages[..last], property);
      if property in Spread(messages) && property !in messages[last] {
        var k :| 0 <= k < last && property in messages[..last][k] && Spread(messages[..last])[property] == messages[..last][k][property];
        assert property in messages[k] && Spread(messages)[property] == messages[k][property];
      }
    }
  }

  // So something that is the same as the spread object is the same as one of its parts.
  lemma SameAsPart(messages: seq<Message>, x: Message)
    requires IsSame(Spread(messages), x)
    ensures exists k :: 0 <= k < |messages| && IsSame(messages[k], x)
  {
    SpreadTakesFrom(messages, "id");
    SpreadTakesFrom(messages, "client_message_id");
    var property := if PersistedId(Spread(messages)) != "" && PersistedId(Spread(messages)) == PersistedId(x) then "id" else "client_message_id";
    var k :| 0 <= k < |messages| && property in messages[k] && Spread(messages)[property] == messages[k][property];
    assert IsSame(messages[k], x);
  }

  // An entry that differs from a message and from everything the message matches differs from what
  // they are collapsed into.
  lemma CollapsedDiffers(merged: seq<Message>, m: Message, x: Message)
    requires !IsSame(x, m) && forall y :: y in merged && IsSame(y, m) ==> !IsSame(y, x)
    ensures !IsSame(Spread(Matching(merged, m) + [m]), x)
  {
    var parts := Matching(merged, m) + [m];
    MatchingMatch(merged, m);
    forall k | 0 <= k < |parts|
      ensures !IsSame(parts[k], x)
    {
      assert parts[k] == m || parts[k] in Matching(merged, m);
    }
    if IsSame(Spread(parts), x) {
      SameAsPart(parts, x);
      assert false;
    }
  }

  lemma {:induction false} AbsorbKeepsDifference(merged: seq<Message>, m: Message, x: Message)
    requires !IsSame(x, m) && forall y :: y in merged ==> !IsSame(x, y)
    ensures forall y :: y in Absorb(merged, m) ==> !IsSame(x, y)
  {
    if merged == [] {
    } else {
      if IsSame(merged[0], m) {
        CollapsedDiffers(merged, m, x);
        OthersDiffer(merged[1..], m);
      } else {
        assert forall y :: y in merged[1..] ==> y in merged;
        AbsorbKeepsDifference(merged[1..], m, x);
      }
    }
  }

  lemma TailIsDistinct(merged: seq<Message>)
    requires Distinct(merged) && merged != []
    ensures Distinct(merged[1..]) && forall y :: y in merged[1..] ==> !IsSame(merged[0], y)
  {
    hide IsSame;
    var rest := merged[1..];
    assert forall i, j :: 0 <= i < j < |rest| ==> rest[i] == merged[i + 1] && rest[j] == merged[j + 1];
  }

  lemma FrontDiffers(first: Message, rest: seq<Message>)
    requires Distinct(rest) && forall y :: y in rest ==> !IsSame(first, y)
    ensures Distinct([first] + rest)
  {
    hide IsSame;
  }

  lemma {:induction false} AbsorbKeepsDistinct(merged: seq<Message>, m: Message)
    requires Distinct(merged)
    ensures Distinct(Absorb(merged, m))
  {
    if merged == [] {
    } else {
      hide IsSame, Distinct, Spread, Matching, Others;
      var rest := merged[1..];
      TailIsDistinct(merged);
      if IsSame(merged[0], m) {
        OthersDiffer(rest, m);
        FirstIsCollapsed(merged, m);
        FrontDiffers(Spread(Matching(merged, m) + [m]), Others(rest, m));
      } else {
        AbsorbKeepsDistinct(rest, m);
        AbsorbKeepsDifference(rest, m, merged[0]);
        FrontDiffers(merged[0], Absorb(rest, m));
      }
    }
  }

  lemma FirstIsCollapsed(merged: seq<Message>, m: Message)
    requires Distinct(merged) && merged != [] && IsSame(merged[0], m)
    ensures forall x :: x in Others(merged[1..], m) ==> !IsSame(Spread(Matching(merged, m) + [m]), x)
  {
    OthersDiffer(merged[1..], m);
    forall x | x in Others(merged[1..], m)
      ensures !IsSame(Spread(Matching(merged, m) + [m]), x)
    {
      var k :| 0 <= k < |merged[1..]| && merged[1..][k] == x;
      forall y | y in merged && IsSame(y, m)
        ensures !IsSame(y, x)
      {
        var j :| 0 <= j < |merged| && merged[j] == y;
        assert j != k + 1;
      }
      CollapsedDiffers(merged, m, x);
    }
  }

  // Whatever the two lists hold, duplicates of their own included, no two collapsed entries are the same.
  lemma {:induction false} CollapseIsDistinct(messages: seq<Message>)
    ensures Distinct(Collapse(messages))
  {
    if messages == [] {
    } else {
      CollapseIsDistinct(messages[..|messages| - 1]);
      AbsorbKeepsDistinct(Collapse(messages[..|messages| - 1]), messages[|messages| - 1]);
    }
  }

  // ---------------------------------------------------------------- sorted, permuted, stable

  predicate Sorted(rank: Collation, messages: seq<Message>) {
    forall i, j :: 0 <= i < j < |messages| ==> rank(CreatedAt(messages[i])) <= rank(CreatedAt(messages[j]))
  }

  lemma {:induction false} InsertPermutes(rank: Collation, sorted: seq<Message>, m: Message)
    ensures multiset(Insert(rank, sorted, m)) == multiset(sorted) + multiset([m])
  {
    if sorted == [] {
    } else {
      InsertPermutes(rank, sorted[..|sorted| - 1], m);
      assert sorted == sorted[..|sorted| - 1] + [sorted[|sorted| - 1]];
    }
  }

  lemma AppendSorts(rank: Collation, sorted: seq<Message>, m: Message)
    requires Sorted(rank, sorted) && forall x :: x in sorted ==> rank(CreatedAt(x)) <= rank(CreatedAt(m))
    ensures Sorted(rank, sorted + [m])
  {
    assert forall k :: 0 <= k < |sorted| ==> sorted[k] in sorted;
  }

  lemma {:induction false} InsertSorts(rank: Collation, sorted: seq<Message>, m: Message)
    requires Sorted(rank, sorted)
    ensures Sorted(rank, Insert(rank, sorted, m))
  {
    if sorted == [] {
    } else {
      var front, last := sorted[..|sorted| - 1], sorted[|sorted| - 1];
      if rank(CreatedAt(last)) <= rank(CreatedAt(m)) {
        AppendSorts(rank, sorted, m);
      } else {
        InsertSorts(rank, front, m);
        InsertPermutes(rank, front, m);
        forall x | x in Insert(rank, front, m)
          ensures rank(CreatedAt(x)) <= rank(CreatedAt(last))
        {
          assert x in multiset(front) + multiset([m]);
        }
        AppendSorts(rank, Insert(rank, front, m), last);
      }
    }
  }

  lemma {:induction false} SortSorts(rank: Collation, messages: seq<Message>)
    ensures Sorted(rank, Sort(rank, messages)) && multiset(Sort(rank, messages)) == multiset(messages)
  {
    if messages == [] {
    } else {
      SortSorts(rank, messages[..|messages| - 1]);
      InsertSorts(rank, Sort(rank, messages[..|messages| - 1]), messages[|messages| - 1]);
      InsertPermutes(rank, Sort(rank, messages[..|messages| - 1]), messages[|messages| - 1]);
      assert messages == messages[..|messages| - 1] + [messages[|messages| - 1]];
    }
  }

  // The entries of one creation time, in order.
  function Of(rank: Collation, messages: seq<Message>, key: real): seq<Message> {
    if messages == [] then []
    else
      var rest, last := Of(rank, messages[..|messages| - 1], key), messages[|messages| - 1];
      if rank(CreatedAt(last)) == key then rest + [last] else rest
  }

  lemma OfAppend(rank: Collation, messages: seq<Message>, m: Message, key: real)
    ensures Of(rank, messages + [m], key) == Of(rank, messages, key) + if rank(CreatedAt(m)) == key then [m] else []
  {
    assert (messages + [m])[..|messages|] == messages;
  }

  lemma {:induction false} InsertIsStable(rank: Collation, sorted: seq<Message>, m: Message, key: real)
    requires Sorted(rank, sorted)
    ensures Of(rank, Insert(rank, sorted, m), key) == Of(rank, sorted + [m], key)
  {
    OfAppend(rank, sorted, m, key);
    if sorted == [] || rank(CreatedAt(sorted[|sorted| - 1])) <= rank(CreatedAt(m)) {
    } else {
      var front, last := sorted[..|sorted| - 1], sorted[|sorted| - 1];
      InsertIsStable(rank, front, m, key);
      OfAppend(rank, Insert(rank, front, m), last, key);
      OfAppend(rank, front, m, key);
    }
  }

  // Entries of the same creation time keep their order.
  lemma {:induction false} SortIsStable(rank: Collation, messages: seq<Message>, key: real)
    ensures Of(rank, Sort(rank, messages), key) == Of(rank, messages, key)
  {
    if messages == [] {
    } else {
      var front, last := messages[..|messages| - 1], messages[|messages| - 1];
      SortSorts(rank, front);
      SortIsStable(rank, front, key);
      InsertIsStable(rank, Sort(rank, front), last, key);
      OfAppend(rank, Sort(rank, front), last, key);
      OfAppend(rank, front, last, key);
      assert front + [last] == messages;
    }
  }

  lemma InsertLast(rank: Collation, sorted: seq<Message>, m: Message)
    requires sorted != [] ==> rank(CreatedAt(sorted[|sorted| - 1])) <= rank(CreatedAt(m))
    ensures Insert(rank, sorted, m) == sorted + [m]
  {
    hide CreatedAt;
  }

  lemma {:induction false} SortedStays(rank: Collation, messages: seq<Message>)
    requires Sorted(rank, messages)
    ensures Sort(rank, messages) == messages
  {
    if messages == [] {
    } else {
      hide CreatedAt, Insert;
      var n := |messages| - 1;
      var front := messages[..n];
      assert Sorted(rank, front) by { FrontIsSorted(rank, messages); }
      SortedStays(rank, front);
      InsertLast(rank, front, messages[n]);
      assert front + [messages[n]] == messages;
    }
  }

  lemma FrontIsSorted(rank: Collation, messages: seq<Message>)
    requires messages != [] && Sorted(rank, messages)
    ensures Sorted(rank, messages[..|messages| - 1])
  {
    hide CreatedAt;
    var front := messages[..|messages| - 1];
    assert forall i :: 0 <= i < |front| ==> front[i] == messages[i];
  }

  // Distinctness does not depend on the order.
  lemma DistinctPermutes(a: seq<Message>, b: seq<Message>)
    requires Distinct(a) && multiset(a) == multiset(b)
    ensures Distinct(b)
  {
    forall i, j | 0 <= i < j < |b|
      ensures !IsSame(b[i], b[j])
    {
      TwoOccurrences(a, b, i, j);
    }
  }

  lemma TwoOccurrences(a: seq<Message>, b: seq<Message>, i: nat, j: nat)
    requires multiset(a) == multiset(b) && i < j < |b|
    ensures exists p, q :: 0 <= p < |a| && 0 <= q < |a| && p != q && a[p] == b[i] && a[q] == b[j]
  {
    assert b[i] in multiset(a) && b[j] in multiset(a);
    if b[i] != b[j] {
      var p :| 0 <= p < |a| && a[p] == b[i];
      var q :| 0 <= q < |a| && a[q] == b[j];
    } else {
      assert b == b[..j] + [b[j]] + b[j + 1..];
      assert b[i] in b[..j];
      assert multiset(b)[b[i]] >= 2;
      TwiceInSequence(a, b[i]);
    }
  }

  lemma {:induction false} TwiceInSequence(a: seq<Message>, x: Message)
    requires multiset(a)[x] >= 2
    ensures exists p, q :: 0 <= p < q < |a| && a[p] == x && a[q] == x
  {
    var p :| 0 <= p < |a| && a[p] == x;
    assert a == a[..p] + [a[p]] + a[p + 1..];
    if x in a[..p] {
      var q :| 0 <= q < p && a[..p][q] == x;
      assert a[q] == x && a[p] == x;
    } else {
      assert x in multiset(a[p + 1..]);
      var q :| 0 <= q < |a[p + 1..]| && a[p + 1..][q] == x;
      assert a[p] == x && a[p + 1 + q] == x;
    }
  }

  // ---------------------------------------------------------------- the merged list

  // No two entries are the same, they are in order of creation, and there are at most `limit`.
  predicate Clean(rank: Collation, messages: seq<Message>, limit: int) {
    Distinct(messages) && Sorted(rank, messages) && |messages| <= limit
  }

  // For all lists, even ones with duplicates, and every limit from 1 the merged list is clean.
  lemma MergedListIsClean(rank: Collation, history: seq<Message>, current: seq<Message>, limit: int)
    requires limit >= 1
    ensures Clean(rank, Merge(rank, history, current, limit), limit)
  {
    var collapsed := Collapse(history + current);
    CollapseIsDistinct(history + current);
    SortSorts(rank, collapsed);
    DistinctPermutes(collapsed, Sort(rank, collapsed));
  }

  lemma {:induction false} AbsorbAppends(merged: seq<Message>, m: Message)
    requires forall k :: 0 <= k < |merged| ==> !IsSame(merged[k], m)
    ensures Absorb(merged, m) == merged + [m]
  {
    if merged == [] {
    } else {
      AbsorbAppends(merged[1..], m);
      assert merged == [merged[0]] + merged[1..];
    }
  }

  lemma {:induction false} DistinctStays(messages: seq<Message>)
    requires Distinct(messages)
    ensures Collapse(messages) == messages
  {
    if messages == [] {
    } else {
      var front, last := messages[..|messages| - 1], messages[|messages| - 1];
      assert forall i :: 0 <= i < |front| ==> front[i] == messages[i];
      DistinctStays(front);
      AbsorbAppends(front, last);
      assert front + [last] == messages;
    }
  }

  // A clean list merged again, on either side, comes back unchanged.
  lemma CleanListIsUnchanged(rank: Collation, messages: seq<Message>, limit: int)
    requires Clean(rank, messages, limit) && limit >= 1
    ensures Merge(rank, messages, [], limit) == messages && Merge(rank, [], messages, limit) == messages
  {
    DistinctStays(messages);
    SortedStays(rank, messages);
    assert messages + [] == messages && [] + messages == messages;
  }

  lemma MergingAgainChangesNothing(rank: Collation, history: seq<Message>, current: seq<Message>, limit: int)
    requires limit >= 1
    ensures var merged := Merge(rank, history, current, limit);
            Merge(rank, merged, [], limit) == merged && Merge(rank, [], merged, limit) == merged
  {
    MergedListIsClean(rank, history, current, limit);
    CleanListIsUnchanged(rank, Merge(rank, history, current, limit), limit);
  }

  // A limit of 0 does not empty the list: everything is kept.
  lemma ZeroKeepsEverything(rank: Collation, history: seq<Message>, current: seq<Message>)
    ensures multiset(Merge(rank, history, current, 0)) == multiset(Collapse(history + current))
  {
    var sorted := Sort(rank, Collapse(history + current));
    SortSorts(rank, Collapse(history + current));
    assert sorted[0..] == sorted;
  }

  // ---------------------------------------------------------------- merging a list with itself

  // An entry without any identifier is not even the same as itself.
  predicate Identified(m: Message) {
    PersistedId(m) != "" || ClientId(m) != ""
  }

  lemma {:induction false} OthersAll(merged: seq<Message>, m: Message)
    requires forall x :: x in merged ==> !IsSame(x, m)
    ensures Others(merged, m) == merged && Matching(merged, m) == []
  {
    if merged == [] {
    } else {
      assert merged[0] in merged && forall x :: x in merged[1..] ==> x in merged;
      OthersAll(merged[1..], m);
    }
  }

  lemma SpreadTwice(m: Message)
    ensures Spread([m] + [m]) == m
  {
    assert ([m] + [m])[..1] == [m] && [m][..0] == [];
    assert Spread([m]) == map[] + m == m;
    assert Spread([m] + [m]) == m + m;
  }

  lemma DistinctTail(messages: seq<Message>)
    requires Distinct(messages) && messages != []
    ensures Distinct(messages[1..]) && forall x :: x in messages[1..] ==> !IsSame(messages[0], x)
  {
    assert forall i :: 0 <= i < |messages[1..]| ==> messages[1..][i] == messages[i + 1];
  }

  lemma {:induction false} AbsorbKnown(merged: seq<Message>, k: nat)
    requires Distinct(merged) && k < |merged| && Identified(merged[k])
    ensures Absorb(merged, merged[k]) == merged
  {
    hide IsSame, Identified, Spread;
    var m := merged[k];
    DistinctTail(merged);
    SameAsItself(m);
    if k == 0 {
      forall x | x in merged[1..] ensures !IsSame(x, m) { SameCommutes(x, m); }
      OthersAll(merged[1..], m);
      assert Matching(merged, m) == [m] + [] == [m];
      SpreadTwice(m);
      assert [m] + merged[1..] == merged;
    } else {
      assert m == merged[1..][k - 1];
      AbsorbKnown(merged[1..], k - 1);
    }
  }

  lemma SameAsItself(m: Message)
    ensures IsSame(m, m) <==> Identified(m)
  {
  }

  lemma SameCommutes(a: Message, b: Message)
    ensures IsSame(a, b) == IsSame(b, a)
  {
  }

  lemma CollapseAppend(messages: seq<Message>, m: Message)
    ensures Collapse(messages + [m]) == Absorb(Collapse(messages), m)
  {
    assert (messages + [m])[..|messages|] == messages;
  }

  lemma {:induction false} AnonymousOnesPileUp(messages: seq<Message>, k: nat)
    requires Distinct(messages) && k <= |messages|
    ensures var c := Collapse(messages + messages[..k]);
            |messages| <= |c| && c[..|messages|] == messages
            && (forall x :: x in c[|messages|..] ==> !Identified(x))
            && (|c| == |messages| <==> forall x :: x in messages[..k] ==> Identified(x))
  {
    hide Distinct, Identified, Absorb;
    if k == 0 {
      DistinctStays(messages);
      assert messages + messages[..0] == messages;
    } else {
      var m, before := messages[k - 1], messages + messages[..k - 1];
      assert messages[..k] == messages[..k - 1] + [m];
      AnonymousOnesPileUp(messages, k - 1);
      CollapseAppend(before, m);
      assert messages + messages[..k] == before + [m];
      AbsorbAgain(messages, Collapse(before), k - 1);
    }
  }

  // An entry already in the list meets only itself there, and a nameless one meets nothing.
  lemma AbsorbAgain(messages: seq<Message>, c: seq<Message>, k: nat)
    requires Distinct(messages) && k < |messages| && |messages| <= |c| && c[..|messages|] == messages
    requires forall x :: x in c[|messages|..] ==> !Identified(x)
    ensures Absorb(c, messages[k]) == if Identified(messages[k]) then c else c + [messages[k]]
  {
    hide Identified, IsSame;
    CollapseIsDistinctPrefix(messages, c);
    assert messages[k] == c[k];
    if Identified(messages[k]) {
      AbsorbKnown(c, k);
    } else {
      forall i | 0 <= i < |c| ensures !IsSame(c[i], messages[k]) { NamelessDiffers(messages[k], c[i]); }
      AbsorbAppends(c, messages[k]);
    }
  }

  lemma NamelessDiffers(m: Message, x: Message)
    requires !Identified(m)
    ensures !IsSame(x, m) && !IsSame(m, x)
  {
  }

  lemma CollapseIsDistinctPrefix(messages: seq<Message>, c: seq<Message>)
    requires Distinct(messages) && |messages| <= |c| && c[..|messages|] == messages
    requires forall x :: x in c[|messages|..] ==> !Identified(x)
    ensures Distinct(c)
  {
    hide Identified, IsSame;
    forall i, j | 0 <= i < j < |c|
      ensures !IsSame(c[i], c[j])
    {
      if j < |messages| {
        assert c[i] == messages[i] && c[j] == messages[j];
      } else {
        assert c[j] == c[|messages|..][j - |messages|];
        NamelessDiffers(c[j], c[i]);
      }
    }
  }

  // Merging a clean list with itself collapses back to it exactly when every entry has an identifier;
  // nameless entries are doubled.
  lemma SelfMergeIsCleanIff(messages: seq<Message>)
    requires Distinct(messages)
    ensures Collapse(messages + messages) == messages <==> forall x :: x in messages ==> Identified(x)
  {
    AnonymousOnesPileUp(messages, |messages|);
    assert messages[..|messages|] == messages;
    var c := Collapse(messages + messages);
    if |c| == |messages| {
      assert c[..|messages|] == c;
    }
  }

  // ---------------------------------------------------------------- fresher fields

  predicate Carries(entry: Message, m: Message) {
    forall p :: p in m ==> p in entry && entry[p] == m[p]
  }

  predicate SomeCarries(messages: seq<Message>, m: Message) {
    exists k :: 0 <= k < |messages| && Carries(messages[k], m)
  }

  lemma LastCarries(parts: seq<Message>, m: Message)
    ensures Carries(Spread(parts + [m]), m)
  {
    assert (parts + [m])[..|parts|] == parts;
  }

  lemma {:induction false} AbsorbCarries(merged: seq<Message>, m: Message)
    ensures SomeCarries(Absorb(merged, m), m)
  {
    hide Carries, Spread, IsSame, Matching, Others;
    if merged == [] {
      assert Carries(Absorb(merged, m)[0], m) by { CarriesItself(m); }
    } else if IsSame(merged[0], m) {
      LastCarries(Matching(merged, m), m);
      assert Carries(Absorb(merged, m)[0], m);
    } else {
      AbsorbCarries(merged[1..], m);
      var k :| 0 <= k < |Absorb(merged[1..], m)| && Carries(Absorb(merged[1..], m)[k], m);
      assert Absorb(merged, m)[k + 1] == Absorb(merged[1..], m)[k];
    }
  }

  lemma CarriesItself(m: Message)
    ensures Carries(m, m)
  {
  }

  // The message put in last is in the list with all its properties, unless it is too old to be kept.
  lemma UpsertedIsPresent(rank: Collation, messages: seq<Message>, m: Message)
    ensures exists e :: e in Sort(rank, Collapse(messages + [m])) && Carries(e, m)
  {
    CollapseAppend(messages, m);
    AbsorbCarries(Collapse(messages), m);
    var c := Collapse(messages + [m]);
    var k :| 0 <= k < |c| && Carries(c[k], m);
    SortSorts(rank, c);
    assert c[k] in multiset(c);
    assert c[k] in Sort(rank, c);
  }

  // An entry the merge keeps under another id no longer answers to the id it had before: a further
  // copy under that id is then taken for a new message.
  lemma ReplacedIdIsForgotten(first: Message, renamed: Message, replaced: Message)
    requires IsSame(first, renamed) && IsSame(renamed, replaced) && !IsSame(replaced, first)
    requires first + renamed == renamed && renamed + replaced == replaced
    ensures Collapse([first, renamed, replaced, first]) == [replaced, first]
  {
    hide IsSame, Absorb, Spread;
    CollapseAppend([], first);
    StartsEmpty(first);
    assert [] + [first] == [first];
    OneEntry(first, renamed);
    CollapseAppend([first], renamed);
    assert [first] + [renamed] == [first, renamed];
    OneEntry(renamed, replaced);
    CollapseAppend([first, renamed], replaced);
    assert [first, renamed] + [replaced] == [first, renamed, replaced];
    CollapseAppend([first, renamed, replaced], first);
    AbsorbAppends([replaced], first);
    assert [first, renamed, replaced] + [first] == [first, renamed, replaced, first];
  }

  // So with a temporary id that arrives after the real one.
  lemma TemporaryIdForgets()
    ensures var first: Message := map["id" := Text("7")];
            var renamed: Message := map["id" := Text("7"), "client_message_id" := Text("c")];
            var temporary: Message := map["id" := Text("temp_1"), "client_message_id" := Text("c")];
            Collapse([first, renamed, temporary, first]) == [temporary, first]
  {
    hide Collapse;
    var first: Message := map["id" := Text("7")];
    var renamed: Message := map["id" := Text("7"), "client_message_id" := Text("c")];
    var temporary: Message := map["id" := Text("temp_1"), "client_message_id" := Text("c")];
    assert Temporary("temp_1");
    assert first + renamed == renamed && renamed + temporary == temporary;
    ReplacedIdIsForgotten(first, renamed, temporary);
  }

  lemma StartsEmpty(m: Message)
    ensures Absorb(Collapse([]), m) == [m]
  {
  }

  lemma OneEntry(a: Message, b: Message)
    requires IsSame(a, b)
    ensures Absorb([a], b) == [a + b]
  {
    assert Matching([a], b) == [a];
    assert ([a] + [b])[..1] == [a] && [a][..0] == [];
    assert Spread([a]) == map[] + a == a;
    assert Spread([a] + [b]) == a + b;
  }
}
