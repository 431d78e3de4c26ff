// Saving and paging chat messages in one ordered table of packed keys.
module Pagination {
  import opened Options
  import opened PackedKeys

  // A stored message: its conversation, its number there, and its encrypted content.
  datatype Row = Row(conv: nat, id: nat, content: string)

  // The sequence table and the message table of private chats, or those of groups.
  datatype Db = Db(seqs: map<nat, nat>, msgs: map<nat, Row>)

  datatype Sent = Sent(conv: nat, content: string)

  function Save(db: Db, conv: nat, content: string): Db {
    var q := (if conv in db.seqs then db.seqs[conv] else 0) + 1;
    Db(db.seqs[conv := q], db.msgs[MessageKey(conv, q) := Row(conv, q, content)])
  }

  function After(history: seq<Sent>): Db {
    if history == [] then Db(map[], map[])
    else Save(After(history[..|history| - 1]), history[|history| - 1].conv, history[|history| - 1].content)
  }

  // What was sent in one conversation, numbered in the order it was sent.
  function Rows(history: seq<Sent>, conv: nat): seq<Row> {
    if history == [] then []
    else
      var rest, last := Rows(history[..|history| - 1], conv), history[|history| - 1];
      if last.conv == conv then rest + [Row(conv, |rest| + 1, last.content)] else rest
  }

  // ---------------------------------------------------------------- range scans

  // The rows with keys from lo up to, but not including, hi, in key order.
  function Scan(msgs: map<nat, Row>, lo: nat, hi: nat): seq<Row>
    decreases hi
  {
    if hi <= lo then []
    else Scan(msgs, lo, hi - 1) + (if hi - 1 in msgs then [msgs[hi - 1]] else [])
  }

  // How many of n rows a page keeps: the loop pushes first and then compares with the limit, and a
  // negative limit is a huge one.
  function Kept(limit: int, n: nat): nat {
    if limit < 0 || n == 0 then n
    else if limit == 0 then 1
    else if n < limit then n else limit
  }

  function FirstOf(rows: seq<Row>, limit: int): seq<Row> {
    rows[..Kept(limit, |rows|)]
  }

  function LastOf(rows: seq<Row>, limit: int): seq<Row> {
    rows[|rows| - Kept(limit, |rows|)..]
  }

  function Page(db: Db, conv: nat, limit: int, before: Option<nat>, after: Option<nat>): seq<Row> {
    if before.Some? then LastOf(Scan(db.msgs, MessageKey(conv, 1), MessageKey(conv, before.value)), limit)
    else if after.Some? then FirstOf(Scan(db.msgs, MessageKey(conv, after.value + 1), ScanEnd(conv) + 1), limit)
    else LastOf(Scan(db.msgs, MessageKey(conv, 1), ScanEnd(conv) + 1), limit)
  }

  // ---------------------------------------------------------------- the tables as they work

  class MessageTable {
    var seqs: map<nat, nat>
    var msgs: map<nat, Row>

    function State(): Db
      reads this
    {
      Db(seqs, msgs)
    }

    constructor ()
      ensures State() == After([])
    {
      seqs, msgs := map[], map[];
    }

    method SaveMessage(conv: nat, content: string) returns (id: nat)
      modifies this
      ensures State() == Save(old(State()), conv, content)
      ensures id == seqs[conv] == (if conv in old(seqs) then old(seqs)[conv] else 0) + 1
    {
      id := 1;
      if conv in seqs {
        id := seqs[conv] + 1;
      }
      seqs := seqs[conv := id];
      msgs := msgs[MessageKey(conv, id) := Row(conv, id, content)];
    }

    method GetMessagesPaginated(conv: nat, limit: int, before: Option<nat>, after: Option<nat>) returns (page: seq<Row>)
      ensures page == Page(State(), conv, limit, before, after)
    {
      if before.Some? {
        var range := Scan(msgs, MessageKey(conv, 1), MessageKey(conv, before.value));
        page := CollectBackwards(range, limit);
        page := Reverse(page);
      } else if after.Some? {
        var range := Scan(msgs, MessageKey(conv, after.value + 1), ScanEnd(conv) + 1);
        page := Collect(range, limit);
      } else {
        var range := Scan(msgs, MessageKey(conv, 1), ScanEnd(conv) + 1);
        page := CollectBackwards(range, limit);
        page := Reverse(page);
      }
    }
  }

  function Reversed(rows: seq<Row>): (r: seq<Row>)
    ensures |r| == |rows| && forall k :: 0 <= k < |rows| ==> r[k] == rows[|rows| - 1 - k]
  {
    if rows == [] then [] else Reversed(rows[1..]) + [rows[0]]
  }

  // Pushes each row and stops once the limit is reached.
  method Collect(range: seq<Row>, limit: int) returns (rows: seq<Row>)
    ensures rows == FirstOf(range, limit)
  {
    rows := [];
    var i := 0;
    while i < |range|
      invariant 0 <= i <= |range| && rows == range[..i]
      invariant i > 0 && limit >= 0 ==> i < limit
    {
      rows := rows + [range[i]];
      i := i + 1;
      if limit >= 0 && |rows| >= limit {
        break;
      }
    }
  }

  method CollectBackwards(range: seq<Row>, limit: int) returns (rows: seq<Row>)
    ensures rows == Reversed(LastOf(range, limit))
  {
    rows := [];
    var i := |range|;
    while i > 0
      invariant 0 <= i <= |range| && |rows| == |range| - i
      invariant forall k :: 0 <= k < |rows| ==> rows[k] == range[|range| - 1 - k]
      invariant |rows| > 0 && limit >= 0 ==> |rows| < limit
    {
      i := i - 1;
      rows := rows + [range[i]];
      if limit >= 0 && |rows| >= limit {
        break;
      }
    }
    var n := |range| - i;
    assert Kept(limit, |range|) == n;
    assert LastOf(range, limit) == range[i..];
  }

  method Reverse(rows: seq<Row>) returns (r: seq<Row>)
    ensures r == Reversed(rows)
    ensures forall x :: rows == Reversed(x) ==> r == x
  {
    r := [];
    var i := 0;
    while i < |rows|
      invariant 0 <= i <= |rows| && |r| == i
      invariant forall k :: 0 <= k < i ==> r[k] == rows[i - 1 - k]
    {
      r := [rows[i]] + r;
      i := i + 1;
    }
  }

  // ---------------------------------------------------------------- what the tables hold

  // No conversation has 2^32 messages yet.
  ghost predicate Small(history: seq<Sent>) {
    IsWord(|history|)
  }

  ghost predicate Holds(db: Db, history: seq<Sent>) {
    && (forall c :: |Rows(history, c)| == if c in db.seqs then db.seqs[c] else 0)
    && (forall k: nat :: k in db.msgs <==> 1 <= Lower(k) <= |Rows(history, Upper(k))|)
    && (forall k :: k in db.msgs ==> db.msgs[k] == Rows(history, Upper(k))[Lower(k) - 1])
  }

  lemma {:induction false} RowsAreNumbered(history: seq<Sent>, conv: nat)
    ensures |Rows(history, conv)| <= |history|
    ensures forall k :: 0 <= k < |Rows(history, conv)| ==> Rows(history, conv)[k].id == k + 1 && Rows(history, conv)[k].conv == conv
  {
    if history == [] {
    } else {
      RowsAreNumbered(history[..|history| - 1], conv);
    }
  }

  lemma {:induction false} RowsAfter(history: seq<Sent>, s: Sent, conv: nat)
    ensures Rows(history + [s], conv) ==
            if s.conv == conv then Rows(history, conv) + [Row(conv, |Rows(history, conv)| + 1, s.content)] else Rows(history, conv)
  {
    assert (history + [s])[..|history|] == history;
  }

  lemma SaveKeepsHolds(db: Db, history: seq<Sent>, s: Sent)
    requires Holds(db, history) && IsWord(|history| + 1)
    ensures Holds(Save(db, s.conv, s.content), history + [s])
  {
    hide Rows, MessageKey, Upper, Lower;
    var after, db' := history + [s], Save(db, s.conv, s.content);
    RowsAreNumbered(history, s.conv);
    var q := |Rows(history, s.conv)| + 1;
    forall c: nat
      ensures |Rows(after, c)| == if c in db'.seqs then db'.seqs[c] else 0
    {
      RowsAfter(history, s, c);
    }
    forall k: nat
      ensures k in db'.msgs <==> 1 <= Lower(k) <= |Rows(after, Upper(k))|
      ensures k in db'.msgs ==> db'.msgs[k] == Rows(after, Upper(k))[Lower(k) - 1]
    {
      RowsAfter(history, s, Upper(k));
      KeyParts(s.conv, q);
      KeyOfParts(k);
    }
  }

  // The tables hold every message under its conversation and number, and nothing else: in each
  // conversation the messages are numbered 1 to n in the order they were sent.
  lemma {:induction false} TablesHoldWhatWasSent(history: seq<Sent>)
    requires Small(history)
    ensures Holds(After(history), history)
  {
    if history == [] {
    } else {
      TablesHoldWhatWasSent(history[..|history| - 1]);
      SaveKeepsHolds(After(history[..|history| - 1]), history[..|history| - 1], history[|history| - 1]);
      assert history[..|history| - 1] + [history[|history| - 1]] == history;
    }
  }

  // ---------------------------------------------------------------- scans of the tables

  lemma {:induction false} ScanSplits(msgs: map<nat, Row>, lo: nat, mid: nat, hi: nat)
    requires lo <= mid <= hi
    ensures Scan(msgs, lo, hi) == Scan(msgs, lo, mid) + Scan(msgs, mid, hi)
  {
    if mid == hi {
    } else {
      ScanSplits(msgs, lo, mid, hi - 1);
    }
  }

  lemma {:induction false} ScanOfNothing(msgs: map<nat, Row>, lo: nat, hi: nat)
    ensures Scan(msgs, lo, hi) == [] <==> forall k :: lo <= k < hi ==> k !in msgs
  {
    if hi <= lo {
    } else {
      ScanOfNothing(msgs, lo, hi - 1);
    }
  }

  lemma {:induction false} ScanFinds(msgs: map<nat, Row>, lo: nat, hi: nat)
    ensures forall r :: r in Scan(msgs, lo, hi) ==> exists k :: lo <= k < hi && k in msgs && msgs[k] == r
  {
    if hi <= lo {
    } else {
      ScanFinds(msgs, lo, hi - 1);
    }
  }

  // A scan inside one conversation reads its messages in order.
  lemma {:induction false} ScanOfOwn(db: Db, history: seq<Sent>, conv: nat, a: nat, b: nat)
    requires Holds(db, history) && 1 <= a <= b <= |Rows(history, conv)| + 1 <= 0x1_0000_0000
    ensures Scan(db.msgs, Shifted(conv) + a, Shifted(conv) + b) == Rows(history, conv)[a - 1..b - 1]
    decreases b
  {
    hide Holds, Rows;
    if a == b {
    } else {
      ScanOfOwn(db, history, conv, a, b - 1);
      OwnKey(conv, b - 1);
      HoldsKey(db, history, Shifted(conv) + b - 1);
      OneMore(Rows(history, conv), a - 1, b - 2);
    }
  }

  lemma OwnKey(conv: nat, q: nat)
    requires IsWord(q)
    ensures Upper(Shifted(conv) + q) == conv && Lower(Shifted(conv) + q) == q
  {
  }

  lemma OneMore(rows: seq<Row>, a: nat, b: nat)
    requires a <= b < |rows|
    ensures rows[a..b] + [rows[b]] == rows[a..b + 1]
  {
  }

  lemma HoldsKey(db: Db, history: seq<Sent>, k: nat)
    requires Holds(db, history)
    ensures k in db.msgs <==> 1 <= Lower(k) <= |Rows(history, Upper(k))|
    ensures k in db.msgs ==> db.msgs[k] == Rows(history, Upper(k))[Lower(k) - 1]
  {
  }

  // Behind the last message of a conversation there is nothing up to the next conversation.
  lemma NothingBehind(db: Db, history: seq<Sent>, conv: nat, a: nat, b: nat)
    requires Holds(db, history) && |Rows(history, conv)| < a <= b <= 0x1_0000_0000
    ensures Scan(db.msgs, Shifted(conv) + a, Shifted(conv) + b) == []
  {
    hide Holds, Rows;
    forall k | Shifted(conv) + a <= k < Shifted(conv) + b
      ensures k !in db.msgs
    {
      assert Upper(k) == conv && Lower(k) == k - Shifted(conv);
      HoldsKey(db, history, k);
    }
    ScanOfNothing(db.msgs, Shifted(conv) + a, Shifted(conv) + b);
  }

  // ---------------------------------------------------------------- pages before a message

  function Least(a: nat, b: nat): nat {
    if a < b then a else b
  }

  // The messages of a conversation before a given number.
  lemma ScanBefore(history: seq<Sent>, conv: nat, before: nat)
    requires Small(history) && IsWord(before)
    ensures var rows := Rows(history, conv);
            var m := if before == 0 then 0 else Least(before - 1, |rows|);
            Scan(After(history).msgs, MessageKey(conv, 1), MessageKey(conv, before)) == rows[..m]
  {
    hide Holds, Scan, Rows, After, MessageKey;
    TablesHoldWhatWasSent(history);
    RowsAreNumbered(history, conv);
    MessageKeyIsSum(conv, 1);
    MessageKeyIsSum(conv, before);
    var db, n := After(history), |Rows(history, conv)|;
    if before > 0 {
      var b := Least(before, n + 1);
      ScanSplits(db.msgs, Shifted(conv) + 1, Shifted(conv) + b, Shifted(conv) + before);
      ScanOfOwn(db, history, conv, 1, b);
      if b < before {
        NothingBehind(db, history, conv, b, before);
      }
    } else {
      NoRange(db.msgs, Shifted(conv) + 1, Shifted(conv));
    }
  }

  lemma NoRange(msgs: map<nat, Row>, lo: nat, hi: nat)
    requires hi <= lo
    ensures Scan(msgs, lo, hi) == []
  {
  }

  // What a limit allows: a limit of 0 counts as 1, a negative one as none at all.
  function Allowed(limit: int, available: nat): nat {
    if limit < 0 then available
    else if limit == 0 then Least(1, available)
    else Least(limit, available)
  }

  // A page before a message is exactly the last `limit` earlier messages of the conversation, oldest
  // first, whatever else the table holds.
  lemma PageBeforeIsExact(history: seq<Sent>, conv: nat, limit: int, before: nat)
    requires Small(history) && IsWord(before)
    ensures var rows := Rows(history, conv);
            var m := if before == 0 then 0 else Least(before - 1, |rows|);
            Page(After(history), conv, limit, Some(before), None) == rows[m - Allowed(limit, m)..m]
  {
    ScanBefore(history, conv, before);
  }

  // Paging back: a page before a number, then the page before its first message, and so on.
  ghost function WalkBack(db: Db, conv: nat, limit: int, before: nat): seq<Row>
    decreases before
  {
    var page := Page(db, conv, limit, Some(before), None);
    if page == [] || page[0].id >= before then page else WalkBack(db, conv, limit, page[0].id) + page
  }

  // Walking back page by page shows every earlier message exactly once, in order.
  lemma {:induction false} WalkBackVisitsAll(history: seq<Sent>, conv: nat, limit: int, before: nat)
    requires Small(history) && 1 <= before && IsWord(before)
    ensures WalkBack(After(history), conv, limit, before) == Rows(history, conv)[..Least(before - 1, |Rows(history, conv)|)]
    decreases before
  {
    hide Page, After, Rows, Small;
    var rows := Rows(history, conv);
    var m := Least(before - 1, |rows|);
    PageBeforeIsExact(history, conv, limit, before);
    RowsAreNumbered(history, conv);
    if m == 0 {
    } else {
      var first := m - Allowed(limit, m);
      assert rows[first..m][0] == rows[first];
      WalkBackVisitsAll(history, conv, limit, first + 1);
      JoinPages(rows, first, m);
    }
  }

  lemma JoinPages(rows: seq<Row>, a: nat, b: nat)
    requires a <= b <= |rows|
    ensures rows[..a] + rows[a..b] == rows[..b]
  {
  }

  // ---------------------------------------------------------------- the newest messages, and those after one

  // Another conversation of the same block, with a larger number, has messages.
  ghost predicate Strangers(history: seq<Sent>, conv: nat) {
    exists d :: conv < d && Upper(d) == Upper(conv) && Rows(history, d) != []
  }

  // What the open end of a scan reads beyond the conversation.
  function Beyond(db: Db, conv: nat): seq<Row> {
    Scan(db.msgs, Shifted(conv + 1), ScanEnd(conv) + 1)
  }

  lemma BlockEnd(conv: nat)
    ensures Shifted(conv + 1) <= ScanEnd(conv) + 1 == Shifted(Shifted(Upper(conv) + 1))
  {
    hide ScanEnd;
    ScanEndIsBlockEnd(conv);
  }

  // The keys behind a conversation, up to the end of its block, are those of the later conversations
  // of the block.
  lemma BlockOf(k: nat, conv: nat)
    ensures Shifted(conv + 1) <= k < Shifted(Shifted(Upper(conv) + 1)) <==> conv < Upper(k) && Upper(Upper(k)) == Upper(conv)
  {
  }

  lemma StrangersAreRead(db: Db, history: seq<Sent>, conv: nat)
    requires Holds(db, history)
    ensures Beyond(db, conv) != [] <==> Strangers(history, conv)
    ensures forall r :: r in Beyond(db, conv) ==> r.conv != conv
  {
    hide Holds, Rows, Shifted, Upper, Lower, ScanEnd, Scan;
    BlockEnd(conv);
    var lo, hi := Shifted(conv + 1), ScanEnd(conv) + 1;
    ScanOfNothing(db.msgs, lo, hi);
    ScanFinds(db.msgs, lo, hi);
    forall k | lo <= k < hi && k in db.msgs
      ensures db.msgs[k].conv != conv && Strangers(history, conv)
    {
      BlockOf(k, conv);
      HoldsKey(db, history, k);
      RowsAreNumbered(history, Upper(k));
    }
    if Strangers(history, conv) {
      var d :| conv < d && Upper(d) == Upper(conv) && Rows(history, d) != [];
      var k := FirstKey(d);
      BlockOf(k, conv);
      HoldsKey(db, history, k);
      assert lo <= k < hi && k in db.msgs;
    }
  }

  lemma FirstKey(conv: nat) returns (k: nat)
    ensures Upper(k) == conv && Lower(k) == 1
  {
    k := Shifted(conv) + 1;
  }

  // A scan from inside the conversation to its open end reads the rest of it, then the strangers.
  lemma OpenScan(history: seq<Sent>, conv: nat, from: nat)
    requires Small(history) && 1 <= from && IsWord(from)
    ensures var rows := Rows(history, conv);
            Scan(After(history).msgs, MessageKey(conv, from), ScanEnd(conv) + 1) ==
            rows[Least(from - 1, |rows|)..] + Beyond(After(history), conv)
  {
    hide Holds, Scan, Rows, After, MessageKey, ScanEnd, Beyond;
    var db, rows := After(history), Rows(history, conv);
    TablesHoldWhatWasSent(history);
    RowsAreNumbered(history, conv);
    MessageKeyIsSum(conv, from);
    BlockEnd(conv);
    ScanSplits(db.msgs, Shifted(conv) + from, Shifted(conv + 1), ScanEnd(conv) + 1);
    OwnScan(db, history, conv, from);
    assert Scan(db.msgs, Shifted(conv + 1), ScanEnd(conv) + 1) == Beyond(db, conv) by { BeyondIsScan(db, conv); }
  }

  lemma BeyondIsScan(db: Db, conv: nat)
    ensures Beyond(db, conv) == Scan(db.msgs, Shifted(conv + 1), ScanEnd(conv) + 1)
  {
    hide Scan, ScanEnd, Shifted;
  }

  // Up to the next conversation it reads the rest of its own.
  lemma OwnScan(db: Db, history: seq<Sent>, conv: nat, from: nat)
    requires Holds(db, history) && |Rows(history, conv)| < 0x1_0000_0000 && 1 <= from && IsWord(from)
    ensures Scan(db.msgs, Shifted(conv) + from, Shifted(conv + 1)) == Rows(history, conv)[Least(from - 1, |Rows(history, conv)|)..]
  {
    hide Holds, Scan, Rows;
    var rows, n := Rows(history, conv), |Rows(history, conv)|;
    assert Shifted(conv + 1) == Shifted(conv) + 0x1_0000_0000;
    if from <= n + 1 {
      ScanSplits(db.msgs, Shifted(conv) + from, Shifted(conv) + n + 1, Shifted(conv + 1));
      ScanOfOwn(db, history, conv, from, n + 1);
      NothingBehind(db, history, conv, n + 1, 0x1_0000_0000);
      assert rows[from - 1..n] + [] == rows[from - 1..];
    } else {
      NothingBehind(db, history, conv, from, 0x1_0000_0000);
      assert rows[n..] == [];
    }
  }

  // The default page is the latest `limit` messages of the conversation exactly when no other
  // conversation of its block with a larger number has any message.
  lemma NewestPageIsExactIff(history: seq<Sent>, conv: nat, limit: int)
    requires Small(history)
    ensures var rows := Rows(history, conv);
            Page(After(history), conv, limit, None, None) == rows[|rows| - Allowed(limit, |rows|)..] <==> !Strangers(history, conv)
  {
    hide Holds, Scan, Rows, After, Beyond, Strangers;
    var db, rows := After(history), Rows(history, conv);
    OpenScan(history, conv, 1);
    TablesHoldWhatWasSent(history);
    StrangersAreRead(db, history, conv);
    RowsAreNumbered(history, conv);
    assert rows[0..] == rows;
    if Beyond(db, conv) != [] {
      LastStranger(rows, Beyond(db, conv), conv, limit);
    } else {
      assert rows + [] == rows;
    }
  }

  lemma LastStranger(rows: seq<Row>, beyond: seq<Row>, conv: nat, limit: int)
    requires (forall r :: r in rows ==> r.conv == conv) && (forall r :: r in beyond ==> r.conv != conv)
    requires beyond != []
    ensures LastOf(rows + beyond, limit) != LastOf(rows, limit)
  {
    var page, own := LastOf(rows + beyond, limit), LastOf(rows, limit);
    assert page[|page| - 1] == beyond[|beyond| - 1] && page[|page| - 1] in beyond;
    if own != [] {
      assert own[|own| - 1] == rows[|rows| - 1] && own[|own| - 1] in rows;
    }
  }

  // The page after a message is the next `limit` messages of the conversation exactly when there are
  // that many, or no stranger follows.
  lemma PageAfterIsExactIff(history: seq<Sent>, conv: nat, limit: int, after: nat)
    requires Small(history) && IsWord(after + 1)
    ensures var rows := Rows(history, conv);
            var newer := rows[Least(after, |rows|)..];
            Page(After(history), conv, limit, None, Some(after)) == newer[..Allowed(limit, |newer|)] <==>
              (0 <= limit <= |newer| && newer != []) || !Strangers(history, conv)
  {
    hide Holds, Scan, Rows, After, Beyond, Strangers;
    var db, rows := After(history), Rows(history, conv);
    var newer, beyond := rows[Least(after, |rows|)..], Beyond(db, conv);
    OpenScan(history, conv, after + 1);
    TablesHoldWhatWasSent(history);
    StrangersAreRead(db, history, conv);
    if 0 <= limit <= |newer| && newer != [] {
      var n := if limit == 0 then 1 else limit;
      assert (newer + beyond)[..n] == newer[..n];
    } else if beyond != [] {
      assert |FirstOf(newer + beyond, limit)| > |newer|;
    } else {
      assert newer + [] == newer;
    }
  }

  // ---------------------------------------------------------------- which conversations are strangers

  // For private chats: those of the smaller of the two users with a partner whose id is larger.
  lemma PrivateStrangers(a: nat, b: nat, c: nat, d: nat)
    requires a <= b && IsWord(b) && c <= d && IsWord(d)
    ensures var x, y := ConversationKey(a, b), ConversationKey(c, d);
            x < y && Upper(y) == Upper(x) <==> a == c && b < d
  {
    hide ConversationKey;
    ConversationKeyIsSum(a, b);
    ConversationKeyIsSum(c, d);
    OwnKey(a, b);
    OwnKey(c, d);
  }

  // For groups: every group with a larger id.
  lemma NewestGroupPageIsExactIff(history: seq<Sent>, group: nat, limit: int)
    requires Small(history) && IsWord(group) && forall k :: 0 <= k < |history| ==> IsWord(history[k].conv)
    ensures var rows := Rows(history, group);
            Page(After(history), group, limit, None, None) == rows[|rows| - Allowed(limit, |rows|)..] <==>
            !exists d: nat :: d > group && Rows(history, d) != []
  {
    hide Page, Allowed, Rows, Strangers;
    NewestPageIsExactIff(history, group, limit);
    GroupStrangers(history, group);
  }

  lemma GroupStrangers(history: seq<Sent>, group: nat)
    requires IsWord(group) && forall k :: 0 <= k < |history| ==> IsWord(history[k].conv)
    ensures Strangers(history, group) <==> exists d: nat :: d > group && Rows(history, d) != []
  {
    hide Rows;
    if d: nat :| d > group && Rows(history, d) != [] {
      RowsAreSent(history, d);
      assert Upper(d) == Upper(group);
    }
  }

  lemma {:induction false} RowsAreSent(history: seq<Sent>, conv: nat)
    requires Rows(history, conv) != []
    ensures exists k :: 0 <= k < |history| && history[k].conv == conv
  {
    if history[|history| - 1].conv == conv {
    } else {
      RowsAreSent(history[..|history| - 1], conv);
      var k :| 0 <= k < |history| - 1 && history[..|history| - 1][k].conv == conv;
      assert history[k].conv == conv;
    }
  }

  // So a private page can show another chat's message: 1 and 2 have written nothing, 3 wrote to 1.
  lemma PrivatePageCanShowAnotherChat()
    ensures var stranger := Sent(ConversationKey(1, 3), "from 3");
            Page(After([stranger]), ConversationKey(1, 2), 50, None, None) != [] &&
            Rows([stranger], ConversationKey(1, 2)) == []
  {
    var stranger := Sent(ConversationKey(1, 3), "from 3");
    ConversationKeyIsSum(1, 2);
    ConversationKeyIsSum(1, 3);
    var conv := ConversationKey(1, 2);
    assert Rows([stranger], conv) == Rows([], conv) == [] by { assert [stranger][..0] == []; }
    assert Rows([stranger], stranger.conv) == [Row(stranger.conv, 1, "from 3")] by { assert [stranger][..0] == []; }
    assert Strangers([stranger], conv) by { assert Upper(stranger.conv) == Upper(conv); }
    NewestPageIsExactIff([stranger], conv, 50);
  }
}
