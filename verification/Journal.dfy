// The daemon's journal: an append-only log that numbers the events of each run, and what a restart
// recovers from it.
module Journal {
  import opened Options

  datatype Kind = RunCreated | RunCancelled | RunCompleted | RunFailed | OtherEvent

  datatype Row = Row(run: string, kind: Kind, sequence: nat)

  datatype RunState = Queued | Cancelled | Completed | Failed

  // A run as the log tells it.
  datatype RunSummary = RunSummary(state: RunState, lastSequence: nat)

  function Last(sequence: map<string, nat>, run: string): nat {
    if run in sequence then sequence[run] else 0
  }

  // The highest number of a run in the log.
  function Highest(log: seq<Row>, run: string): nat {
    if log == [] then 0
    else
      var before, row := Highest(log[..|log| - 1], run), log[|log| - 1];
      if row.run == run && row.sequence > before then row.sequence else before
  }

  // The rows of a run behind a number.
  function EventsAfter(log: seq<Row>, run: string, after: nat): seq<Row> {
    if log == [] then []
    else
      var rest, row := EventsAfter(log[..|log| - 1], run, after), log[|log| - 1];
      if row.run == run && row.sequence > after then rest + [row] else rest
  }

  function Fold(summary: Option<RunSummary>, row: Row): Option<RunSummary> {
    if row.kind == RunCreated then Some(RunSummary(Queued, row.sequence))
    else
      match summary
      case None => None
      case Some(s) =>
        var state := match row.kind
          case RunCancelled => Cancelled
          case RunCompleted => Completed
          case RunFailed => Failed
          case _ => s.state;
        Some(RunSummary(state, row.sequence))
  }

  function Summary(log: seq<Row>, run: string): Option<RunSummary> {
    if log == [] then None
    else
      var before, row := Summary(log[..|log| - 1], run), log[|log| - 1];
      if row.run == run then Fold(before, row) else before
  }

  // ---------------------------------------------------------------- the journal as it works

  class JournalFile {
    var log: seq<Row>
    var sequence: map<string, nat>

    // Opens a journal over what is on disk.
    constructor (onDisk: seq<Row>)
      ensures log == onDisk
      ensures forall run :: Last(sequence, run) == Highest(log, run)
    {
      log, sequence := onDisk, map[];
      new;
      for i := 0 to |onDisk|
        invariant log == onDisk
        invariant forall run :: Last(sequence, run) == Highest(onDisk[..i], run)
      {
        var row := onDisk[i];
        assert onDisk[..i + 1][..i] == onDisk[..i];
        var highest := if Last(sequence, row.run) > row.sequence then Last(sequence, row.run) else row.sequence;
        sequence := sequence[row.run := highest];
      }
      assert onDisk[..|onDisk|] == onDisk;
    }

    // Numbers the row, unless it comes with a number, and writes it behind the log.
    method Append(run: string, kind: Kind, given: Option<nat>) returns (row: Row)
      modifies this
      ensures row == Row(run, kind, if given.Some? then given.value else Last(old(sequence), run) + 1)
      ensures log == old(log) + [row] && sequence == old(sequence)[run := row.sequence]
    {
      var number := if given.Some? then given.value else Last(sequence, run) + 1;
      row := Row(run, kind, number);
      log := log + [row];
      sequence := sequence[run := number];
    }

    method Events(run: string, after: nat) returns (rows: seq<Row>)
      ensures rows == EventsAfter(log, run, after)
    {
      rows := [];
      for i := 0 to |log|
        invariant rows == EventsAfter(log[..i], run, after)
      {
        assert log[..i + 1][..i] == log[..i];
        if log[i].run == run && log[i].sequence > after {
          rows := rows + [log[i]];
        }
      }
      assert log[..|log|] == log;
    }

    // The runs in the log with their states.
    method Runs() returns (runs: map<string, RunSummary>)
      ensures forall run :: (run in runs <==> Summary(log, run).Some?) && (run in runs ==> Summary(log, run) == Some(runs[run]))
    {
      runs := map[];
      for i := 0 to |log|
        invariant forall run :: (run in runs <==> Summary(log[..i], run).Some?) &&
                                (run in runs ==> Summary(log[..i], run) == Some(runs[run]))
      {
        var row := log[i];
        assert log[..i + 1][..i] == log[..i];
        var next := Fold(if row.run in runs then Some(runs[row.run]) else None, row);
        if next.Some? {
          runs := runs[row.run := next.value];
        }
      }
      assert log[..|log|] == log;
    }
  }

  // ---------------------------------------------------------------- what a restart changes

  // One append: the caller's number, or none.
  datatype Write = Write(run: string, kind: Kind, given: Option<nat>)

  datatype State = State(log: seq<Row>, sequence: map<string, nat>)

  function Written(s: State, w: Write): State {
    var row := Row(w.run, w.kind, if w.given.Some? then w.given.value else Last(s.sequence, w.run) + 1);
    State(s.log + [row], s.sequence[w.run := row.sequence])
  }

  function After(writes: seq<Write>): State {
    if writes == [] then State([], map[]) else Written(After(writes[..|writes| - 1]), writes[|writes| - 1])
  }

  // A restart reads the counters back from the log.
  ghost predicate RestartInvisible(s: State) {
    forall run :: Last(s.sequence, run) == Highest(s.log, run)
  }

  lemma HighestAppends(log: seq<Row>, row: Row, run: string)
    ensures Highest(log + [row], run) ==
            if row.run == run && row.sequence > Highest(log, run) then row.sequence else Highest(log, run)
  {
    assert (log + [row])[..|log|] == log;
  }

  // A write keeps restarts invisible exactly when it does not number a row below the run's highest.
  lemma RestartStaysInvisibleIff(s: State, w: Write)
    requires RestartInvisible(s)
    ensures RestartInvisible(Written(s, w)) <==> (w.given.Some? ==> w.given.value >= Last(s.sequence, w.run))
  {
    var s' := Written(s, w);
    var row := s'.log[|s.log|];
    forall run
      ensures Highest(s'.log, run) == if row.run == run && row.sequence > Highest(s.log, run) then row.sequence else Highest(s.log, run)
      ensures Last(s'.sequence, run) == if run == w.run then row.sequence else Last(s.sequence, run)
    {
      HighestAppends(s.log, row, run);
    }
    assert Last(s'.sequence, w.run) == row.sequence;
  }

  predicate Automatic(writes: seq<Write>) {
    forall k :: 0 <= k < |writes| ==> writes[k].given == None
  }

  predicate Numbered(rows: seq<Row>) {
    forall k :: 0 <= k < |rows| ==> rows[k].sequence == k + 1
  }

  lemma EventsAppend(log: seq<Row>, row: Row, run: string)
    ensures EventsAfter(log + [row], run, 0) == EventsAfter(log, run, 0) + if row.run == run && row.sequence > 0 then [row] else []
  {
    assert (log + [row])[..|log|] == log;
  }

  // With the daemon's own numbering, which never gives a number, the rows of every run are numbered
  // 1, 2, 3 and so on, and a restart at any moment changes nothing about the numbers that follow.
  lemma {:induction false} AutomaticNumbering(writes: seq<Write>, run: string)
    requires Automatic(writes)
    ensures var s := After(writes);
            && RestartInvisible(s)
            && Numbered(EventsAfter(s.log, run, 0)) && |EventsAfter(s.log, run, 0)| == Last(s.sequence, run)
  {
    if writes == [] {
    } else {
      var before, w := writes[..|writes| - 1], writes[|writes| - 1];
      AutomaticNumbering(before, run);
      RestartStaysInvisibleIff(After(before), w);
      EventsAppend(After(before).log, After(writes).log[|After(before).log|], run);
    }
  }

  lemma {:induction false} EventsCut(log: seq<Row>, run: string, n: nat)
    requires Numbered(EventsAfter(log, run, 0))
    ensures EventsAfter(log, run, n) == EventsAfter(log, run, 0)[if n < |EventsAfter(log, run, 0)| then n else |EventsAfter(log, run, 0)|..]
  {
    if log == [] {
    } else {
      var front, row := log[..|log| - 1], log[|log| - 1];
      var all, older := EventsAfter(log, run, 0), EventsAfter(front, run, 0);
      assert forall k :: 0 <= k < |older| ==> older[k] == all[k];
      EventsCut(front, run, n);
      if row.run == run && row.sequence > 0 {
        assert all[|older|] == row;
      }
    }
  }

  // Asking for what follows an acknowledged number returns exactly the rows not acknowledged yet.
  lemma ResumeReturnsTheRest(writes: seq<Write>, run: string, acknowledged: nat)
    requires Automatic(writes) && acknowledged <= |EventsAfter(After(writes).log, run, 0)|
    ensures var log := After(writes).log; EventsAfter(log, run, acknowledged) == EventsAfter(log, run, 0)[acknowledged..]
  {
    AutomaticNumbering(writes, run);
    EventsCut(After(writes).log, run, acknowledged);
  }

  // ---------------------------------------------------------------- what the log tells of a run

  // The last row of the run that says something about its state: its creation or an ending.
  predicate Decides(log: seq<Row>, run: string, k: nat) {
    && k < |log| && log[k].run == run && log[k].kind != OtherEvent
    && forall j :: k < j < |log| && log[j].run == run ==> log[j].kind == OtherEvent
  }

  predicate IsLastRow(log: seq<Row>, run: string, k: nat) {
    k < |log| && log[k].run == run && forall j :: k < j < |log| ==> log[j].run != run
  }

  // A run is listed exactly when its creation is in the log. The last creation or ending of it decides
  // its state, whatever it did before, and its last row the number.
  lemma {:induction false} SummaryIsLatest(log: seq<Row>, run: string)
    ensures Summary(log, run).Some? <==> exists k :: 0 <= k < |log| && log[k].run == run && log[k].kind == RunCreated
    ensures forall k: nat :: Summary(log, run).Some? && Decides(log, run, k) ==>
                          (match log[k].kind
                           case RunCreated => Summary(log, run).value.state == Queued
                           case RunCancelled => Summary(log, run).value.state == Cancelled
                           case RunCompleted => Summary(log, run).value.state == Completed
                           case RunFailed => Summary(log, run).value.state == Failed
                           case OtherEvent => false)
    ensures Summary(log, run).Some? ==> exists k: nat :: Decides(log, run, k)
    ensures forall k: nat :: Summary(log, run).Some? && IsLastRow(log, run, k) ==> Summary(log, run).value.lastSequence == log[k].sequence
  {
    if log == [] {
    } else {
      var n := |log| - 1;
      var front, row := log[..n], log[n];
      SummaryIsLatest(front, run);
      assert forall k :: 0 <= k < n ==> front[k] == log[k];
      assert log[n] == row;
      forall k: nat | k < n
        ensures Decides(log, run, k) <==> Decides(front, run, k) && (row.run == run ==> row.kind == OtherEvent)
        ensures IsLastRow(log, run, k) <==> IsLastRow(front, run, k) && row.run != run
      {
      }
      if row.run == run && row.kind != OtherEvent {
        assert Decides(log, run, n);
      }
    }
  }
}
