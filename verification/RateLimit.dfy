// The fixed-window request limiter: which requests it admits, over every trace of requests.
module RateLimit {
  import opened Options

  const WINDOW: nat := 60
  const MAX: nat := 100

  // A token's window: when it began, and the requests admitted since.
  datatype Window = Window(start: int, count: nat)

  type Windows = map<string, Window>

  // A request at a time, under a token or without one.
  datatype Request = Request(token: Option<string>, time: int)

  function Current(windows: Windows, token: string, now: int): Window {
    if token !in windows || now - windows[token].start >= WINDOW then Window(now, 0) else windows[token]
  }

  function Decide(windows: Windows, r: Request): (Windows, bool) {
    if r.token.None? then (windows, true)
    else
      var w := Current(windows, r.token.value, r.time);
      if w.count >= MAX then (windows[r.token.value := w], false)
      else (windows[r.token.value := w.(count := w.count + 1)], true)
  }

  // The limiter as it works, on one shared map.
  class RateLimiter {
    var windows: Windows

    constructor ()
      ensures windows == map[]
    {
      windows := map[];
    }

    method RestRateLimit(r: Request) returns (admitted: bool)
      modifies this
      ensures (windows, admitted) == Decide(old(windows), r)
    {
      if r.token.None? {
        return true;
      }
      var token := r.token.value;
      if token !in windows {
        windows := windows[token := Window(r.time, 0)];
      }
      if r.time - windows[token].start >= WINDOW {
        windows := windows[token := Window(r.time, 0)];
      }
      if windows[token].count >= MAX {
        assert windows == Decide(old(windows), r).0;
        return false;
      }
      windows := windows[token := windows[token].(count := windows[token].count + 1)];
      assert windows == Decide(old(windows), r).0;
      return true;
    }
  }

  // ---------------------------------------------------------------- traces

  function After(trace: seq<Request>): Windows {
    if trace == [] then map[] else Decide(After(trace[..|trace| - 1]), trace[|trace| - 1]).0
  }

  // An admitted request of a token, with the start of the window that admitted it.
  datatype Entry = Entry(window: int, time: int)

  function Admitted(trace: seq<Request>, token: string): seq<Entry> {
    if trace == [] then []
    else
      var before, r := trace[..|trace| - 1], trace[|trace| - 1];
      var rest := Admitted(before, token);
      if r.token == Some(token) && Decide(After(before), r).1
      then rest + [Entry(Current(After(before), token, r.time).start, r.time)] else rest
  }

  predicate Monotone(trace: seq<Request>) {
    forall i, j :: 0 <= i < j < |trace| ==> trace[i].time <= trace[j].time
  }

  // Requests admitted in the half-open interval of one window's length from a.
  function CountFrom(log: seq<Entry>, a: int): nat {
    if log == [] then 0
    else
      var e := log[|log| - 1];
      CountFrom(log[..|log| - 1], a) + (if a <= e.time < a + WINDOW then 1 else 0)
  }

  function CountWindow(log: seq<Entry>, start: int): nat {
    if log == [] then 0
    else CountWindow(log[..|log| - 1], start) + (if log[|log| - 1].window == start then 1 else 0)
  }

  // ---------------------------------------------------------------- the invariant

  // Windows follow one another at least a window's length apart, and admit what they count.
  ghost predicate Spaced(log: seq<Entry>) {
    && (forall k :: 0 <= k < |log| ==> log[k].window <= log[k].time < log[k].window + WINDOW)
    && (forall i, j :: 0 <= i < j < |log| ==> log[i].window == log[j].window || log[i].window + WINDOW <= log[j].window)
  }

  ghost predicate Accounted(windows: Windows, log: seq<Entry>, token: string) {
    && Spaced(log)
    && (forall w :: CountWindow(log, w) <= MAX)
    && (token !in windows ==> log == [])
    && (token in windows ==>
          && CountWindow(log, windows[token].start) == windows[token].count
          && (forall k :: 0 <= k < |log| ==> log[k].window == windows[token].start || log[k].window + WINDOW <= windows[token].start))
  }

  lemma CountWindowAppends(log: seq<Entry>, e: Entry, w: int)
    ensures CountWindow(log + [e], w) == CountWindow(log, w) + if e.window == w then 1 else 0
  {
    assert (log + [e])[..|log|] == log;
  }

  lemma {:induction false} NoneOfWindow(log: seq<Entry>, w: int)
    requires forall k :: 0 <= k < |log| ==> log[k].window != w
    ensures CountWindow(log, w) == 0
  {
    if log == [] {
    } else {
      NoneOfWindow(log[..|log| - 1], w);
    }
  }

  // The window in force is the recorded one, or a new one that nothing was admitted in yet.
  lemma CurrentIsAccounted(windows: Windows, log: seq<Entry>, token: string, now: int)
    requires Accounted(windows, log, token) && (token in windows ==> windows[token].start <= now)
    ensures var w := Current(windows, token, now);
            && CountWindow(log, w.start) == w.count && w.start <= now < w.start + WINDOW
            && (forall k :: 0 <= k < |log| ==> log[k].window == w.start || log[k].window + WINDOW <= w.start)
  {
    var w := Current(windows, token, now);
    if token !in windows || w != windows[token] {
      NoneOfWindow(log, w.start);
    }
  }

  lemma DecideKeepsAccount(windows: Windows, log: seq<Entry>, token: string, r: Request)
    requires Accounted(windows, log, token) && r.token == Some(token)
    requires token in windows ==> windows[token].start <= r.time
    ensures var (after, admitted) := Decide(windows, r);
            Accounted(after, if admitted then log + [Entry(Current(windows, token, r.time).start, r.time)] else log, token)
  {
    var w := Current(windows, token, r.time);
    CurrentIsAccounted(windows, log, token, r.time);
    if w.count < MAX {
      AdmissionIsAccounted(windows[token := w], log, token, r.time);
    }
  }

  lemma AdmissionIsAccounted(windows: Windows, log: seq<Entry>, token: string, now: int)
    requires Accounted(windows, log, token) && token in windows && windows[token].count < MAX
    requires windows[token].start <= now < windows[token].start + WINDOW
    ensures var w := windows[token];
            Accounted(windows[token := w.(count := w.count + 1)], log + [Entry(w.start, now)], token)
  {
    var e := Entry(windows[token].start, now);
    forall x ensures CountWindow(log + [e], x) == CountWindow(log, x) + if e.window == x then 1 else 0 {
      CountWindowAppends(log, e, x);
    }
  }

  lemma {:induction false} TraceIsAccounted(trace: seq<Request>, token: string)
    requires Monotone(trace)
    ensures Accounted(After(trace), Admitted(trace, token), token)
    ensures token in After(trace) ==> trace != [] && After(trace)[token].start <= trace[|trace| - 1].time
  {
    if trace != [] {
      hide Accounted;
      var before, r := trace[..|trace| - 1], trace[|trace| - 1];
      TraceIsAccounted(before, token);
      assert before != [] ==> before[|before| - 1].time <= r.time;
      if r.token == Some(token) {
        DecideKeepsAccount(After(before), Admitted(before, token), token, r);
      } else {
        OtherTokens(After(before), Admitted(before, token), token, r);
      }
    } else {
      assert Accounted(map[], [], token);
    }
  }

  lemma OtherTokens(windows: Windows, log: seq<Entry>, token: string, r: Request)
    requires Accounted(windows, log, token) && r.token != Some(token)
    ensures Accounted(Decide(windows, r).0, log, token)
  {
  }

  // ---------------------------------------------------------------- the bounds

  // Entries in the interval that all belong to one of two windows are no more than those of the two.
  lemma {:induction false} AtMostTwoWindows(log: seq<Entry>, a: int, v: int, w: int)
    requires forall k :: 0 <= k < |log| && a <= log[k].time < a + WINDOW ==> log[k].window == v || log[k].window == w
    ensures CountFrom(log, a) <= CountWindow(log, v) + CountWindow(log, w)
  {
    if log == [] {
    } else {
      AtMostTwoWindows(log[..|log| - 1], a, v, w);
    }
  }

  predicate Within(log: seq<Entry>, a: int, k: nat) {
    k < |log| && a <= log[k].time < a + WINDOW
  }

  predicate OnlyWindows(log: seq<Entry>, a: int, v: int, w: int) {
    forall k :: 0 <= k < |log| && a <= log[k].time < a + WINDOW ==> log[k].window == v || log[k].window == w
  }

  // An interval as long as a window meets at most two windows.
  lemma IntervalMeetsTwoWindows(log: seq<Entry>, a: int) returns (v: int, w: int)
    requires Spaced(log)
    ensures OnlyWindows(log, a, v, w)
  {
    v, w := 0, 0;
    if i: nat :| Within(log, a, i) {
      v, w := log[i].window, log[i].window;
      if j: nat :| j < |log| && a <= log[j].time < a + WINDOW && log[j].window != v {
        w := log[j].window;
      }
    } else {
      forall k: nat | k < |log| ensures !(a <= log[k].time < a + WINDOW) { assert !Within(log, a, k); }
    }
  }

  // Under a clock that never runs back, every 60 second interval admits at most 200 requests of a
  // token and every window of the limiter at most 100, whatever the requests.
  lemma AdmissionsAreBounded(trace: seq<Request>, token: string, a: int)
    requires Monotone(trace)
    ensures CountFrom(Admitted(trace, token), a) <= 2 * MAX
    ensures forall w :: CountWindow(Admitted(trace, token), w) <= MAX
  {
    var log := Admitted(trace, token);
    TraceIsAccounted(trace, token);
    var v, w := IntervalMeetsTwoWindows(log, a);
    AtMostTwoWindows(log, a, v, w);
  }

  // ---------------------------------------------------------------- who is refused

  // When a token's current window began: with its first request, and again with each request that comes
  // 60 seconds after the last beginning or later.
  function Began(trace: seq<Request>, token: string): Option<int> {
    if trace == [] then None
    else
      var before, r := Began(trace[..|trace| - 1], token), trace[|trace| - 1];
      if r.token == Some(token) && (before == None || r.time >= before.value + 60) then Some(r.time) else before
  }

  lemma {:induction false} BeganIsRecorded(trace: seq<Request>, token: string)
    ensures Began(trace, token) == if token in After(trace) then Some(After(trace)[token].start) else None
  {
    if trace == [] {
    } else {
      BeganIsRecorded(trace[..|trace| - 1], token);
    }
  }

  // What a window admitted is what was admitted since it began.
  lemma {:induction false} LatestWindowCounts(log: seq<Entry>, start: int)
    requires forall k :: 0 <= k < |log| ==> log[k].window <= log[k].time < log[k].window + WINDOW
    requires forall k :: 0 <= k < |log| ==> log[k].window == start || log[k].window + WINDOW <= start
    ensures CountFrom(log, start) == CountWindow(log, start)
  {
    if log == [] {
    } else {
      LatestWindowCounts(log[..|log| - 1], start);
    }
  }

  // A request is refused exactly when its token's window began less than 60 seconds ago and has admitted
  // 100 requests since; one without a token never is.
  lemma RefusedIff(trace: seq<Request>, r: Request)
    requires Monotone(trace + [r])
    ensures !Decide(After(trace), r).1 <==>
              && r.token.Some?
              && (var begin := Began(trace, r.token.value);
                  && begin.Some? && r.time < begin.value + 60
                  && CountFrom(Admitted(trace, r.token.value), begin.value) == 100)
  {
    if r.token.Some? {
      var token := r.token.value;
      assert forall k :: 0 <= k < |trace| ==> (trace + [r])[k] == trace[k];
      TraceIsAccounted(trace, token);
      BeganIsRecorded(trace, token);
      if token in After(trace) {
        LatestWindowCounts(Admitted(trace, token), After(trace)[token].start);
      }
    }
  }
}
