/** Conflict detection (agent/conflict.go): a log of drift times per parameter that is pruned whenever it
    is asked about, standing in for the full history. */
module Conflict {
  import opened Common

  type Events = map<string, seq<int>>

  function Timestamps(events: Events, param: string): seq<int> {
    if param in events then events[param] else []
  }

  /** The timestamps among the first `n` that lie after the cutoff, in order. */
  function After(ts: seq<int>, n: nat, cutoff: int): (kept: seq<int>)
    requires n <= |ts|
    ensures |kept| <= n
  {
    if n == 0 then [] else After(ts, n - 1, cutoff) + if ts[n - 1] > cutoff then [ts[n - 1]] else []
  }

  function Recorded(events: Events, param: string, now: int): Events {
    events[param := Timestamps(events, param) + [now]]
  }

  function Pruned(events: Events, param: string, cutoff: int): Events {
    if param !in events then events
    else
      var valid := After(events[param], |events[param]|, cutoff);
      if |valid| > 0 then events[param := valid] else events - {param}
  }

  predicate Conflicting(events: Events, param: string, now: int, window: int, threshold: int) {
    param in events && |After(events[param], |events[param]|, now - window)| >= threshold
  }

  function Counted(events: Events, param: string, now: int, window: int): nat {
    |After(Timestamps(events, param), |Timestamps(events, param)|, now - window)|
  }

  // ----- filtering -----

  lemma {:induction false} AfterOfAppend(ts: seq<int>, x: int, n: nat, cutoff: int)
    requires n <= |ts|
    ensures After(ts + [x], n, cutoff) == After(ts, n, cutoff)
  {
    if n > 0 {
      AfterOfAppend(ts, x, n - 1, cutoff);
    }
  }

  lemma AfterGrows(ts: seq<int>, x: int, cutoff: int)
    ensures After(ts + [x], |ts| + 1, cutoff) == After(ts, |ts|, cutoff) + if x > cutoff then [x] else []
  {
    AfterOfAppend(ts, x, |ts|, cutoff);
  }

  /** Pruning twice is pruning once, by the later cutoff. */
  lemma {:induction false} AfterAfter(ts: seq<int>, n: nat, a: int, b: int)
    requires n <= |ts| && a <= b
    ensures After(After(ts, n, a), |After(ts, n, a)|, b) == After(ts, n, b)
  {
    if n > 0 {
      AfterAfter(ts, n - 1, a, b);
      if ts[n - 1] > a {
        AfterGrows(After(ts, n - 1, a), ts[n - 1], b);
      } else {
        assert After(ts, n, a) == After(ts, n - 1, a);
      }
    }
  }

  function Occurrences(ts: seq<int>, n: nat, x: int): nat
    requires n <= |ts|
  {
    if n == 0 then 0 else Occurrences(ts, n - 1, x) + if ts[n - 1] == x then 1 else 0
  }

  lemma {:induction false} OccurrencesOfAppend(ts: seq<int>, y: int, n: nat, x: int)
    requires n <= |ts|
    ensures Occurrences(ts + [y], n, x) == Occurrences(ts, n, x)
  {
    if n > 0 {
      OccurrencesOfAppend(ts, y, n - 1, x);
    }
  }

  /** Filtering keeps exactly the later timestamps, each as often as it occurs. */
  lemma {:induction false} AfterCounts(ts: seq<int>, n: nat, cutoff: int, x: int)
    requires n <= |ts|
    ensures Occurrences(After(ts, n, cutoff), |After(ts, n, cutoff)|, x)
            == if x > cutoff then Occurrences(ts, n, x) else 0
  {
    if n > 0 {
      AfterCounts(ts, n - 1, cutoff, x);
      var kept := After(ts, n - 1, cutoff);
      if ts[n - 1] > cutoff {
        OccurrencesOfAppend(kept, ts[n - 1], |kept|, x);
      } else {
        assert After(ts, n, cutoff) == kept;
      }
    }
  }

  /** The timestamps among the first `n` that lie after the cutoff, as places. */
  ghost function Places(ts: seq<int>, n: nat, cutoff: int): set<nat>
    requires n <= |ts|
  {
    set i: nat | i < n && ts[i] > cutoff
  }

  lemma {:induction false} PlacesAreCounted(ts: seq<int>, n: nat, cutoff: int)
    requires n <= |ts|
    ensures |Places(ts, n, cutoff)| == |After(ts, n, cutoff)|
  {
    if n > 0 {
      PlacesAreCounted(ts, n - 1, cutoff);
      if ts[n - 1] > cutoff {
        assert Places(ts, n, cutoff) == Places(ts, n - 1, cutoff) + {n - 1};
      } else {
        assert Places(ts, n, cutoff) == Places(ts, n - 1, cutoff);
      }
    } else {
      assert Places(ts, 0, cutoff) == {};
    }
  }

  /** A count is the number of records that are less than a window old, and a conflict is a matter of it. */
  lemma CountIsExact(events: Events, param: string, now: int, window: int, threshold: int)
    ensures
      var ts := Timestamps(events, param);
      Counted(events, param, now, window) == |set i: nat | i < |ts| && now - ts[i] < window|
    ensures threshold > 0 ==>
              (Conflicting(events, param, now, window, threshold) <==> Counted(events, param, now, window) >= threshold)
  {
    hide After;
    var ts := Timestamps(events, param);
    PlacesAreCounted(ts, |ts|, now - window);
    assert Places(ts, |ts|, now - window) == set i: nat | i < |ts| && now - ts[i] < window;
  }

  /** Pruning leaves exactly the records after the cutoff, in order, no empty log, and the other logs alone. */
  lemma PrunedExactly(events: Events, param: string, cutoff: int, other: string)
    ensures
      var pruned, ts := Pruned(events, param, cutoff), Timestamps(events, param);
      && Timestamps(pruned, param) == After(ts, |ts|, cutoff)
      && (param in events ==> (param in pruned <==> After(ts, |ts|, cutoff) != []))
      && (other != param ==>
            (other in pruned <==> other in events) && Timestamps(pruned, other) == Timestamps(events, other))
  {
    hide After;
    AfterOfNothing(cutoff);
  }

  // ----- pruning is unobservable -----

  datatype Op =
    | Record(param: string)
    | IsConflicting(param: string, threshold: int)
    | EventCount(param: string, window: int)

  /** A call and the clock reading it takes under the lock. */
  datatype Call = Call(op: Op, now: int)

  datatype Answer = Done | Conflict(yes: bool) | Count(n: nat)

  /** The log as kept: `IsConflicting`, with its one window, prunes. */
  function LogAfter(window: int, calls: seq<Call>, n: nat): Events
    requires n <= |calls|
  {
    if n == 0 then map[]
    else
      var events, now := LogAfter(window, calls, n - 1), calls[n - 1].now;
      match calls[n - 1].op
      case Record(param) => Recorded(events, param, now)
      case IsConflicting(param, _) => Pruned(events, param, now - window)
      case EventCount(_, _) => events
  }

  /** The log never pruned. */
  function HistoryAfter(calls: seq<Call>, n: nat): Events
    requires n <= |calls|
  {
    if n == 0 then map[]
    else
      var events := HistoryAfter(calls, n - 1);
      if calls[n - 1].op.Record? then Recorded(events, calls[n - 1].op.param, calls[n - 1].now) else events
  }

  function AnswerOf(events: Events, window: int, call: Call): Answer {
    match call.op
    case Record(_) => Done
    case IsConflicting(param, threshold) => Conflict(Conflicting(events, param, call.now, window, threshold))
    case EventCount(param, w) => Count(Counted(events, param, call.now, w))
  }

  ghost predicate ClockNeverGoesBack(calls: seq<Call>) {
    forall i, j :: 0 <= i <= j < |calls| ==> calls[i].now <= calls[j].now
  }

  /** Two logs of a parameter cannot be told apart by any cutoff from `cut` on. */
  ghost predicate Agree(log: Events, history: Events, p: string, cut: int) {
    forall b :: b >= cut ==>
      After(Timestamps(log, p), |Timestamps(log, p)|, b) == After(Timestamps(history, p), |Timestamps(history, p)|, b)
  }

  lemma AgreeAfterRecord(log: Events, history: Events, p: string, cut: int, param: string, now: int)
    requires Agree(log, history, p, cut)
    ensures Agree(Recorded(log, param, now), Recorded(history, param, now), p, cut)
  {
    hide After;
    var log', history' := Recorded(log, param, now), Recorded(history, param, now);
    forall b | b >= cut
      ensures After(Timestamps(log', p), |Timestamps(log', p)|, b)
              == After(Timestamps(history', p), |Timestamps(history', p)|, b)
    {
      AfterGrows(Timestamps(log, p), now, b);
      AfterGrows(Timestamps(history, p), now, b);
    }
  }

  lemma AgreeAfterPrune(log: Events, history: Events, p: string, cut: int, cutoff: int)
    requires Agree(log, history, p, cut) && cut <= cutoff
    ensures Agree(Pruned(log, p, cutoff), history, p, cutoff)
  {
    hide After;
    var log' := Pruned(log, p, cutoff);
    var ts := Timestamps(log, p);
    assert Timestamps(log', p) == After(ts, |ts|, cutoff) by {
      if p !in log {
        AfterOfNothing(cutoff);
      }
    }
    forall b | b >= cutoff
      ensures After(Timestamps(log', p), |Timestamps(log', p)|, b)
              == After(Timestamps(history, p), |Timestamps(history, p)|, b)
    {
      AfterAfter(ts, |ts|, cutoff, b);
    }
  }

  lemma AfterOfNothing(cutoff: int)
    ensures After([], 0, cutoff) == []
  {
  }

  /** What a log has lost of any parameter lies at or before the window that ends now. */
  lemma {:induction false} LogIsPrunedHistory(window: int, calls: seq<Call>, n: nat, now: int, p: string)
    returns (cut: int)
    requires n <= |calls| && ClockNeverGoesBack(calls)
    requires forall i :: 0 <= i < n ==> calls[i].now <= now
    ensures cut <= now - window && Agree(LogAfter(window, calls, n), HistoryAfter(calls, n), p, cut)
  {
    hide Recorded, Pruned, Agree;
    if n == 0 {
      cut := now - window;
      AgreeWithItself(map[], p, cut);
    } else {
      var at := calls[n - 1].now;
      cut := LogIsPrunedHistory(window, calls, n - 1, at, p);
      var log, history := LogAfter(window, calls, n - 1), HistoryAfter(calls, n - 1);
      match calls[n - 1].op
      case Record(param) =>
        AgreeAfterRecord(log, history, p, cut, param, at);
      case IsConflicting(param, _) =>
        if p == param {
          AgreeAfterPrune(log, history, p, cut, at - window);
          cut := at - window;
        } else {
          AgreeElsewhere(log, history, p, cut, param, at - window);
        }
      case EventCount(_, _) =>
    }
  }

  lemma AgreeWithItself(log: Events, p: string, cut: int)
    ensures Agree(log, log, p, cut)
  {
  }

  lemma AgreeElsewhere(log: Events, history: Events, p: string, cut: int, param: string, cutoff: int)
    requires Agree(log, history, p, cut) && p != param
    ensures Agree(Pruned(log, param, cutoff), history, p, cut)
  {
    hide After;
    assert Timestamps(Pruned(log, param, cutoff), p) == Timestamps(log, p);
  }

  /** How far back a count may look without seeing what pruning took: the window, or not at all. */
  predicate WithinReach(window: int, w: int) {
    w <= window || w <= 0
  }

  /** Pruning is unobservable: with a clock that never goes back and one pruning window, every question
      is answered as over the log that was never pruned, provided a conflict takes at least one event
      and no count looks further back than the pruning does. */
  lemma PruningIsUnobservable(window: int, calls: seq<Call>, n: nat)
    requires n < |calls| && ClockNeverGoesBack(calls)
    requires calls[n].op.IsConflicting? ==> calls[n].op.threshold >= 1
    requires calls[n].op.EventCount? ==> WithinReach(window, calls[n].op.window)
    ensures AnswerOf(LogAfter(window, calls, n), window, calls[n]) == AnswerOf(HistoryAfter(calls, n), window, calls[n])
  {
    hide LogAfter, HistoryAfter;
    var log, history, now := LogAfter(window, calls, n), HistoryAfter(calls, n), calls[n].now;
    match calls[n].op
    case Record(_) =>
    case IsConflicting(p, threshold) =>
      var cut := LogIsPrunedHistory(window, calls, n, now, p);
      AgreeAt(log, history, p, cut, now - window);
    case EventCount(p, w) =>
      if w <= window {
        var cut := LogIsPrunedHistory(window, calls, n, now, p);
        AgreeAt(log, history, p, cut, now - w);
      } else {
        NothingLater(window, calls, n, now, p);
        NoneAfter(Timestamps(log, p), |Timestamps(log, p)|, now - w);
        NoneAfter(Timestamps(history, p), |Timestamps(history, p)|, now - w);
      }
  }

  ghost predicate AllUpTo(ts: seq<int>, now: int) {
    forall i :: 0 <= i < |ts| ==> ts[i] <= now
  }

  lemma {:induction false} NoneAfter(ts: seq<int>, n: nat, cutoff: int)
    requires n <= |ts| && AllUpTo(ts, cutoff)
    ensures After(ts, n, cutoff) == []
  {
    if n > 0 {
      NoneAfter(ts, n - 1, cutoff);
    }
  }

  lemma {:induction false} AfterKeepsBound(ts: seq<int>, n: nat, cutoff: int, now: int)
    requires n <= |ts| && AllUpTo(ts, now)
    ensures AllUpTo(After(ts, n, cutoff), now)
  {
    if n > 0 {
      AfterKeepsBound(ts, n - 1, cutoff, now);
    }
  }

  /** No record is later than the call that is made now. */
  lemma {:induction false} NothingLater(window: int, calls: seq<Call>, n: nat, now: int, p: string)
    requires n <= |calls| && forall i :: 0 <= i < n ==> calls[i].now <= now
    ensures AllUpTo(Timestamps(LogAfter(window, calls, n), p), now)
    ensures AllUpTo(Timestamps(HistoryAfter(calls, n), p), now)
  {
    hide After;
    if n > 0 {
      NothingLater(window, calls, n - 1, now, p);
      var log := LogAfter(window, calls, n - 1);
      if calls[n - 1].op.IsConflicting? && calls[n - 1].op.param == p && p in log {
        AfterKeepsBound(log[p], |log[p]|, calls[n - 1].now - window, now);
      }
    }
  }

  lemma AgreeAt(log: Events, history: Events, p: string, cut: int, b: int)
    requires Agree(log, history, p, cut) && b >= cut
    ensures After(Timestamps(log, p), |Timestamps(log, p)|, b)
            == After(Timestamps(history, p), |Timestamps(history, p)|, b)
  {
  }

  /** The calls ask about conflicts with one threshold, and count no further back than `reach`. */
  ghost predicate Asks(calls: seq<Call>, threshold: int, reach: int) {
    forall i :: 0 <= i < |calls| ==>
      && (calls[i].op.IsConflicting? ==> calls[i].op.threshold == threshold)
      && (calls[i].op.EventCount? ==> calls[i].op.window <= reach)
  }

  /** Nobody who asks like that can tell the pruned log from the one that was never pruned. */
  ghost predicate Unobservable(window: int, threshold: int, reach: int) {
    forall calls: seq<Call>, n: nat ::
      n < |calls| && ClockNeverGoesBack(calls) && Asks(calls, threshold, reach) ==>
        AnswerOf(LogAfter(window, calls, n), window, calls[n]) == AnswerOf(HistoryAfter(calls, n), window, calls[n])
  }

  /** Pruning is unobservable exactly for thresholds of at least one and counts within reach. */
  lemma UnobservableIff(window: int, threshold: int, reach: int)
    ensures Unobservable(window, threshold, reach) <==> threshold >= 1 && WithinReach(window, reach)
  {
    if threshold < 1 {
      AskingTwiceDiffers(window, threshold, reach);
    } else if !WithinReach(window, reach) {
      CountingFartherDiffers(window, threshold, reach);
    } else {
      forall calls: seq<Call>, n: nat | n < |calls| && ClockNeverGoesBack(calls) && Asks(calls, threshold, reach)
        ensures AnswerOf(LogAfter(window, calls, n), window, calls[n])
                == AnswerOf(HistoryAfter(calls, n), window, calls[n])
      {
        hide LogAfter, HistoryAfter, AnswerOf, ClockNeverGoesBack;
        PruningIsUnobservable(window, calls, n);
      }
    }
  }

  /** The time at which a record made at zero has just left the window. */
  function Departure(window: int): int {
    if window < 0 then 0 else window
  }

  /** A record at zero, and a question when it has left the window: the log forgets it, the history does not. */
  lemma RecordThenAsk(window: int, calls: seq<Call>, threshold: int)
    requires |calls| == 3 && calls[0] == Call(Record("p"), 0)
    requires calls[1] == Call(IsConflicting("p", threshold), Departure(window))
    ensures LogAfter(window, calls, 2) == map[]
    ensures HistoryAfter(calls, 2) == map["p" := [0]]
  {
    FirstRecord(window, calls);
    hide LogAfter, HistoryAfter;
    var cutoff := Departure(window) - window;
    AfterOne(cutoff);
    TwoCalls(window, calls);
    assert Pruned(map["p" := [0]], "p", cutoff) == map[];
  }

  lemma FirstRecord(window: int, calls: seq<Call>)
    requires |calls| >= 1 && calls[0] == Call(Record("p"), 0)
    ensures LogAfter(window, calls, 1) == HistoryAfter(calls, 1) == map["p" := [0]]
  {
    assert LogAfter(window, calls, 0) == HistoryAfter(calls, 0) == map[];
    assert Timestamps(map[], "p") + [0] == [0];
  }

  lemma TwoCalls(window: int, calls: seq<Call>)
    requires |calls| >= 2 && calls[1].op.IsConflicting?
    ensures LogAfter(window, calls, 2) == Pruned(LogAfter(window, calls, 1), calls[1].op.param, calls[1].now - window)
    ensures HistoryAfter(calls, 2) == HistoryAfter(calls, 1)
  {
  }

  lemma AfterOne(cutoff: int)
    ensures After([0], 1, cutoff) == if 0 > cutoff then [0] else []
  {
    assert After([0], 0, cutoff) == [];
  }

  /** With a threshold of zero or less, the first question about a record that has left the window is
      answered yes, and the same question asked again is answered no, for the log has forgotten it. */
  lemma AskingTwiceDiffers(window: int, threshold: int, reach: int)
    requires threshold < 1
    ensures !Unobservable(window, threshold, reach)
  {
    hide LogAfter, HistoryAfter, After;
    var t := Departure(window);
    var ask := Call(IsConflicting("p", threshold), t);
    var calls := [Call(Record("p"), 0), ask, ask];
    RecordThenAsk(window, calls, threshold);
    AfterOne(t - window);
    assert Asks(calls, threshold, reach) && ClockNeverGoesBack(calls);
    assert AnswerOf(LogAfter(window, calls, 2), window, calls[2]) != AnswerOf(HistoryAfter(calls, 2), window, calls[2]);
  }

  /** A count that looks further back than the pruning did misses what was pruned. */
  lemma CountingFartherDiffers(window: int, threshold: int, reach: int)
    requires !WithinReach(window, reach)
    ensures !Unobservable(window, threshold, reach)
  {
    hide LogAfter, HistoryAfter, After;
    var t := Departure(window);
    var calls := [Call(Record("p"), 0), Call(IsConflicting("p", threshold), t), Call(EventCount("p", reach), t)];
    RecordThenAsk(window, calls, threshold);
    AfterOne(t - reach);
    AfterOfNothing(t - reach);
    assert Asks(calls, threshold, reach) && ClockNeverGoesBack(calls);
    assert AnswerOf(LogAfter(window, calls, 2), window, calls[2]) != AnswerOf(HistoryAfter(calls, 2), window, calls[2]);
  }

  // ----- the manager in place -----

  class ConflictManager {
    var events: Events

    constructor ()
      ensures events == map[]
    {
      events := map[];
    }

    method Record(param: string, now: int)
      modifies this
      ensures events == Recorded(old(events), param, now)
    {
      if param in events {
        events := events[param := events[param] + [now]];
      } else {
        events := events[param := [now]];
        assert [] + [now] == [now];
      }
    }

    method IsConflicting(param: string, now: int, window: int, threshold: int) returns (r: bool)
      modifies this
      ensures r <==> Conflicting(old(events), param, now, window, threshold)
      ensures events == Pruned(old(events), param, now - window)
    {
      if param !in events {
        return false;
      }
      var timestamps := events[param];
      var cutoff := now - window;
      var validTimestamps := [];
      for i := 0 to |timestamps|
        invariant validTimestamps == After(timestamps, i, cutoff)
      {
        if timestamps[i] > cutoff {
          validTimestamps := validTimestamps + [timestamps[i]];
        }
      }
      if |validTimestamps| > 0 {
        events := events[param := validTimestamps];
      } else {
        events := events - {param};
      }
      return |validTimestamps| >= threshold;
    }

    method LastEvent(param: string) returns (r: Moment)
      ensures r == Never <==> Timestamps(events, param) == []
      ensures r.At? ==> r.time == Timestamps(events, param)[|Timestamps(events, param)| - 1]
    {
      if param !in events || |events[param]| == 0 {
        return Never;
      }
      return At(events[param][|events[param]| - 1]);
    }

    method EventCount(param: string, now: int, window: int) returns (count: nat)
      ensures count == Counted(events, param, now, window)
    {
      if param !in events {
        return 0;
      }
      var timestamps := events[param];
      var cutoff := now - window;
      count := 0;
      for i := 0 to |timestamps|
        invariant count == |After(timestamps, i, cutoff)|
      {
        if timestamps[i] > cutoff {
          count := count + 1;
        }
      }
    }

    method Clear(param: string)
      modifies this
      ensures events == old(events) - {param}
    {
      events := events - {param};
    }

    method ClearAll()
      modifies this
      ensures events == map[]
    {
      events := map[];
    }
  }
}
