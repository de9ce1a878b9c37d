/** Whole runs of the reputation store (stats/reputation.go): what it remembers of a process, and when a
    query, which keeps an entry from growing stale, can be told from the answers. */
module ReputationRuns {
  import opened Common
  import opened Anomaly
  import opened Evaluator
  import opened Reputation
  import opened ReputationManager
  import Pulse

  datatype Call = Call(process: string, op: Op)

  datatype Store = Store(entries: Entries, lastCleanup: int)

  const EMPTY: Store := Store(map[], 0)

  /** The entry after one call on it. */
  function Moved(cfg: ReputationConfig, q: real, e: EntryState, op: Op): EntryState {
    match op
    case Get(now) => Queried(cfg, q, e, now)
    case Update(now, upd) => Reported(cfg, q, e, now, upd)
  }

  /** A possible outcome of a call. */
  ghost predicate Answers(cfg: ReputationConfig, q: real, s: Store, call: Call, s': Store, r: Snapshot) {
    match call.op
    case Get(now) => Gets(cfg, q, s.entries, s.lastCleanup, call.process, now, s'.entries, s'.lastCleanup, r)
    case Update(now, upd) =>
      Updates(cfg, q, s.entries, s.lastCleanup, call.process, now, upd, s'.entries, s'.lastCleanup, r)
  }

  /** A pass, and what the call then does to the entry of its process. */
  ghost predicate Passes(cfg: ReputationConfig, q: real, s: Store, call: Call, mid: Entries, s': Store, r: Snapshot) {
    && Cleaned(cfg, s.entries, s.lastCleanup, call.op.now, mid, s'.lastCleanup)
    && var e := Moved(cfg, q, EntryFor(cfg, mid, call.process, call.op.now), call.op);
       s'.entries == mid[call.process := e] && r == SnapshotOf(e, call.op.now)
  }

  lemma AnswerIsPass(cfg: ReputationConfig, q: real, s: Store, call: Call, s': Store, r: Snapshot)
    requires call.process != ""
    ensures Answers(cfg, q, s, call, s', r) <==> exists mid :: Passes(cfg, q, s, call, mid, s', r)
  {
    hide Cleaned, Queried, Reported, SnapshotOf, FreshEntry;
    if Answers(cfg, q, s, call, s', r) {
      match call.op
      case Get(now) =>
        var mid :| Cleaned(cfg, s.entries, s.lastCleanup, now, mid, s'.lastCleanup)
          && var e := Queried(cfg, q, EntryFor(cfg, mid, call.process, now), now);
             s'.entries == mid[call.process := e] && r == SnapshotOf(e, now);
        assert Passes(cfg, q, s, call, mid, s', r);
      case Update(now, upd) =>
        var mid :| Cleaned(cfg, s.entries, s.lastCleanup, now, mid, s'.lastCleanup)
          && var e := Reported(cfg, q, EntryFor(cfg, mid, call.process, now), now, upd);
             s'.entries == mid[call.process := e] && r == SnapshotOf(e, now);
        assert Passes(cfg, q, s, call, mid, s', r);
    }
  }

  /** An execution of those calls that are made; the others leave no trace. */
  ghost predicate Execution(cfg: ReputationConfig, q: real, calls: seq<Call>, keep: seq<bool>, stores: seq<Store>,
                            answers: seq<Snapshot>) {
    && |keep| == |calls| == |answers| && |stores| == |calls| + 1
    && stores[0] == EMPTY
    && forall i :: 0 <= i < |calls| ==>
         if keep[i] then Answers(cfg, q, stores[i], calls[i], stores[i + 1], answers[i]) else stores[i + 1] == stores[i]
  }

  ghost predicate ClockNeverGoesBack(calls: seq<Call>) {
    forall i, j :: 0 <= i <= j < |calls| ==> calls[i].op.now <= calls[j].op.now
  }

  /** No more processes are ever named than the cap allows. */
  ghost predicate Roomy(cfg: ReputationConfig, calls: seq<Call>) {
    |set i | 0 <= i < |calls| :: calls[i].process| <= cfg.maxEntries
  }

  // ----- one process -----

  /** Call `i` is made, and names the process. */
  predicate Names(calls: seq<Call>, keep: seq<bool>, p: string, i: nat)
    requires i < |calls| == |keep|
  {
    keep[i] && calls[i].process == p
  }

  datatype Index = Nowhere | Place(i: nat)

  /** The last of the first `n` calls that names the process. */
  function Last(calls: seq<Call>, keep: seq<bool>, p: string, n: nat): (at: Index)
    requires n <= |calls| == |keep|
    ensures at.Place? ==> at.i < n && Names(calls, keep, p, at.i)
    ensures at.Place? ==> forall j :: at.i < j < n ==> !Names(calls, keep, p, j)
    ensures at.Nowhere? ==> forall j :: 0 <= j < n ==> !Names(calls, keep, p, j)
  {
    if n == 0 then Nowhere
    else if Names(calls, keep, p, n - 1) then Place(n - 1)
    else Last(calls, keep, p, n - 1)
  }

  /** An entry made for call `from` and moved by the calls for its process up to `n`. */
  function Lone(cfg: ReputationConfig, q: real, calls: seq<Call>, keep: seq<bool>, p: string, from: nat,
                n: nat): EntryState
    requires from < n <= |calls| == |keep|
  {
    if n == from + 1 then Moved(cfg, q, FreshEntry(cfg, calls[from].op.now), calls[from].op)
    else if Names(calls, keep, p, n - 1) then Moved(cfg, q, Lone(cfg, q, calls, keep, p, from, n - 1), calls[n - 1].op)
    else Lone(cfg, q, calls, keep, p, from, n - 1)
  }

  /** The entry may have been made anew for call `m`: it is the first of the process, or it came after a
      silence longer than the time to live. */
  predicate MayRestart(cfg: ReputationConfig, calls: seq<Call>, keep: seq<bool>, p: string, m: nat)
    requires m < |calls| == |keep|
  {
    Names(calls, keep, p, m)
    && var last := Last(calls, keep, p, m);
       last.Place? ==> calls[m].op.now - calls[last.i].op.now > cfg.entryTTL
  }

  /** The entry of the process remembers all calls since some restart. */
  ghost predicate Remembers(cfg: ReputationConfig, q: real, calls: seq<Call>, keep: seq<bool>, p: string, n: nat,
                            e: EntryState)
    requires n <= |calls| == |keep|
  {
    exists m: nat :: m < n && MayRestart(cfg, calls, keep, p, m) && e == Lone(cfg, q, calls, keep, p, m, n)
  }

  /** What the store knows of the process after `n` calls, when `now` is the latest time. */
  ghost predicate Tracks(cfg: ReputationConfig, q: real, entries: Entries, calls: seq<Call>, keep: seq<bool>,
                         p: string, n: nat, now: int)
    requires n <= |calls| == |keep|
  {
    var last := Last(calls, keep, p, n);
    if p in entries then
      && last.Place? && entries[p].lastSeen == calls[last.i].op.now
      && Remembers(cfg, q, calls, keep, p, n, entries[p])
    else last.Place? ==> calls[last.i].op.now < now - cfg.entryTTL
  }

  /** A pass that has room removes an entry only if it was last seen before the time to live. */
  lemma RoomyPass(cfg: ReputationConfig, entries: Entries, last: int, now: int, mid: Entries, last': int)
    requires Cleaned(cfg, entries, last, now, mid, last') && |entries| <= cfg.maxEntries
    ensures mid.Keys <= entries.Keys && |mid| <= |entries|
    ensures forall k :: k in mid ==> mid[k] == entries[k]
    ensures forall k :: k in entries && k !in mid ==> entries[k].lastSeen < now - cfg.entryTTL
  {
    if Due(cfg, last, now) {
      var kept := Recent(cfg, entries, now);
      SubsetSize(kept.Keys, entries.Keys);
      SubsetSize(mid.Keys, entries.Keys);
      assert |mid.Keys| == |mid| && |kept.Keys| == |kept| && |entries.Keys| == |entries|;
      SameSize(mid.Keys, kept.Keys);
    }
  }

  lemma SeenNow(cfg: ReputationConfig, q: real, e: EntryState, op: Op)
    ensures Moved(cfg, q, e, op).lastSeen == op.now
  {
    hide Judged, Scored;
  }

  /** A pass keeps track of the process, as time goes on to `now`. */
  lemma PassTracks(cfg: ReputationConfig, q: real, entries: Entries, mid: Entries, calls: seq<Call>, keep: seq<bool>,
                   p: string, n: nat, before: int, now: int)
    requires n <= |calls| == |keep| && before <= now
    requires Tracks(cfg, q, entries, calls, keep, p, n, before)
    requires p in mid ==> p in entries && mid[p] == entries[p]
    requires p in entries && p !in mid ==> entries[p].lastSeen < now - cfg.entryTTL
    ensures Tracks(cfg, q, mid, calls, keep, p, n, now)
  {
    hide Remembers, Last;
  }

  /** A call on another process, or one that is not made, keeps track of this one. */
  lemma OtherTracks(cfg: ReputationConfig, q: real, entries: Entries, entries': Entries, calls: seq<Call>,
                    keep: seq<bool>, p: string, n: nat, now: int)
    requires n < |calls| == |keep| && !Names(calls, keep, p, n)
    requires Tracks(cfg, q, entries, calls, keep, p, n, now)
    requires (p in entries <==> p in entries') && (p in entries ==> entries'[p] == entries[p])
    ensures Tracks(cfg, q, entries', calls, keep, p, n + 1, now)
  {
    hide Moved, FreshEntry;
    if p in entries {
      var m: nat :| m < n && MayRestart(cfg, calls, keep, p, m) && entries[p] == Lone(cfg, q, calls, keep, p, m, n);
      assert Lone(cfg, q, calls, keep, p, m, n + 1) == Lone(cfg, q, calls, keep, p, m, n);
      assert Remembers(cfg, q, calls, keep, p, n + 1, entries'[p]);
    }
  }

  /** A call on the process moves an entry that remembers, or makes one after an allowed restart. */
  lemma OwnTracks(cfg: ReputationConfig, q: real, mid: Entries, calls: seq<Call>, keep: seq<bool>, p: string, n: nat)
    requires n < |calls| == |keep| && Names(calls, keep, p, n)
    requires Tracks(cfg, q, mid, calls, keep, p, n, calls[n].op.now)
    ensures
      var e := Moved(cfg, q, EntryFor(cfg, mid, p, calls[n].op.now), calls[n].op);
      && Remembers(cfg, q, calls, keep, p, n + 1, e)
      && Tracks(cfg, q, mid[p := e], calls, keep, p, n + 1, calls[n].op.now)
  {
    hide Moved, FreshEntry;
    var e := Moved(cfg, q, EntryFor(cfg, mid, p, calls[n].op.now), calls[n].op);
    SeenNow(cfg, q, EntryFor(cfg, mid, p, calls[n].op.now), calls[n].op);
    if p in mid {
      var m: nat :| m < n && MayRestart(cfg, calls, keep, p, m) && mid[p] == Lone(cfg, q, calls, keep, p, m, n);
      assert e == Lone(cfg, q, calls, keep, p, m, n + 1);
    } else {
      assert MayRestart(cfg, calls, keep, p, n);
      assert e == Lone(cfg, q, calls, keep, p, n, n + 1);
    }
    assert Remembers(cfg, q, calls, keep, p, n + 1, e);
  }

  ghost predicate Known(cfg: ReputationConfig, calls: seq<Call>, s: Store) {
    |s.entries| <= cfg.maxEntries && s.entries.Keys <= set i | 0 <= i < |calls| :: calls[i].process
  }

  lemma CallTracks(cfg: ReputationConfig, q: real, s: Store, calls: seq<Call>, keep: seq<bool>, p: string, n: nat,
                   before: int, s': Store, r: Snapshot)
    requires n < |calls| == |keep| && keep[n] && p != "" && before <= calls[n].op.now
    requires Known(cfg, calls, s) && Roomy(cfg, calls) && Tracks(cfg, q, s.entries, calls, keep, p, n, before)
    requires Answers(cfg, q, s, calls[n], s', r)
    ensures Known(cfg, calls, s') && Tracks(cfg, q, s'.entries, calls, keep, p, n + 1, calls[n].op.now)
    ensures calls[n].process == p ==>
              exists e :: Remembers(cfg, q, calls, keep, p, n + 1, e) && r == SnapshotOf(e, calls[n].op.now)
  {
    hide Passes, Answers, Cleaned, Tracks, Remembers, SnapshotOf, Known, Roomy;
    var call, now := calls[n], calls[n].op.now;
    OutcomeIsKnown(cfg, q, calls, n, s, s', r);
    if call.process == "" {
      NamelessCall(cfg, q, s, call, s', r);
      PassTracks(cfg, q, s.entries, s.entries, calls, keep, p, n, before, now);
      OtherTracks(cfg, q, s.entries, s.entries, calls, keep, p, n, now);
    } else {
      AnswerIsPass(cfg, q, s, call, s', r);
      var mid :| Passes(cfg, q, s, call, mid, s', r);
      KnownFits(cfg, calls, s);
      NamedTracks(cfg, q, s, calls, keep, p, n, before, mid, s', r);
    }
  }

  lemma NamedTracks(cfg: ReputationConfig, q: real, s: Store, calls: seq<Call>, keep: seq<bool>, p: string, n: nat,
                    before: int, mid: Entries, s': Store, r: Snapshot)
    requires n < |calls| == |keep| && keep[n] && p != "" && before <= calls[n].op.now
    requires |s.entries| <= cfg.maxEntries && Tracks(cfg, q, s.entries, calls, keep, p, n, before)
    requires Passes(cfg, q, s, calls[n], mid, s', r)
    ensures Tracks(cfg, q, s'.entries, calls, keep, p, n + 1, calls[n].op.now)
    ensures calls[n].process == p ==>
              exists e :: Remembers(cfg, q, calls, keep, p, n + 1, e) && r == SnapshotOf(e, calls[n].op.now)
  {
    hide Moved, FreshEntry, Cleaned, Tracks, Remembers, SnapshotOf;
    RoomyPass(cfg, s.entries, s.lastCleanup, calls[n].op.now, mid, s'.lastCleanup);
    PassTracks(cfg, q, s.entries, mid, calls, keep, p, n, before, calls[n].op.now);
    if calls[n].process == p {
      OwnTracks(cfg, q, mid, calls, keep, p, n);
    } else {
      OtherTracks(cfg, q, mid, s'.entries, calls, keep, p, n, calls[n].op.now);
    }
  }

  lemma NamelessCall(cfg: ReputationConfig, q: real, s: Store, call: Call, s': Store, r: Snapshot)
    requires call.process == "" && Answers(cfg, q, s, call, s', r)
    ensures s' == s
  {
  }

  lemma StillKnown(cfg: ReputationConfig, calls: seq<Call>, n: nat, s: Store, mid: Entries, s': Store)
    requires n < |calls| && Known(cfg, calls, s) && Roomy(cfg, calls)
    requires mid.Keys <= s.entries.Keys && s'.entries.Keys == mid.Keys + {calls[n].process}
    ensures Known(cfg, calls, s')
  {
    var named := set i | 0 <= i < |calls| :: calls[i].process;
    assert calls[n].process in named;
    SubsetSize(s'.entries.Keys, named);
    assert |s'.entries.Keys| == |s'.entries|;
  }

  /** An invariant of every run, for every process. */
  lemma {:induction false} RunTracks(cfg: ReputationConfig, q: real, calls: seq<Call>, keep: seq<bool>,
                                     stores: seq<Store>, answers: seq<Snapshot>, p: string, n: nat, now: int)
    requires cfg.maxEntries > 0 && p != "" && n <= |calls|
    requires Execution(cfg, q, calls, keep, stores, answers) && ClockNeverGoesBack(calls) && Roomy(cfg, calls)
    requires forall i :: 0 <= i < n ==> calls[i].op.now <= now
    ensures Known(cfg, calls, stores[n]) && Tracks(cfg, q, stores[n].entries, calls, keep, p, n, now)
  {
    hide Answers, Tracks, Known, Roomy;
    if n == 0 {
      NothingYet(cfg, q, calls, keep, p, now);
    } else {
      var at := calls[n - 1].op.now;
      RunTracks(cfg, q, calls, keep, stores, answers, p, n - 1, at);
      if keep[n - 1] {
        assert Answers(cfg, q, stores[n - 1], calls[n - 1], stores[n], answers[n - 1]);
        CallTracks(cfg, q, stores[n - 1], calls, keep, p, n - 1, at, stores[n], answers[n - 1]);
      } else {
        OtherTracks(cfg, q, stores[n - 1].entries, stores[n].entries, calls, keep, p, n - 1, at);
      }
      PassTracks(cfg, q, stores[n].entries, stores[n].entries, calls, keep, p, n, at, now);
    }
  }

  lemma NothingYet(cfg: ReputationConfig, q: real, calls: seq<Call>, keep: seq<bool>, p: string, now: int)
    requires cfg.maxEntries > 0 && |calls| == |keep|
    ensures Known(cfg, calls, EMPTY) && Tracks(cfg, q, EMPTY.entries, calls, keep, p, 0, now)
  {
  }

  /** The store forgets only over long silences: every answer about a process is that of a lone entry
      moved by its calls alone, since some restart that is its first call or comes after a silence longer
      than the time to live. */
  lemma AnswersRememberSinceSilence(cfg: ReputationConfig, q: real, calls: seq<Call>, keep: seq<bool>,
                                    stores: seq<Store>, answers: seq<Snapshot>, i: nat)
    requires Proper(cfg) && Execution(cfg, q, calls, keep, stores, answers) && ClockNeverGoesBack(calls)
             && Roomy(cfg, calls)
    requires i < |calls| && keep[i] && calls[i].process != ""
    ensures
      exists m: nat :: m <= i && MayRestart(cfg, calls, keep, calls[i].process, m)
                       && answers[i] == SnapshotOf(Lone(cfg, q, calls, keep, calls[i].process, m, i + 1),
                                                   calls[i].op.now)
  {
    hide Answers, Tracks, Known, Roomy, SnapshotOf, Lone, MayRestart;
    var p := calls[i].process;
    RunTracks(cfg, q, calls, keep, stores, answers, p, i, calls[i].op.now);
    assert Answers(cfg, q, stores[i], calls[i], stores[i + 1], answers[i]);
    CallTracks(cfg, q, stores[i], calls, keep, p, i, calls[i].op.now, stores[i + 1], answers[i]);
    var e :| Remembers(cfg, q, calls, keep, p, i + 1, e) && answers[i] == SnapshotOf(e, calls[i].op.now);
    var m: nat :| m < i + 1 && MayRestart(cfg, calls, keep, p, m) && e == Lone(cfg, q, calls, keep, p, m, i + 1);
  }

  // ----- processes that are never silent for long -----

  /** Call `f` is the first that names the process. */
  predicate First(calls: seq<Call>, keep: seq<bool>, p: string, f: nat)
    requires f < |calls| == |keep|
  {
    Names(calls, keep, p, f) && Last(calls, keep, p, f).Nowhere?
  }

  /** Among the first `n` calls, those of the process are at most `gap` apart. */
  ghost predicate NeverSilent(calls: seq<Call>, keep: seq<bool>, p: string, gap: int, n: nat)
    requires n <= |calls| == |keep|
  {
    forall i: nat :: i < n && Names(calls, keep, p, i) ==>
      var last := Last(calls, keep, p, i);
      last.Place? ==> calls[i].op.now - calls[last.i].op.now <= gap
  }

  /** The store refines lone entries: a process that is never silent for longer than the time to live is
      answered, in any mix with others, as by an entry of its own. */
  lemma StoreRefinesLoneEntry(cfg: ReputationConfig, q: real, calls: seq<Call>, keep: seq<bool>, stores: seq<Store>,
                              answers: seq<Snapshot>, i: nat) returns (f: nat)
    requires Proper(cfg) && Execution(cfg, q, calls, keep, stores, answers) && ClockNeverGoesBack(calls)
             && Roomy(cfg, calls)
    requires i < |calls| && keep[i] && calls[i].process != ""
    requires NeverSilent(calls, keep, calls[i].process, cfg.entryTTL, i + 1)
    ensures f <= i && First(calls, keep, calls[i].process, f)
    ensures answers[i] == SnapshotOf(Lone(cfg, q, calls, keep, calls[i].process, f, i + 1), calls[i].op.now)
  {
    hide Lone, SnapshotOf, Execution, Roomy, Proper;
    assert |keep| == |calls| == |answers| by { ExecutionLengths(cfg, q, calls, keep, stores, answers); }
    AnswersRememberSinceSilence(cfg, q, calls, keep, stores, answers, i);
    f :| f <= i && MayRestart(cfg, calls, keep, calls[i].process, f)
      && answers[i] == SnapshotOf(Lone(cfg, q, calls, keep, calls[i].process, f, i + 1), calls[i].op.now);
  }

  lemma ExecutionLengths(cfg: ReputationConfig, q: real, calls: seq<Call>, keep: seq<bool>, stores: seq<Store>,
                         answers: seq<Snapshot>)
    requires Execution(cfg, q, calls, keep, stores, answers)
    ensures |keep| == |calls| == |answers| && |stores| == |calls| + 1
  {
  }

  // ----- leaving queries out -----

  /** Only queries are left out. */
  ghost predicate Thinned(calls: seq<Call>, keep: seq<bool>) {
    |keep| == |calls| && forall i :: 0 <= i < |calls| ==> keep[i] || calls[i].op.Get?
  }

  /** The first call of the process is made: it is what its entry is created for. */
  ghost predicate FirstKept(calls: seq<Call>, keep: seq<bool>, p: string)
    requires |keep| == |calls|
  {
    forall i: nat :: i < |calls| && calls[i].process == p && !keep[i] ==> Last(calls, keep, p, i).Place?
  }

  /** Two runs to compare: the calls, and those of them that are kept. The last call is made in both, and
      those kept for the process are at most `gap` apart. */
  ghost predicate Comparable(cfg: ReputationConfig, calls: seq<Call>, keep: seq<bool>, p: string, gap: int) {
    && |calls| > 0 && Thinned(calls, keep) && ClockNeverGoesBack(calls) && Roomy(cfg, calls)
    && p != "" && FirstKept(calls, keep, p) && Names(calls, keep, p, |calls| - 1)
    && NeverSilent(calls, keep, p, gap, |calls|)
  }

  /** Nobody can tell from the last score whether the queries were made. */
  ghost predicate Invisible(cfg: ReputationConfig, q: real, gap: int) {
    forall calls: seq<Call>, keep: seq<bool>, p: string, stores: seq<Store>, answers: seq<Snapshot>,
      stores': seq<Store>, answers': seq<Snapshot> ::
      Comparable(cfg, calls, keep, p, gap)
      && Execution(cfg, q, calls, AllOf(|calls|), stores, answers) && Execution(cfg, q, calls, keep, stores', answers')
      ==> answers[|calls| - 1].score == answers'[|calls| - 1].score
  }

  lemma FirstAgrees(calls: seq<Call>, keep: seq<bool>, p: string, f: nat, f': nat)
    requires Thinned(calls, keep) && FirstKept(calls, keep, p) && f < |calls| && f' < |calls|
    requires First(calls, AllOf(|calls|), p, f) && First(calls, keep, p, f')
    ensures f == f' && keep[f]
  {
    var all := AllOf(|calls|);
    var before := Last(calls, keep, p, f);
    assert before.Place? ==> Names(calls, all, p, before.i);
    assert Names(calls, keep, p, f) && Names(calls, all, p, f');
  }

  lemma {:induction false} NextKept(calls: seq<Call>, keep: seq<bool>, p: string, i: nat, n: nat) returns (k: nat)
    requires i < n <= |calls| == |keep| && Names(calls, keep, p, n - 1)
    ensures i <= k < n && Names(calls, keep, p, k) && forall x :: i <= x < k ==> !Names(calls, keep, p, x)
    decreases n - i
  {
    if Names(calls, keep, p, i) {
      k := i;
    } else {
      k := NextKept(calls, keep, p, i + 1, n);
    }
  }

  /** More calls leave no longer silences. */
  lemma StillNeverSilent(calls: seq<Call>, keep: seq<bool>, p: string, gap: int)
    requires |calls| > 0 && Thinned(calls, keep) && ClockNeverGoesBack(calls) && FirstKept(calls, keep, p)
    requires Names(calls, keep, p, |calls| - 1) && NeverSilent(calls, keep, p, gap, |calls|)
    ensures NeverSilent(calls, AllOf(|calls|), p, gap, |calls|)
  {
    hide Last;
    var all := AllOf(|calls|);
    forall i: nat | i < |calls| && Names(calls, all, p, i) && Last(calls, all, p, i).Place?
      ensures calls[i].op.now - calls[Last(calls, all, p, i).i].op.now <= gap
    {
      var j := Last(calls, all, p, i).i;
      var k := NextKept(calls, keep, p, i, |calls|);
      var l := Last(calls, keep, p, k);
      assert l.Place? && l.i <= j by {
        if keep[j] {
          assert Names(calls, keep, p, j);
        }
        assert l.Place?;
        assert l.i < i;
        assert Names(calls, all, p, l.i);
      }
      assert calls[k].op.now - calls[l.i].op.now <= gap;
    }
  }

  lemma RepMoves(cfg: ReputationConfig, q: real, e: EntryState, op: Op)
    ensures Moved(cfg, q, e, op).rep == Applied(cfg, q, e.rep, op)
  {
    hide Judged, Scored;
  }

  function NewRep(cfg: ReputationConfig, now: int): Standing {
    FreshEntry(cfg, now).rep
  }

  lemma NewIsInRange(cfg: ReputationConfig, q: real, now: int)
    requires Proper(cfg)
    ensures InRange(cfg, NewRep(cfg, now)) && SameFrom(cfg, q, NewRep(cfg, now), NewRep(cfg, now), now)
    ensures NewRep(cfg, now) == Standing(cfg.initialScore, At(now))
  {
  }

  /** The scores of two lone entries made by one call, of which one is spared some queries, can nowhere be
      told apart. */
  lemma {:induction false} LonesAgree(cfg: ReputationConfig, q: real, calls: seq<Call>, keep: seq<bool>, p: string,
                                      f: nat, n: nat, now: int)
    requires Proper(cfg) && Fraction(q) && Thinned(calls, keep) && ClockNeverGoesBack(calls)
    requires f < n <= |calls| && Names(calls, keep, p, f)
    requires forall i :: 0 <= i < n ==> calls[i].op.now <= now
    ensures
      var a, b := Lone(cfg, q, calls, AllOf(|calls|), p, f, n).rep, Lone(cfg, q, calls, keep, p, f, n).rep;
      && InRange(cfg, a) && InRange(cfg, b) && SameFrom(cfg, q, a, b, now)
      && (Names(calls, keep, p, n - 1) ==> a == b)
  {
    hide Moved, Applied, SameFrom, InRange, FreshEntry, Proper, Fraction;
    var all, call := AllOf(|calls|), calls[n - 1];
    if n == f + 1 {
      NewIsInRange(cfg, q, call.op.now);
      RepMoves(cfg, q, FreshEntry(cfg, call.op.now), call.op);
      InRangeStep(cfg, q, NewRep(cfg, call.op.now), call.op);
      SameStep(cfg, q, NewRep(cfg, call.op.now), NewRep(cfg, call.op.now), call.op);
    } else {
      LonesAgree(cfg, q, calls, keep, p, f, n - 1, call.op.now);
      var e, e' := Lone(cfg, q, calls, all, p, f, n - 1), Lone(cfg, q, calls, keep, p, f, n - 1);
      if call.process == p {
        RepMoves(cfg, q, e, call.op);
        RepMoves(cfg, q, e', call.op);
        InRangeStep(cfg, q, e.rep, call.op);
        InRangeStep(cfg, q, e'.rep, call.op);
        SameStep(cfg, q, e.rep, e'.rep, call.op);
      }
    }
    SameLater(cfg, q, Lone(cfg, q, calls, all, p, f, n).rep, Lone(cfg, q, calls, keep, p, f, n).rep, call.op.now, now);
  }

  /** While no silence is longer than the time to live, queries are invisible. */
  lemma InvisibleWithin(cfg: ReputationConfig, q: real, calls: seq<Call>, keep: seq<bool>, p: string, gap: int,
                        stores: seq<Store>, answers: seq<Snapshot>, stores': seq<Store>, answers': seq<Snapshot>)
    requires Proper(cfg) && Fraction(q) && gap <= cfg.entryTTL && Comparable(cfg, calls, keep, p, gap)
    requires Execution(cfg, q, calls, AllOf(|calls|), stores, answers)
             && Execution(cfg, q, calls, keep, stores', answers')
    ensures |answers| == |answers'| == |calls| > 0 && answers[|calls| - 1].score == answers'[|calls| - 1].score
  {
    hide Lone, Execution, Last, Proper, Fraction, Roomy;
    var n, all := |calls|, AllOf(|calls|);
    ExecutionLengths(cfg, q, calls, all, stores, answers);
    ExecutionLengths(cfg, q, calls, keep, stores', answers');
    StillNeverSilent(calls, keep, p, gap);
    var f := StoreRefinesLoneEntry(cfg, q, calls, all, stores, answers, n - 1);
    var f' := StoreRefinesLoneEntry(cfg, q, calls, keep, stores', answers', n - 1);
    FirstAgrees(calls, keep, p, f, f');
    LonesAgree(cfg, q, calls, keep, p, f, n, calls[n - 1].op.now);
  }

  lemma {:induction false} LoneInRange(cfg: ReputationConfig, q: real, calls: seq<Call>, keep: seq<bool>, p: string,
                                       from: nat, n: nat)
    requires Proper(cfg) && Fraction(q) && from < n <= |calls| == |keep|
    ensures InRange(cfg, Lone(cfg, q, calls, keep, p, from, n).rep)
  {
    hide Moved, Applied, InRange, FreshEntry, Proper, Fraction;
    var call := calls[n - 1];
    if n == from + 1 {
      NewIsInRange(cfg, q, call.op.now);
      RepMoves(cfg, q, FreshEntry(cfg, call.op.now), call.op);
      InRangeStep(cfg, q, NewRep(cfg, call.op.now), call.op);
    } else {
      LoneInRange(cfg, q, calls, keep, p, from, n - 1);
      if Names(calls, keep, p, n - 1) {
        RepMoves(cfg, q, Lone(cfg, q, calls, keep, p, from, n - 1), call.op);
        InRangeStep(cfg, q, Lone(cfg, q, calls, keep, p, from, n - 1).rep, call.op);
      }
    }
  }

  /** Every answer is a score in range. */
  lemma AnswerInRange(cfg: ReputationConfig, q: real, calls: seq<Call>, keep: seq<bool>, stores: seq<Store>,
                      answers: seq<Snapshot>, i: nat)
    requires Proper(cfg) && Fraction(q)
    requires Execution(cfg, q, calls, keep, stores, answers) && ClockNeverGoesBack(calls) && Roomy(cfg, calls)
    requires i < |calls| && keep[i] && calls[i].process != ""
    ensures cfg.minScore <= answers[i].score <= cfg.maxScore
  {
    hide Lone, Proper, Fraction, MayRestart, Roomy;
    AnswersRememberSinceSilence(cfg, q, calls, keep, stores, answers, i);
    var m: nat :| m <= i && MayRestart(cfg, calls, keep, calls[i].process, m)
      && answers[i] == SnapshotOf(Lone(cfg, q, calls, keep, calls[i].process, m, i + 1), calls[i].op.now);
    LoneInRange(cfg, q, calls, keep, calls[i].process, m, i + 1);
  }

  // ----- when a query shows -----

  /** Every call has an outcome while there is room. */
  lemma OutcomeExists(cfg: ReputationConfig, q: real, s: Store, call: Call) returns (s': Store, r: Snapshot)
    requires |s.entries| <= cfg.maxEntries
    ensures Answers(cfg, q, s, call, s', r)
  {
    if call.process == "" {
      s', r := s, NO_SNAPSHOT;
    } else {
      var now := call.op.now;
      var kept := Recent(cfg, s.entries, now);
      SubsetSize(kept.Keys, s.entries.Keys);
      assert |kept.Keys| == |kept| && |s.entries.Keys| == |s.entries|;
      var due := Due(cfg, s.lastCleanup, now);
      var mid, last := if due then kept else s.entries, if due then now else s.lastCleanup;
      assert Cleaned(cfg, s.entries, s.lastCleanup, now, mid, last);
      var e := Moved(cfg, q, EntryFor(cfg, mid, call.process, now), call.op);
      s', r := Store(mid[call.process := e], last), SnapshotOf(e, now);
      assert Passes(cfg, q, s, call, mid, s', r);
      AnswerIsPass(cfg, q, s, call, s', r);
    }
  }

  lemma OutcomeIsKnown(cfg: ReputationConfig, q: real, calls: seq<Call>, n: nat, s: Store, s': Store, r: Snapshot)
    requires n < |calls| && Known(cfg, calls, s) && Roomy(cfg, calls) && Answers(cfg, q, s, calls[n], s', r)
    ensures Known(cfg, calls, s')
  {
    hide Cleaned, Moved, FreshEntry, SnapshotOf, Known, Roomy;
    if calls[n].process == "" {
      NamelessCall(cfg, q, s, calls[n], s', r);
    } else {
      AnswerIsPass(cfg, q, s, calls[n], s', r);
      var mid :| Passes(cfg, q, s, calls[n], mid, s', r);
      KnownFits(cfg, calls, s);
      RoomyPass(cfg, s.entries, s.lastCleanup, calls[n].op.now, mid, s'.lastCleanup);
      StillKnown(cfg, calls, n, s, mid, s');
    }
  }

  lemma KnownFits(cfg: ReputationConfig, calls: seq<Call>, s: Store)
    requires Known(cfg, calls, s)
    ensures |s.entries| <= cfg.maxEntries
  {
  }

  /** All runs that there is room for can be taken. */
  lemma SomeExecution(cfg: ReputationConfig, q: real, calls: seq<Call>, keep: seq<bool>)
    returns (stores: seq<Store>, answers: seq<Snapshot>)
    requires cfg.maxEntries > 0 && |keep| == |calls| && Roomy(cfg, calls)
    ensures Execution(cfg, q, calls, keep, stores, answers)
  {
    hide Answers, Known, Roomy;
    stores, answers := [EMPTY], [];
    NothingYet(cfg, q, calls, keep, "", 0);
    for n := 0 to |calls|
      invariant |stores| == n + 1 && |answers| == n && stores[0] == EMPTY && Known(cfg, calls, stores[n])
      invariant forall i :: 0 <= i < n ==>
        if keep[i] then Answers(cfg, q, stores[i], calls[i], stores[i + 1], answers[i]) else stores[i + 1] == stores[i]
    {
      var s, r := stores[n], NO_SNAPSHOT;
      if keep[n] {
        KnownFits(cfg, calls, s);
        s, r := OutcomeExists(cfg, q, s, calls[n]);
        OutcomeIsKnown(cfg, q, calls, n, stores[n], s, r);
      }
      stores, answers := stores + [s], answers + [r];
    }
  }

  lemma {:induction false} PowerIsStrict(q: real, n: nat)
    requires Fraction(q) && n > 0
    ensures 0.0 < Power(q, n) < 1.0
  {
    if n == 1 {
      assert Power(q, 0) == 1.0;
    } else {
      PowerIsStrict(q, n - 1);
      ProductPositive(q, Power(q, n - 1), Power(q, n));
      ProductPositive(1.0 - q, Power(q, n - 1), (1.0 - q) * Power(q, n - 1));
      assert (1.0 - q) * Power(q, n - 1) == Power(q, n - 1) - Power(q, n);
    }
  }

  lemma TowardIsStrict(neutral: real, score: real, score': real, factor: real)
    requires 0.0 < factor && score' < score
    ensures Toward(neutral, score', factor) < Toward(neutral, score, factor)
  {
    Cancel(score' - neutral, score - neutral, factor);
  }

  /** Some call leaves a score that decay does not lead to the initial one. */
  lemma TellingCall(cfg: ReputationConfig, q: real, r: Standing, at: int, later: int) returns (op: Op)
    requires Proper(cfg) && Fraction(q) && cfg.minScore < cfg.maxScore && at < later
    requires InRange(cfg, r) && SameFrom(cfg, q, r, r, at)
    ensures op.now == at
    ensures Decayed(cfg, q, Applied(cfg, q, r, op), later).score != cfg.initialScore
  {
    hide Decayed, Scored, Judged, Proper, Power, Fused, Toward;
    var s := Decayed(cfg, q, r, at).score;
    var upd := ReputationUpdate(s > cfg.minScore, Allow, false, false, None, None);
    DecayStaysInRange(cfg, q, r, at);
    CascadeFuses(cfg, q, r, at, upd);
    FusedMoves(cfg, s, upd);
    StampedNow(cfg, q, r, at);
    DecayedToward(cfg, q, Applied(cfg, q, r, Get(at)), at, later);
    DecayedToward(cfg, q, Applied(cfg, q, r, Update(at, upd)), at, later);
    PowerIsStrict(q, later - at);
    var s' := Fused(cfg, s, upd);
    if s < s' {
      TowardIsStrict(cfg.neutralScore, s', s, Power(q, later - at));
    } else {
      TowardIsStrict(cfg.neutralScore, s, s', Power(q, later - at));
    }
    op := if Decayed(cfg, q, Applied(cfg, q, r, Get(at)), later).score != cfg.initialScore then Get(at)
      else Update(at, upd);
  }

  lemma ProperRange(cfg: ReputationConfig)
    requires Proper(cfg)
    ensures cfg.entryTTL > 0 && cfg.cleanupInterval > 0 && cfg.maxEntries > 0
  {
  }

  lemma DecayedToward(cfg: ReputationConfig, q: real, r: Standing, at: int, later: int)
    requires Proper(cfg) && r.lastUpdated == At(at) && at < later
    ensures Decayed(cfg, q, r, later).score == Toward(cfg.neutralScore, r.score, Power(q, later - at))
  {
    hide Proper, Reputation.WithDefaults, Toward, Power;
    ProperIsKept(cfg);
  }

  /** A drift goes down, if there is room below, and a calm write goes up from the lowest score. */
  lemma FusedMoves(cfg: ReputationConfig, s: real, upd: ReputationUpdate)
    requires Proper(cfg) && cfg.minScore < cfg.maxScore && cfg.minScore <= s <= cfg.maxScore
    requires upd == ReputationUpdate(s > cfg.minScore, Allow, false, false, None, None)
    ensures Fused(cfg, s, upd) != s
  {
  }

  /** Queries of one process from time 1 on, a time to live apart. */
  function Asking(cfg: ReputationConfig, k: nat): (calls: seq<Call>)
    ensures |calls| == k
  {
    seq(k, i requires 0 <= i < k => Call("p", Get(Pulse.Beat(cfg.entryTTL, i))))
  }

  /** A pulse, a telling call when a pass is not due until more than the time to live later, a query in
      between, and one at the time the pass is due. */
  function Story(cfg: ReputationConfig, k: nat, op: Op): seq<Call> {
    Asking(cfg, k) + [Call("p", op), Call("p", Get(op.now + 1)), Call("p", Get(op.now + cfg.entryTTL + 1))]
  }

  /** All calls but the query in between. */
  function Spared(k: nat): seq<bool> {
    AllOf(k) + [true, false, true]
  }

  /** The telling call comes at the right time for the passes of the store. */
  ghost predicate Timely(cfg: ReputationConfig, k: nat, at: int) {
    Pulse.Timely(cfg.entryTTL, cfg.cleanupInterval, k, at)
  }

  lemma RightTime(cfg: ReputationConfig) returns (k: nat, at: int)
    requires Proper(cfg)
    ensures Timely(cfg, k, at)
  {
    k, at := Pulse.SomeTiming(cfg.entryTTL, cfg.cleanupInterval);
  }

  lemma StoryTimes(cfg: ReputationConfig, k: nat, op: Op)
    requires Proper(cfg) && Timely(cfg, k, op.now)
    ensures ClockNeverGoesBack(Story(cfg, k, op))
    ensures forall i: nat ::
            0 < i < k + 2 ==> Story(cfg, k, op)[i].op.now - Story(cfg, k, op)[i - 1].op.now <= cfg.entryTTL
    ensures Story(cfg, k, op)[0].op.now == 1
    ensures forall i: nat :: 0 < i <= k ==> 0 <= Story(cfg, k, op)[i].op.now - 1 < cfg.cleanupInterval
    ensures op.now + cfg.entryTTL + 1 >= 1 + cfg.cleanupInterval
  {
    hide Proper, Pulse.Beat;
    ProperRange(cfg);
    var calls := Story(cfg, k, op);
    forall i: nat | i < k ensures 1 <= calls[i].op.now == Pulse.Beat(cfg.entryTTL, i) < op.now {
      Pulse.BeatsAreOrdered(cfg.entryTTL, 0, i);
      Pulse.BeatsAreOrdered(cfg.entryTTL, i, k - 1);
    }
    forall i: nat | 0 < i < k + 2 ensures calls[i].op.now - calls[i - 1].op.now <= cfg.entryTTL {
      Pulse.BeatsAreOrdered(cfg.entryTTL, i - 1, i);
    }
    forall i, j | 0 <= i <= j < |calls| ensures calls[i].op.now <= calls[j].op.now {
      if j < k {
        Pulse.BeatsAreOrdered(cfg.entryTTL, i, j);
      }
    }
    Pulse.BeatsAreOrdered(cfg.entryTTL, 0, 0);
  }

  lemma StoryLast(cfg: ReputationConfig, k: nat, op: Op, i: nat)
    requires i < k + 3
    ensures Last(Story(cfg, k, op), AllOf(k + 3), "p", i) == if i == 0 then Nowhere else Place(i - 1)
    ensures i < k + 2 ==> Last(Story(cfg, k, op), Spared(k), "p", i) == if i == 0 then Nowhere else Place(i - 1)
    ensures Last(Story(cfg, k, op), Spared(k), "p", k + 2) == Place(k)
  {
    assert Last(Story(cfg, k, op), Spared(k), "p", k + 1) == Place(k);
  }

  lemma StoryCompares(cfg: ReputationConfig, k: nat, op: Op, gap: int)
    requires Proper(cfg) && Timely(cfg, k, op.now) && gap > cfg.entryTTL
    ensures Comparable(cfg, Story(cfg, k, op), Spared(k), "p", gap)
  {
    hide Proper, Last;
    ProperRange(cfg);
    StoryTimes(cfg, k, op);
    var calls, keep := Story(cfg, k, op), Spared(k);
    assert (set i | 0 <= i < |calls| :: calls[i].process) <= {"p"};
    SubsetSize(set i | 0 <= i < |calls| :: calls[i].process, {"p"});
    forall i: nat | i < k + 3
      ensures i < k + 2 ==> Last(calls, keep, "p", i) == if i == 0 then Nowhere else Place(i - 1)
    {
      StoryLast(cfg, k, op, i);
    }
    StoryLast(cfg, k, op, 0);
  }

  /** What the entry has come to when the telling call is made. */
  function RepBefore(cfg: ReputationConfig, q: real, k: nat, at: int): Standing {
    if k == 0 then NewRep(cfg, at) else Lone(cfg, q, Asking(cfg, k), AllOf(k), "p", 0, k).rep
  }

  lemma {:induction false} LoneOfPrefix(cfg: ReputationConfig, q: real, k: nat, op: Op, n: nat)
    requires 0 < n <= k
    ensures Lone(cfg, q, Story(cfg, k, op), AllOf(k + 3), "p", 0, n)
            == Lone(cfg, q, Asking(cfg, k), AllOf(k), "p", 0, n)
  {
    hide Moved, FreshEntry;
    if n > 1 {
      LoneOfPrefix(cfg, q, k, op, n - 1);
    }
  }

  lemma RepBeforeIsSound(cfg: ReputationConfig, q: real, k: nat, at: int)
    requires Proper(cfg) && Fraction(q) && Timely(cfg, k, at)
    ensures InRange(cfg, RepBefore(cfg, q, k, at))
            && SameFrom(cfg, q, RepBefore(cfg, q, k, at), RepBefore(cfg, q, k, at), at)
  {
    hide Proper, Fraction, Lone, FreshEntry, InRange, SameFrom, Timely;
    if k == 0 {
      NewIsInRange(cfg, q, at);
    } else {
      var op := Get(at);
      StoryTimes(cfg, k, op);
      StoryNames(cfg, k, op, k);
      assert forall i :: 0 <= i < k ==> Story(cfg, k, op)[i].op.now <= Story(cfg, k, op)[k].op.now;
      LonesAgree(cfg, q, Story(cfg, k, op), AllOf(k + 3), "p", 0, k, at);
      LoneOfPrefix(cfg, q, k, op, k);
    }
  }

  /** A query that keeps an entry alive shows: with a longer silence allowed, there are two runs, which
      differ by one query, and end in different scores. */
  lemma QueryShows(cfg: ReputationConfig, q: real, gap: int)
    requires Proper(cfg) && Fraction(q) && cfg.minScore < cfg.maxScore && gap > cfg.entryTTL
    ensures !Invisible(cfg, q, gap)
  {
    hide Execution, Comparable, Proper, Decayed, Applied, Story, RepBefore, Timely, SameFrom, InRange;
    ProperRange(cfg);
    var k, at := RightTime(cfg);
    var later := at + cfg.entryTTL + 1;
    RepBeforeIsSound(cfg, q, k, at);
    var op := TellingCall(cfg, q, RepBefore(cfg, q, k, at), at, later);
    var calls, keep := Story(cfg, k, op), Spared(k);
    StoryCompares(cfg, k, op, gap);
    StoryHasRoom(cfg, calls, keep, gap);
    assert |calls| == k + 3 by { StoryLength(cfg, k, op); }
    var stores, answers := SomeExecution(cfg, q, calls, AllOf(k + 3));
    var stores', answers' := SomeExecution(cfg, q, calls, keep);
    AskedBetween(cfg, q, k, op, stores, answers);
    NotAsked(cfg, q, k, op, stores', answers');
  }

  lemma StoryLength(cfg: ReputationConfig, k: nat, op: Op)
    ensures |Story(cfg, k, op)| == k + 3
  {
  }

  lemma StoryHasRoom(cfg: ReputationConfig, calls: seq<Call>, keep: seq<bool>, gap: int)
    requires Comparable(cfg, calls, keep, "p", gap)
    ensures Roomy(cfg, calls) && |keep| == |calls| && ClockNeverGoesBack(calls)
  {
  }

  /** With the query the entry survives, and its score is what decay has made of it. */
  lemma AskedBetween(cfg: ReputationConfig, q: real, k: nat, op: Op, stores: seq<Store>, answers: seq<Snapshot>)
    requires Proper(cfg) && Fraction(q) && Timely(cfg, k, op.now) && Roomy(cfg, Story(cfg, k, op))
    requires Execution(cfg, q, Story(cfg, k, op), AllOf(k + 3), stores, answers)
    ensures |answers| == k + 3
    ensures answers[k + 2].score
            == Decayed(cfg, q, Applied(cfg, q, RepBefore(cfg, q, k, op.now), op), op.now + cfg.entryTTL + 1).score
  {
    hide Execution, Roomy, Proper, Fraction, Lone, Applied, Decayed, SameFrom, InRange, Timely, Story, RepBefore,
      NeverSilent, Last;
    var calls, all, at := Story(cfg, k, op), AllOf(k + 3), op.now;
    StoryNames(cfg, k, op, k + 2);
    ExecutionLengths(cfg, q, calls, all, stores, answers);
    ProperRange(cfg);
    StoryTimes(cfg, k, op);
    StoryNeverSilent(cfg, k, op);
    var f := StoreRefinesLoneEntry(cfg, q, calls, all, stores, answers, k + 2);
    StoryLast(cfg, k, op, f);
    LoneOfStory(cfg, q, k, op);
    RepBeforeIsSound(cfg, q, k, at);
    InRangeStep(cfg, q, RepBefore(cfg, q, k, at), op);
    SameStep(cfg, q, RepBefore(cfg, q, k, at), RepBefore(cfg, q, k, at), op);
    TwoQueries(cfg, q, Applied(cfg, q, RepBefore(cfg, q, k, at), op), at, at + 1, at + cfg.entryTTL + 1);
  }

  lemma StoryNeverSilent(cfg: ReputationConfig, k: nat, op: Op)
    requires Proper(cfg) && Timely(cfg, k, op.now)
    ensures |Story(cfg, k, op)| == k + 3
    ensures NeverSilent(Story(cfg, k, op), AllOf(k + 3), "p", cfg.entryTTL, k + 3)
  {
    hide Proper, Timely, Last;
    ProperRange(cfg);
    StoryTimes(cfg, k, op);
    var calls, all := Story(cfg, k, op), AllOf(k + 3);
    forall i: nat | i < k + 3 ensures Last(calls, all, "p", i) == if i == 0 then Nowhere else Place(i - 1) {
      StoryLast(cfg, k, op, i);
    }
  }

  lemma LoneOfStory(cfg: ReputationConfig, q: real, k: nat, op: Op)
    ensures
      var told := Applied(cfg, q, RepBefore(cfg, q, k, op.now), op);
      Lone(cfg, q, Story(cfg, k, op), AllOf(k + 3), "p", 0, k + 3).rep
        == Applied(cfg, q, Applied(cfg, q, told, Get(op.now + 1)), Get(op.now + cfg.entryTTL + 1))
  {
    hide Moved, Applied, FreshEntry, Asking;
    var calls, all := Story(cfg, k, op), AllOf(k + 3);
    var e1 := Lone(cfg, q, calls, all, "p", 0, k + 1);
    var e2 := Lone(cfg, q, calls, all, "p", 0, k + 2);
    if k == 0 {
      RepMoves(cfg, q, FreshEntry(cfg, op.now), op);
    } else {
      LoneOfPrefix(cfg, q, k, op, k);
      RepMoves(cfg, q, Lone(cfg, q, calls, all, "p", 0, k), op);
    }
    RepMoves(cfg, q, e1, calls[k + 1].op);
    RepMoves(cfg, q, e2, calls[k + 2].op);
  }

  lemma TwoQueries(cfg: ReputationConfig, q: real, r: Standing, at: int, asked: int, later: int)
    requires Proper(cfg) && Fraction(q) && InRange(cfg, r) && SameFrom(cfg, q, r, r, at) && at <= asked <= later
    ensures Applied(cfg, q, Applied(cfg, q, r, Get(asked)), Get(later)).score == Decayed(cfg, q, r, later).score
  {
    hide Decayed, Scored, Proper;
    DecayStaysInRange(cfg, q, r, asked);
    DecayStaysInRange(cfg, q, Decayed(cfg, q, r, asked), later);
    DecayComposes(cfg, q, r, asked, later);
  }

  /** Until the pass comes due the entry stays, and the time of the first pass stands. */
  lemma {:induction false} NoPassYet(cfg: ReputationConfig, q: real, k: nat, op: Op, stores: seq<Store>,
                                     answers: seq<Snapshot>, n: nat)
    requires Proper(cfg) && Timely(cfg, k, op.now) && 0 < n <= k + 1
    requires Execution(cfg, q, Story(cfg, k, op), Spared(k), stores, answers)
    ensures |stores| == k + 4 && stores[n].lastCleanup == 1
    ensures "p" in stores[n].entries && stores[n].entries["p"].lastSeen == Story(cfg, k, op)[n - 1].op.now
  {
    hide Moved, Cleaned, FreshEntry, Proper, Answers, Story, Timely;
    var calls, keep := Story(cfg, k, op), Spared(k);
    StoryLength(cfg, k, op);
    StoryTimes(cfg, k, op);
    StoryNames(cfg, k, op, n - 1);
    var call := calls[n - 1];
    assert keep[n - 1];
    assert Answers(cfg, q, stores[n - 1], call, stores[n], answers[n - 1]);
    AnswerIsPass(cfg, q, stores[n - 1], call, stores[n], answers[n - 1]);
    var mid :| Passes(cfg, q, stores[n - 1], call, mid, stores[n], answers[n - 1]);
    SeenNow(cfg, q, EntryFor(cfg, mid, "p", call.op.now), call.op);
    if n == 1 {
      FirstPass(cfg, map[], call.op.now, mid, stores[n].lastCleanup);
    } else {
      NoPassYet(cfg, q, k, op, stores, answers, n - 1);
      NotDue(cfg, stores[n - 1].entries, 1, call.op.now, mid, stores[n].lastCleanup);
    }
  }

  lemma StoryNames(cfg: ReputationConfig, k: nat, op: Op, i: nat)
    requires i < k + 3
    ensures |Story(cfg, k, op)| == k + 3 && Story(cfg, k, op)[i].process == "p"
    ensures Story(cfg, k, op)[k].op == op && Story(cfg, k, op)[k + 2].op == Get(op.now + cfg.entryTTL + 1)
  {
  }

  /** Without the query the entry is swept by the pass before the last call, which makes a new one. */
  lemma NotAsked(cfg: ReputationConfig, q: real, k: nat, op: Op, stores: seq<Store>, answers: seq<Snapshot>)
    requires Proper(cfg) && Timely(cfg, k, op.now)
    requires Execution(cfg, q, Story(cfg, k, op), Spared(k), stores, answers)
    ensures |answers| == k + 3 && answers[k + 2].score == cfg.initialScore
  {
    hide Moved, Cleaned, FreshEntry, Proper, Answers, Story, Timely;
    var calls, keep := Story(cfg, k, op), Spared(k);
    StoryTimes(cfg, k, op);
    StoryNames(cfg, k, op, k + 2);
    NoPassYet(cfg, q, k, op, stores, answers, k + 1);
    assert !keep[k + 1] && stores[k + 2] == stores[k + 1];
    var call, s := calls[k + 2], stores[k + 2];
    assert keep[k + 2] && Answers(cfg, q, s, call, stores[k + 3], answers[k + 2]);
    AnswerIsPass(cfg, q, s, call, stores[k + 3], answers[k + 2]);
    var mid :| Passes(cfg, q, s, call, mid, stores[k + 3], answers[k + 2]);
    Swept(cfg, s.entries, 1, call.op.now, mid, stores[k + 3].lastCleanup, "p");
    RepMoves(cfg, q, FreshEntry(cfg, call.op.now), call.op);
    NewlyScored(cfg, q, call.op.now);
  }

  lemma NewlyScored(cfg: ReputationConfig, q: real, at: int)
    requires Proper(cfg)
    ensures Applied(cfg, q, FreshEntry(cfg, at).rep, Get(at)).score == cfg.initialScore
  {
  }

  lemma FirstPass(cfg: ReputationConfig, entries: Entries, now: int, mid: Entries, last': int)
    requires Cleaned(cfg, entries, 0, now, mid, last')
    ensures last' == now
  {
  }

  lemma NotDue(cfg: ReputationConfig, entries: Entries, last: int, now: int, mid: Entries, last': int)
    requires Cleaned(cfg, entries, last, now, mid, last') && last != 0 && now - last < cfg.cleanupInterval
    ensures last' == last && mid == entries
  {
  }

  lemma Swept(cfg: ReputationConfig, entries: Entries, last: int, now: int, mid: Entries, last': int, p: string)
    requires Cleaned(cfg, entries, last, now, mid, last') && now - last >= cfg.cleanupInterval
    requires p in entries && entries[p].lastSeen < now - cfg.entryTTL
    ensures p !in mid
  {
  }

  /** Queries are invisible exactly while no silence they may cover is longer than the time to live, or if
      there is but one score. */
  lemma QueriesAreInvisibleIff(cfg: ReputationConfig, q: real, gap: int)
    requires Proper(cfg) && Fraction(q)
    ensures Invisible(cfg, q, gap) <==> gap <= cfg.entryTTL || cfg.minScore == cfg.maxScore
  {
    hide Execution, Comparable, Proper, Fraction;
    ScoresOrdered(cfg);
    if gap <= cfg.entryTTL || cfg.minScore == cfg.maxScore {
      forall calls: seq<Call>, keep: seq<bool>, p: string, stores: seq<Store>, answers: seq<Snapshot>,
        stores': seq<Store>, answers': seq<Snapshot>
        | Comparable(cfg, calls, keep, p, gap)
          && Execution(cfg, q, calls, AllOf(|calls|), stores, answers)
          && Execution(cfg, q, calls, keep, stores', answers')
        ensures |answers| == |answers'| == |calls| > 0 && answers[|calls| - 1].score == answers'[|calls| - 1].score
      {
        if gap <= cfg.entryTTL {
          InvisibleWithin(cfg, q, calls, keep, p, gap, stores, answers, stores', answers');
        } else {
          OneScore(cfg, q, calls, keep, p, gap, stores, answers, stores', answers');
        }
      }
    } else {
      QueryShows(cfg, q, gap);
    }
  }

  lemma ScoresOrdered(cfg: ReputationConfig)
    requires Proper(cfg)
    ensures cfg.minScore <= cfg.maxScore
  {
  }

  lemma OneScore(cfg: ReputationConfig, q: real, calls: seq<Call>, keep: seq<bool>, p: string, gap: int,
                 stores: seq<Store>, answers: seq<Snapshot>, stores': seq<Store>, answers': seq<Snapshot>)
    requires Proper(cfg) && Fraction(q) && cfg.minScore == cfg.maxScore && Comparable(cfg, calls, keep, p, gap)
    requires Execution(cfg, q, calls, AllOf(|calls|), stores, answers)
             && Execution(cfg, q, calls, keep, stores', answers')
    ensures |answers| == |answers'| == |calls| > 0 && answers[|calls| - 1].score == answers'[|calls| - 1].score
  {
    hide Execution, Proper, Fraction, Roomy;
    ExecutionLengths(cfg, q, calls, AllOf(|calls|), stores, answers);
    ExecutionLengths(cfg, q, calls, keep, stores', answers');
    AnswerInRange(cfg, q, calls, AllOf(|calls|), stores, answers, |calls| - 1);
    AnswerInRange(cfg, q, calls, keep, stores', answers', |calls| - 1);
  }
}
