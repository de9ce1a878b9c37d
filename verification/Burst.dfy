/** The sliding-window burst detector (stats/burst.go): a bounded ring buffer standing in for the
    unbounded window of all past events. */
module Burst {
  import opened Common
  import opened Anomaly

  datatype BurstConfig = BurstConfig(window: int, threshold: int, maxSamples: int)

  datatype BurstSnapshot = BurstSnapshot(count: int, window: int, threshold: int, score: real, severity: Severity)

  const NO_BURST: BurstSnapshot := BurstSnapshot(0, 0, 0, 0.0, Unset)

  function Defaults(c: BurstConfig): BurstConfig {
    var window := if c.window <= 0 then 2 * SECOND else c.window;
    var threshold := if c.threshold <= 0 then 10 else c.threshold;
    var maxSamples := if c.maxSamples <= 0 then 256 else c.maxSamples;
    BurstConfig(window, threshold, if maxSamples < threshold then threshold else maxSamples)
  }

  /** What the detector relies on, and what `Defaults` establishes for every configuration. */
  predicate Usable(c: BurstConfig) {
    c.window > 0 && 0 < c.threshold <= c.maxSamples
  }

  lemma DefaultsUsable(c: BurstConfig)
    ensures Usable(Defaults(c))
    ensures Defaults(c).window == if c.window > 0 then c.window else 2_000_000_000
    ensures Defaults(c).threshold == if c.threshold > 0 then c.threshold else 10
    ensures c.maxSamples <= 0 ==> Defaults(c).maxSamples == Max(256, Defaults(c).threshold)
    ensures c.maxSamples > 0 ==> Defaults(c).maxSamples == Max(c.maxSamples, Defaults(c).threshold)
    ensures Defaults(Defaults(c)) == Defaults(c)
    ensures Usable(c) ==> Defaults(c) == c
  {
  }

  // ----- the detector on values -----

  /** The first position from `i` on whose event is newer than the cutoff. */
  function FirstNew(s: seq<int>, cutoff: int, i: nat): (k: nat)
    requires i <= |s|
    ensures i <= k <= |s|
    decreases |s| - i
  {
    if i == |s| || s[i] > cutoff then i else FirstNew(s, cutoff, i + 1)
  }

  /** Drops events from the front until one is newer than the cutoff. */
  function DropOld(s: seq<int>, cutoff: int): seq<int> {
    s[FirstNew(s, cutoff, 0)..]
  }

  /** Stores an event; a full buffer gives up its oldest event for it. */
  function Pushed(cap: int, s: seq<int>, now: int): seq<int> {
    (if s != [] && |s| == cap then s[1..] else s) + [now]
  }

  /** The buffered events after `now` arrives. */
  function Added(cfg: BurstConfig, s: seq<int>, now: int): seq<int> {
    DropOld(Pushed(cfg.maxSamples, s, now), now - cfg.window)
  }

  function SeverityOf(cfg: BurstConfig, count: int): Severity {
    if count >= 2 * cfg.threshold then High
    else if count >= cfg.threshold then Medium
    else None
  }

  function ScoreOf(cfg: BurstConfig, count: int): real {
    if cfg.threshold > 0 then
      var score := count as real / cfg.threshold as real;
      if score > 1.0 then 1.0 else score
    else 0.0
  }

  function SnapshotOf(cfg: BurstConfig, count: int): BurstSnapshot {
    BurstSnapshot(count, cfg.window, cfg.threshold, ScoreOf(cfg, count), SeverityOf(cfg, count))
  }

  /** The buffer after the first `n` arrivals of a history. */
  function Filled(cfg: BurstConfig, ts: seq<int>, n: nat): seq<int>
    requires n <= |ts|
  {
    if n == 0 then [] else Added(cfg, Filled(cfg, ts, n - 1), ts[n - 1])
  }

  // ----- the unbounded window -----

  /** How many of the first `n` events of a history are newer than the cutoff. */
  function NewerThan(ts: seq<int>, n: nat, cutoff: int): (count: nat)
    requires n <= |ts|
    ensures count <= n
  {
    if n == 0 then 0 else NewerThan(ts, n - 1, cutoff) + if ts[n - 1] > cutoff then 1 else 0
  }

  /** The number of the first `n` events that lie in the window that ends at the latest of them. */
  function WindowCount(cfg: BurstConfig, ts: seq<int>, n: nat): (count: nat)
    requires n <= |ts|
    ensures count <= n
  {
    if n == 0 then 0 else NewerThan(ts, n, ts[n - 1] - cfg.window)
  }

  lemma {:induction false} NewerThanIsAntitone(ts: seq<int>, n: nat, a: int, b: int)
    requires n <= |ts| && a <= b
    ensures NewerThan(ts, n, b) <= NewerThan(ts, n, a)
  {
    if n > 0 {
      NewerThanIsAntitone(ts, n - 1, a, b);
    }
  }

  /** In an ordered history the events newer than a cutoff are its last ones. */
  lemma {:induction false} NewerAreLast(ts: seq<int>, n: nat, cutoff: int, i: nat)
    requires Nondecreasing(ts) && i < n <= |ts|
    ensures ts[i] > cutoff <==> i >= n - NewerThan(ts, n, cutoff)
  {
    if ts[n - 1] > cutoff {
      if i < n - 1 {
        NewerAreLast(ts, n - 1, cutoff, i);
      }
    } else {
      assert ts[i] <= ts[n - 1];
      NoneNewer(ts, n, cutoff);
    }
  }

  lemma {:induction false} NoneNewer(ts: seq<int>, n: nat, cutoff: int)
    requires n <= |ts| && forall i :: 0 <= i < n ==> ts[i] <= cutoff
    ensures NewerThan(ts, n, cutoff) == 0
  {
    if n > 0 {
      NoneNewer(ts, n - 1, cutoff);
    }
  }

  lemma {:induction false} FirstNewIs(s: seq<int>, cutoff: int, i: nat, k: nat)
    requires i <= k <= |s|
    requires forall j :: i <= j < k ==> s[j] <= cutoff
    requires k < |s| ==> s[k] > cutoff
    ensures FirstNew(s, cutoff, i) == k
    decreases k - i
  {
    if i < k {
      FirstNewIs(s, cutoff, i + 1, k);
    }
  }

  /** Dropping old events from the last `k` of the first `n` leaves the last min(k, newer) of them. */
  lemma DropOldOfSuffix(ts: seq<int>, n: nat, k: nat, cutoff: int)
    requires Nondecreasing(ts) && k <= n <= |ts|
    ensures DropOld(ts[n - k..n], cutoff) == ts[n - Min(k, NewerThan(ts, n, cutoff))..n]
  {
    hide NewerThan, FirstNew, Nondecreasing;
    var newer := NewerThan(ts, n, cutoff);
    var s := ts[n - k..n];
    var drop := k - Min(k, newer);
    forall j | 0 <= j < k ensures s[j] > cutoff <==> j >= k - newer {
      NewerAreLast(ts, n, cutoff, n - k + j);
    }
    FirstNewIs(s, cutoff, 0, drop);
    assert s[drop..] == ts[n - Min(k, newer)..n];
  }

  /** Pushing the next event of a history onto a buffer that holds the last `k` before it. */
  lemma PushOntoSuffix(ts: seq<int>, n: nat, k: nat, cap: nat)
    requires 0 < cap && k <= cap && k < n <= |ts|
    ensures Pushed(cap, ts[n - 1 - k..n - 1], ts[n - 1]) == ts[n - (if k == cap then k else k + 1)..n]
  {
    var s := ts[n - 1 - k..n - 1];
    if k == cap {
      assert s[1..] + [ts[n - 1]] == ts[n - k..n];
    } else {
      assert s + [ts[n - 1]] == ts[n - (k + 1)..n];
    }
  }

  /** The last events of a history that are in the window, as many as there is room for. */
  function Latest(cfg: BurstConfig, ts: seq<int>, n: nat): (s: seq<int>)
    requires n <= |ts| && cfg.maxSamples >= 0
    ensures |s| == Min(cfg.maxSamples, WindowCount(cfg, ts, n))
  {
    ts[n - Min(cfg.maxSamples, WindowCount(cfg, ts, n))..n]
  }

  /** The bounded ring refines the unbounded window: for an ordered history the buffer holds exactly
      the most recent events of the window, as many of them as it has room for. */
  lemma {:induction false} RingRefinesWindow(cfg: BurstConfig, ts: seq<int>, n: nat)
    requires Usable(cfg) && Nondecreasing(ts) && n <= |ts|
    ensures Filled(cfg, ts, n) == ts[n - Min(cfg.maxSamples, WindowCount(cfg, ts, n))..n]
    ensures |Filled(cfg, ts, n)| == Min(cfg.maxSamples, WindowCount(cfg, ts, n))
  {
    hide Added, WindowCount, NewerThan, Min, Nondecreasing;
    if n == 0 {
      NoneLatest(cfg, ts);
    } else {
      RingRefinesWindow(cfg, ts, n - 1);
      LatestStep(cfg, ts, n);
    }
  }

  lemma NoneLatest(cfg: BurstConfig, ts: seq<int>)
    requires Usable(cfg)
    ensures Latest(cfg, ts, 0) == []
  {
  }

  lemma LatestStep(cfg: BurstConfig, ts: seq<int>, n: nat)
    requires Usable(cfg) && Nondecreasing(ts) && 0 < n <= |ts|
    ensures Added(cfg, Latest(cfg, ts, n - 1), ts[n - 1]) == Latest(cfg, ts, n)
  {
    hide Added, NewerThan;
    if n > 1 {
      assert ts[n - 2] <= ts[n - 1];
      NewerThanIsAntitone(ts, n - 1, ts[n - 2] - cfg.window, ts[n - 1] - cfg.window);
    } else {
      NothingNewer(ts, ts[0] - cfg.window);
    }
    NewerGrows(ts, n, ts[n - 1] - cfg.window);
    WindowStep(cfg, ts, n, WindowCount(cfg, ts, n - 1));
  }

  lemma NothingNewer(ts: seq<int>, cutoff: int)
    ensures NewerThan(ts, 0, cutoff) == 0
  {
  }

  lemma NewerGrows(ts: seq<int>, n: nat, cutoff: int)
    requires 0 < n <= |ts|
    ensures NewerThan(ts, n, cutoff) <= NewerThan(ts, n - 1, cutoff) + 1
  {
  }

  lemma WindowStep(cfg: BurstConfig, ts: seq<int>, n: nat, before: nat)
    requires Usable(cfg) && Nondecreasing(ts) && 0 < n <= |ts| && before < n
    requires NewerThan(ts, n, ts[n - 1] - cfg.window) <= before + 1
    ensures Added(cfg, ts[n - 1 - Min(cfg.maxSamples, before)..n - 1], ts[n - 1])
            == ts[n - Min(cfg.maxSamples, NewerThan(ts, n, ts[n - 1] - cfg.window))..n]
  {
    hide NewerThan, DropOld, Pushed, Nondecreasing;
    var k := Min(cfg.maxSamples, before);
    var k' := if k == cfg.maxSamples then k else k + 1;
    var cutoff := ts[n - 1] - cfg.window;
    PushOntoSuffix(ts, n, k, cfg.maxSamples);
    DropOldOfSuffix(ts, n, k', cutoff);
    assert Min(k', NewerThan(ts, n, cutoff)) == Min(cfg.maxSamples, NewerThan(ts, n, cutoff));
  }

  /** The answers agree with the unbounded window: the score and "at least medium" always, because the
      buffer has room for a whole threshold. */
  lemma ScoreAndAlarmAreExact(cfg: BurstConfig, ts: seq<int>, n: nat)
    requires Usable(cfg) && Nondecreasing(ts) && n <= |ts|
    ensures
      var ring, all := SnapshotOf(cfg, |Filled(cfg, ts, n)|), SnapshotOf(cfg, WindowCount(cfg, ts, n));
      && ring.score == all.score
      && ring.score * cfg.threshold as real == Min(WindowCount(cfg, ts, n), cfg.threshold) as real
      && ring.count == Min(cfg.maxSamples, WindowCount(cfg, ts, n))
      && ring.window == cfg.window && ring.threshold == cfg.threshold
      && (ring.severity == Medium || ring.severity == High <==> WindowCount(cfg, ts, n) >= cfg.threshold)
      && (2 * cfg.threshold <= cfg.maxSamples ==>
            (ring.severity == High <==> WindowCount(cfg, ts, n) >= 2 * cfg.threshold))
      && (ring.severity == None <==> WindowCount(cfg, ts, n) < cfg.threshold)
      && (Rank(ring.severity) >= Rank(Medium) <==> Rank(all.severity) >= Rank(Medium))
      && (2 * cfg.threshold <= cfg.maxSamples ==> ring.severity == all.severity)
      && (ring.severity == High ==> all.severity == High)
  {
    hide Filled, WindowCount, ScoreOf;
    RingRefinesWindow(cfg, ts, n);
    ScoreSaturates(cfg, |Filled(cfg, ts, n)|, WindowCount(cfg, ts, n));
    ScoreIsShare(cfg, WindowCount(cfg, ts, n));
  }

  lemma ScoreIsShare(cfg: BurstConfig, count: nat)
    requires Usable(cfg)
    ensures ScoreOf(cfg, count) * cfg.threshold as real == Min(count, cfg.threshold) as real
  {
    Quotient(count as real, cfg.threshold as real, count as real / cfg.threshold as real);
    QuotientOrder(count as real, cfg.threshold as real, 1.0);
  }

  /** The count is the number of events that are less than a window old. */
  lemma WindowIsCounted(cfg: BurstConfig, ts: seq<int>, n: nat)
    requires 0 < n <= |ts|
    ensures WindowCount(cfg, ts, n) == |set i: nat | i < n && ts[n - 1] - ts[i] < cfg.window|
  {
    hide NewerThan;
    var cutoff := ts[n - 1] - cfg.window;
    NewerAreCounted(ts, n, cutoff);
    assert (set i: nat | i < n && ts[n - 1] - ts[i] < cfg.window) == Newer(ts, n, cutoff);
  }

  ghost function Newer(ts: seq<int>, n: nat, cutoff: int): set<nat>
    requires n <= |ts|
  {
    set i: nat | i < n && ts[i] > cutoff
  }

  lemma NewerOneMore(ts: seq<int>, n: nat, cutoff: int)
    requires 0 < n <= |ts|
    ensures Newer(ts, n, cutoff) == Newer(ts, n - 1, cutoff) + (if ts[n - 1] > cutoff then {n - 1} else {})
    ensures n - 1 !in Newer(ts, n - 1, cutoff)
  {
  }

  lemma {:induction false} NewerAreCounted(ts: seq<int>, n: nat, cutoff: int)
    requires n <= |ts|
    ensures NewerThan(ts, n, cutoff) == |Newer(ts, n, cutoff)|
  {
    if n > 0 {
      hide Newer;
      NewerAreCounted(ts, n - 1, cutoff);
      NewerOneMore(ts, n, cutoff);
    } else {
      assert Newer(ts, 0, cutoff) == {};
    }
  }

  lemma ScoreSaturates(cfg: BurstConfig, count: nat, all: nat)
    requires Usable(cfg) && count == Min(cfg.maxSamples, all)
    ensures ScoreOf(cfg, count) == ScoreOf(cfg, all)
  {
    if count < all {
      ScoreIsFull(cfg, count);
      ScoreIsFull(cfg, all);
    }
  }

  /** The score is full exactly from the threshold on. */
  lemma ScoreIsFull(cfg: BurstConfig, count: int)
    requires Usable(cfg)
    ensures ScoreOf(cfg, count) == 1.0 <==> count >= cfg.threshold
    ensures ScoreOf(cfg, count) <= 1.0
    ensures count >= 0 ==> ScoreOf(cfg, count) >= 0.0
    ensures count > 0 ==> ScoreOf(cfg, count) > 0.0
  {
    QuotientOrder(count as real, cfg.threshold as real, 1.0);
    QuotientOrder(count as real, cfg.threshold as real, 0.0);
  }

  lemma {:induction false} CrowdFillsTheWindow(cfg: BurstConfig, crowd: seq<int>, n: nat)
    requires Usable(cfg) && n <= |crowd|
    requires forall i :: 0 <= i < |crowd| ==> crowd[i] == 0
    ensures NewerThan(crowd, n, -cfg.window) == n
  {
    if n > 0 {
      CrowdFillsTheWindow(cfg, crowd, n - 1);
    }
  }

  /** The severity reported after every prefix of an ordered history is that of the unbounded window. */
  ghost predicate FaithfulOn(cfg: BurstConfig, ts: seq<int>) {
    SeverityOf(cfg, |Filled(cfg, ts, |ts|)|) == SeverityOf(cfg, WindowCount(cfg, ts, |ts|))
  }

  /** Severity is reported faithfully on every ordered history exactly when the buffer has room for two
      thresholds; with a smaller buffer, which `Defaults` lets through, high severity is never reported. */
  lemma HighIsExactIff(cfg: BurstConfig)
    requires Usable(cfg)
    ensures (forall ts :: Nondecreasing(ts) ==> FaithfulOn(cfg, ts)) <==> 2 * cfg.threshold <= cfg.maxSamples
    ensures 2 * cfg.threshold > cfg.maxSamples ==>
              forall ts :: Nondecreasing(ts) ==> SeverityOf(cfg, |Filled(cfg, ts, |ts|)|) != High
  {
    hide Filled, NewerThan, ScoreOf;
    forall ts | Nondecreasing(ts)
      ensures |Filled(cfg, ts, |ts|)| <= cfg.maxSamples
      ensures 2 * cfg.threshold <= cfg.maxSamples ==> FaithfulOn(cfg, ts)
    {
      ScoreAndAlarmAreExact(cfg, ts, |ts|);
      RingRefinesWindow(cfg, ts, |ts|);
    }
    if 2 * cfg.threshold > cfg.maxSamples {
      var crowd := seq(2 * cfg.threshold, _ => 0);
      CrowdFillsTheWindow(cfg, crowd, |crowd|);
      assert Nondecreasing(crowd) && WindowCount(cfg, crowd, |crowd|) == 2 * cfg.threshold;
      assert !FaithfulOn(cfg, crowd);
    }
  }

  /** Whatever the clock does, the latest event is always kept, so a count is at least one, and the
      buffer never outgrows its capacity. What goes is only from the front, and only if it is old. */
  lemma LatestIsKept(cfg: BurstConfig, s: seq<int>, now: int)
    requires Usable(cfg) && |s| <= cfg.maxSamples
    ensures
      var pushed, kept := Pushed(cfg.maxSamples, s, now), Added(cfg, s, now);
      && 1 <= |kept| <= cfg.maxSamples
      && kept == pushed[|pushed| - |kept|..]
      && kept[|kept| - 1] == now
      && kept[0] > now - cfg.window
      && forall j :: 0 <= j < |pushed| - |kept| ==> pushed[j] <= now - cfg.window
  {
    FirstNewIsNew(Pushed(cfg.maxSamples, s, now), now - cfg.window, 0);
  }

  lemma {:induction false} FirstNewIsNew(s: seq<int>, cutoff: int, i: nat)
    requires i < |s| && s[|s| - 1] > cutoff
    ensures FirstNew(s, cutoff, i) < |s| && s[FirstNew(s, cutoff, i)] > cutoff
    ensures forall j :: i <= j < FirstNew(s, cutoff, i) ==> s[j] <= cutoff
    decreases |s| - i
  {
    if s[i] <= cutoff {
      FirstNewIsNew(s, cutoff, i + 1);
    }
  }

  // ----- the detector in place -----

  /** A slot index that has moved at most once past the end of the ring: its remainder modulo `n`. */
  function Wrap(i: nat, n: nat): (slot: nat)
    requires 0 < n && i < 2 * n
    ensures slot < n
  {
    if i < n then i else i - n
  }

  lemma WrapIsRemainder(i: nat, n: nat)
    requires 0 < n && i < 2 * n
    ensures Wrap(i, n) == i % n
  {
  }

  class BurstDetector {
    const cfg: BurstConfig
    const buf: array<int>
    var head: nat
    var size: nat

    constructor (config: BurstConfig)
      ensures cfg == Defaults(config) && Valid() && Contents() == []
      ensures fresh(buf)
    {
      cfg := Defaults(config);
      buf := new int[Defaults(config).maxSamples];
      head, size := 0, 0;
    }

    ghost predicate Valid()
      reads this
    {
      && Usable(cfg)
      && buf.Length == cfg.maxSamples
      && head < buf.Length
      && size <= buf.Length
    }

    /** The buffered events, oldest first. */
    ghost function Contents(): seq<int>
      requires Valid()
      reads this, buf
    {
      Ring(buf[..], head, size)
    }

    method Add(now: int) returns (r: BurstSnapshot)
      requires Valid()
      modifies this, buf
      ensures Valid()
      ensures Contents() == Added(cfg, old(Contents()), now)
      ensures r == SnapshotOf(cfg, |Contents()|)
    {
      hide Ring, Wrap, Pushed, DropOld, ScoreOf, SeverityOf;
      Push(now);
      Prune(now - cfg.window);
      r := SnapshotOf(cfg, size);
    }

    /** Stores an event in the next slot, taking the slot of the oldest one when the ring is full. */
    method Push(now: int)
      requires Valid()
      modifies this, buf
      ensures Valid()
      ensures Contents() == Pushed(cfg.maxSamples, old(Contents()), now)
    {
      hide Ring, Pushed;
      ghost var slots := buf[..];
      RingPush(slots, head, size, now);
      var idx := Wrap(head + size, buf.Length);
      if size == buf.Length {
        head := Wrap(head + 1, buf.Length);
        idx := Wrap(head + size - 1, buf.Length);
      } else {
        size := size + 1;
      }
      buf[idx] := now;
      assert buf[..] == slots[idx := now];
    }

    /** Gives up the events at the front that have left the window. */
    method Prune(cutoff: int)
      requires Valid()
      modifies this`head, this`size
      ensures Valid()
      ensures Contents() == DropOld(old(Contents()), cutoff)
    {
      hide Ring, Wrap;
      ghost var slots, was := buf[..], Contents();
      ghost var dropped := 0;
      while size > 0
        invariant Valid()
        invariant dropped + size == |was|
        invariant Ring(slots, head, size) == was[dropped..]
        invariant forall j :: 0 <= j < dropped ==> was[j] <= cutoff
        decreases size
      {
        var oldest := buf[head];
        if oldest > cutoff {
          break;
        }
        RingPop(slots, head, size);
        head := Wrap(head + 1, buf.Length);
        size := size - 1;
        dropped := dropped + 1;
      }
      FirstNewIs(was, cutoff, 0, dropped);
    }
  }

  /** The `size` slots of a ring that start at `head`. */
  ghost function Ring(slots: seq<int>, head: nat, size: nat): (r: seq<int>)
    requires head < |slots| && size <= |slots|
    ensures |r| == size && (size > 0 ==> r[0] == slots[head])
  {
    if head + size <= |slots| then slots[head..head + size]
    else slots[head..] + slots[..head + size - |slots|]
  }

  lemma RingAt(slots: seq<int>, head: nat, size: nat, j: nat)
    requires head < |slots| && j < size <= |slots|
    ensures Ring(slots, head, size)[j] == slots[Wrap(head + j, |slots|)]
  {
  }

  lemma RingPop(slots: seq<int>, head: nat, size: nat)
    requires head < |slots| && 0 < size <= |slots|
    ensures Ring(slots, Wrap(head + 1, |slots|), size - 1) == Ring(slots, head, size)[1..]
  {
    hide Ring;
    var left, right := Ring(slots, Wrap(head + 1, |slots|), size - 1), Ring(slots, head, size)[1..];
    forall j | 0 <= j < size - 1 ensures left[j] == right[j] {
      RingAt(slots, Wrap(head + 1, |slots|), size - 1, j);
      RingAt(slots, head, size, j + 1);
    }
    assert left == right;
  }

  lemma RingAppend(slots: seq<int>, head: nat, size: nat, x: int)
    requires head < |slots| && size < |slots|
    ensures Ring(slots[Wrap(head + size, |slots|) := x], head, size + 1) == Pushed(|slots|, Ring(slots, head, size), x)
  {
    hide Ring;
    var after := slots[Wrap(head + size, |slots|) := x];
    var left, right := Ring(after, head, size + 1), Ring(slots, head, size) + [x];
    forall j | 0 <= j < size + 1 ensures left[j] == right[j] {
      RingAt(after, head, size + 1, j);
      if j < size {
        RingAt(slots, head, size, j);
      }
    }
    assert left == right;
  }

  /** In a full ring the newest event takes the slot of the oldest one. */
  lemma RingRotate(slots: seq<int>, head: nat, x: int)
    requires head < |slots|
    ensures Wrap(Wrap(head + 1, |slots|) + |slots| - 1, |slots|) == head
    ensures Ring(slots[head := x], Wrap(head + 1, |slots|), |slots|) == Pushed(|slots|, Ring(slots, head, |slots|), x)
  {
    hide Ring;
    var n, after := |slots|, slots[head := x];
    var left, right := Ring(after, Wrap(head + 1, n), n), Ring(slots, head, n)[1..] + [x];
    forall j | 0 <= j < n ensures left[j] == right[j] {
      RingAt(after, Wrap(head + 1, n), n, j);
      if j + 1 < n {
        RingAt(slots, head, n, j + 1);
      }
    }
    assert left == right;
    assert Ring(slots, head, n) != [];
  }

  lemma RingPush(slots: seq<int>, head: nat, size: nat, x: int)
    requires head < |slots| && size <= |slots|
    ensures
      var n, full := |slots|, size == |slots|;
      var head' := if full then Wrap(head + 1, n) else head;
      var size' := if full then size else size + 1;
      var idx := if full then Wrap(head' + size - 1, n) else Wrap(head + size, n);
      Ring(slots[idx := x], head', size') == Pushed(n, Ring(slots, head, size), x)
  {
    hide Ring, Pushed;
    if size == |slots| {
      RingRotate(slots, head, x);
    } else {
      RingAppend(slots, head, size, x);
    }
  }
}
