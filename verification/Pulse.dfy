/** A timing that makes a cleanup pass come due just when something has been left alone for too long: calls a
    time to live apart, then one more, and then silence until the pass is due. */
module Pulse {

  /** Instants from 1 on, a time to live apart. */
  function Beat(ttl: int, i: nat): int {
    1 + i * ttl
  }

  /** After `k` beats, `at` is within a time to live of the last of them, and the pass that follows the one at
      1 comes due no later than more than a time to live after `at`, but not before. */
  ghost predicate Timely(ttl: int, interval: int, k: nat, at: int) {
    if k == 0 then at == 1 && ttl + 1 >= interval
    else Beat(ttl, k - 1) < at <= Beat(ttl, k) && at + ttl + 1 == 1 + interval
  }

  lemma BeatsAreOrdered(ttl: int, i: nat, j: nat)
    requires ttl > 0 && i <= j
    ensures Beat(ttl, i) <= Beat(ttl, j) && Beat(ttl, i + 1) == Beat(ttl, i) + ttl && Beat(ttl, 0) == 1
  {
    assert (j - i) * ttl >= 0;
    assert j * ttl == i * ttl + (j - i) * ttl;
    assert (i + 1) * ttl == i * ttl + ttl;
  }

  lemma {:induction false} Reaches(ttl: int, k: nat, at: int) returns (n: nat)
    requires ttl > 0 && Beat(ttl, k) < at
    ensures n > 0 && Beat(ttl, n - 1) < at <= Beat(ttl, n)
    decreases at - Beat(ttl, k)
  {
    hide Beat;
    BeatsAreOrdered(ttl, k, k);
    if Beat(ttl, k + 1) < at {
      n := Reaches(ttl, k + 1, at);
    } else {
      n := k + 1;
    }
  }

  lemma SomeTiming(ttl: int, interval: int) returns (k: nat, at: int)
    requires ttl > 0
    ensures Timely(ttl, interval, k, at)
  {
    hide Beat;
    if ttl + 1 >= interval {
      k, at := 0, 1;
    } else {
      at := interval - ttl;
      BeatsAreOrdered(ttl, 0, 0);
      k := Reaches(ttl, 0, at);
    }
  }
}
