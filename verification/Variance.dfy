/** Welford's online mean and variance (stats/variance.go), shown equal to the batch formulas. */
module Variance {
  import opened Common

  /** The accumulator: the sample count, the mean, and the sum of squared deviations from it. */
  datatype Running = Running(count: nat, mean: real, m2: real)

  datatype RunningSnapshot = RunningSnapshot(count: nat, mean: real, variance: real, stdDev: real)

  const START: Running := Running(0, 0.0, 0.0)

  function Update(r: Running, value: real): Running {
    var count := r.count + 1;
    var mean := r.mean + (value - r.mean) / count as real;
    Running(count, mean, r.m2 + Spread(value, r.mean, mean))
  }

  /** The distances of a sample from the mean before and after it, multiplied. */
  function Spread(value: real, before: real, after: real): real {
    (value - before) * (value - after)
  }

  function Square(x: real): real {
    x * x
  }

  function VarianceOf(r: Running): real {
    if r.count >= 2 then r.m2 / (r.count - 1) as real else 0.0
  }

  /** The snapshot; `sqrt` is the caller's square root. */
  function SnapshotOf(r: Running, sqrt: real -> real): RunningSnapshot {
    RunningSnapshot(r.count, r.mean, VarianceOf(r), sqrt(VarianceOf(r)))
  }

  /** The accumulator after the first `n` samples of a history. */
  function Accumulated(xs: seq<real>, n: nat): Running
    requires n <= |xs|
  {
    if n == 0 then START else Update(Accumulated(xs, n - 1), xs[n - 1])
  }

  // ----- the batch formulas -----

  function Sum(xs: seq<real>, n: nat): real
    requires n <= |xs|
  {
    if n == 0 then 0.0 else Sum(xs, n - 1) + xs[n - 1]
  }

  function SumOfSquares(xs: seq<real>, n: nat): real
    requires n <= |xs|
  {
    if n == 0 then 0.0 else SumOfSquares(xs, n - 1) + Square(xs[n - 1])
  }

  /** The sum of squared deviations of the first `n` samples from a centre. */
  function Deviation(xs: seq<real>, n: nat, centre: real): real
    requires n <= |xs|
  {
    if n == 0 then 0.0
    else Deviation(xs, n - 1, centre) + Square(xs[n - 1] - centre)
  }

  function BatchMean(xs: seq<real>): real
    requires xs != []
  {
    Sum(xs, |xs|) / |xs| as real
  }

  /** The textbook sample variance, with n - 1 in the denominator. */
  function SampleVariance(xs: seq<real>): real {
    if |xs| < 2 then 0.0 else Deviation(xs, |xs|, BatchMean(xs)) / (|xs| - 1) as real
  }

  // ----- Welford's step -----

  /** One step keeps `n * mean` equal to the sum of the samples. */
  lemma MeanStep(n: real, n': real, mean: real, sum: real, x: real, step: real, mean': real)
    requires n' == n + 1.0 && n * mean == sum
    requires step * n' == x - mean && mean' == mean + step
    ensures mean' * n' == sum + x
  {
    Substitute(mean', mean + step, n');
    Substitute(n', n + 1.0, mean);
  }

  /** One step keeps `m2` equal to the sum of squares less `n` squared means. */
  lemma SpreadStep(n: real, n': real, a: real, b: real, x: real, sum: real)
    requires n' == n + 1.0 && n * a == sum && b * n' == sum + x
    ensures (x - a) * (x - b) == x * x - n' * (b * b) + n * (a * a)
  {
    Substitute(b * n', n * a + x, b);
    Substitute(n', n + 1.0, b);
    Substitute(n * b, n * a + x - b, a);
  }

  /** Squared deviations expand into the sums that Welford's algorithm keeps. */
  lemma {:induction false} DeviationExpands(xs: seq<real>, n: nat, c: real)
    requires n <= |xs|
    ensures Expands(Deviation(xs, n, c), SumOfSquares(xs, n), Sum(xs, n), n as real, c)
    ensures Deviation(xs, n, c) >= 0.0
  {
    hide Expands, Square;
    if n == 0 {
      NothingExpands(c);
    } else {
      var x := xs[n - 1];
      DeviationExpands(xs, n - 1, c);
      SquareNonnegative(x - c);
      ExpandStep(Deviation(xs, n - 1, c), SumOfSquares(xs, n - 1), Sum(xs, n - 1), (n - 1) as real, c, x);
    }
  }

  ghost predicate Expands(dev: real, squares: real, sum: real, n: real, c: real) {
    dev == squares - 2.0 * (c * sum) + n * (c * c)
  }

  lemma NothingExpands(c: real)
    ensures Expands(0.0, 0.0, 0.0, 0.0, c)
  {
  }

  lemma ExpandStep(dev: real, squares: real, sum: real, n: real, c: real, x: real)
    requires Expands(dev, squares, sum, n, c)
    ensures Expands(dev + Square(x - c), squares + Square(x), sum + x, n + 1.0, c)
  {
  }

  lemma SquareNonnegative(d: real)
    ensures Square(d) >= 0.0
  {
    if d >= 0.0 {
      ProductNonnegative(d, d, Square(d));
    } else {
      ProductNonnegative(-d, -d, Square(d));
    }
  }

  /** The accumulator holds what the sums of its samples say. */
  ghost predicate Agrees(r: Running, sum: real, squares: real) {
    && r.count as real * r.mean == sum
    && r.m2 == squares - r.count as real * (r.mean * r.mean)
  }

  lemma {:induction false} WelfordKeepsSums(xs: seq<real>, n: nat)
    requires n <= |xs|
    ensures Accumulated(xs, n).count == n
    ensures Agrees(Accumulated(xs, n), Sum(xs, n), SumOfSquares(xs, n))
  {
    hide Agrees, Update, Square;
    if n == 0 {
      AgreesAtStart();
    } else {
      WelfordKeepsSums(xs, n - 1);
      WelfordStep(Accumulated(xs, n - 1), xs[n - 1], Sum(xs, n - 1), SumOfSquares(xs, n - 1));
    }
  }

  lemma AgreesAtStart()
    ensures Agrees(START, 0.0, 0.0)
  {
  }

  lemma WelfordStep(r: Running, x: real, sum: real, squares: real)
    requires Agrees(r, sum, squares)
    ensures Agrees(Update(r, x), sum + x, squares + Square(x)) && Update(r, x).count == r.count + 1
  {
    hide Spread, Square, Agrees;
    var r' := Update(r, x);
    var n, n', a, b := r.count as real, r'.count as real, r.mean, r'.mean;
    AgreesIs(r, sum, squares);
    var step := (x - a) / n';
    Quotient(x - a, n', step);
    MeanStep(n, n', a, sum, x, step, b);
    SpreadIs(n, n', a, b, x, sum);
    AgreesBy(r', n', b, r.m2 + Spread(x, a, b), sum + x, squares + Square(x),
             squares - r.m2 + Square(x) - Spread(x, a, b));
  }

  lemma SpreadIs(n: real, n': real, a: real, b: real, x: real, sum: real)
    requires n' == n + 1.0 && n * a == sum && b * n' == sum + x
    ensures Spread(x, a, b) == Square(x) - n' * (b * b) + n * (a * a)
  {
    SpreadStep(n, n', a, b, x, sum);
  }

  lemma AgreesIs(r: Running, sum: real, squares: real)
    requires Agrees(r, sum, squares)
    ensures r.count as real * r.mean == sum && squares - r.m2 == r.count as real * (r.mean * r.mean)
  {
  }

  lemma AgreesBy(r: Running, n: real, mean: real, m2: real, sum: real, squares: real, less: real)
    requires r.count as real == n && r.mean == mean && r.m2 == m2
    requires mean * n == sum && m2 == squares - less && less == n * (mean * mean)
    ensures Agrees(r, sum, squares)
  {
  }

  /** The online accumulator agrees with the batch formulas on every history. */
  lemma WelfordIsBatch(xs: seq<real>, n: nat)
    requires n <= |xs|
    ensures
      var r := Accumulated(xs, n);
      && r.count == n
      && n as real * r.mean == Sum(xs, n)
      && r.m2 == SumOfSquares(xs, n) - n as real * (r.mean * r.mean)
      && r.m2 == Deviation(xs, n, r.mean)
      && r.m2 >= 0.0
  {
    hide *;
    var r := Accumulated(xs, n);
    WelfordKeepsSums(xs, n);
    DeviationExpands(xs, n, r.mean);
    CentredDeviation(r, Sum(xs, n), SumOfSquares(xs, n), Deviation(xs, n, r.mean));
  }

  lemma CentredDeviation(r: Running, sum: real, squares: real, dev: real)
    requires Agrees(r, sum, squares) && Expands(dev, squares, sum, r.count as real, r.mean)
    ensures r.count as real * r.mean == sum
    ensures r.m2 == squares - r.count as real * (r.mean * r.mean)
    ensures r.m2 == dev
  {
    Substitute(sum, r.count as real * r.mean, r.mean);
  }

  /** What `math.Sqrt` is relied on for. */
  ghost predicate IsSquareRoot(sqrt: real -> real) {
    forall v {:trigger sqrt(v)} :: v >= 0.0 ==> sqrt(v) >= 0.0 && sqrt(v) * sqrt(v) == v
  }

  /** What a snapshot reports is the mean and the sample variance of the history, and the standard
      deviation is the nonnegative root of that variance. */
  lemma SnapshotIsBatch(xs: seq<real>, sqrt: real -> real)
    requires IsSquareRoot(sqrt)
    ensures
      var snap := SnapshotOf(Accumulated(xs, |xs|), sqrt);
      && snap.count == |xs|
      && (xs != [] ==> snap.mean == BatchMean(xs))
      && snap.variance == SampleVariance(xs) >= 0.0
      && snap.stdDev >= 0.0 && snap.stdDev * snap.stdDev == snap.variance
  {
    hide Accumulated, BatchMean, Deviation;
    var r := Accumulated(xs, |xs|);
    BatchOfAll(xs, r.mean, r.m2);
    if |xs| >= 2 {
      QuotientOrder(r.m2, (|xs| - 1) as real, 0.0);
    }
  }

  lemma BatchOfAll(xs: seq<real>, mean: real, m2: real)
    requires mean == Accumulated(xs, |xs|).mean && m2 == Accumulated(xs, |xs|).m2
    ensures Accumulated(xs, |xs|).count == |xs|
    ensures xs != [] ==> mean == BatchMean(xs) && m2 == Deviation(xs, |xs|, BatchMean(xs))
    ensures m2 >= 0.0
  {
    hide Accumulated, Sum, SumOfSquares, Deviation;
    WelfordIsBatch(xs, |xs|);
    if xs != [] {
      MeanIsQuotient(|xs| as real, mean, Sum(xs, |xs|));
    }
  }

  lemma MeanIsQuotient(n: real, mean: real, sum: real)
    requires n > 0.0 && n * mean == sum
    ensures sum / n == mean
  {
    QuotientOrder(sum, n, mean);
  }

  /** The accumulator does not depend on the order in which the samples came. */
  lemma OrderIsIrrelevant(xs: seq<real>, ys: seq<real>)
    requires multiset(xs) == multiset(ys)
    ensures |xs| == |ys| && Accumulated(xs, |xs|) == Accumulated(ys, |ys|)
  {
    assert |multiset(xs)| == |xs| && |multiset(ys)| == |ys|;
    if xs == [] {
      assert ys == [];
      return;
    }
    hide Accumulated, Agrees, Sum, SumOfSquares;
    SumsOfPermutation(xs, ys);
    WelfordKeepsSums(xs, |xs|);
    WelfordKeepsSums(ys, |ys|);
    SumsDetermine(Accumulated(xs, |xs|), Accumulated(ys, |ys|), Sum(xs, |xs|), SumOfSquares(xs, |xs|));
  }

  lemma SumsDetermine(r: Running, r': Running, sum: real, squares: real)
    requires r.count == r'.count && Agrees(r, sum, squares) && Agrees(r', sum, squares)
    requires r.count > 0
    ensures r == r'
  {
    hide Agrees;
    AgreesIs(r, sum, squares);
    AgreesIs(r', sum, squares);
    MeanIsQuotient(r.count as real, r.mean, sum);
    MeanIsQuotient(r.count as real, r'.mean, sum);
    SameSpread(r.count as real, r.mean, r'.mean);
  }

  lemma SameSpread(n: real, a: real, b: real)
    requires a == b
    ensures n * (a * a) == n * (b * b)
  {
  }

  lemma {:induction false} SumsOfPermutation(xs: seq<real>, ys: seq<real>)
    requires multiset(xs) == multiset(ys)
    ensures Sum(xs, |xs|) == Sum(ys, |ys|) && SumOfSquares(xs, |xs|) == SumOfSquares(ys, |ys|)
    decreases |xs|
  {
    hide Square;
    assert |multiset(xs)| == |xs| && |multiset(ys)| == |ys|;
    if xs != [] {
      var n := |xs| - 1;
      var i := LastElsewhere(xs, ys);
      var front, rest := xs[..n], ys[..i] + ys[i + 1..];
      SumsOfPermutation(front, rest);
      SumsOfPrefix(xs, front, n);
      SumsWithout(ys, i, |ys|);
    }
  }

  /** The place in a permutation of the last sample of a history. */
  lemma LastElsewhere(xs: seq<real>, ys: seq<real>) returns (i: nat)
    requires multiset(xs) == multiset(ys) && xs != []
    ensures i < |ys| && ys[i] == xs[|xs| - 1]
    ensures multiset(xs[..|xs| - 1]) == multiset(ys[..i] + ys[i + 1..])
  {
    var n := |xs| - 1;
    assert xs[n] in multiset(ys);
    i :| 0 <= i < |ys| && ys[i] == xs[n];
    assert xs == xs[..n] + [xs[n]];
    assert ys == ys[..i] + [ys[i]] + ys[i + 1..];
    calc {
      multiset(xs[..n]);
      multiset(xs) - multiset{xs[n]};
      multiset(ys) - multiset{ys[i]};
      multiset(ys[..i]) + multiset(ys[i + 1..]);
      multiset(ys[..i] + ys[i + 1..]);
    }
  }

  /** Histories that agree on their first `n` samples agree on the sums of those. */
  lemma {:induction false} SumsOfPrefix(xs: seq<real>, ys: seq<real>, n: nat)
    requires n <= |xs| && n <= |ys|
    requires forall i :: 0 <= i < n ==> xs[i] == ys[i]
    ensures Sum(xs, n) == Sum(ys, n) && SumOfSquares(xs, n) == SumOfSquares(ys, n)
  {
    hide Square;
    if n > 0 {
      SumsOfPrefix(xs, ys, n - 1);
    }
  }

  /** Taking one sample out of a history takes it out of both sums. */
  lemma {:induction false} SumsWithout(ys: seq<real>, i: nat, n: nat)
    requires i < n <= |ys|
    ensures Sum(ys, n) == Sum(ys[..i] + ys[i + 1..], n - 1) + ys[i]
    ensures SumOfSquares(ys, n) == SumOfSquares(ys[..i] + ys[i + 1..], n - 1) + Square(ys[i])
  {
    hide Square;
    var rest := ys[..i] + ys[i + 1..];
    if i < n - 1 {
      SumsWithout(ys, i, n - 1);
      assert rest[n - 2] == ys[n - 1];
    } else {
      SumsOfPrefix(ys, rest, i);
    }
  }

  /** Samples confined to (0, top] keep the mean there, and the spread below that of a two-point
      distribution on 0 and `top` with the same mean. */
  lemma SpreadIsBounded(xs: seq<real>, n: nat, top: real)
    requires 0 < n <= |xs|
    requires forall i :: 0 <= i < n ==> 0.0 < xs[i] <= top
    ensures 0.0 < Accumulated(xs, n).mean <= top
    ensures Accumulated(xs, n).m2 <= n as real * Accumulated(xs, n).mean * (top - Accumulated(xs, n).mean)
  {
    hide *;
    WelfordKeepsSums(xs, n);
    SumsAreBounded(xs, n, top);
    SpreadOfSums(Accumulated(xs, n), n as real, Sum(xs, n), SumOfSquares(xs, n), top);
  }

  lemma SpreadOfSums(r: Running, n: real, sum: real, squares: real, top: real)
    requires Agrees(r, sum, squares) && n == r.count as real > 0.0
    requires 0.0 < sum <= top * n && squares <= top * sum
    ensures 0.0 < r.mean <= top
    ensures r.m2 <= n * r.mean * (top - r.mean)
  {
    AgreesIs(r, sum, squares);
    Cancel(top, r.mean, n);
    Cancel(0.0, r.mean, n);
    Substitute(sum, n * r.mean, top);
  }

  lemma {:induction false} SumsAreBounded(xs: seq<real>, n: nat, top: real)
    requires n <= |xs|
    requires forall i :: 0 <= i < n ==> 0.0 < xs[i] <= top
    ensures n > 0 ==> 0.0 < Sum(xs, n)
    ensures 0.0 <= Sum(xs, n) <= top * n as real
    ensures SumOfSquares(xs, n) <= top * Sum(xs, n)
  {
    if n > 0 {
      var x := xs[n - 1];
      assert 0.0 < x <= top;
      hide Square;
      SumsAreBounded(xs, n - 1, top);
      BoundStep(x, top, Sum(xs, n - 1), SumOfSquares(xs, n - 1), (n - 1) as real);
      Substitute(n as real, (n - 1) as real + 1.0, top);
    }
  }

  lemma BoundStep(x: real, top: real, sum: real, squares: real, n: real)
    requires 0.0 < x <= top && sum <= top * n && squares <= top * sum
    ensures sum + x <= top * (n + 1.0)
    ensures squares + Square(x) <= top * (sum + x)
  {
    assert top * (n + 1.0) == top * n + top;
    ProductNonnegative(x, top - x, x * (top - x));
  }

  class RunningStat {
    var count: nat
    var mean: real
    var m2: real

    constructor ()
      ensures Abstract() == START
    {
      count, mean, m2 := 0, 0.0, 0.0;
    }

    ghost function Abstract(): Running
      reads this
    {
      Running(count, mean, m2)
    }

    method Observe(value: real)
      modifies this
      ensures Abstract() == Update(old(Abstract()), value)
    {
      count := count + 1;
      var delta := value - mean;
      mean := mean + delta / count as real;
      var delta2 := value - mean;
      m2 := m2 + delta * delta2;
      assert delta * delta2 == Spread(value, old(mean), mean);
    }

    method Snapshot(sqrt: real -> real) returns (r: RunningSnapshot)
      ensures r == SnapshotOf(Abstract(), sqrt)
    {
      var variance := 0.0;
      if count >= 2 {
        variance := m2 / (count - 1) as real;
      }
      r := RunningSnapshot(count, mean, variance, sqrt(variance));
    }
  }
}
