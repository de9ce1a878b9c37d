/** The exponentially weighted moving average (stats/ewma.go). */
module Ewma {
  import opened Common

  const DEFAULT_ALPHA: real := 0.3

  datatype Average = Average(value: real, alpha: real, initialized: bool)

  function ClampAlpha(alpha: real): real {
    if alpha <= 0.0 then DEFAULT_ALPHA else if alpha > 1.0 then 1.0 else alpha
  }

  function Fresh(alpha: real): Average {
    Average(0.0, ClampAlpha(alpha), false)
  }

  function Updated(e: Average, value: real): Average {
    var alpha := if e.alpha == 0.0 then DEFAULT_ALPHA else e.alpha;
    if !e.initialized then Average(value, alpha, true)
    else Average(Mix(alpha, value, e.value), alpha, true)
  }

  function Mix(alpha: real, value: real, average: real): real {
    alpha * value + (1.0 - alpha) * average
  }

  function Retuned(e: Average, alpha: real): Average {
    e.(alpha := ClampAlpha(alpha))
  }

  /** The average after the first `n` samples of a history, with a fixed weight. */
  function Averaged(alpha: real, xs: seq<real>, n: nat): Average
    requires n <= |xs|
  {
    if n == 0 then Fresh(alpha) else Updated(Averaged(alpha, xs, n - 1), xs[n - 1])
  }

  // ----- the closed form -----

  /** The weight that sample `i` of `n` carries: geometric in its age, the first one taking the rest. */
  function Weight(alpha: real, n: nat, i: nat): real
    requires i < n
  {
    if i == 0 then Power(1.0 - alpha, n - 1) else alpha * Power(1.0 - alpha, n - 1 - i)
  }

  /** The weighted sum of the first `k` of `n` samples. */
  function WeightedSum(alpha: real, xs: seq<real>, n: nat, k: nat): real
    requires k <= n <= |xs|
  {
    if k == 0 then 0.0 else WeightedSum(alpha, xs, n, k - 1) + Weight(alpha, n, k - 1) * xs[k - 1]
  }

  function TotalWeight(alpha: real, n: nat, k: nat): real
    requires k <= n
  {
    if k == 0 then 0.0 else TotalWeight(alpha, n, k - 1) + Weight(alpha, n, k - 1)
  }

  ghost predicate Scaled(scaled: real, factor: real, original: real) {
    scaled == factor * original
  }

  /** One more sample scales every older weight by 1 - alpha. */
  lemma {:induction false} OlderWeightsShrink(alpha: real, xs: seq<real>, n: nat, k: nat)
    requires k <= n < |xs|
    ensures Scaled(WeightedSum(alpha, xs, n + 1, k), 1.0 - alpha, WeightedSum(alpha, xs, n, k))
    ensures Scaled(TotalWeight(alpha, n + 1, k), 1.0 - alpha, TotalWeight(alpha, n, k))
  {
    hide Weight, Scaled;
    var c := 1.0 - alpha;
    if k == 0 {
      ZeroScales(c);
    } else {
      OlderWeightsShrink(alpha, xs, n, k - 1);
      WeightShrinks(alpha, n, k - 1);
      var w, w' := Weight(alpha, n, k - 1), Weight(alpha, n + 1, k - 1);
      TermScales(c, WeightedSum(alpha, xs, n, k - 1), WeightedSum(alpha, xs, n + 1, k - 1), w, w', xs[k - 1],
        WeightedSum(alpha, xs, n, k), WeightedSum(alpha, xs, n + 1, k));
      SumScales(c, TotalWeight(alpha, n, k - 1), TotalWeight(alpha, n + 1, k - 1), w, w');
    }
  }

  lemma ZeroScales(c: real)
    ensures Scaled(0.0, c, 0.0)
  {
  }

  lemma SumScales(c: real, s: real, s': real, w: real, w': real)
    requires Scaled(s', c, s) && Scaled(w', c, w)
    ensures Scaled(s' + w', c, s + w)
  {
  }

  lemma TermScales(c: real, s: real, s': real, w: real, w': real, x: real, t: real, t': real)
    requires Scaled(s', c, s) && Scaled(w', c, w)
    requires t == s + w * x && t' == s' + w' * x
    ensures Scaled(t', c, t)
  {
    assert (c * w) * x == c * (w * x);
  }

  lemma WeightShrinks(alpha: real, n: nat, i: nat)
    requires i < n
    ensures Scaled(Weight(alpha, n + 1, i), 1.0 - alpha, Weight(alpha, n, i))
  {
    var c := 1.0 - alpha;
    if i == 0 {
      assert Power(c, n) == c * Power(c, n - 1);
    } else {
      assert Power(c, n - i) == c * Power(c, n - 1 - i);
      assert alpha * (c * Power(c, n - 1 - i)) == c * (alpha * Power(c, n - 1 - i));
    }
  }

  /** The average is the geometric weighted sum of the whole history, with weights adding up to one. */
  lemma {:induction false} ClosedForm(alpha: real, xs: seq<real>, n: nat)
    requires 0 < n <= |xs|
    ensures Averaged(alpha, xs, n).initialized && Averaged(alpha, xs, n).alpha == ClampAlpha(alpha)
    ensures Averaged(alpha, xs, n).value == WeightedSum(ClampAlpha(alpha), xs, n, n)
    ensures TotalWeight(ClampAlpha(alpha), n, n) == 1.0
  {
    hide Weight, ClampAlpha, Scaled, Updated;
    var a := ClampAlpha(alpha);
    assert a != 0.0 by { AlphaIsAWeight(alpha); }
    if n == 1 {
      FirstWeight(a);
      FirstSample(alpha, xs[0], Weight(a, 1, 0));
    } else {
      ClosedForm(alpha, xs, n - 1);
      OlderWeightsShrink(a, xs, n - 1, n - 1);
      LastWeight(a, n);
      SampleJoins(Averaged(alpha, xs, n - 1), xs[n - 1], Averaged(alpha, xs, n),
        WeightedSum(a, xs, n, n - 1), TotalWeight(a, n - 1, n - 1), TotalWeight(a, n, n - 1),
        Weight(a, n, n - 1), WeightedSum(a, xs, n, n));
    }
  }

  /** A weight in (0, 1] is the weight of the average; none stands for 0.3, and with one above 1 only the latest
      sample matters. */
  lemma ConfiguredWeight(alpha: real, xs: seq<real>, n: nat)
    requires 0 < n <= |xs|
    ensures 0.0 < alpha <= 1.0 ==> Averaged(alpha, xs, n).value == WeightedSum(alpha, xs, n, n)
    ensures alpha <= 0.0 ==> Averaged(alpha, xs, n).value == WeightedSum(0.3, xs, n, n)
    ensures alpha >= 1.0 ==> Averaged(alpha, xs, n).value == xs[n - 1]
  {
    hide WeightedSum, Mix;
    ClosedForm(alpha, xs, n);
    if n > 1 {
      ClosedForm(alpha, xs, n - 1);
    }
    MixOfOne(xs[n - 1], if n == 1 then 0.0 else Averaged(alpha, xs, n - 1).value);
    assert Averaged(alpha, xs, 0) == Fresh(alpha);
  }

  lemma MixOfOne(x: real, v: real)
    ensures Mix(1.0, x, v) == x
  {
  }

  lemma SampleJoins(e: Average, x: real, e': Average, older: real, weights: real, weights': real, w: real, sum: real)
    requires e.initialized && e.alpha != 0.0 && e' == Updated(e, x)
    requires Scaled(older, 1.0 - e.alpha, e.value) && w == e.alpha && sum == older + w * x
    requires weights == 1.0 && Scaled(weights', 1.0 - e.alpha, weights)
    ensures e'.initialized && e'.alpha == e.alpha
    ensures e'.value == sum && weights' + w == 1.0
  {
    hide Mix, Scaled;
    MixIs(e.alpha, x, e.value, older, w, sum);
    WholeScales(e.alpha, weights, weights');
  }

  lemma MixIs(alpha: real, x: real, value: real, older: real, w: real, sum: real)
    requires Scaled(older, 1.0 - alpha, value) && w == alpha && sum == older + w * x
    ensures Mix(alpha, x, value) == sum
  {
    Substitute(w, alpha, x);
  }

  lemma WholeScales(alpha: real, weights: real, weights': real)
    requires weights == 1.0 && Scaled(weights', 1.0 - alpha, weights)
    ensures weights' == 1.0 - alpha
  {
    Substitute(weights, 1.0, 1.0 - alpha);
  }

  lemma AlphaIsAWeight(alpha: real)
    ensures 0.0 < ClampAlpha(alpha) <= 1.0
  {
  }

  lemma FirstSample(alpha: real, x: real, w: real)
    requires w == 1.0
    ensures Updated(Fresh(alpha), x) == Average(x, ClampAlpha(alpha), true)
    ensures 0.0 + w * x == x
  {
  }

  lemma FirstWeight(alpha: real)
    ensures Weight(alpha, 1, 0) == 1.0
  {
  }

  lemma LastWeight(alpha: real, n: nat)
    requires n > 1
    ensures Weight(alpha, n, n - 1) == alpha
  {
    assert Power(1.0 - alpha, 0) == 1.0;
  }

  // ----- bounds -----

  /** What callers may do to an average: feed it a sample, or change its weight midstream. */
  datatype Op = Sample(x: real) | SetAlpha(alpha: real)

  function Applied(e: Average, op: Op): Average {
    match op
    case Sample(x) => Updated(e, x)
    case SetAlpha(alpha) => Retuned(e, alpha)
  }

  function Run(alpha: real, ops: seq<Op>, n: nat): Average
    requires n <= |ops|
  {
    if n == 0 then Fresh(alpha) else Applied(Run(alpha, ops, n - 1), ops[n - 1])
  }

  lemma Blend(a: real, x: real, v: real, lo: real, hi: real)
    requires 0.0 <= a <= 1.0 && lo <= x <= hi && lo <= v <= hi
    ensures lo <= Mix(a, x, v) <= hi
  {
    ProductNonnegative(a, x - lo, a * (x - lo));
    ProductNonnegative(1.0 - a, v - lo, (1.0 - a) * (v - lo));
    ProductNonnegative(a, hi - x, a * (hi - x));
    ProductNonnegative(1.0 - a, hi - v, (1.0 - a) * (hi - v));
  }

  /** Some of the first `n` calls is a sample. */
  predicate Sampled(ops: seq<Op>, n: nat)
    requires n <= |ops|
  {
    exists i :: 0 <= i < n && ops[i].Sample?
  }

  ghost predicate Between(e: Average, lo: real, hi: real) {
    0.0 < e.alpha <= 1.0 && (e.initialized ==> lo <= e.value <= hi)
  }

  /** Between the least and the greatest sample, however the weight was changed on the way. */
  lemma {:induction false} StaysInRange(alpha: real, ops: seq<Op>, n: nat, lo: real, hi: real)
    requires n <= |ops|
    requires forall i :: 0 <= i < n && ops[i].Sample? ==> lo <= ops[i].x <= hi
    ensures Between(Run(alpha, ops, n), lo, hi)
    ensures Run(alpha, ops, n).initialized <==> Sampled(ops, n)
  {
    hide Applied, Between;
    if n == 0 {
      FreshIsBetween(alpha, lo, hi);
    } else {
      StaysInRange(alpha, ops, n - 1, lo, hi);
      StepStaysBetween(Run(alpha, ops, n - 1), ops[n - 1], lo, hi);
      if Sampled(ops, n) && !ops[n - 1].Sample? {
        var i :| 0 <= i < n && ops[i].Sample?;
        assert i < n - 1;
      }
    }
  }

  lemma FreshIsBetween(alpha: real, lo: real, hi: real)
    ensures Between(Fresh(alpha), lo, hi) && !Fresh(alpha).initialized
  {
  }

  lemma StepStaysBetween(e: Average, op: Op, lo: real, hi: real)
    requires Between(e, lo, hi) && (op.Sample? ==> lo <= op.x <= hi)
    ensures Between(Applied(e, op), lo, hi)
    ensures Applied(e, op).initialized <==> e.initialized || op.Sample?
  {
    hide Mix;
    if op.Sample? && e.initialized {
      Blend(e.alpha, op.x, e.value, lo, hi);
    }
  }

  class EwmaStat {
    var value: real
    var alpha: real
    var initialized: bool

    constructor (a: real)
      ensures Abstract() == Fresh(a)
    {
      value, alpha, initialized := 0.0, ClampAlpha(a), false;
    }

    ghost function Abstract(): Average
      reads this
    {
      Average(value, alpha, initialized)
    }

    method Observe(x: real) returns (r: real)
      modifies this
      ensures Abstract() == Updated(old(Abstract()), x)
      ensures r == value
    {
      if alpha == 0.0 {
        alpha := DEFAULT_ALPHA;
      }
      if !initialized {
        value := x;
        initialized := true;
        return value;
      }
      value := alpha * x + (1.0 - alpha) * value;
      return value;
    }

    method Get() returns (r: real)
      ensures r == Abstract().value
    {
      r := value;
    }

    method Retune(a: real)
      modifies this
      ensures Abstract() == Retuned(old(Abstract()), a)
    {
      alpha := ClampAlpha(a);
    }
  }
}
