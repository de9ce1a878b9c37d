/** Vocabulary shared by the other modules: instants, ordered histories and small arithmetic. */
module Common {

  /** A `time.Time` that may still be its zero value. Instants are whole nanoseconds. */
  datatype Moment = Never | At(time: int)

  const MILLISECOND: int := 1_000_000
  const SECOND: int := 1_000_000_000
  const MINUTE: int := 60 * SECOND

  function Min(a: int, b: int): int {
    if a <= b then a else b
  }

  function Max(a: int, b: int): int {
    if a >= b then a else b
  }

  function MinReal(a: real, b: real): real {
    if a <= b then a else b
  }

  function MaxReal(a: real, b: real): real {
    if a >= b then a else b
  }

  function Power(base: real, e: nat): real {
    if e == 0 then 1.0 else base * Power(base, e - 1)
  }

  /** The clock readings of a history never go back. */
  ghost predicate Nondecreasing(ts: seq<int>) {
    forall i, j :: 0 <= i <= j < |ts| ==> ts[i] <= ts[j]
  }

  // ----- sizes of sets -----

  lemma {:induction false} SubsetSize(a: set<string>, b: set<string>)
    requires a <= b
    ensures |a| <= |b|
  {
    if a != {} {
      var x :| x in a;
      SubsetSize(a - {x}, b - {x});
    }
  }

  lemma SameSize(a: set<string>, b: set<string>)
    requires a <= b && |a| == |b|
    ensures a == b
  {
    if a != b {
      var x :| x in b && x !in a;
      SubsetSize(a, b - {x});
      assert false;
    }
  }

  lemma OneFewer<T>(m: map<string, T>, k: string)
    requires k in m
    ensures |m - {k}| == |m| - 1
  {
    assert (m - {k}).Keys == m.Keys - {k};
  }

  // ----- small facts of real arithmetic -----

  // (Products are named by a parameter of their own: the solver follows `p` better than a bare square.)

  lemma ProductPositive(a: real, b: real, p: real)
    requires a > 0.0 && b > 0.0 && p == a * b
    ensures p > 0.0
  {
  }

  lemma ProductNonnegative(a: real, b: real, p: real)
    requires a >= 0.0 && b >= 0.0 && p == a * b
    ensures p >= 0.0
  {
  }

  /** Equal factors make equal products. */
  lemma Substitute(u: real, v: real, b: real)
    requires u == v
    ensures u * b == v * b
  {
  }

  /** A quotient times its divisor is the dividend. */
  lemma Quotient(c: real, t: real, q: real)
    requires t != 0.0 && q == c / t
    ensures q * t == c
  {
  }

  /** A common positive factor does not change an order. */
  lemma Cancel(a: real, b: real, g: real)
    requires g > 0.0
    ensures a * g >= b * g <==> a >= b
  {
    var d := b - a;
    Substitute(b, a + d, g);
    if a >= b {
      ProductNonnegative(-d, g, -d * g);
    } else {
      ProductPositive(d, g, d * g);
    }
  }

  /** Squares are ordered like the nonnegative numbers they come from. */
  lemma SquareOrder(a: real, t: real, aa: real, tt: real)
    requires a >= 0.0 && t > 0.0 && aa == a * a && tt == t * t
    ensures a >= t <==> aa >= tt
  {
    var p := (a - t) * (a + t);
    assert aa - tt == p;
    Cancel(a - t, 0.0, a + t);
  }

  /** A quotient compared with a bound, without the division. */
  lemma QuotientOrder(c: real, t: real, bound: real)
    requires t > 0.0
    ensures c / t * t == c
    ensures c / t >= bound <==> c >= bound * t
    ensures c / t <= bound <==> c <= bound * t
  {
    var q := c / t;
    Quotient(c, t, q);
    Cancel(q, bound, t);
    Cancel(bound, q, t);
  }
}
