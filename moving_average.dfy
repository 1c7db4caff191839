/**
 * The 200-day moving-average rule shared by the three clients. Prices are
 * exact reals; "last close above the mean of the last 200 closes" is
 * computed as `200 * last > sum of the last 200`, and the mean itself is
 * kept as the reference it must agree with.
 */
module MovingAverage {
  import opened Wrappers

  /** The rolling window; every client hard-codes 200. */
  const WINDOW: nat := 200

  function Sum(xs: seq<real>): real {
    if xs == [] then 0.0 else Sum(xs[..|xs| - 1]) + xs[|xs| - 1]
  }

  function Last(xs: seq<real>): real
    requires xs != []
  {
    xs[|xs| - 1]
  }

  /** The last `WINDOW` closes. */
  function Trailing(xs: seq<real>): seq<real>
    requires |xs| >= WINDOW
  {
    xs[|xs| - WINDOW..]
  }

  /** `rolling(window=200).mean()` at the last row: undefined (NaN) while
      fewer than 200 closes exist. */
  function Average(xs: seq<real>): Option<real> {
    if |xs| < WINDOW then None else Some(Sum(Trailing(xs)) / WINDOW as real)
  }

  predicate Above(xs: seq<real>) {
    |xs| >= WINDOW && WINDOW as real * Last(xs) > Sum(Trailing(xs))
  }

  predicate Below(xs: seq<real>) {
    |xs| >= WINDOW && WINDOW as real * Last(xs) < Sum(Trailing(xs))
  }

  /** The cross-multiplied comparisons agree with comparing against the mean;
      an undefined mean compares false both ways, as NaN does. */
  lemma CompareWithAverage(xs: seq<real>)
    ensures Above(xs) <==> xs != [] && Average(xs).Some? && Last(xs) > Average(xs).value
    ensures Below(xs) <==> xs != [] && Average(xs).Some? && Last(xs) < Average(xs).value
  {
    if |xs| >= WINDOW {
      var s := Sum(Trailing(xs));
      var w := WINDOW as real;
      assert (w * Last(xs) > s) <==> (Last(xs) > s / w);
      assert (w * Last(xs) < s) <==> (Last(xs) < s / w);
    }
  }

  /**
   * The long/flat signal: 1 when the last close lies strictly above the
   * 200-close mean, 0 otherwise (too few closes, or equal, or below).
   */
  function LongSignal(xs: seq<real>): (signal: int)
    ensures signal == 0 || signal == 1
    ensures signal == 1 <==> xs != [] && Average(xs).Some? && Last(xs) > Average(xs).value
  {
    CompareWithAverage(xs);
    if Above(xs) then 1 else 0
  }

  lemma {:induction false} SumConstant(xs: seq<real>, c: real)
    requires forall i :: 0 <= i < |xs| ==> xs[i] == c
    ensures Sum(xs) == |xs| as real * c
  {
    if xs != [] {
      SumConstant(xs[..|xs| - 1], c);
    }
  }

  /** A flat price history is never a buy signal: equality resolves to 0. */
  lemma FlatHistoryIsNotLong(xs: seq<real>, c: real)
    requires forall i :: 0 <= i < |xs| ==> xs[i] == c
    ensures LongSignal(xs) == 0
  {
    if |xs| >= WINDOW {
      SumConstant(Trailing(xs), c);
    }
  }
}
