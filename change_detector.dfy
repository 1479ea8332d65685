/**
 * The significant-change rule of the cycle (app.py:186-195): a price is a
 * significant move when it differs from the last notified price by at least
 * 0.2 percent. The source's floating-point test
 * `abs((price - last) / last) * 100 >= 0.2` is restated over integers.
 */
module ChangeDetector {
  import opened Wrappers
  import opened Numbers

  /** The source's percentage test, in exact real arithmetic. */
  function PercentChange(last: int, price: int): (pct: real)
    requires last != 0
    ensures pct >= 0.0
  {
    RealAbs((price - last) as real / last as real) * 100.0
  }

  /** The integer form of the 0.2 percent test: 500 * |price - last| >= |last|. */
  predicate MovedEnough(last: int, price: int) {
    500 * Abs(price - last) >= Abs(last)
  }

  /** The absolute value of a quotient is the quotient of the absolute values. */
  lemma AbsQuotient(a: real, b: real)
    requires b != 0.0
    ensures RealAbs(a / b) * RealAbs(b) == RealAbs(a)
  {
    var q := a / b;
    assert q * b == a;
    if q < 0.0 && b < 0.0 {
      assert RealAbs(q) * RealAbs(b) == q * b;
    } else if q < 0.0 || b < 0.0 {
      assert RealAbs(q) * RealAbs(b) == -(q * b);
    }
  }

  /** A ratio x = A / y with y > 0 reaches 0.2 percent exactly when 500 * A >= y. */
  lemma RatioThreshold(x: real, y: real, A: real)
    requires y > 0.0 && x * y == A
    ensures x * 100.0 >= 0.2 <==> 500.0 * A >= y
  {
    if x * 100.0 >= 0.2 {
      assert (x * 500.0 - 1.0) * y >= 0.0;
    } else {
      assert (1.0 - x * 500.0) * y > 0.0;
    }
  }

  /** The integer test decides exactly what the percentage test decides. */
  lemma MovedEnoughIsPercent(last: int, price: int)
    requires last != 0
    ensures MovedEnough(last, price) <==> PercentChange(last, price) >= 0.2
  {
    var a := (price - last) as real;
    var b := last as real;
    AbsQuotient(a, b);
    RatioThreshold(RealAbs(a / b), RealAbs(b), RealAbs(a));
    assert RealAbs(b) == Abs(last) as real;
    assert RealAbs(a) == Abs(price - last) as real;
  }

  /**
   * The change rule: with no last price every price counts (and seeds it);
   * otherwise a move of at least 0.2 percent counts.
   */
  predicate SignificantChange(last: Option<int>, price: int): (significant: bool)
    ensures last.None? ==> significant
    ensures last.Some? && last.value != 0 ==> (significant <==> PercentChange(last.value, price) >= 0.2)
  {
    if last.Some? && last.value != 0 then MovedEnoughIsPercent(last.value, price); MovedEnough(last.value, price)
    else last.None? || MovedEnough(last.value, price)
  }

  /** The last notified price after the change rule: replaced exactly when the move counts. */
  function NextLast(last: Option<int>, price: int): (r: Option<int>)
    ensures r.Some?
    ensures r == last || r == Some(price)
    ensures r == Some(price) <==> SignificantChange(last, price) || last == Some(price)
  {
    if SignificantChange(last, price) then Some(price) else last
  }

  /** An exact 0.2 percent move counts; a 0.199 percent move does not. */
  lemma PercentBoundary()
    ensures SignificantChange(Some(1000), 1002)
    ensures SignificantChange(Some(1000), 998)
    ensures !SignificantChange(Some(100000), 100199)
    ensures !SignificantChange(Some(1000), 1000)
  {
  }
}
