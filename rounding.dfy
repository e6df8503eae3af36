/** Python's round(x, 2), taken on the exact real value: the nearest multiple
    of 0.01, with exact halves going to the even hundredth (round-half-even). */
module Rounding {

  /** The hundredths count that round(x, 2) keeps. */
  function HundredthsOf(x: real): (k: int)
    ensures -0.5 <= k as real - x * 100.0 <= 0.5
  {
    var y := x * 100.0;
    var f := y.Floor;
    var d := y - f as real;
    if d < 0.5 then f
    else if d > 0.5 then f + 1
    else if f % 2 == 0 then f
    else f + 1
  }

  function Round2(x: real): (r: real)
    ensures r == HundredthsOf(x) as real / 100.0
    ensures -0.005 <= r - x <= 0.005
  {
    HundredthsOf(x) as real / 100.0
  }

  /** Rounding never reverses the order of two values. */
  lemma HundredthsMonotone(a: real, b: real)
    requires a <= b
    ensures HundredthsOf(a) <= HundredthsOf(b)
  {
    var fa, fb := (a * 100.0).Floor, (b * 100.0).Floor;
    if fa < fb {
      assert HundredthsOf(a) <= fa + 1 <= fb <= HundredthsOf(b);
    } else {
      assert fa == fb;
    }
  }

  lemma Round2Monotone(a: real, b: real)
    requires a <= b
    ensures Round2(a) <= Round2(b)
  {
    HundredthsMonotone(a, b);
  }

  /** Values more than a hundredth apart stay strictly ordered after rounding. */
  lemma Round2Separates(a: real, b: real)
    requires a + 0.01 < b
    ensures Round2(a) < Round2(b)
  {
  }

  /** A strict order between rounded values holds of the exact values too. */
  lemma Round2Reflects(a: real, b: real)
    requires Round2(a) < Round2(b)
    ensures a < b
  {
    if b <= a {
      Round2Monotone(b, a);
    }
  }
}
