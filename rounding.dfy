/**
 * Rounding a ratio to two decimals, as `+x.toFixed(2)` does on the exact
 * value: the magnitude goes to the nearest hundredth, a tie goes to the
 * larger magnitude, and the sign is put back.
 */
module Rounding {

  /** `h` is a whole number of hundredths. */
  predicate IsHundredth(h: real) {
    (h * 100.0).Floor as real == h * 100.0
  }

  /** Nearest hundredth to a non-negative `x`, ties upwards. */
  function RoundMagnitude(x: real): (r: real)
    requires x >= 0.0
    ensures IsHundredth(r)
    ensures x - 0.005 < r <= x + 0.005
  {
    (x * 100.0 + 0.5).Floor as real / 100.0
  }

  /** `+x.toFixed(2)`: round the magnitude, keep the sign. */
  function Round2(x: real): (r: real)
    ensures IsHundredth(r)
    ensures x >= 0.0 ==> x - 0.005 < r <= x + 0.005
    ensures x < 0.0 ==> x - 0.005 <= r < x + 0.005
  {
    if x >= 0.0 then RoundMagnitude(x)
    else
      var m := RoundMagnitude(-x);
      NegatedHundredth(m);
      -m
  }

  /** Whole hundredths are closed under negation. */
  lemma NegatedHundredth(h: real)
    requires IsHundredth(h)
    ensures IsHundredth(-h)
  {
    var k := (h * 100.0).Floor;
    assert -h * 100.0 == (-k) as real;
  }

  /** The contract of Round2 pins its result down: exactly one hundredth lies in each window. */
  lemma Round2Unique(x: real, h: real)
    requires IsHundredth(h)
    requires x >= 0.0 ==> x - 0.005 < h <= x + 0.005
    requires x < 0.0 ==> x - 0.005 <= h < x + 0.005
    ensures h == Round2(x)
  {
    var r := Round2(x);
    var hi, ri := (h * 100.0).Floor, (r * 100.0).Floor;
    assert hi as real - ri as real < 1.0;
    assert ri as real - hi as real < 1.0;
    assert hi == ri;
  }

  /** A value that is already a whole number of hundredths is left as it is. */
  lemma Round2OfHundredth(h: real)
    requires IsHundredth(h)
    ensures Round2(h) == h
  {
    Round2Unique(h, h);
  }

  /** Rounding never reverses the order of two values. */
  lemma Round2Monotone(x: real, y: real)
    requires x <= y
    ensures Round2(x) <= Round2(y)
  {
    if 0.0 <= x {
      assert (x * 100.0 + 0.5).Floor <= (y * 100.0 + 0.5).Floor;
    } else if y < 0.0 {
      assert (-y * 100.0 + 0.5).Floor <= (-x * 100.0 + 0.5).Floor;
    }
  }

  /** Rounding keeps a value inside any interval whose ends are whole hundredths. */
  lemma Round2Within(x: real, lo: real, hi: real)
    requires IsHundredth(lo) && IsHundredth(hi)
    requires lo <= x <= hi
    ensures lo <= Round2(x) <= hi
  {
    Round2Monotone(lo, x);
    Round2Monotone(x, hi);
    Round2OfHundredth(lo);
    Round2OfHundredth(hi);
  }

  /** A non-negative value rounds below a hundredth `h` exactly when it lies more than half a hundredth below `h`. */
  lemma Round2Below(x: real, h: real)
    requires x >= 0.0 && IsHundredth(h)
    ensures Round2(x) < h <==> x < h - 0.005
  {
    var f, k := (x * 100.0 + 0.5).Floor, (h * 100.0).Floor;
    assert Round2(x) == f as real / 100.0;
    assert Round2(x) < h <==> f < k;
  }

  /** Rounding keeps the unit intervals [0, 1] and [-1, 1] and leaves 0, 1 and -1 where they are. */
  lemma Round2Anchors(x: real)
    ensures 0.0 <= x <= 1.0 ==> 0.0 <= Round2(x) <= 1.0
    ensures -1.0 <= x <= 1.0 ==> -1.0 <= Round2(x) <= 1.0
    ensures x == 0.0 ==> Round2(x) == 0.0
    ensures x == 1.0 ==> Round2(x) == 1.0
    ensures x == -1.0 ==> Round2(x) == -1.0
  {
    if 0.0 <= x <= 1.0 {
      Round2Within(x, 0.0, 1.0);
    }
    if -1.0 <= x <= 1.0 {
      Round2Within(x, -1.0, 1.0);
    }
    Round2OfHundredth(0.0);
    Round2OfHundredth(1.0);
    Round2OfHundredth(-1.0);
  }
}
