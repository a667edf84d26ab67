/** Gravity pacing: the delay between two gravity ticks, as a function of the
    score and the three difficulty parameters. */
module Pacing {

  const Int32Min := -0x8000_0000
  const Int32Max := 0x7fff_ffff

  predicate InInt32(x: int) {
    Int32Min <= x <= Int32Max
  }

  /** C#'s `Math.Max`. */
  function Max(a: int, b: int): (m: int)
    ensures m >= a && m >= b && (m == a || m == b)
  {
    if a >= b then a else b
  }

  /** C#'s integer `/` by a positive divisor: the quotient truncated toward zero. */
  function DivTrunc(a: int, d: int): (q: int)
    requires d > 0
    ensures 0 <= a ==> 0 <= q * d <= a < q * d + d
    ensures a < 0 ==> q * d - d < a <= q * d <= 0
  {
    if a >= 0 then
      EuclideanDivision(a, d);
      a / d
    else
      EuclideanDivision(-a, d);
      NegateProduct((-a) / d, d);
      -((-a) / d)
  }

  lemma EuclideanDivision(n: int, d: int)
    requires n >= 0 && d > 0
    ensures n == (n / d) * d + n % d && 0 <= n % d < d
    ensures 0 <= n / d && 0 <= (n / d) * d
  {
  }

  lemma NegateProduct(m: int, d: int)
    ensures (-m) * d == -(m * d)
  {
  }

  /** The wait before the next gravity tick:
      `Math.Max(minDelay, maxDelay - score / 100 * delayDecrease)`. */
  function Delay(score: int, minDelay: int, maxDelay: int, delayDecrease: int): (r: int)
    ensures r >= minDelay
    ensures -100 < score < 100 && minDelay <= maxDelay ==> r == maxDelay
  {
    Max(minDelay, maxDelay - DivTrunc(score, 100) * delayDecrease)
  }

  /** Truncating division is monotone in the dividend. */
  lemma DivTruncMonotone(a: int, b: int, d: int)
    requires a <= b && d > 0
    ensures DivTrunc(a, d) <= DivTrunc(b, d)
  {
    var qa, qb := DivTrunc(a, d), DivTrunc(b, d);
    if qb < qa {
      MulMonotone(qb + 1, qa, d);
      assert false;
    }
  }

  lemma MulMonotone(x: int, y: int, c: int)
    requires x <= y && c >= 0
    ensures x * c <= y * c
  {
  }

  /** With a non-negative decrement the delay never grows as the score grows. */
  lemma DelayMonotone(s1: int, s2: int, minDelay: int, maxDelay: int, delayDecrease: int)
    requires s1 <= s2 && delayDecrease >= 0
    ensures Delay(s2, minDelay, maxDelay, delayDecrease) <= Delay(s1, minDelay, maxDelay, delayDecrease)
  {
    DivTruncMonotone(s1, s2, 100);
    MulMonotone(DivTrunc(s1, 100), DivTrunc(s2, 100), delayDecrease);
  }

  /** The three difficulty buttons. */
  datatype Difficulty = Easy | Medium | Hard

  /** The three pacing parameters a difficulty sets. */
  datatype Pace = Pace(maxDelay: int, minDelay: int, delayDecrease: int)

  function Preset(d: Difficulty): (p: Pace)
    ensures 0 < p.minDelay < p.maxDelay && 0 < p.delayDecrease
    ensures d == Easy ==> p == Pace(1500, 300, 12)
    ensures d == Medium ==> p == Pace(1300, 200, 15)
    ensures d == Hard ==> p == Pace(1000, 100, 17)
  {
    match d
    case Easy => Pace(1500, 300, 12)
    case Medium => Pace(1300, 200, 15)
    case Hard => Pace(1000, 100, 17)
  }

  function PresetDelay(d: Difficulty, score: int): int {
    var p := Preset(d);
    Delay(score, p.minDelay, p.maxDelay, p.delayDecrease)
  }

  /** Under every preset a non-negative score yields a delay between the
      floor and the ceiling. */
  lemma PresetDelayInRange(d: Difficulty, score: int)
    requires score >= 0
    ensures Preset(d).minDelay <= PresetDelay(d, score) <= Preset(d).maxDelay
  {
    var p := Preset(d);
    MulMonotone(0, DivTrunc(score, 100), p.delayDecrease);
  }

  /** The score from which a preset's delay sits at its floor. */
  function FloorScore(d: Difficulty): nat {
    match d
    case Easy => 10000
    case Medium => 7400
    case Hard => 5300
  }

  /** For a non-negative score, a preset's delay is at its floor exactly when
      the score has reached that preset's floor score. */
  lemma PresetFloorReached(d: Difficulty, score: int)
    requires score >= 0
    ensures PresetDelay(d, score) == Preset(d).minDelay <==> score >= FloorScore(d)
  {
    var p := Preset(d);
    var q := DivTrunc(score, 100);
    assert q == score / 100;
    if score >= FloorScore(d) {
      DivTruncMonotone(FloorScore(d), score, 100);
      MulMonotone(FloorScore(d) / 100, q, p.delayDecrease);
    } else {
      DivTruncMonotone(score, FloorScore(d) - 1, 100);
      MulMonotone(q, (FloorScore(d) - 1) / 100, p.delayDecrease);
    }
  }

  /** For any 32-bit score, the preset delay expression never leaves the
      32-bit range, so unbounded integers compute the same value. */
  lemma PresetDelayFitsInt32(d: Difficulty, score: int)
    requires InInt32(score)
    ensures InInt32(DivTrunc(score, 100) * Preset(d).delayDecrease)
    ensures InInt32(Preset(d).maxDelay - DivTrunc(score, 100) * Preset(d).delayDecrease)
  {
    var p := Preset(d);
    var q := DivTrunc(score, 100);
    DivTruncMonotone(Int32Min, score, 100);
    DivTruncMonotone(score, Int32Max, 100);
    assert -21474837 <= q <= 21474836;
    MulMonotone(-21474837, q, p.delayDecrease);
    MulMonotone(q, 21474836, p.delayDecrease);
    MulMonotone(p.delayDecrease, 17, 21474836);
    MulMonotone(p.delayDecrease, 17, 21474837);
  }
}
