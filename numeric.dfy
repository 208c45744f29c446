/**
 * `Math.round(a / b)` over exact rationals. JavaScript rounds halves toward positive
 * infinity, so the result is `floor(a / b + 1/2)`.
 */
module Numeric {

  /** `Math.round(num / den)` for a positive denominator. */
  function RoundHalfUp(num: int, den: int): (r: int)
    requires den > 0
    ensures 2 * den * r <= 2 * num + den < 2 * den * (r + 1)
  {
    (2 * num + den) / (2 * den)
  }

  /** `Math.round((score / total) * 100)`: the score as a whole percentage of the total. */
  function Percentage(score: int, total: int): (p: int)
    requires total > 0
    ensures 2 * total * p <= 200 * score + total < 2 * total * (p + 1)
  {
    RoundHalfUp(100 * score, total)
  }

  /** The rounded percentage reaches a threshold exactly when the score reaches `threshold - 1/2` percent. */
  lemma PercentageAtLeast(score: int, total: int, threshold: int)
    requires total > 0
    ensures Percentage(score, total) >= threshold <==> 200 * score >= (2 * threshold - 1) * total
  {
    var p := Percentage(score, total);
    if p >= threshold {
      assert 2 * total * p >= 2 * total * threshold by {
        MulMonotone(2 * total, threshold, p);
      }
    } else {
      assert 2 * total * (p + 1) <= 2 * total * threshold by {
        MulMonotone(2 * total, p + 1, threshold);
      }
    }
  }

  lemma MulMonotone(k: int, a: int, b: int)
    requires k >= 0 && a <= b
    ensures k * a <= k * b
  {
  }

  /** A percentage never decreases when the score grows over the same total. */
  lemma {:induction false} PercentageMonotone(s1: int, s2: int, total: int)
    requires total > 0 && s1 <= s2
    ensures Percentage(s1, total) <= Percentage(s2, total)
  {
    var p1, p2 := Percentage(s1, total), Percentage(s2, total);
    if p1 > p2 {
      MulMonotone(2 * total, p2 + 1, p1);
      assert false;
    }
  }

  /** Full marks are one hundred percent and no marks are zero. */
  lemma PercentageEnds(total: int)
    requires total > 0
    ensures Percentage(total, total) == 100 && Percentage(0, total) == 0
  {
    var p := Percentage(total, total);
    if p < 100 { MulMonotone(2 * total, p + 1, 100); }
    if p > 100 { MulMonotone(2 * total, 101, p); }
    var q := Percentage(0, total);
    if q < 0 { MulMonotone(2 * total, q + 1, 0); }
    if q > 0 { MulMonotone(2 * total, 1, q); }
  }
}
