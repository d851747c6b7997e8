/**
 * `Math.round((done / total) * 100)` for counts, as the kit builder and the
 * hub checklists compute their percentages.
 *
 * `Math.round(x)` is `floor(x + 1/2)`, so for `x = 100n/d` the result is the
 * integer quotient of `200n + d` by `2d`. The source computes `n / d * 100`
 * in binary floating point; the model uses exact rationals, so a quotient
 * that floating point lands just below a half is rounded up here.
 */
module Percent {

  /** The rounded percentage of `n` out of `d`. */
  function RoundPercent(n: nat, d: nat): (r: nat)
    requires d > 0
    ensures 2 * d * r <= 200 * n + d < 2 * d * r + 2 * d
  {
    var q := (200 * n + d) / (2 * d);
    DivBounds(200 * n + d, 2 * d);
    q
  }

  lemma DivBounds(a: nat, b: nat)
    requires b > 0
    ensures b * (a / b) <= a < b * (a / b) + b
  {
  }

  /** Any `r` meeting the rounding bounds is the rounded percentage. */
  lemma RoundPercentUnique(n: nat, d: nat, r: nat)
    requires d > 0
    requires 2 * d * r <= 200 * n + d < 2 * d * r + 2 * d
    ensures RoundPercent(n, d) == r
  {
    var q := RoundPercent(n, d);
    if q < r {
      MulStep(2 * d, q, r);
    } else if q > r {
      MulStep(2 * d, r, q);
    }
  }

  lemma MulStep(k: nat, a: nat, b: nat)
    requires a < b
    ensures k * a + k <= k * b
  {
    MulMono(k, a + 1, b);
    assert k * (a + 1) == k * a + k;
  }

  lemma MulMono(k: nat, a: nat, b: nat)
    requires a <= b
    ensures k * a <= k * b
  {
  }

  /** The percentage exceeds 100 exactly when `n` is at least `d + d/200`:
      up to 100 iff `200n < 201d`. */
  lemma {:induction false} AtMost100Iff(n: nat, d: nat)
    requires d > 0
    ensures RoundPercent(n, d) <= 100 <==> 200 * n < 201 * d
  {
    var r := RoundPercent(n, d);
    if r <= 100 {
      MulMono(2 * d, r, 100);
    } else {
      MulMono(2 * d, 101, r);
    }
  }

  /** `n` out of `n` is 100 and none is 0. */
  lemma FullAndEmpty(d: nat)
    requires d > 0
    ensures RoundPercent(d, d) == 100
    ensures RoundPercent(0, d) == 0
  {
    RoundPercentUnique(d, d, 100);
    RoundPercentUnique(0, d, 0);
  }

  /** More done never lowers the percentage. */
  lemma {:induction false} Monotone(n1: nat, n2: nat, d: nat)
    requires d > 0
    requires n1 <= n2
    ensures RoundPercent(n1, d) <= RoundPercent(n2, d)
  {
    var r1 := RoundPercent(n1, d);
    var r2 := RoundPercent(n2, d);
    if r1 > r2 {
      MulStep(2 * d, r2, r1);
    }
  }

  /** A list of at least 200 entries reads 100 with one entry still open. */
  lemma HundredBeforeDone()
    ensures RoundPercent(199, 200) == 100
    ensures RoundPercent(202, 201) == 100
  {
    RoundPercentUnique(199, 200, 100);
    RoundPercentUnique(202, 201, 100);
  }
}
