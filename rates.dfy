/** The per-class 2x2 table and the rates and scores derived from it.

    Rates are exact rationals. Where the source divides by zero and gets a
    non-finite number (NaN or Infinity), the model answers `None`, and every
    rate computed from such a value is `None` as well. */
module Rates {
  import opened Wrappers

  /** The binary contingency table of one class against all others. */
  datatype Counts = Counts(tp: nat, fn: nat, fp: nat, tn: nat) {

    /** The table as the source lays it out, row-major: [[TP, FN], [FP, TN]]. */
    function AsTable(): (t: seq<seq<nat>>)
      ensures |t| == 2 && |t[0]| == 2 && |t[1]| == 2
      ensures t[0][0] == tp && t[0][1] == fn && t[1][0] == fp && t[1][1] == tn
    {
      [[tp, fn], [fp, tn]]
    }
  }

  /** num / den, or `None` when the denominator is zero. */
  function Ratio(num: nat, den: nat): (r: Option<real>)
    ensures r.Some? <==> den != 0
    ensures r.Some? ==> r.value * den as real == num as real
    ensures r.Some? ==> 0.0 <= r.value
  {
    if den == 0 then None else Some(num as real / den as real)
  }

  /** A ratio whose numerator is part of its denominator lies in [0, 1]. */
  lemma RatioAtMostOne(num: nat, den: nat)
    requires num <= den
    ensures Ratio(num, den).Some? ==> Ratio(num, den).value <= 1.0
  {
  }

  /** Two ratios over the same non-zero denominator whose numerators fill it add up to one. */
  lemma RatiosComplement(a: nat, b: nat)
    ensures a + b != 0 ==> Ratio(a, a + b).value + Ratio(b, a + b).value == 1.0
  {
    if a + b != 0 {
      var d := (a + b) as real;
      var x, y := Ratio(a, a + b).value, Ratio(b, a + b).value;
      assert (x + y) * d == a as real + b as real;
    }
  }

  /** 1 - x, propagating a non-finite x. */
  function Complement(r: Option<real>): (c: Option<real>)
    ensures c.Some? <==> r.Some?
    ensures c.Some? ==> c.value + r.value == 1.0
  {
    if r.None? then None else Some(1.0 - r.value)
  }

  /** x + y - 1, propagating a non-finite x or y. */
  function SumLessOne(x: Option<real>, y: Option<real>): (r: Option<real>)
    ensures r.Some? <==> x.Some? && y.Some?
    ensures r.Some? ==> r.value + 1.0 == x.value + y.value
  {
    if x.None? || y.None? then None else Some(x.value + y.value - 1.0)
  }

  /** Recall, sensitivity: TP / (TP + FN). */
  function TruePositiveRate(c: Counts): (r: Option<real>)
    ensures r.Some? <==> c.tp + c.fn != 0
    ensures r.Some? ==> 0.0 <= r.value <= 1.0 && r.value * (c.tp + c.fn) as real == c.tp as real
  {
    RatioAtMostOne(c.tp, c.tp + c.fn);
    Ratio(c.tp, c.tp + c.fn)
  }

  /** Specificity: TN / (FP + TN), the non-members of the class correctly rejected. */
  function TrueNegativeRate(c: Counts): (r: Option<real>)
    ensures r.Some? <==> c.fp + c.tn != 0
    ensures r.Some? ==> 0.0 <= r.value <= 1.0 && r.value * (c.fp + c.tn) as real == c.tn as real
  {
    RatioAtMostOne(c.tn, c.fp + c.tn);
    Ratio(c.tn, c.fp + c.tn)
  }

  /** Precision: TP / (TP + FP). */
  function PositivePredictiveValue(c: Counts): (r: Option<real>)
    ensures r.Some? <==> c.tp + c.fp != 0
    ensures r.Some? ==> 0.0 <= r.value <= 1.0 && r.value * (c.tp + c.fp) as real == c.tp as real
  {
    RatioAtMostOne(c.tp, c.tp + c.fp);
    Ratio(c.tp, c.tp + c.fp)
  }

  /** TN / (TN + FN). */
  function NegativePredictiveValue(c: Counts): (r: Option<real>)
    ensures r.Some? <==> c.tn + c.fn != 0
    ensures r.Some? ==> 0.0 <= r.value <= 1.0 && r.value * (c.tn + c.fn) as real == c.tn as real
  {
    RatioAtMostOne(c.tn, c.tn + c.fn);
    Ratio(c.tn, c.tn + c.fn)
  }

  /** Miss rate, 1 - TPR: defined exactly when TPR is, and the two add up to one. */
  function FalseNegativeRate(c: Counts): (r: Option<real>)
    ensures r.Some? <==> TruePositiveRate(c).Some?
    ensures r.Some? ==> r.value + TruePositiveRate(c).value == 1.0
    ensures r.Some? ==> 0.0 <= r.value <= 1.0
  {
    Complement(TruePositiveRate(c))
  }

  /** Fall-out, 1 - TNR: defined exactly when TNR is, and the two add up to one. */
  function FalsePositiveRate(c: Counts): (r: Option<real>)
    ensures r.Some? <==> TrueNegativeRate(c).Some?
    ensures r.Some? ==> r.value + TrueNegativeRate(c).value == 1.0
    ensures r.Some? ==> 0.0 <= r.value <= 1.0
  {
    Complement(TrueNegativeRate(c))
  }

  /** FP / (FP + TP): shares its denominator with precision and complements it. */
  function FalseDiscoveryRate(c: Counts): (r: Option<real>)
    ensures r.Some? <==> PositivePredictiveValue(c).Some?
    ensures r.Some? ==> r.value + PositivePredictiveValue(c).value == 1.0
    ensures r.Some? ==> 0.0 <= r.value <= 1.0
  {
    RatiosComplement(c.tp, c.fp);
    Ratio(c.fp, c.fp + c.tp)
  }

  /** The false omission rate as the source computes it, FN / (FN + TP). Its
      denominator is the class's positive count, so it is the miss rate. */
  function FalseOmissionRateAsWritten(c: Counts): (r: Option<real>)
    ensures r == FalseNegativeRate(c)
    ensures r.Some? ==> 0.0 <= r.value <= 1.0
  {
    RatiosComplement(c.tp, c.fn);
    Ratio(c.fn, c.fn + c.tp)
  }

  /** On the table TP = 1, FN = 1, FP = 0, TN = 2 the as-written false omission
      rate (1/2) and the negative predictive value (2/3) do not add up to one. */
  lemma FalseOmissionRateAsWrittenIsNotNpvComplement()
    ensures var c := Counts(1, 1, 0, 2);
            && FalseOmissionRateAsWritten(c).Some? && NegativePredictiveValue(c).Some?
            && FalseOmissionRateAsWritten(c).value + NegativePredictiveValue(c).value != 1.0
  {
    var c := Counts(1, 1, 0, 2);
    assert FalseOmissionRateAsWritten(c).value == 1.0 / 2.0;
    assert NegativePredictiveValue(c).value == 2.0 / 3.0;
  }

  /** The false omission rate FN / (FN + TN): shares its denominator with the
      negative predictive value and complements it. */
  function FalseOmissionRate(c: Counts): (r: Option<real>)
    ensures r.Some? <==> NegativePredictiveValue(c).Some?
    ensures r.Some? ==> r.value + NegativePredictiveValue(c).value == 1.0
    ensures r.Some? ==> 0.0 <= r.value <= 1.0
  {
    RatiosComplement(c.tn, c.fn);
    Ratio(c.fn, c.fn + c.tn)
  }

  /** 2TP / (2TP + FP + FN), a score in [0, 1]. */
  function F1Score(c: Counts): (r: Option<real>)
    ensures r.Some? <==> c.tp + c.fp + c.fn != 0
    ensures r.Some? ==> 0.0 <= r.value <= 1.0
  {
    RatioAtMostOne(2 * c.tp, 2 * c.tp + c.fp + c.fn);
    Ratio(2 * c.tp, 2 * c.tp + c.fp + c.fn)
  }

  /** 2t / (A + B) is the harmonic mean of t / A and t / B. */
  lemma HarmonicMeanOfRatios(t: real, a: real, b: real, p: real, q: real)
    requires t > 0.0 && a > 0.0 && b > 0.0
    requires p * a == t && q * b == t
    ensures p > 0.0 && q > 0.0
    ensures 2.0 * p * q / (p + q) == 2.0 * t / (a + b)
  {
    // Both sides times (p + q)(a + b) are 2t(p + q) once p a = q b = t.
    assert 2.0 * p * q * (a + b) == 2.0 * q * (p * a) + 2.0 * p * (q * b);
    assert 2.0 * p * q * (a + b) == 2.0 * t * (p + q);
  }

  /** When TP is not zero, precision and recall are both defined and positive,
      and F1 is their harmonic mean. */
  lemma F1IsHarmonicMean(c: Counts)
    requires c.tp != 0
    ensures PositivePredictiveValue(c).Some? && TruePositiveRate(c).Some? && F1Score(c).Some?
    ensures var p, q := PositivePredictiveValue(c).value, TruePositiveRate(c).value;
            p + q > 0.0 && F1Score(c).value == 2.0 * p * q / (p + q)
  {
    var t, a, b := c.tp as real, (c.tp + c.fp) as real, (c.tp + c.fn) as real;
    var p, q := PositivePredictiveValue(c).value, TruePositiveRate(c).value;
    HarmonicMeanOfRatios(t, a, b, p, q);
    var f := F1Score(c).value;
    assert f * (a + b) == 2.0 * t;
  }

  /** Youden's J, TPR + TNR - 1, in [-1, 1]. */
  function Informedness(c: Counts): (r: Option<real>)
    ensures r.Some? <==> c.tp + c.fn != 0 && c.fp + c.tn != 0
    ensures r.Some? ==> -1.0 <= r.value <= 1.0
  {
    SumLessOne(TruePositiveRate(c), TrueNegativeRate(c))
  }

  /** PPV + NPV - 1, in [-1, 1]. */
  function Markedness(c: Counts): (r: Option<real>)
    ensures r.Some? <==> c.tp + c.fp != 0 && c.tn + c.fn != 0
    ensures r.Some? ==> -1.0 <= r.value <= 1.0
  {
    SumLessOne(PositivePredictiveValue(c), NegativePredictiveValue(c))
  }

  /** The numerator of the Matthews correlation coefficient, TP*TN - FP*FN:
      the determinant of the class's 2x2 table. */
  function MatthewsNumerator(c: Counts): (d: int)
    ensures var t := c.AsTable(); d == (t[0][0] * t[1][1]) as int - (t[0][1] * t[1][0]) as int
  {
    c.tp * c.tn - c.fp * c.fn
  }

  /** The quantity under the square root in the Matthews correlation
      coefficient, (TP+FP)(TP+FN)(TN+FP)(TN+FN): a natural number. */
  function MatthewsRadicand(c: Counts): (r: nat)
    ensures r == 0 <==> (c.tp + c.fp == 0 || c.tp + c.fn == 0 || c.tn + c.fp == 0 || c.tn + c.fn == 0)
  {
    var a, b, x, y := c.tp + c.fp, c.tp + c.fn, c.tn + c.fp, c.tn + c.fn;
    assert (a == 0 || b == 0 || x == 0 || y == 0) <== a * b * x * y == 0;
    a * b * x * y
  }

  /** A zero radicand comes with a zero numerator: the source's division is
      then 0/0, never a non-zero number over zero. */
  lemma MatthewsZeroRadicand(c: Counts)
    requires MatthewsRadicand(c) == 0
    ensures MatthewsNumerator(c) == 0
  {
  }

  lemma MulMonotone(a: int, b: int, x: int, y: int)
    requires 0 <= a <= x && 0 <= b <= y
    ensures a * b <= x * y
  {
    assert a * b <= x * b;
    assert x * b <= x * y;
  }

  lemma MulNonnegative(a: int, b: int)
    requires 0 <= a && 0 <= b
    ensures 0 <= a * b
  {
  }

  lemma Expand(a: int, b: int, x: int, y: int)
    ensures (a + b) * (x + y) == a * x + a * y + b * x + b * y
  {
  }

  lemma Regroup(a: int, b: int, x: int, y: int)
    ensures a * b * x * y == (a * y) * (b * x)
  {
  }

  lemma SquareOfSum(s: int, d: int)
    ensures (s + d) * (s + d) == (s - d) * (s - d) + 4 * (s * d)
  {
  }

  /** (h - m)^2 <= u * w when both u and w are at least h + m. */
  lemma SquaredDifferenceBound(h: int, m: int, u: int, w: int)
    requires 0 <= h && 0 <= m && h + m <= u && h + m <= w
    ensures (h - m) * (h - m) <= u * w
  {
    MulMonotone(h + m, h + m, u, w);
    SquareOfSum(h, m);
    MulNonnegative(h, m);
  }

  /** (a + b)(x + y) is at least a x + b y when all four are natural numbers. */
  lemma CrossProductBound(a: nat, b: nat, x: nat, y: nat)
    ensures a * x + b * y <= (a + b) * (x + y)
  {
    Expand(a, b, x, y);
    MulNonnegative(a, y);
    MulNonnegative(b, x);
  }

  /** The squared numerator never exceeds the radicand, so the coefficient
      lies in [-1, 1]: each of the two cross products (TP+FP)(TN+FN) and
      (TP+FN)(TN+FP) is at least TP*TN + FP*FN. */
  lemma MatthewsNumeratorBounded(c: Counts)
    ensures MatthewsNumerator(c) * MatthewsNumerator(c) <= MatthewsRadicand(c)
  {
    var hit, miss := c.tp * c.tn, c.fp * c.fn;
    MulNonnegative(c.tp, c.tn);
    MulNonnegative(c.fp, c.fn);
    CrossProductBound(c.tp, c.fp, c.tn, c.fn);
    CrossProductBound(c.tp, c.fn, c.tn, c.fp);
    SquaredDifferenceBound(hit, miss, (c.tp + c.fp) * (c.tn + c.fn), (c.tp + c.fn) * (c.tn + c.fp));
    Regroup(c.tp + c.fp, c.tp + c.fn, c.tn + c.fp, c.tn + c.fn);
  }

  /** v is the Matthews correlation coefficient of c: v = numerator / sqrt(radicand),
      stated without a square root (v has the numerator's sign and
      v^2 * radicand == numerator^2). */
  ghost predicate IsMatthews(c: Counts, v: real) {
    var d, q := MatthewsNumerator(c), MatthewsRadicand(c);
    && q != 0
    && v * v * q as real == (d * d) as real
    && (v < 0.0 <==> d < 0)
  }

  /** A product of reals is zero only when a factor is. */
  lemma ZeroProduct(a: real, b: real)
    requires a * b == 0.0
    ensures a == 0.0 || b == 0.0
  {
  }

  /** Two reals with the same square and the same sign are equal. */
  lemma SameSquareSameSign(v: real, w: real)
    requires v * v == w * w && (v < 0.0 <==> w < 0.0)
    ensures v == w
  {
    assert (v - w) * (v + w) == 0.0;
    ZeroProduct(v - w, v + w);
  }

  /** IsMatthews pins the coefficient down: at most one value satisfies it. */
  lemma MatthewsUnique(c: Counts, v: real, w: real)
    requires IsMatthews(c, v) && IsMatthews(c, w)
    ensures v == w
  {
    var q := MatthewsRadicand(c) as real;
    assert v * v * q == w * w * q;
    assert (v * v - w * w) * q == 0.0;
    SameSquareSameSign(v, w);
  }

  /** A real whose square, scaled by a positive q, is at most q lies in [-1, 1]. */
  lemma BoundFromSquare(v: real, dd: real, q: real)
    requires q > 0.0 && v * v * q == dd && dd <= q
    ensures -1.0 <= v <= 1.0
  {
    assert v * v <= 1.0;
  }

  /** The coefficient, whenever it is defined, lies in [-1, 1]. */
  lemma MatthewsBounded(c: Counts, v: real)
    requires IsMatthews(c, v)
    ensures -1.0 <= v <= 1.0
  {
    var d, q := MatthewsNumerator(c), MatthewsRadicand(c);
    MatthewsNumeratorBounded(c);
    BoundFromSquare(v, (d * d) as real, q as real);
  }
}
