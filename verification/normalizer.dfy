/**
 * The score normalizer: a clamped linear map of a raw metric onto the
 * 0-100 debt scale (0 = no debt, 100 = worst), and the directional
 * wrappers the analyzers call with an `ideal` and a `worst` value.
 */
module Normalizer {
  import opened Stats

  /** `max(0, min(100, n))`. */
  function Clamp(n: real): (r: real)
    ensures 0.0 <= r <= 100.0
    ensures 0.0 <= n <= 100.0 ==> r == n
  {
    Max2(0.0, Min2(100.0, n))
  }

  /** Real division is the unique solution of the product. */
  lemma DivUnique(x: real, y: real, q: real)
    requires y != 0.0 && q * y == x
    ensures x / y == q
  {
  }

  lemma ClampMonotone(n1: real, n2: real)
    requires n1 <= n2
    ensures Clamp(n1) <= Clamp(n2)
  {
  }

  lemma ClampMirror(n: real)
    ensures Clamp(100.0 - n) == 100.0 - Clamp(n)
  {
  }

  /**
   * `normalize(value, lo, hi)`: `lo` maps to 0 and `hi` to 100 (whichever
   * is larger), values in between map linearly, everything is clamped to
   * [0, 100], and a degenerate range maps every value to 0.
   */
  function Normalize(value: real, lo: real, hi: real): (r: real)
    ensures 0.0 <= r <= 100.0
    ensures lo == hi ==> r == 0.0
    ensures lo != hi && value == lo ==> r == 0.0
    ensures lo != hi && value == hi ==> r == 100.0
  {
    if hi == lo then 0.0
    else
      DivUnique(hi - lo, hi - lo, 1.0);
      DivUnique(0.0, hi - lo, 0.0);
      Clamp((value - lo) / (hi - lo) * 100.0)
  }

  /** The position of `value` along the range, 0 at `lo` and 1 at `hi`. */
  function Fraction(value: real, lo: real, hi: real): real
    requires lo != hi
  {
    (value - lo) / (hi - lo)
  }

  /** Inside the range the result is the exact linear interpolation. */
  lemma NormalizeInterior(value: real, lo: real, hi: real)
    requires lo != hi
    requires 0.0 <= Fraction(value, lo, hi) <= 1.0
    ensures Normalize(value, lo, hi) == Fraction(value, lo, hi) * 100.0
  {
  }

  lemma FractionMonotone(v1: real, v2: real, lo: real, hi: real)
    requires lo < hi && v1 <= v2
    ensures Fraction(v1, lo, hi) <= Fraction(v2, lo, hi)
  {
    var d := hi - lo;
    var t1, t2 := Fraction(v1, lo, hi), Fraction(v2, lo, hi);
    assert t1 * d == v1 - lo;
    assert t2 * d == v2 - lo;
    assert (t2 - t1) * d == v2 - v1;
  }

  lemma FractionAntitone(v1: real, v2: real, lo: real, hi: real)
    requires hi < lo && v1 <= v2
    ensures Fraction(v2, lo, hi) <= Fraction(v1, lo, hi)
  {
    var d := hi - lo;
    var t1, t2 := Fraction(v1, lo, hi), Fraction(v2, lo, hi);
    assert t1 * d == v1 - lo;
    assert t2 * d == v2 - lo;
    assert (t2 - t1) * d == v2 - v1;
  }

  /** With `lo < hi` a larger value never gets a smaller score. */
  lemma NormalizeMonotone(v1: real, v2: real, lo: real, hi: real)
    requires lo < hi && v1 <= v2
    ensures Normalize(v1, lo, hi) <= Normalize(v2, lo, hi)
  {
    FractionMonotone(v1, v2, lo, hi);
    ClampMonotone(Fraction(v1, lo, hi) * 100.0, Fraction(v2, lo, hi) * 100.0);
  }

  /** With `hi < lo` (a range running downwards) a larger value never gets a larger score. */
  lemma NormalizeAntitone(v1: real, v2: real, lo: real, hi: real)
    requires hi < lo && v1 <= v2
    ensures Normalize(v2, lo, hi) <= Normalize(v1, lo, hi)
  {
    FractionAntitone(v1, v2, lo, hi);
    ClampMonotone(Fraction(v2, lo, hi) * 100.0, Fraction(v1, lo, hi) * 100.0);
  }

  /**
   * Swapping the ends of a proper range mirrors the score:
   * `normalize(v, hi, lo) == 100 - normalize(v, lo, hi)`.
   */
  lemma NormalizeSwap(value: real, lo: real, hi: real)
    requires lo != hi
    ensures Normalize(value, hi, lo) == 100.0 - Normalize(value, lo, hi)
  {
    var d := hi - lo;
    var t := Fraction(value, lo, hi);
    assert t * d == value - lo;
    assert (1.0 - t) * (lo - hi) == value - hi;
    DivUnique(value - hi, lo - hi, 1.0 - t);
    ClampMirror(t * 100.0);
  }

  /**
   * `normalize_inverse(value, lo, hi) == 100 - normalize(value, lo, hi)`:
   * `lo` maps to 100, `hi` to 0, and a degenerate range to 100.
   */
  function NormalizeInverse(value: real, lo: real, hi: real): (r: real)
    ensures 0.0 <= r <= 100.0
    ensures r + Normalize(value, lo, hi) == 100.0
    ensures lo == hi ==> r == 100.0
    ensures lo != hi && value == lo ==> r == 100.0
    ensures lo != hi && value == hi ==> r == 0.0
  {
    100.0 - Normalize(value, lo, hi)
  }

  /** With `lo < hi` a larger value never gets a larger inverse score. */
  lemma NormalizeInverseAntitone(v1: real, v2: real, lo: real, hi: real)
    requires lo < hi && v1 <= v2
    ensures NormalizeInverse(v2, lo, hi) <= NormalizeInverse(v1, lo, hi)
  {
    NormalizeMonotone(v1, v2, lo, hi);
  }

  /** `normalize_complexity`: `ideal` maps to 0, `worst` to 100. */
  function NormalizeComplexity(value: real, ideal: real, worst: real): (r: real)
    ensures 0.0 <= r <= 100.0
    ensures ideal == worst ==> r == 0.0
    ensures ideal != worst && value == ideal ==> r == 0.0
    ensures ideal != worst && value == worst ==> r == 100.0
  {
    Normalize(value, ideal, worst)
  }

  /** `normalize_percentage`: `ideal` maps to 0, `worst` to 100. */
  function NormalizePercentage(value: real, ideal: real, worst: real): (r: real)
    ensures 0.0 <= r <= 100.0
    ensures ideal == worst ==> r == 0.0
    ensures ideal != worst && value == ideal ==> r == 0.0
    ensures ideal != worst && value == worst ==> r == 100.0
  {
    Normalize(value, ideal, worst)
  }

  /** `normalize_count`: `ideal` maps to 0, `worst` to 100. */
  function NormalizeCount(value: real, ideal: real, worst: real): (r: real)
    ensures 0.0 <= r <= 100.0
    ensures ideal == worst ==> r == 0.0
    ensures ideal != worst && value == ideal ==> r == 0.0
    ensures ideal != worst && value == worst ==> r == 100.0
  {
    Normalize(value, ideal, worst)
  }

  /** `normalize_churn`: `ideal` maps to 0, `worst` to 100. */
  function NormalizeChurn(value: real, ideal: real, worst: real): (r: real)
    ensures 0.0 <= r <= 100.0
    ensures ideal == worst ==> r == 0.0
    ensures ideal != worst && value == ideal ==> r == 0.0
    ensures ideal != worst && value == worst ==> r == 100.0
  {
    Normalize(value, ideal, worst)
  }

  /** The four plain wrappers are `normalize` with the range `ideal..worst`. */
  lemma PlainWrappersAreNormalize(value: real, ideal: real, worst: real)
    ensures NormalizeComplexity(value, ideal, worst) == Normalize(value, ideal, worst)
    ensures NormalizePercentage(value, ideal, worst) == Normalize(value, ideal, worst)
    ensures NormalizeCount(value, ideal, worst) == Normalize(value, ideal, worst)
    ensures NormalizeChurn(value, ideal, worst) == Normalize(value, ideal, worst)
  {
  }

  /**
   * `normalize_inverse_percentage(value, ideal, worst)`, i.e.
   * `normalize_inverse(value, worst, ideal)`: `ideal` maps to 0 and `worst`
   * to 100, but a degenerate range maps to 100.
   */
  function NormalizeInversePercentage(value: real, ideal: real, worst: real): (r: real)
    ensures 0.0 <= r <= 100.0
    ensures r == 100.0 - Normalize(value, worst, ideal)
    ensures ideal == worst ==> r == 100.0
    ensures ideal != worst && value == ideal ==> r == 0.0
    ensures ideal != worst && value == worst ==> r == 100.0
  {
    NormalizeInverse(value, worst, ideal)
  }

  /**
   * For a proper range the inverse-percentage score is the plain score over
   * `ideal..worst`; the two differ only on a degenerate range (100 against 0).
   */
  lemma InversePercentageIsNormalize(value: real, ideal: real, worst: real)
    ensures ideal != worst ==> NormalizeInversePercentage(value, ideal, worst) == Normalize(value, ideal, worst)
    ensures ideal == worst ==> NormalizeInversePercentage(value, ideal, worst) == Normalize(value, ideal, worst) + 100.0
  {
    if ideal != worst {
      NormalizeSwap(value, worst, ideal);
    }
  }

  /**
   * `normalize_ratio`: when `ideal > worst` (higher is better) the inverse
   * map over `worst..ideal`, otherwise the plain map over `ideal..worst`.
   */
  function NormalizeRatio(value: real, ideal: real, worst: real): (r: real)
    ensures 0.0 <= r <= 100.0
    ensures ideal == worst ==> r == 0.0
    ensures ideal != worst && value == ideal ==> r == 0.0
    ensures ideal != worst && value == worst ==> r == 100.0
  {
    if ideal > worst then NormalizeInverse(value, worst, ideal)
    else Normalize(value, ideal, worst)
  }

  /**
   * The inverse branch is taken exactly when `ideal > worst`, and both
   * branches agree with the plain map over `ideal..worst`: the direction
   * test never changes the score.
   */
  lemma NormalizeRatioBranches(value: real, ideal: real, worst: real)
    ensures ideal > worst ==> NormalizeRatio(value, ideal, worst) == NormalizeInverse(value, worst, ideal)
    ensures ideal <= worst ==> NormalizeRatio(value, ideal, worst) == Normalize(value, ideal, worst)
    ensures NormalizeRatio(value, ideal, worst) == Normalize(value, ideal, worst)
  {
    if ideal > worst {
      NormalizeSwap(value, worst, ideal);
    }
  }

  /** A value moving from `ideal` towards `worst` never lowers the ratio score. */
  lemma NormalizeRatioTowardsWorst(v1: real, v2: real, ideal: real, worst: real)
    requires ideal < worst ==> v1 <= v2
    requires worst < ideal ==> v2 <= v1
    ensures NormalizeRatio(v1, ideal, worst) <= NormalizeRatio(v2, ideal, worst)
  {
    NormalizeRatioBranches(v1, ideal, worst);
    NormalizeRatioBranches(v2, ideal, worst);
    if ideal < worst {
      NormalizeMonotone(v1, v2, ideal, worst);
    } else if worst < ideal {
      NormalizeAntitone(v2, v1, ideal, worst);
    }
  }
}
