/**
 * The score aggregator: the six analyzers' scores become the category
 * scores, and the overall score is their mean weighted by the configured
 * weights, divided by the sum of every configured weight.
 */
module Aggregator {
  import opened Stats
  import opened Complexity
  import opened Duplication
  import opened TestQuality
  import opened Dependencies
  import opened Churn
  import opened Readability

  /** The `metrics` dictionary: one result per analyzer. */
  datatype Metrics = Metrics(
    complexity: ComplexityResult, duplication: DuplicationResult, testQuality: TestQualityResult,
    dependencies: DependencyResult, churn: ChurnResult, readability: ReadabilityResult)

  /** `category_scores`: exactly the six categories. */
  datatype CategoryScores = CategoryScores(
    complexity: real, duplication: real, testQuality: real,
    dependencies: real, churn: real, readability: real)
  {
    /** The smallest category score. */
    function Min(): real {
      Min6(complexity, duplication, testQuality, dependencies, churn, readability)
    }

    /** The largest category score. */
    function Max(): real {
      Max6(complexity, duplication, testQuality, dependencies, churn, readability)
    }

    predicate InRange() {
      && 0.0 <= complexity <= 100.0 && 0.0 <= duplication <= 100.0 && 0.0 <= testQuality <= 100.0
      && 0.0 <= dependencies <= 100.0 && 0.0 <= churn <= 100.0 && 0.0 <= readability <= 100.0
    }
  }

  /**
   * The `weights` section of the configuration: one weight per category,
   * and the values of any further keys, which `sum(weights.values())`
   * also adds into the divisor.
   */
  datatype Weights = Weights(
    complexity: real, duplication: real, testQuality: real,
    dependencies: real, churn: real, readability: real, others: seq<real>)
  {
    predicate NonNegative() {
      && complexity >= 0.0 && duplication >= 0.0 && testQuality >= 0.0
      && dependencies >= 0.0 && churn >= 0.0 && readability >= 0.0
    }

    /** The six category weights added up. */
    function CategoryTotal(): real {
      complexity + duplication + testQuality + dependencies + churn + readability
    }
  }

  function RealId(x: real): real { x }

  /** `sum(weights.values())` */
  function TotalWeight(w: Weights): real {
    w.CategoryTotal() + SumReal(w.others, RealId)
  }

  /**
   * The category extraction: complexity and test quality report an
   * `overall_score`, the other four a `score`; a directory that is not a
   * Go module scores 0 for dependencies.
   */
  function CategoryScoresOf(m: Metrics): CategoryScores {
    CategoryScores(
      m.complexity.overallScore, m.duplication.score, m.testQuality.overallScore,
      m.dependencies.Score(), m.churn.score, m.readability.score)
  }

  /** The six-term convex bound over plain reals, built from the four-term one. */
  lemma Between6(a: real, wa: real, b: real, wb: real, c: real, wc: real,
                 d: real, wd: real, e: real, we: real, f: real, wf: real, lo: real, hi: real)
    requires wa >= 0.0 && wb >= 0.0 && wc >= 0.0 && wd >= 0.0 && we >= 0.0 && wf >= 0.0
    requires lo <= a <= hi && lo <= b <= hi && lo <= c <= hi && lo <= d <= hi && lo <= e <= hi && lo <= f <= hi
    ensures lo * (wa + wb + wc + wd + we + wf) <= a * wa + b * wb + c * wc + d * wd + e * we + f * wf
    ensures a * wa + b * wb + c * wc + d * wd + e * we + f * wf <= hi * (wa + wb + wc + wd + we + wf)
  {
    WeightedSum4Between(a, wa, b, wb, c, wc, d, wd, lo, hi);
    ScaleBetween(e, we, lo, hi);
    ScaleBetween(f, wf, lo, hi);
    var t4 := wa + wb + wc + wd;
    assert lo * (t4 + we + wf) == lo * t4 + lo * we + lo * wf;
    assert hi * (t4 + we + wf) == hi * t4 + hi * we + hi * wf;
  }

  /** The six-term weighted mean over plain reals lies between any common bounds of the terms. */
  lemma Mean6Between(a: real, wa: real, b: real, wb: real, c: real, wc: real,
                     d: real, wd: real, e: real, we: real, f: real, wf: real, lo: real, hi: real)
    requires wa >= 0.0 && wb >= 0.0 && wc >= 0.0 && wd >= 0.0 && we >= 0.0 && wf >= 0.0
    requires wa + wb + wc + wd + we + wf != 0.0
    requires lo <= a <= hi && lo <= b <= hi && lo <= c <= hi && lo <= d <= hi && lo <= e <= hi && lo <= f <= hi
    ensures lo <= (a * wa + b * wb + c * wc + d * wd + e * we + f * wf) / (wa + wb + wc + wd + we + wf) <= hi
  {
    Between6(a, wa, b, wb, c, wc, d, wd, e, we, f, wf, lo, hi);
    QuotientBetween(a * wa + b * wb + c * wc + d * wd + e * we + f * wf, wa + wb + wc + wd + we + wf, lo, hi);
  }

  /** Lower bound of six values. */
  function Min6(a: real, b: real, c: real, d: real, e: real, f: real): real {
    Min2(Min2(Min2(a, b), Min2(c, d)), Min2(e, f))
  }

  /** Upper bound of six values. */
  function Max6(a: real, b: real, c: real, d: real, e: real, f: real): real {
    Max2(Max2(Max2(a, b), Max2(c, d)), Max2(e, f))
  }

  /**
   * The overall-score expression: six scores times their weights, divided
   * by the six weights plus `extra`, the sum of any further weights.
   */
  function WeightedMean6(a: real, wa: real, b: real, wb: real, c: real, wc: real,
                         d: real, wd: real, e: real, we: real, f: real, wf: real, extra: real): real
    requires wa + wb + wc + wd + we + wf + extra != 0.0
  {
    (a * wa + b * wb + c * wc + d * wd + e * we + f * wf) / (wa + wb + wc + wd + we + wf + extra)
  }

  /** With no extra weight and none negative, the weighted mean lies between the smallest and the largest score. */
  lemma Mean6InRange(a: real, wa: real, b: real, wb: real, c: real, wc: real,
                     d: real, wd: real, e: real, we: real, f: real, wf: real)
    requires wa >= 0.0 && wb >= 0.0 && wc >= 0.0 && wd >= 0.0 && we >= 0.0 && wf >= 0.0
    requires wa + wb + wc + wd + we + wf != 0.0
    ensures Min6(a, b, c, d, e, f) <= WeightedMean6(a, wa, b, wb, c, wc, d, wd, e, we, f, wf, 0.0) <= Max6(a, b, c, d, e, f)
  {
    var t := wa + wb + wc + wd + we + wf;
    assert t + 0.0 == t;
    Mean6Between(a, wa, b, wb, c, wc, d, wd, e, we, f, wf, Min6(a, b, c, d, e, f), Max6(a, b, c, d, e, f));
  }

  /** With six equal positive weights and no extra one, the weighted mean is the plain mean. */
  lemma Mean6Equal(a: real, b: real, c: real, d: real, e: real, f: real, x: real)
    requires x > 0.0
    ensures WeightedMean6(a, x, b, x, c, x, d, x, e, x, f, x, 0.0) == (a + b + c + d + e + f) / 6.0
  {
    var s := a + b + c + d + e + f;
    var num := a * x + b * x + c * x + d * x + e * x + f * x;
    var den := x + x + x + x + x + x + 0.0;
    assert WeightedMean6(a, x, b, x, c, x, d, x, e, x, f, x, 0.0) == num / den;
    FactorWeight(a, b, c, d, e, f, x);
    MeanOfEqual(num, den, s, x);
  }

  lemma FactorWeight(a: real, b: real, c: real, d: real, e: real, f: real, x: real)
    ensures a * x + b * x + c * x + d * x + e * x + f * x == (a + b + c + d + e + f) * x
  {
  }

  lemma MeanOfEqual(num: real, den: real, s: real, x: real)
    requires x > 0.0 && num == s * x && den == 6.0 * x
    ensures num / den == s / 6.0
  {
    var q := num / den;
    assert q * den == num;
    assert (q * 6.0 - s) * x == 0.0;
  }

  /** An extra non-negative weight can only lower a mean of non-negative scores. */
  lemma Mean6Dilute(a: real, wa: real, b: real, wb: real, c: real, wc: real,
                    d: real, wd: real, e: real, we: real, f: real, wf: real, extra: real)
    requires wa >= 0.0 && wb >= 0.0 && wc >= 0.0 && wd >= 0.0 && we >= 0.0 && wf >= 0.0
    requires wa + wb + wc + wd + we + wf > 0.0 && extra >= 0.0
    requires 0.0 <= a && 0.0 <= b && 0.0 <= c && 0.0 <= d && 0.0 <= e && 0.0 <= f
    ensures WeightedMean6(a, wa, b, wb, c, wc, d, wd, e, we, f, wf, extra)
      <= WeightedMean6(a, wa, b, wb, c, wc, d, wd, e, we, f, wf, 0.0)
  {
    var hi := Max6(a, b, c, d, e, f);
    Between6(a, wa, b, wb, c, wc, d, wd, e, we, f, wf, 0.0, hi);
    var t := wa + wb + wc + wd + we + wf;
    LargerDivisor(a * wa + b * wb + c * wc + d * wd + e * we + f * wf, t, extra);
    assert t + 0.0 == t;
  }

  /**
   * `ScoreAggregator.aggregate`: the category scores extracted from the
   * metrics, and the overall score, the weighted sum of the category
   * scores divided by the sum of all the weights; with the six weights
   * alone and none negative it lies between the smallest and the largest
   * category score.
   */
  function Aggregate(m: Metrics, w: Weights): (r: (real, CategoryScores))
    requires TotalWeight(w) != 0.0
    ensures r.1 == CategoryScoresOf(m)
    ensures w.others == [] && w.NonNegative() ==> r.1.Min() <= r.0 <= r.1.Max()
  {
    var c := CategoryScoresOf(m);
    var overall := WeightedMean6(c.complexity, w.complexity, c.duplication, w.duplication,
                                 c.testQuality, w.testQuality, c.dependencies, w.dependencies,
                                 c.churn, w.churn, c.readability, w.readability, SumReal(w.others, RealId));
    assert w.others == [] && w.NonNegative() ==> c.Min() <= overall <= c.Max() by {
      if w.others == [] && w.NonNegative() {
        Mean6InRange(c.complexity, w.complexity, c.duplication, w.duplication, c.testQuality, w.testQuality,
                     c.dependencies, w.dependencies, c.churn, w.churn, c.readability, w.readability);
      }
    }
    (overall, c)
  }

  /** With the six weights alone, none negative, and every category score in [0, 100], the overall score is in [0, 100]. */
  lemma OverallInRange(m: Metrics, w: Weights)
    requires TotalWeight(w) != 0.0 && w.others == [] && w.NonNegative()
    requires CategoryScoresOf(m).InRange()
    ensures 0.0 <= Aggregate(m, w).0 <= 100.0
  {
    var c := CategoryScoresOf(m);
    assert 0.0 <= c.Min() && c.Max() <= 100.0;
  }

  /** With six equal weights and no other key, the overall score is the plain mean of the six category scores. */
  lemma EqualWeightsMean(m: Metrics, w: Weights)
    requires w.others == [] && w.complexity > 0.0
    requires w.duplication == w.complexity && w.testQuality == w.complexity && w.dependencies == w.complexity
    requires w.churn == w.complexity && w.readability == w.complexity
    ensures var c := CategoryScoresOf(m);
      Aggregate(m, w).0 == (c.complexity + c.duplication + c.testQuality + c.dependencies + c.churn + c.readability) / 6.0
  {
    var c := CategoryScoresOf(m);
    Mean6Equal(c.complexity, c.duplication, c.testQuality, c.dependencies, c.churn, c.readability, w.complexity);
  }

  /** A non-negative numerator over a larger positive divisor gives a smaller quotient. */
  lemma LargerDivisor(s: real, t: real, e: real)
    requires s >= 0.0 && t > 0.0 && e >= 0.0
    ensures s / (t + e) <= s / (t + 0.0)
  {
    var q, q6 := s / (t + e), s / t;
    assert q * (t + e) == s && q6 * t == s;
    assert q >= 0.0;
    assert (q - q6) * t == - q * e;
  }

  /**
   * Further keys in `weights` only add to the divisor: with non-negative
   * scores and weights they can only lower the overall score.
   */
  lemma ExtraWeightsDilute(m: Metrics, w: Weights)
    requires w.NonNegative() && w.CategoryTotal() > 0.0
    requires forall k :: 0 <= k < |w.others| ==> w.others[k] >= 0.0
    requires CategoryScoresOf(m).InRange()
    ensures TotalWeight(w) >= w.CategoryTotal()
    ensures Aggregate(m, w).0 <= Aggregate(m, w.(others := [])).0
  {
    var c := CategoryScoresOf(m);
    SumRealAtLeast(w.others, RealId, 0.0);
    Mean6Dilute(c.complexity, w.complexity, c.duplication, w.duplication, c.testQuality, w.testQuality,
                c.dependencies, w.dependencies, c.churn, w.churn, c.readability, w.readability, SumReal(w.others, RealId));
  }
}
