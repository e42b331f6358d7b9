/**
 * The complexity analyzer: summarises the gocyclo and gocognit reports
 * into violation counts, top-10 offender lists, two normalised sub-scores
 * and their weighted mean.
 */
module Complexity {
  import opened Text
  import opened Stats
  import opened Normalizer
  import opened GoTools

  /** The `complexity` section of the configuration; the two thresholds may be absent. */
  datatype ComplexityConfig = ComplexityConfig(
    cyclomaticThreshold: Option<int>, cognitiveThreshold: Option<int>,
    cyclomaticIdeal: real, cyclomaticWorst: real, cognitiveIdeal: real, cognitiveWorst: real,
    cyclomaticWeight: real, cognitiveWeight: real)

  const DefaultThreshold := 15

  /** The `-over` threshold gocyclo is run with: the configured one, 15 when absent. */
  function CyclomaticThreshold(cfg: ComplexityConfig): (t: int)
    ensures cfg.cyclomaticThreshold.None? ==> t == 15
    ensures cfg.cyclomaticThreshold.Some? ==> t == cfg.cyclomaticThreshold.value
  {
    if cfg.cyclomaticThreshold.Some? then cfg.cyclomaticThreshold.value else DefaultThreshold
  }

  /** The `-over` threshold gocognit is run with: the configured one, 15 when absent. */
  function CognitiveThreshold(cfg: ComplexityConfig): (t: int)
    ensures cfg.cognitiveThreshold.None? ==> t == 15
    ensures cfg.cognitiveThreshold.Some? ==> t == cfg.cognitiveThreshold.value
  {
    if cfg.cognitiveThreshold.Some? then cfg.cognitiveThreshold.value else DefaultThreshold
  }

  /** `{'average': ..., 'violations': ..., 'worst_offenders': [...], 'score': ...}` */
  datatype ToolSummary = ToolSummary(average: real, violations: int, worstOffenders: seq<FunctionComplexity>, score: real)

  datatype ComplexityResult = ComplexityResult(cyclomatic: ToolSummary, cognitive: ToolSummary, overallScore: real)

  function ComplexityKey(f: FunctionComplexity): real { f.complexity as real }

  /** `sorted(functions, key=complexity, reverse=True)[:10]` */
  function WorstOffenders(functions: seq<FunctionComplexity>): seq<FunctionComplexity> {
    Top(SortDesc(functions, ComplexityKey), 10)
  }

  /**
   * At most ten offenders, ordered by non-increasing complexity, each a
   * reported function, and none of the functions left out is more complex
   * than one kept.
   */
  lemma WorstOffendersProps(functions: seq<FunctionComplexity>)
    ensures var w := WorstOffenders(functions);
      && |w| == (if |functions| < 10 then |functions| else 10)
      && (forall i, j :: 0 <= i < j < |w| ==> w[j].complexity <= w[i].complexity)
      && multiset(w) <= multiset(functions)
      && (forall i, j :: 0 <= i < |w| <= j < |SortDesc(functions, ComplexityKey)| ==>
            SortDesc(functions, ComplexityKey)[j].complexity <= w[i].complexity)
  {
    TopOfSorted(functions, ComplexityKey, 10);
  }

  /** The summary of one tool's report against its ideal and worst average. */
  function Summarize(report: ComplexityReport, ideal: real, worst: real): (s: ToolSummary)
    ensures s.average == report.averageComplexity
    ensures s.violations == |report.functions|
    ensures s.worstOffenders == WorstOffenders(report.functions)
    ensures 0.0 <= s.score <= 100.0
    ensures s.score == Normalize(report.averageComplexity, ideal, worst)
  {
    ToolSummary(report.averageComplexity, |report.functions|, WorstOffenders(report.functions),
                NormalizeComplexity(report.averageComplexity, ideal, worst))
  }

  /**
   * `ComplexityAnalyzer.analyze` after both tools have run: the averages
   * pass through, each tool's score is its normalised average, and the
   * overall score is the weighted mean of the two, lying between them when
   * the weights are non-negative.
   */
  function Analyze(cfg: ComplexityConfig, cyclomatic: ComplexityReport, cognitive: ComplexityReport): (r: ComplexityResult)
    requires cfg.cyclomaticWeight + cfg.cognitiveWeight != 0.0
    ensures r.cyclomatic == Summarize(cyclomatic, cfg.cyclomaticIdeal, cfg.cyclomaticWorst)
    ensures r.cognitive == Summarize(cognitive, cfg.cognitiveIdeal, cfg.cognitiveWorst)
    ensures cfg.cyclomaticWeight >= 0.0 && cfg.cognitiveWeight >= 0.0 ==>
      Min2(r.cyclomatic.score, r.cognitive.score) <= r.overallScore <= Max2(r.cyclomatic.score, r.cognitive.score)
    ensures cfg.cyclomaticWeight >= 0.0 && cfg.cognitiveWeight >= 0.0 ==> 0.0 <= r.overallScore <= 100.0
  {
    var cyc := Summarize(cyclomatic, cfg.cyclomaticIdeal, cfg.cyclomaticWorst);
    var cog := Summarize(cognitive, cfg.cognitiveIdeal, cfg.cognitiveWorst);
    ComplexityResult(cyc, cog, WeightedMean2(cyc.score, cfg.cyclomaticWeight, cog.score, cfg.cognitiveWeight))
  }
}
