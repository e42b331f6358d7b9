/**
 * The test-quality analyzer: counts the test files, splits the other Go
 * files by whether their path relative to the repository is a key of the
 * coverage profile, gives each covered file the fixed placeholder
 * coverage, and scores the average coverage and the test-to-code ratio.
 */
module TestQuality {
  import opened Text
  import opened Stats
  import opened Normalizer
  import opened Paths

  /** The `test_quality` section of the configuration. */
  datatype TestQualityConfig = TestQualityConfig(
    idealCoverage: real, worstCoverage: real, idealRatio: real, worstRatio: real,
    coverageWeight: real, ratioWeight: real)

  /** `{'file': ..., 'coverage': ...}` */
  datatype CoveredFile = CoveredFile(file: string, coverage: real)

  datatype TestQualityResult = TestQualityResult(
    testFileCount: int, filesWithTests: int, filesWithoutTests: int,
    averageCoverage: real, testToCodeRatio: real,
    coveredFiles: seq<CoveredFile>, uncoveredFiles: seq<string>,
    coverageScore: real, ratioScore: real, overallScore: real)

  /** The coverage every covered file is credited with; the profile's figures are not read. */
  const PlaceholderCoverage: real := 70.0

  /** Where the analysis runs: the working directory, the repository and its coverage profile. */
  datatype Context = Context(cwd: AbsoluteDir, repoPath: string, coverage: map<string, string>)

  /** A test file by the list comprehension's rule: its basename ends in `_test.go`. */
  function TestFileOf(f: FilePath): (t: Option<FilePath>)
    ensures t.Some? <==> EndsWith(Basename(f), "_test.go")
    ensures t.Some? ==> t.value == f
  {
    if EndsWith(Basename(f), "_test.go") then Some(f) else None
  }

  /** The loop's skip rule: the whole path ends in `_test.go`. */
  predicate IsTestPath(f: string) {
    EndsWith(f, "_test.go")
  }

  /** The path relative to the repository, the key looked up in the coverage profile. */
  function RelativeOf(ctx: Context, f: FilePath): string {
    RelPath(ctx.cwd, f, ctx.repoPath)
  }

  /** A non-test file whose relative path is profiled becomes a covered entry with the placeholder figure. */
  function CoveredOf(ctx: Context, f: FilePath): (e: Option<CoveredFile>)
    ensures e.Some? <==> !IsTestPath(f) && RelativeOf(ctx, f) in ctx.coverage
    ensures e.Some? ==> e.value == CoveredFile(RelativeOf(ctx, f), PlaceholderCoverage)
  {
    if IsTestPath(f) then None
    else
      var rel := RelativeOf(ctx, f);
      if rel in ctx.coverage then Some(CoveredFile(rel, PlaceholderCoverage)) else None
  }

  /** A non-test file whose relative path is not profiled is listed as uncovered. */
  function UncoveredOf(ctx: Context, f: FilePath): (e: Option<string>)
    ensures e.Some? <==> !IsTestPath(f) && RelativeOf(ctx, f) !in ctx.coverage
    ensures e.Some? ==> e.value == RelativeOf(ctx, f)
  {
    if IsTestPath(f) then None
    else
      var rel := RelativeOf(ctx, f);
      if rel in ctx.coverage then None else Some(rel)
  }

  function Covered(ctx: Context): FilePath -> Option<CoveredFile> {
    (f: FilePath) => CoveredOf(ctx, f)
  }

  function Uncovered(ctx: Context): FilePath -> Option<string> {
    (f: FilePath) => UncoveredOf(ctx, f)
  }

  function CoverageOf(c: CoveredFile): real { c.coverage }

  /**
   * The loop over the Go files: test paths are skipped, the others are
   * looked up by relative path and appended to the covered or the
   * uncovered list, the covered count and coverage total running along.
   */
  method SplitFiles(ctx: Context, files: seq<FilePath>)
    returns (covered: seq<CoveredFile>, uncovered: seq<string>, filesWithTests: int, totalCoverage: real)
    ensures covered == Collect(files, Covered(ctx))
    ensures uncovered == Collect(files, Uncovered(ctx))
    ensures filesWithTests == |covered|
    ensures totalCoverage == SumReal(covered, CoverageOf)
  {
    filesWithTests, totalCoverage := 0, 0.0;
    covered, uncovered := [], [];
    var i := 0;
    while i < |files|
      invariant 0 <= i <= |files|
      invariant covered == Collect(files[..i], Covered(ctx))
      invariant uncovered == Collect(files[..i], Uncovered(ctx))
      invariant filesWithTests == |covered|
      invariant totalCoverage == SumReal(covered, CoverageOf)
    {
      CollectStep(files, i, Covered(ctx));
      CollectStep(files, i, Uncovered(ctx));
      var f := files[i];
      if !IsTestPath(f) {
        var rel := RelativeOf(ctx, f);
        if rel in ctx.coverage {
          filesWithTests := filesWithTests + 1;
          var fileCoverage := PlaceholderCoverage;
          totalCoverage := totalCoverage + fileCoverage;
          assert (covered + [CoveredFile(rel, fileCoverage)])[..|covered|] == covered;
          covered := covered + [CoveredFile(rel, fileCoverage)];
        } else {
          uncovered := uncovered + [rel];
        }
      }
      i := i + 1;
    }
    assert files[..i] == files;
  }

  /**
   * `TestQualityAnalyzer.analyze` once the coverage profile has been read:
   * the test count, the covered/uncovered split of the other files, the
   * average coverage over covered files, the test-to-code ratio, the two
   * scores and their weighted mean.
   */
  method Analyze(ctx: Context, files: seq<FilePath>, cfg: TestQualityConfig) returns (r: TestQualityResult)
    requires cfg.coverageWeight + cfg.ratioWeight != 0.0
    ensures r.testFileCount == |Collect(files, TestFileOf)|
    ensures r.coveredFiles == Collect(files, Covered(ctx))
    ensures r.uncoveredFiles == Collect(files, Uncovered(ctx))
    ensures r.filesWithTests == |r.coveredFiles| && r.filesWithoutTests == |r.uncoveredFiles|
    ensures r.averageCoverage == Ratio(SumReal(r.coveredFiles, CoverageOf), r.filesWithTests)
    ensures r.testToCodeRatio == Ratio(r.testFileCount as real, |files| - r.testFileCount)
    ensures r.coverageScore == NormalizeInversePercentage(r.averageCoverage, cfg.idealCoverage, cfg.worstCoverage)
    ensures r.ratioScore == NormalizeRatio(r.testToCodeRatio, cfg.idealRatio, cfg.worstRatio)
    ensures r.overallScore == WeightedMean2(r.coverageScore, cfg.coverageWeight, r.ratioScore, cfg.ratioWeight)
    ensures 0.0 <= r.coverageScore <= 100.0 && 0.0 <= r.ratioScore <= 100.0
    ensures cfg.coverageWeight >= 0.0 && cfg.ratioWeight >= 0.0 ==>
      Min2(r.coverageScore, r.ratioScore) <= r.overallScore <= Max2(r.coverageScore, r.ratioScore)
  {
    var testFileCount := |Collect(files, TestFileOf)|;
    var covered, uncovered, filesWithTests, totalCoverage := SplitFiles(ctx, files);
    var avgCoverage := Ratio(totalCoverage, filesWithTests);
    var ratio := Ratio(testFileCount as real, |files| - testFileCount);
    var coverageScore, ratioScore, overall := Scores(avgCoverage, ratio, cfg);
    r := TestQualityResult(testFileCount, filesWithTests, |uncovered|, avgCoverage, ratio,
                           covered, uncovered, coverageScore, ratioScore, overall);
  }

  /** The two normalised scores and their weighted mean. */
  method Scores(avgCoverage: real, ratio: real, cfg: TestQualityConfig) returns (coverageScore: real, ratioScore: real, overall: real)
    requires cfg.coverageWeight + cfg.ratioWeight != 0.0
    ensures coverageScore == NormalizeInversePercentage(avgCoverage, cfg.idealCoverage, cfg.worstCoverage)
    ensures ratioScore == NormalizeRatio(ratio, cfg.idealRatio, cfg.worstRatio)
    ensures overall == WeightedMean2(coverageScore, cfg.coverageWeight, ratioScore, cfg.ratioWeight)
    ensures 0.0 <= coverageScore <= 100.0 && 0.0 <= ratioScore <= 100.0
    ensures cfg.coverageWeight >= 0.0 && cfg.ratioWeight >= 0.0 ==>
      Min2(coverageScore, ratioScore) <= overall <= Max2(coverageScore, ratioScore)
  {
    coverageScore := NormalizeInversePercentage(avgCoverage, cfg.idealCoverage, cfg.worstCoverage);
    ratioScore := NormalizeRatio(ratio, cfg.idealRatio, cfg.worstRatio);
    overall := WeightedMean2(coverageScore, cfg.coverageWeight, ratioScore, cfg.ratioWeight);
  }

  /** Counting by basename and by whole path agree, since `_test.go` holds no slash. */
  lemma TestFileRulesAgree(f: FilePath)
    ensures TestFileOf(f).Some? <==> IsTestPath(f)
  {
    BasenameEndsWith(f, "_test.go");
  }

  /**
   * Every file is exactly one of: a test file, a covered file, an
   * uncovered file; so the covered and uncovered counts add up to the
   * non-test files.
   */
  lemma {:induction false} Partition(ctx: Context, files: seq<FilePath>)
    ensures |Collect(files, Covered(ctx))| + |Collect(files, Uncovered(ctx))| + |Collect(files, TestFileOf)| == |files|
  {
    if files != [] {
      var init := files[..|files| - 1];
      var last := files[|files| - 1];
      Partition(ctx, init);
      TestFileRulesAgree(last);
    }
  }

  /** Every covered entry carries the placeholder figure. */
  lemma CoveredArePlaceholders(ctx: Context, files: seq<FilePath>)
    ensures forall k :: 0 <= k < |Collect(files, Covered(ctx))| ==>
      Collect(files, Covered(ctx))[k].coverage == PlaceholderCoverage
  {
    var xs := Collect(files, Covered(ctx));
    forall k | 0 <= k < |xs| ensures xs[k].coverage == PlaceholderCoverage {
      CollectFrom(files, Covered(ctx), k);
    }
  }

  /** Entries all carrying the placeholder average to it, and an empty list averages to 0. */
  lemma AverageOfPlaceholders(xs: seq<CoveredFile>)
    requires forall k :: 0 <= k < |xs| ==> xs[k].coverage == PlaceholderCoverage
    ensures Ratio(SumReal(xs, CoverageOf), |xs|) == if xs == [] then 0.0 else PlaceholderCoverage
  {
    SumRealBounds(xs, CoverageOf, PlaceholderCoverage, PlaceholderCoverage);
    if xs != [] {
      RatioOfMultiple(PlaceholderCoverage, |xs|);
    }
  }

  /** The average coverage is 70.0 as soon as one file is covered, and 0 otherwise. */
  lemma AverageIsPlaceholder(ctx: Context, files: seq<FilePath>)
    ensures var xs := Collect(files, Covered(ctx));
      Ratio(SumReal(xs, CoverageOf), |xs|) == if xs == [] then 0.0 else PlaceholderCoverage
  {
    CoveredArePlaceholders(ctx, files);
    AverageOfPlaceholders(Collect(files, Covered(ctx)));
  }

  /** Uncovered entries are the relative paths of non-test files missing from the profile. */
  lemma UncoveredAreUnprofiled(ctx: Context, files: seq<FilePath>)
    ensures forall k :: 0 <= k < |Collect(files, Uncovered(ctx))| ==> Collect(files, Uncovered(ctx))[k] !in ctx.coverage
    ensures forall k :: 0 <= k < |Collect(files, Covered(ctx))| ==> Collect(files, Covered(ctx))[k].file in ctx.coverage
  {
    var us := Collect(files, Uncovered(ctx));
    forall k | 0 <= k < |us| ensures us[k] !in ctx.coverage {
      CollectFrom(files, Uncovered(ctx), k);
    }
    var cs := Collect(files, Covered(ctx));
    forall k | 0 <= k < |cs| ensures cs[k].file in ctx.coverage {
      CollectFrom(files, Covered(ctx), k);
    }
  }
}
