/**
 * The duplication analyzer: totals over the scc records of Go files, the
 * duplicated share of all code, the files with duplicated lines ordered by
 * their own duplicated share, and the normalised score.
 */
module Duplication {
  import opened Text
  import opened Stats
  import opened Normalizer
  import opened GoTools

  /** The `duplication` section of the configuration. */
  datatype DuplicationConfig = DuplicationConfig(idealPercentage: real, worstPercentage: real)

  /** `{'file': ..., 'duplicated_lines': ..., 'total_lines': ..., 'percentage': ...}` */
  datatype DuplicatedFile = DuplicatedFile(file: string, duplicatedLines: int, totalLines: int, percentage: real)

  datatype DuplicationResult = DuplicationResult(
    totalLines: int, duplicatedLines: int, duplicationPercentage: real,
    filesWithDuplication: seq<DuplicatedFile>, score: real)

  /** `file_result.get('Code', 0)` */
  function CodeOf(r: SccRecord): int { if r.code.Some? then r.code.value else 0 }

  /** `file_result.get('Duplicate', 0)` */
  function DuplicateOf(r: SccRecord): int { if r.duplicate.Some? then r.duplicate.value else 0 }

  /** A record is listed exactly when it has duplicated lines, with its own duplicated share of its code. */
  function DuplicatedFileOf(r: SccRecord): (e: Option<DuplicatedFile>)
    ensures e.Some? <==> DuplicateOf(r) > 0
    ensures e.Some? ==> e.value.duplicatedLines == DuplicateOf(r) && e.value.totalLines == CodeOf(r)
    ensures e.Some? ==> e.value.percentage == Ratio(DuplicateOf(r) as real, CodeOf(r)) * 100.0
  {
    if DuplicateOf(r) > 0 then
      Some(DuplicatedFile(
        if r.location.Some? then r.location.value else "",
        DuplicateOf(r), CodeOf(r), Ratio(DuplicateOf(r) as real, CodeOf(r)) * 100.0))
    else None
  }

  function PercentageKey(f: DuplicatedFile): real { f.percentage }

  /**
   * `DuplicationAnalyzer.analyze` over the decoded scc output: the two sums,
   * the overall percentage `duplicated / max(1, total) * 100`, the listed
   * files sorted by percentage and cut to ten, and the normalised score.
   */
  method Analyze(sccOutput: Option<seq<SccRecord>>, cfg: DuplicationConfig) returns (r: DuplicationResult)
    ensures r.totalLines == Sum(RunScc(sccOutput), CodeOf)
    ensures r.duplicatedLines == Sum(RunScc(sccOutput), DuplicateOf)
    ensures r.duplicationPercentage == Ratio(r.duplicatedLines as real, r.totalLines) * 100.0
    ensures r.filesWithDuplication == Top(SortDesc(Collect(RunScc(sccOutput), DuplicatedFileOf), PercentageKey), 10)
    ensures r.score == NormalizePercentage(r.duplicationPercentage, cfg.idealPercentage, cfg.worstPercentage)
    ensures 0.0 <= r.score <= 100.0
  {
    var scc := RunScc(sccOutput);
    var totalLines, duplicatedLines := 0, 0;
    var i := 0;
    while i < |scc|
      invariant 0 <= i <= |scc|
      invariant totalLines == Sum(scc[..i], CodeOf)
      invariant duplicatedLines == Sum(scc[..i], DuplicateOf)
    {
      SumStep(scc, i, CodeOf);
      SumStep(scc, i, DuplicateOf);
      totalLines := totalLines + CodeOf(scc[i]);
      duplicatedLines := duplicatedLines + DuplicateOf(scc[i]);
      i := i + 1;
    }
    assert scc[..i] == scc;
    var percentage := Ratio(duplicatedLines as real, totalLines) * 100.0;

    var files: seq<DuplicatedFile> := [];
    i := 0;
    while i < |scc|
      invariant 0 <= i <= |scc|
      invariant files == Collect(scc[..i], DuplicatedFileOf)
    {
      CollectStep(scc, i, DuplicatedFileOf);
      var d := DuplicateOf(scc[i]);
      if d > 0 {
        var code := CodeOf(scc[i]);
        var location := if scc[i].location.Some? then scc[i].location.value else "";
        files := files + [DuplicatedFile(location, d, code, Ratio(d as real, code) * 100.0)];
      }
      i := i + 1;
    }
    assert scc[..i] == scc;
    files := SortDesc(files, PercentageKey);

    var score := NormalizePercentage(percentage, cfg.idealPercentage, cfg.worstPercentage);
    r := DuplicationResult(totalLines, duplicatedLines, percentage, Top(files, 10), score);
  }

  /** With no scc records every figure is 0. */
  lemma EmptyOutput()
    ensures Sum(RunScc(None), CodeOf) == 0 && Sum(RunScc(None), DuplicateOf) == 0
    ensures Ratio(0.0, 0) * 100.0 == 0.0
    ensures Collect(RunScc(None), DuplicatedFileOf) == []
  {
  }

  /**
   * When every file's duplicated lines are between 0 and its code lines,
   * the overall percentage lies in [0, 100].
   */
  lemma {:induction false} PercentageInRange(records: seq<SccRecord>)
    requires forall i :: 0 <= i < |records| ==> 0 <= DuplicateOf(records[i]) <= CodeOf(records[i])
    ensures 0 <= Sum(records, DuplicateOf) <= Sum(records, CodeOf)
    ensures 0.0 <= Ratio(Sum(records, DuplicateOf) as real, Sum(records, CodeOf)) * 100.0 <= 100.0
  {
    if records != [] {
      PercentageInRange(records[..|records| - 1]);
    }
  }

  /** The listed files are exactly the images of the records with `Duplicate > 0`. */
  lemma DuplicatedFilesAreExactlyDuplicates(records: seq<SccRecord>)
    ensures forall k :: 0 <= k < |Collect(records, DuplicatedFileOf)| ==>
      exists i :: 0 <= i < |records| && DuplicatedFileOf(records[i]) == Some(Collect(records, DuplicatedFileOf)[k])
    ensures forall i :: 0 <= i < |records| && DuplicateOf(records[i]) > 0 ==>
      DuplicatedFileOf(records[i]).value in Collect(records, DuplicatedFileOf)
  {
    var xs := Collect(records, DuplicatedFileOf);
    forall k | 0 <= k < |xs|
      ensures exists i :: 0 <= i < |records| && DuplicatedFileOf(records[i]) == Some(xs[k])
    {
      CollectFrom(records, DuplicatedFileOf, k);
    }
    forall i | 0 <= i < |records| && DuplicateOf(records[i]) > 0
      ensures DuplicatedFileOf(records[i]).value in xs
    {
      CollectTo(records, DuplicatedFileOf, i);
    }
  }

  /**
   * The reported list: at most ten files, by non-increasing percentage,
   * each a listed file, and no file left out has a larger percentage than
   * a reported one.
   */
  lemma TopDuplicatedFiles(files: seq<DuplicatedFile>)
    ensures var t := Top(SortDesc(files, PercentageKey), 10);
      && |t| == (if |files| < 10 then |files| else 10)
      && (forall i, j :: 0 <= i < j < |t| ==> t[j].percentage <= t[i].percentage)
      && multiset(t) <= multiset(files)
      && (forall i, j :: 0 <= i < |t| <= j < |SortDesc(files, PercentageKey)| ==>
            SortDesc(files, PercentageKey)[j].percentage <= t[i].percentage)
  {
    TopOfSorted(files, PercentageKey, 10);
  }
}
