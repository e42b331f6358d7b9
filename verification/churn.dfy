/**
 * The churn analyzer: the repository's churn, each Go file's churn (one
 * entry per distinct path, in first-seen order), the average per-file
 * churn rate, the ten files with the highest positive churn rate, and the
 * normalised score.
 */
module Churn {
  import opened Text
  import opened Stats
  import opened Normalizer
  import opened GitAnalyzer

  /** The `churn` section of the configuration. */
  datatype ChurnConfig = ChurnConfig(analysisPeriodDays: int, idealChurnRate: real, worstChurnRate: real)

  /** The extension `get_repo_churn` filters on by default. */
  const GoExtension := ".go"

  /** `{'file': ..., 'churn_rate': ..., 'commits': ..., 'additions': ..., 'deletions': ...}` */
  datatype HighChurnFile = HighChurnFile(file: string, churnRate: real, commits: int, additions: int, deletions: int)

  datatype ChurnResult = ChurnResult(
    repositoryChurn: RepoChurn, fileChurn: map<string, FileChurn>, fileOrder: seq<string>,
    averageChurnRate: real, highChurnFiles: seq<HighChurnFile>, score: real)

  /** The keys of a dict filled by assigning each path in turn: first occurrences, in order. */
  function Dedup(xs: seq<string>): seq<string> {
    if xs == [] then []
    else
      var d := Dedup(xs[..|xs| - 1]);
      if xs[|xs| - 1] in d then d else d + [xs[|xs| - 1]]
  }

  lemma DedupStep(xs: seq<string>, i: nat)
    requires i < |xs|
    ensures Dedup(xs[..i + 1]) == if xs[i] in Dedup(xs[..i]) then Dedup(xs[..i]) else Dedup(xs[..i]) + [xs[i]]
  {
    assert xs[..i + 1][..i] == xs[..i];
  }

  /** The dict keys are the paths, each listed once. */
  lemma {:induction false} DedupProps(xs: seq<string>)
    ensures Distinct(Dedup(xs))
    ensures forall x :: x in Dedup(xs) <==> x in xs
    ensures |Dedup(xs)| <= |xs|
  {
    if xs != [] {
      var init := xs[..|xs| - 1];
      DedupProps(init);
      assert xs == init + [xs[|xs| - 1]];
    }
  }

  /** `churn_rate` of one file. */
  function RateOf(repo: GitRepo, days: int): string -> real {
    f => FileChurnOf(repo, f, days).churnRate
  }

  /** A file enters the high-churn list when its churn rate is positive, with its figures copied. */
  function HighChurnOf(repo: GitRepo, days: int, f: string): (h: Option<HighChurnFile>)
    ensures h.Some? <==> FileChurnOf(repo, f, days).churnRate > 0.0
    ensures h.Some? ==> h.value.file == f
    ensures h.Some? ==> var c := FileChurnOf(repo, f, days);
      h.value == HighChurnFile(f, c.churnRate, c.commits, c.additions, c.deletions)
  {
    var c := FileChurnOf(repo, f, days);
    if c.churnRate > 0.0 then Some(HighChurnFile(f, c.churnRate, c.commits, c.additions, c.deletions)) else None
  }

  function HighChurn(repo: GitRepo, days: int): string -> Option<HighChurnFile> {
    f => HighChurnOf(repo, days, f)
  }

  function ChurnRateKey(h: HighChurnFile): real { h.churnRate }

  /** The `file_churn` dict after assigning each path in turn. */
  function ChurnMap(repo: GitRepo, files: seq<string>, days: int): map<string, FileChurn> {
    if files == [] then map[]
    else
      var f := files[|files| - 1];
      ChurnMap(repo, files[..|files| - 1], days)[f := FileChurnOf(repo, f, days)]
  }

  lemma ChurnMapStep(repo: GitRepo, files: seq<string>, days: int, i: nat)
    requires i < |files|
    ensures ChurnMap(repo, files[..i + 1], days) == ChurnMap(repo, files[..i], days)[files[i] := FileChurnOf(repo, files[i], days)]
  {
    assert files[..i + 1][..i] == files[..i];
  }

  /** Every path is a key, mapped to its own churn, and nothing else is a key. */
  lemma {:induction false} ChurnMapProps(repo: GitRepo, files: seq<string>, days: int)
    ensures forall f :: f in ChurnMap(repo, files, days) <==> f in files
    ensures forall f :: f in ChurnMap(repo, files, days) ==> ChurnMap(repo, files, days)[f] == FileChurnOf(repo, f, days)
  {
    if files != [] {
      var init := files[..|files| - 1];
      ChurnMapProps(repo, init, days);
      assert files == init + [files[|files| - 1]];
    }
  }

  /** The loop filling `file_churn`, keys kept in insertion order. */
  method FileChurns(repo: GitRepo, files: seq<string>, days: int)
    returns (fileChurn: map<string, FileChurn>, order: seq<string>)
    ensures order == Dedup(files)
    ensures fileChurn == ChurnMap(repo, files, days)
  {
    fileChurn, order := map[], [];
    var i := 0;
    while i < |files|
      invariant 0 <= i <= |files|
      invariant order == Dedup(files[..i])
      invariant fileChurn == ChurnMap(repo, files[..i], days)
    {
      DedupStep(files, i);
      ChurnMapStep(repo, files, days, i);
      ChurnMapProps(repo, files[..i], days);
      DedupProps(files[..i]);
      var c := GetFileChurn(repo, files[i], days);
      if files[i] !in fileChurn {
        order := order + [files[i]];
      }
      fileChurn := fileChurn[files[i] := c];
      i := i + 1;
    }
    assert files[..i] == files;
  }

  /** The loop over the dict's items collecting files with a positive churn rate. */
  method CollectHighChurn(repo: GitRepo, days: int, order: seq<string>, fileChurn: map<string, FileChurn>)
    returns (high: seq<HighChurnFile>)
    requires forall f :: f in order ==> f in fileChurn && fileChurn[f] == FileChurnOf(repo, f, days)
    ensures high == Collect(order, HighChurn(repo, days))
  {
    high := [];
    var i := 0;
    while i < |order|
      invariant 0 <= i <= |order|
      invariant high == Collect(order[..i], HighChurn(repo, days))
    {
      CollectStep(order, i, HighChurn(repo, days));
      var data := fileChurn[order[i]];
      if data.churnRate > 0.0 {
        high := high + [HighChurnFile(order[i], data.churnRate, data.commits, data.additions, data.deletions)];
      }
      i := i + 1;
    }
    assert order[..i] == order;
  }

  /**
   * `ChurnAnalyzer.analyze`: the repository churn passes through, the
   * average is over the distinct files, and the high-churn list is the
   * positive-rate files by non-increasing rate, cut to ten.
   */
  method Analyze(repo: GitRepo, files: seq<string>, cfg: ChurnConfig) returns (r: ChurnResult)
    ensures r.repositoryChurn == RepoChurnOf(repo, cfg.analysisPeriodDays, GoExtension)
    ensures r.fileOrder == Dedup(files)
    ensures r.fileChurn == ChurnMap(repo, files, cfg.analysisPeriodDays)
    ensures r.averageChurnRate ==
      Ratio(SumReal(Dedup(files), RateOf(repo, cfg.analysisPeriodDays)), |Dedup(files)|)
    ensures r.highChurnFiles ==
      Top(SortDesc(Collect(Dedup(files), HighChurn(repo, cfg.analysisPeriodDays)), ChurnRateKey), 10)
    ensures r.score == NormalizeChurn(r.averageChurnRate, cfg.idealChurnRate, cfg.worstChurnRate)
    ensures 0.0 <= r.score <= 100.0
  {
    var days := cfg.analysisPeriodDays;
    var repoChurn := GetRepoChurn(repo, days, GoExtension);
    var fileChurn, order := FileChurns(repo, files, days);
    ChurnMapProps(repo, files, days);
    DedupProps(files);
    var totalChurnRate := SumReal(order, RateOf(repo, days));
    var avgChurnRate := Ratio(totalChurnRate, |order|);
    var high := CollectHighChurn(repo, days, order, fileChurn);
    high := SortDesc(high, ChurnRateKey);
    var score := NormalizeChurn(avgChurnRate, cfg.idealChurnRate, cfg.worstChurnRate);
    r := ChurnResult(repoChurn, fileChurn, order, avgChurnRate, Top(high, 10), score);
  }

  /**
   * The high-churn entries are exactly the distinct files with a positive
   * rate, each carrying that file's own figures.
   */
  lemma HighChurnFilesExact(repo: GitRepo, days: int, files: seq<string>)
    ensures forall k :: 0 <= k < |Collect(Dedup(files), HighChurn(repo, days))| ==>
      var h := Collect(Dedup(files), HighChurn(repo, days))[k];
      h.churnRate > 0.0 && h.file in files && HighChurnOf(repo, days, h.file) == Some(h)
    ensures forall f :: f in files && FileChurnOf(repo, f, days).churnRate > 0.0 ==>
      HighChurnOf(repo, days, f).value in Collect(Dedup(files), HighChurn(repo, days))
  {
    var order := Dedup(files);
    DedupProps(files);
    var hs := Collect(order, HighChurn(repo, days));
    forall k | 0 <= k < |hs|
      ensures hs[k].churnRate > 0.0 && hs[k].file in files && HighChurnOf(repo, days, hs[k].file) == Some(hs[k])
    {
      CollectFrom(order, HighChurn(repo, days), k);
    }
    forall f | f in files && FileChurnOf(repo, f, days).churnRate > 0.0
      ensures HighChurnOf(repo, days, f).value in hs
    {
      assert f in order;
      var i :| 0 <= i < |order| && order[i] == f;
      CollectTo(order, HighChurn(repo, days), i);
    }
  }

  /**
   * The reported list: at most ten entries, by non-increasing churn rate,
   * drawn from the high-churn files, none left out ranking above one kept.
   */
  lemma TopHighChurn(high: seq<HighChurnFile>)
    ensures var t := Top(SortDesc(high, ChurnRateKey), 10);
      && |t| == (if |high| < 10 then |high| else 10)
      && (forall i, j :: 0 <= i < j < |t| ==> t[j].churnRate <= t[i].churnRate)
      && multiset(t) <= multiset(high)
      && (forall i, j :: 0 <= i < |t| <= j < |SortDesc(high, ChurnRateKey)| ==>
            SortDesc(high, ChurnRateKey)[j].churnRate <= t[i].churnRate)
  {
    TopOfSorted(high, ChurnRateKey, 10);
  }

  /** Listing a path twice changes nothing: the dict keeps one entry per path. */
  lemma RepeatedFileIgnored(files: seq<string>, f: string)
    requires f in files
    ensures Dedup(files + [f]) == Dedup(files)
  {
    DedupProps(files);
    assert (files + [f])[..|files|] == files;
  }
}
