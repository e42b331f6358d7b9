/**
 * The readability analyzer: golint and gofmt findings per file, and per
 * file the share of comment lines and the average length of the functions
 * found by a line-by-line scan; four normalised sub-scores and their
 * weighted mean.
 */
module Readability {
  import opened Text
  import opened Stats
  import opened Normalizer
  import opened GoTools

  /** The `readability` section of the configuration. */
  datatype ReadabilityConfig = ReadabilityConfig(
    idealLintIssues: real, worstLintIssues: real,
    idealFmtIssues: real, worstFmtIssues: real,
    idealCommentRatio: real, worstCommentRatio: real,
    idealFunctionLength: real, worstFunctionLength: real,
    lintWeight: real, fmtWeight: real, commentWeight: real, functionLengthWeight: real)

  /** `{'file': ..., 'total_lines': ..., 'comment_lines': ..., ...}` */
  datatype FileMetric = FileMetric(
    file: string, totalLines: int, commentLines: int, commentRatio: real,
    functionCount: int, avgFunctionLength: real)

  datatype ReadabilityResult = ReadabilityResult(
    lintIssues: int, fmtIssues: int, lintIssuesPerFile: real, fmtIssuesPerFile: real,
    avgCommentRatio: real, avgFunctionLength: real, fileMetrics: seq<FileMetric>,
    lintScore: real, fmtScore: real, commentScore: real, functionLengthScore: real, score: real)

  // ---------------------------------------------------------------------
  // Comment lines
  // ---------------------------------------------------------------------

  /** A comment line: stripped, it starts with two slashes or a slash and a star. */
  predicate IsCommentLine(line: string) {
    StartsWith(Strip(line), "//") || StartsWith(Strip(line), "/*")
  }

  function CommentIndicator(line: string): int {
    if IsCommentLine(line) then 1 else 0
  }

  /** The number of comment lines never exceeds the number of lines. */
  lemma CommentLinesBounded(lines: seq<string>)
    ensures 0 <= Sum(lines, CommentIndicator) <= |lines|
  {
    SumBounds(lines, CommentIndicator, 0, 1);
  }

  // ---------------------------------------------------------------------
  // The function-length scanner
  // ---------------------------------------------------------------------

  /** `re.match(r'^func\s+', line) and '{' in line` on a stripped line. */
  predicate IsFuncStart(line: string) {
    |line| > 4 && line[..4] == "func" && IsSpace(line[4]) && '{' in line
  }

  /** How the scanner sees a line once stripped: a function header, a lone `}`, or anything else. */
  datatype LineKind = Header | Close | Other

  function KindOf(raw: string): LineKind {
    var line := Strip(raw);
    if IsFuncStart(line) then Header else if line == "}" then Close else Other
  }

  /** The scanner's state: `in_function`, `current_function_lines` and `function_lengths`. */
  datatype ScanState = ScanState(inFunction: bool, current: int, lengths: seq<int>)

  const Start := ScanState(false, 0, [])

  /**
   * One line: a function header (re)starts the count at 1; inside a
   * function every other line counts, and a lone `}` records the count and
   * closes the function; outside a function other lines are ignored.
   */
  function ScanLine(st: ScanState, kind: LineKind): ScanState {
    if kind == Header then ScanState(true, 1, st.lengths)
    else if st.inFunction then
      var count := st.current + 1;
      if kind == Close then ScanState(false, count, st.lengths + [count])
      else ScanState(true, count, st.lengths)
    else st
  }

  /** The kinds of a file's lines, in order. */
  function Kinds(lines: seq<string>): seq<LineKind> {
    seq(|lines|, i requires 0 <= i < |lines| => KindOf(lines[i]))
  }

  /** The scanner's state after lines of the given kinds. */
  function Scan(kinds: seq<LineKind>): ScanState {
    if kinds == [] then Start else ScanLine(Scan(kinds[..|kinds| - 1]), kinds[|kinds| - 1])
  }

  lemma ScanStep(lines: seq<string>, i: nat)
    requires i < |lines|
    ensures Scan(Kinds(lines[..i + 1])) == ScanLine(Scan(Kinds(lines[..i])), KindOf(lines[i]))
  {
    assert Kinds(lines[..i + 1])[..i] == Kinds(lines[..i]);
  }

  /** The scanner's loop over a file's lines. */
  method FunctionLengths(lines: seq<string>) returns (lengths: seq<int>)
    ensures lengths == Scan(Kinds(lines)).lengths
  {
    lengths := [];
    var current := 0;
    var inFunction := false;
    var i := 0;
    while i < |lines|
      invariant 0 <= i <= |lines|
      invariant Scan(Kinds(lines[..i])) == ScanState(inFunction, current, lengths)
    {
      ScanStep(lines, i);
      var line := Strip(lines[i]);
      if IsFuncStart(line) {
        inFunction := true;
        current := 1;
      } else if inFunction {
        current := current + 1;
        if line == "}" {
          lengths := lengths + [current];
          inFunction := false;
        }
      }
      i := i + 1;
    }
    assert lines[..i] == lines;
  }

  function Id(n: int): int { n }

  /**
   * Every recorded length is at least 2 (a header and a closing brace);
   * an open function has counted at least its header; and the recorded
   * lengths together with the open count never exceed the lines read.
   */
  lemma {:induction false} ScanInvariant(kinds: seq<LineKind>)
    ensures forall k :: 0 <= k < |Scan(kinds).lengths| ==> Scan(kinds).lengths[k] >= 2
    ensures Scan(kinds).inFunction ==> Scan(kinds).current >= 1
    ensures Sum(Scan(kinds).lengths, Id) + (if Scan(kinds).inFunction then Scan(kinds).current else 0) <= |kinds|
  {
    if kinds != [] {
      var init := kinds[..|kinds| - 1];
      ScanInvariant(init);
      ScanLineKeeps(Scan(init), kinds[|kinds| - 1], |init|);
    }
  }

  /** One line keeps the invariant of `ScanInvariant`, with one more line read. */
  lemma ScanLineKeeps(st: ScanState, kind: LineKind, n: int)
    requires forall k :: 0 <= k < |st.lengths| ==> st.lengths[k] >= 2
    requires st.inFunction ==> st.current >= 1
    requires Sum(st.lengths, Id) + (if st.inFunction then st.current else 0) <= n
    ensures var next := ScanLine(st, kind);
      && (forall k :: 0 <= k < |next.lengths| ==> next.lengths[k] >= 2)
      && (next.inFunction ==> next.current >= 1)
      && Sum(next.lengths, Id) + (if next.inFunction then next.current else 0) <= n + 1
  {
    if st.inFunction && kind == Close {
      var next := st.lengths + [st.current + 1];
      assert next[..|next| - 1] == st.lengths;
    }
  }

  /** Lines none of which is a lone `}` never record a function: an open function at the end is dropped. */
  lemma {:induction false} NoCloseNoRecord(kinds: seq<LineKind>, extra: seq<LineKind>)
    requires forall k :: 0 <= k < |extra| ==> extra[k] != Close
    ensures Scan(kinds + extra).lengths == Scan(kinds).lengths
    decreases |extra|
  {
    if extra == [] {
      assert kinds + extra == kinds;
    } else {
      var init := extra[..|extra| - 1];
      NoCloseNoRecord(kinds, init);
      assert (kinds + extra)[..|kinds + extra| - 1] == kinds + init;
    }
  }

  /** Inside a function, body lines that neither open nor close one each add one to the count. */
  lemma {:induction false} ScanBody(body: seq<LineKind>)
    requires forall k :: 0 <= k < |body| ==> body[k] == Other
    ensures Scan([Header] + body) == ScanState(true, |body| + 1, [])
  {
    if body == [] {
      assert [Header] + body == [Header];
      assert [Header][..0] == [];
    } else {
      var init := body[..|body| - 1];
      ScanBody(init);
      assert ([Header] + body)[..|body|] == [Header] + init;
    }
  }

  /** A header, `n` plain body lines and a lone `}` record one function of length `n + 2`. */
  lemma OneFunction(body: seq<LineKind>)
    requires forall k :: 0 <= k < |body| ==> body[k] == Other
    ensures Scan([Header] + body + [Close]).lengths == [|body| + 2]
  {
    ScanBody(body);
    var kinds := [Header] + body + [Close];
    assert kinds[..|kinds| - 1] == [Header] + body;
    assert Scan(kinds) == ScanLine(Scan([Header] + body), Close);
  }

  // ---------------------------------------------------------------------
  // Per-file metrics
  // ---------------------------------------------------------------------

  /** The metrics of one file from its lines: line and comment counts, comment share, function count and average length. */
  function FileMetricOf(file: string, lines: seq<string>): FileMetric {
    var commentLines := Sum(lines, CommentIndicator);
    var lengths := Scan(Kinds(lines)).lengths;
    FileMetric(file, |lines|, commentLines, Ratio(commentLines as real, |lines|),
               |lengths|, Ratio(Sum(lengths, Id) as real, |lengths|))
  }

  /**
   * A file's comment lines are at most its lines, so its comment share is
   * in [0, 1]; its average function length is 0 without functions and at
   * least 2 otherwise.
   */
  lemma FileMetricBounds(file: string, lines: seq<string>)
    ensures var m := FileMetricOf(file, lines);
      && 0 <= m.commentLines <= m.totalLines
      && 0.0 <= m.commentRatio <= 1.0
      && (m.functionCount == 0 ==> m.avgFunctionLength == 0.0)
      && (m.functionCount > 0 ==> m.avgFunctionLength >= 2.0)
  {
    var m := FileMetricOf(file, lines);
    var comments := Sum(lines, CommentIndicator);
    CommentLinesBounded(lines);
    assert m.commentRatio == Ratio(comments as real, |lines|);
    AverageLengthAtLeastTwo(Kinds(lines));
  }

  /** Recorded functions have an average length of at least 2. */
  lemma AverageLengthAtLeastTwo(kinds: seq<LineKind>)
    ensures |Scan(kinds).lengths| > 0 ==> Ratio(Sum(Scan(kinds).lengths, Id) as real, |Scan(kinds).lengths|) >= 2.0
  {
    var lengths := Scan(kinds).lengths;
    ScanInvariant(kinds);
    SumAtLeast(lengths, Id, 2);
    if |lengths| > 0 {
      RatioAtLeast(Sum(lengths, Id) as real, |lengths|, 2.0);
    }
  }

  /** The body of the loop over files: read the file, count and scan its lines. */
  method MeasureFile(file: string, content: string) returns (m: FileMetric)
    ensures m == FileMetricOf(file, SplitLines(content))
  {
    var lines := SplitLines(content);
    var totalLines := |lines|;
    var commentLines := Sum(lines, CommentIndicator);
    var commentRatio := Ratio(commentLines as real, totalLines);
    var lengths := FunctionLengths(lines);
    var avg := Ratio(Sum(lengths, Id) as real, |lengths|);
    m := FileMetric(file, totalLines, commentLines, commentRatio, |lengths|, avg);
  }

  /** `file_metrics` for the files in order, `contents` giving each file's text. */
  function Metrics(files: seq<string>, contents: string -> string): (ms: seq<FileMetric>)
    ensures |ms| == |files|
  {
    if files == [] then []
    else
      var f := files[|files| - 1];
      Metrics(files[..|files| - 1], contents) + [FileMetricOf(f, SplitLines(contents(f)))]
  }

  lemma MetricsStep(files: seq<string>, i: nat, contents: string -> string)
    requires i < |files|
    ensures Metrics(files[..i + 1], contents) ==
      Metrics(files[..i], contents) + [FileMetricOf(files[i], SplitLines(contents(files[i])))]
  {
    assert files[..i + 1][..i] == files[..i];
  }

  /** The loop over the Go files. */
  method MeasureFiles(files: seq<string>, contents: string -> string) returns (ms: seq<FileMetric>)
    ensures ms == Metrics(files, contents)
  {
    ms := [];
    var i := 0;
    while i < |files|
      invariant 0 <= i <= |files|
      invariant ms == Metrics(files[..i], contents)
    {
      MetricsStep(files, i, contents);
      var m := MeasureFile(files[i], contents(files[i]));
      ms := ms + [m];
      i := i + 1;
    }
    assert files[..i] == files;
  }

  function CommentRatioOf(m: FileMetric): real { m.commentRatio }

  function AvgFunctionLengthOf(m: FileMetric): real { m.avgFunctionLength }

  /** Every file's comment share is in [0, 1] and its average function length is not negative. */
  lemma {:induction false} MetricsBounds(files: seq<string>, contents: string -> string)
    ensures forall k :: 0 <= k < |files| ==>
      0.0 <= CommentRatioOf(Metrics(files, contents)[k]) <= 1.0 && AvgFunctionLengthOf(Metrics(files, contents)[k]) >= 0.0
  {
    if files != [] {
      var f := files[|files| - 1];
      MetricsBounds(files[..|files| - 1], contents);
      FileMetricBounds(f, SplitLines(contents(f)));
    }
  }

  /** The average comment share across files lies in [0, 1], and the average function length is not negative. */
  lemma AveragesInRange(files: seq<string>, contents: string -> string)
    ensures 0.0 <= Ratio(SumReal(Metrics(files, contents), CommentRatioOf), |files|) <= 1.0
    ensures 0.0 <= Ratio(SumReal(Metrics(files, contents), AvgFunctionLengthOf), |files|)
  {
    MetricsBounds(files, contents);
    AveragesOfBounded(Metrics(files, contents));
  }

  lemma AveragesOfBounded(ms: seq<FileMetric>)
    requires forall k :: 0 <= k < |ms| ==> 0.0 <= CommentRatioOf(ms[k]) <= 1.0 && AvgFunctionLengthOf(ms[k]) >= 0.0
    ensures 0.0 <= Ratio(SumReal(ms, CommentRatioOf), |ms|) <= 1.0
    ensures 0.0 <= Ratio(SumReal(ms, AvgFunctionLengthOf), |ms|)
  {
    SumRealBounds(ms, CommentRatioOf, 0.0, 1.0);
    SumRealAtLeast(ms, AvgFunctionLengthOf, 0.0);
    SumRealRatioInRange(SumReal(ms, CommentRatioOf), |ms|);
  }

  // ---------------------------------------------------------------------
  // The analyzer
  // ---------------------------------------------------------------------

  /** Run golint and gofmt over the files and count what they report. */
  method CountIssues(files: seq<string>, golint: string -> string, gofmt: string -> string)
    returns (lintCount: int, fmtCount: int)
    ensures lintCount == |LintIssues(files, golint)|
    ensures fmtCount == |Collect(files, FmtIssueOf(gofmt))|
  {
    var lintResults := RunGolint(files, golint);
    var fmtResults := RunGofmt(files, gofmt);
    lintCount, fmtCount := |lintResults|, |fmtResults|;
  }

  /** A share in [0, 1] as a percentage. */
  function AsPercentage(share: real): real { share * 100.0 }

  /** The four normalised scores and their weighted mean. */
  method Scores(lintPerFile: real, fmtPerFile: real, commentPercentage: real, avgFunctionLength: real, cfg: ReadabilityConfig)
    returns (lintScore: real, fmtScore: real, commentScore: real, functionLengthScore: real, overall: real)
    requires cfg.lintWeight + cfg.fmtWeight + cfg.commentWeight + cfg.functionLengthWeight != 0.0
    ensures lintScore == NormalizeCount(lintPerFile, cfg.idealLintIssues, cfg.worstLintIssues)
    ensures fmtScore == NormalizeCount(fmtPerFile, cfg.idealFmtIssues, cfg.worstFmtIssues)
    ensures commentScore == NormalizeInversePercentage(commentPercentage, cfg.idealCommentRatio, cfg.worstCommentRatio)
    ensures functionLengthScore == NormalizeCount(avgFunctionLength, cfg.idealFunctionLength, cfg.worstFunctionLength)
    ensures overall == WeightedMean4(lintScore, cfg.lintWeight, fmtScore, cfg.fmtWeight,
                                     commentScore, cfg.commentWeight, functionLengthScore, cfg.functionLengthWeight)
    ensures cfg.lintWeight >= 0.0 && cfg.fmtWeight >= 0.0 && cfg.commentWeight >= 0.0 && cfg.functionLengthWeight >= 0.0 ==>
      Min4(lintScore, fmtScore, commentScore, functionLengthScore) <= overall
      <= Max4(lintScore, fmtScore, commentScore, functionLengthScore)
  {
    lintScore := NormalizeCount(lintPerFile, cfg.idealLintIssues, cfg.worstLintIssues);
    fmtScore := NormalizeCount(fmtPerFile, cfg.idealFmtIssues, cfg.worstFmtIssues);
    commentScore := NormalizeInversePercentage(commentPercentage, cfg.idealCommentRatio, cfg.worstCommentRatio);
    functionLengthScore := NormalizeCount(avgFunctionLength, cfg.idealFunctionLength, cfg.worstFunctionLength);
    overall := WeightedMean4(lintScore, cfg.lintWeight, fmtScore, cfg.fmtWeight,
                             commentScore, cfg.commentWeight, functionLengthScore, cfg.functionLengthWeight);
  }

  /**
   * `ReadabilityAnalyzer.analyze` with golint's and gofmt's output and the
   * file contents as inputs.
   */
  method Analyze(files: seq<string>, golint: string -> string, gofmt: string -> string,
                 contents: string -> string, cfg: ReadabilityConfig) returns (r: ReadabilityResult)
    requires cfg.lintWeight + cfg.fmtWeight + cfg.commentWeight + cfg.functionLengthWeight != 0.0
    ensures r.lintIssues == |LintIssues(files, golint)|
    ensures r.fmtIssues == |Collect(files, FmtIssueOf(gofmt))|
    ensures r.lintIssuesPerFile == Ratio(r.lintIssues as real, |files|)
    ensures r.fmtIssuesPerFile == Ratio(r.fmtIssues as real, |files|)
    ensures r.fileMetrics == Metrics(files, contents)
    ensures r.avgCommentRatio == Ratio(SumReal(r.fileMetrics, CommentRatioOf), |r.fileMetrics|)
    ensures r.avgFunctionLength == Ratio(SumReal(r.fileMetrics, AvgFunctionLengthOf), |r.fileMetrics|)
    ensures r.lintScore == NormalizeCount(r.lintIssuesPerFile, cfg.idealLintIssues, cfg.worstLintIssues)
    ensures r.fmtScore == NormalizeCount(r.fmtIssuesPerFile, cfg.idealFmtIssues, cfg.worstFmtIssues)
    ensures r.commentScore == NormalizeInversePercentage(AsPercentage(r.avgCommentRatio), cfg.idealCommentRatio, cfg.worstCommentRatio)
    ensures r.functionLengthScore == NormalizeCount(r.avgFunctionLength, cfg.idealFunctionLength, cfg.worstFunctionLength)
    ensures r.score == WeightedMean4(r.lintScore, cfg.lintWeight, r.fmtScore, cfg.fmtWeight,
                                     r.commentScore, cfg.commentWeight, r.functionLengthScore, cfg.functionLengthWeight)
    ensures cfg.lintWeight >= 0.0 && cfg.fmtWeight >= 0.0 && cfg.commentWeight >= 0.0 && cfg.functionLengthWeight >= 0.0 ==>
      Min4(r.lintScore, r.fmtScore, r.commentScore, r.functionLengthScore) <= r.score
      <= Max4(r.lintScore, r.fmtScore, r.commentScore, r.functionLengthScore)
  {
    var lintCount, fmtCount := CountIssues(files, golint, gofmt);
    var lintPerFile := Ratio(lintCount as real, |files|);
    var fmtPerFile := Ratio(fmtCount as real, |files|);
    var metrics := MeasureFiles(files, contents);
    var avgCommentRatio := Ratio(SumReal(metrics, CommentRatioOf), |metrics|);
    var avgFunctionLength := Ratio(SumReal(metrics, AvgFunctionLengthOf), |metrics|);
    var commentPercentage := AsPercentage(avgCommentRatio);
    var lintScore, fmtScore, commentScore, functionLengthScore, overall :=
      Scores(lintPerFile, fmtPerFile, commentPercentage, avgFunctionLength, cfg);
    r := ReadabilityResult(lintCount, fmtCount, lintPerFile, fmtPerFile, avgCommentRatio, avgFunctionLength,
                           metrics, lintScore, fmtScore, commentScore, functionLengthScore, overall);
  }
}
