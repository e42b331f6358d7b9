/**
 * The parse loops of the Go tool runner. Each tool's output text (or, for
 * scc, its decoded JSON records) is an input; the runner turns it into
 * entries line by line.
 */
module GoTools {
  import opened Text
  import opened Stats

  // ---------------------------------------------------------------------
  // gocyclo / gocognit
  // ---------------------------------------------------------------------

  /** One `{'complexity': ..., 'file_info': ...}` entry. */
  datatype FunctionComplexity = FunctionComplexity(complexity: int, fileInfo: string)

  /** `{'average_complexity': ..., 'functions': [...]}` */
  datatype ComplexityReport = ComplexityReport(averageComplexity: real, functions: seq<FunctionComplexity>)

  /** Length of the run of ASCII digits `s` starts with (a greedy `\d+`). */
  function DigitRun(s: string): (n: nat)
    ensures n <= |s|
    ensures forall i :: 0 <= i < n ==> IsDigit(s[i])
    ensures n < |s| ==> !IsDigit(s[n])
  {
    if s == [] || !IsDigit(s[0]) then 0 else DigitRun(s[1..]) + 1
  }

  function Pow10(n: nat): (p: nat)
    ensures p >= 1
  {
    if n == 0 then 1 else 10 * Pow10(n - 1)
  }

  /** The exact value of the decimal numeral `whole.frac`. */
  function DecimalValue(whole: string, frac: string): real
    requires forall i :: 0 <= i < |whole| ==> IsDigit(whole[i])
    requires forall i :: 0 <= i < |frac| ==> IsDigit(frac[i])
  {
    DigitsValue(whole) as real + DigitsValue(frac) as real / Pow10(|frac|) as real
  }

  /**
   * A match of `Average: (\d+\.\d+)` anchored at the start of `s`, giving
   * the value of the captured numeral.
   */
  function AverageMatchAt(s: string): Option<real> {
    if !StartsWith(s, "Average: ") then None
    else
      var rest := s[9..];
      var n := DigitRun(rest);
      if n == 0 || n == |rest| || rest[n] != '.' then None
      else
        var frac := rest[n + 1..];
        var m := DigitRun(frac);
        if m == 0 then None else Some(DecimalValue(rest[..n], frac[..m]))
  }

  /** `re.search(r'Average: (\d+\.\d+)', s)`: the leftmost match. */
  function SearchAverage(s: string): Option<real>
    decreases |s|
  {
    if s == [] then None
    else if AverageMatchAt(s).Some? then AverageMatchAt(s)
    else SearchAverage(s[1..])
  }

  /** The average a line reports: only lines starting with `Average` are searched. */
  function AverageOf(line: string): Option<real> {
    if StartsWith(line, "Average") then SearchAverage(line) else None
  }

  /**
   * The entry a line produces: not an `Average` line, at least two tokens,
   * and the first token an integer; the other tokens joined by single spaces.
   */
  function EntryOf(line: string): Option<FunctionComplexity> {
    if StartsWith(line, "Average") then None
    else
      var parts := Words(line);
      if |parts| >= 2 && ParseInt(parts[0]).Some? then
        Some(FunctionComplexity(ParseInt(parts[0]).value, JoinSpaces(parts[1..])))
      else None
  }

  /** The average of the last line that reports one, 0 when none does. */
  function LastAverage(lines: seq<string>): real {
    if lines == [] then 0.0
    else
      var a := AverageOf(lines[|lines| - 1]);
      if a.Some? then a.value else LastAverage(lines[..|lines| - 1])
  }

  lemma LastAverageStep(lines: seq<string>, i: nat)
    requires i < |lines|
    ensures LastAverage(lines[..i + 1]) ==
            (if AverageOf(lines[i]).Some? then AverageOf(lines[i]).value else LastAverage(lines[..i]))
  {
    assert lines[..i + 1][..i] == lines[..i];
  }

  /** The report of `run_gocyclo` / `run_gocognit` for the tool's output text. */
  function ComplexityReportOf(output: string): ComplexityReport {
    var lines := SplitLines(output);
    ComplexityReport(LastAverage(lines), Collect(lines, EntryOf))
  }

  /** The parse loop of `run_gocyclo` and `run_gocognit` (the two are identical). */
  method ParseComplexityOutput(output: string) returns (report: ComplexityReport)
    ensures report == ComplexityReportOf(output)
  {
    var lines := SplitLines(output);
    var results: seq<FunctionComplexity> := [];
    var avg := 0.0;
    var i := 0;
    while i < |lines|
      invariant 0 <= i <= |lines|
      invariant results == Collect(lines[..i], EntryOf)
      invariant avg == LastAverage(lines[..i])
    {
      CollectStep(lines, i, EntryOf);
      LastAverageStep(lines, i);
      var a := AverageOf(lines[i]);
      if a.Some? {
        avg := a.value;
      }
      var e := EntryOf(lines[i]);
      if e.Some? {
        results := results + [e.value];
      }
      i := i + 1;
    }
    assert lines[..i] == lines;
    report := ComplexityReport(avg, results);
  }

  /**
   * Every reported function comes from a line that does not start with
   * `Average`, has at least two tokens and starts with an integer; there
   * are never more entries than lines.
   */
  lemma ComplexityEntriesFromLines(output: string, k: nat)
    requires k < |ComplexityReportOf(output).functions|
    ensures |ComplexityReportOf(output).functions| <= |SplitLines(output)|
    ensures exists i :: 0 <= i < |SplitLines(output)| && EntryOf(SplitLines(output)[i]) == Some(ComplexityReportOf(output).functions[k])
  {
    var lines := SplitLines(output);
    CollectLength(lines, EntryOf);
    CollectFrom(lines, EntryOf, k);
  }

  /** Every qualifying line is reported. */
  lemma ComplexityLinesToEntries(output: string, i: nat)
    requires i < |SplitLines(output)|
    requires EntryOf(SplitLines(output)[i]).Some?
    ensures EntryOf(SplitLines(output)[i]).value in ComplexityReportOf(output).functions
  {
    CollectTo(SplitLines(output), EntryOf, i);
  }

  /**
   * The average is 0 when no line reports one, and otherwise the value of
   * the last line that does.
   */
  lemma {:induction false} LastAverageIsLast(lines: seq<string>, i: int)
    requires -1 <= i < |lines|
    requires i >= 0 ==> AverageOf(lines[i]).Some?
    requires forall j :: i < j < |lines| ==> AverageOf(lines[j]).None?
    ensures LastAverage(lines) == if i < 0 then 0.0 else AverageOf(lines[i]).value
    decreases |lines|
  {
    if lines != [] && i < |lines| - 1 {
      var init := lines[..|lines| - 1];
      assert forall j :: i < j < |init| ==> init[j] == lines[j];
      LastAverageIsLast(init, i);
    }
  }

  /** A digit run followed by a non-digit (or nothing) is read whole. */
  lemma {:induction false} DigitRunOfRun(digits: string, rest: string)
    requires forall i :: 0 <= i < |digits| ==> IsDigit(digits[i])
    requires rest == [] || !IsDigit(rest[0])
    ensures DigitRun(digits + rest) == |digits|
    decreases |digits|
  {
    if digits != [] {
      assert (digits + rest)[1..] == digits[1..] + rest;
      DigitRunOfRun(digits[1..], rest);
    }
  }

  /**
   * A line `Average: <whole>.<frac>` followed by anything that does not
   * continue the fraction's digits reports exactly the numeral's value.
   */
  lemma AverageOfNumeral(whole: string, frac: string, tail: string)
    requires whole != [] && frac != []
    requires forall i :: 0 <= i < |whole| ==> IsDigit(whole[i])
    requires forall i :: 0 <= i < |frac| ==> IsDigit(frac[i])
    requires tail == [] || !IsDigit(tail[0])
    ensures AverageOf("Average: " + whole + "." + frac + tail) == Some(DecimalValue(whole, frac))
  {
    var s := "Average: " + whole + "." + frac + tail;
    assert s[..7] == "Average";
    assert s[..9] == "Average: ";
    var rest := s[9..];
    assert rest == whole + ("." + frac + tail);
    DigitRunOfRun(whole, "." + frac + tail);
    var n := |whole|;
    assert rest[n] == '.';
    assert rest[..n] == whole;
    var fracTail := rest[n + 1..];
    assert fracTail == frac + tail;
    DigitRunOfRun(frac, tail);
    assert fracTail[..|frac|] == frac;
    assert AverageMatchAt(s) == Some(DecimalValue(whole, frac));
  }

  // ---------------------------------------------------------------------
  // scc
  // ---------------------------------------------------------------------

  /** One decoded scc record; a missing key is `None`. */
  datatype SccRecord = SccRecord(language: Option<string>, code: Option<int>, duplicate: Option<int>, location: Option<string>)

  function GoRecord(r: SccRecord): Option<SccRecord> {
    if r.language == Some("Go") then Some(r) else None
  }

  /**
   * `run_scc` over the decoded JSON (`None` when the output is not JSON):
   * exactly the records whose `Language` is `Go`, in order.
   */
  function RunScc(decoded: Option<seq<SccRecord>>): (r: seq<SccRecord>)
    ensures decoded.None? ==> r == []
    ensures decoded.Some? ==> |r| <= |decoded.value|
  {
    if decoded.None? then []
    else
      CollectLength(decoded.value, GoRecord);
      Collect(decoded.value, GoRecord)
  }

  lemma RunSccKeepsExactlyGo(records: seq<SccRecord>)
    ensures forall k :: 0 <= k < |RunScc(Some(records))| ==>
      RunScc(Some(records))[k].language == Some("Go") && RunScc(Some(records))[k] in records
    ensures forall i :: 0 <= i < |records| && records[i].language == Some("Go") ==> records[i] in RunScc(Some(records))
  {
    forall k | 0 <= k < |RunScc(Some(records))|
      ensures RunScc(Some(records))[k].language == Some("Go") && RunScc(Some(records))[k] in records
    {
      CollectFrom(records, GoRecord, k);
    }
    forall i | 0 <= i < |records| && records[i].language == Some("Go")
      ensures records[i] in RunScc(Some(records))
    {
      CollectTo(records, GoRecord, i);
    }
  }

  // ---------------------------------------------------------------------
  // golint / gofmt
  // ---------------------------------------------------------------------

  datatype LintIssue = LintIssue(file: string, message: string)

  datatype FmtIssue = FmtIssue(file: string, diff: string)

  /** The entries one file contributes: one per output line, none for blank output. */
  function LintIssuesOf(file: string, output: string): seq<LintIssue> {
    if IsBlank(output) then []
    else
      var lines := SplitLines(output);
      seq(|lines|, k requires 0 <= k < |lines| => LintIssue(file, lines[k]))
  }

  /** `run_golint`: the entries of each file in turn; `golint` gives each file's output. */
  function LintIssues(files: seq<string>, golint: string -> string): seq<LintIssue> {
    if files == [] then []
    else
      var f := files[|files| - 1];
      LintIssues(files[..|files| - 1], golint) + LintIssuesOf(f, golint(f))
  }

  lemma LintIssuesStep(files: seq<string>, i: nat, golint: string -> string)
    requires i < |files|
    ensures LintIssues(files[..i + 1], golint) == LintIssues(files[..i], golint) + LintIssuesOf(files[i], golint(files[i]))
  {
    assert files[..i + 1][..i] == files[..i];
  }

  /** The inner loop of `run_golint`: one entry per output line. */
  method AppendLintLines(done: seq<LintIssue>, file: string, lines: seq<string>) returns (results: seq<LintIssue>)
    ensures results == done + seq(|lines|, k requires 0 <= k < |lines| => LintIssue(file, lines[k]))
  {
    results := done;
    var j := 0;
    while j < |lines|
      invariant 0 <= j <= |lines|
      invariant results == done + seq(j, k requires 0 <= k < j => LintIssue(file, lines[k]))
    {
      results := results + [LintIssue(file, lines[j])];
      j := j + 1;
    }
  }

  /** One file of `run_golint`: its output lines are appended unless the output is blank. */
  method AppendFileLint(done: seq<LintIssue>, file: string, output: string) returns (results: seq<LintIssue>)
    ensures results == done + LintIssuesOf(file, output)
  {
    results := done;
    if Strip(output) != [] {
      results := AppendLintLines(done, file, SplitLines(output));
    }
  }

  /** The nested loop of `run_golint`. */
  method RunGolint(files: seq<string>, golint: string -> string) returns (results: seq<LintIssue>)
    ensures results == LintIssues(files, golint)
  {
    results := [];
    var i := 0;
    while i < |files|
      invariant 0 <= i <= |files|
      invariant results == LintIssues(files[..i], golint)
    {
      LintIssuesStep(files, i, golint);
      results := AppendFileLint(results, files[i], golint(files[i]));
      i := i + 1;
    }
    assert files[..i] == files;
  }

  /**
   * Every golint entry names a listed file whose output is not blank and
   * carries one line of that output; a file with non-blank output
   * contributes exactly one entry per output line.
   */
  lemma {:induction false} LintIssuesFromOutput(files: seq<string>, golint: string -> string, k: nat)
    requires k < |LintIssues(files, golint)|
    ensures var e := LintIssues(files, golint)[k];
      e.file in files && !IsBlank(golint(e.file)) && e.message in SplitLines(golint(e.file))
  {
    var init := files[..|files| - 1];
    var f := files[|files| - 1];
    if k < |LintIssues(init, golint)| {
      LintIssuesFromOutput(init, golint, k);
    } else {
      var e := LintIssues(files, golint)[k];
      assert e == LintIssuesOf(f, golint(f))[k - |LintIssues(init, golint)|];
    }
  }

  /** The number of golint entries is the total number of lines of the non-blank outputs. */
  lemma {:induction false} LintIssuesCount(files: seq<string>, golint: string -> string)
    ensures |LintIssues(files, golint)| == Sum(files, f => if IsBlank(golint(f)) then 0 else |SplitLines(golint(f))|)
  {
    if files != [] {
      LintIssuesCount(files[..|files| - 1], golint);
    }
  }

  function FmtIssueOf(gofmt: string -> string): string -> Option<FmtIssue> {
    f => if IsBlank(gofmt(f)) then None else Some(FmtIssue(f, gofmt(f)))
  }

  /** The loop of `run_gofmt`: one entry per file whose diff is not blank. */
  method RunGofmt(files: seq<string>, gofmt: string -> string) returns (results: seq<FmtIssue>)
    ensures results == Collect(files, FmtIssueOf(gofmt))
  {
    results := [];
    var i := 0;
    while i < |files|
      invariant 0 <= i <= |files|
      invariant results == Collect(files[..i], FmtIssueOf(gofmt))
    {
      var file := files[i];
      var output := gofmt(file);
      CollectStep(files, i, FmtIssueOf(gofmt));
      if Strip(output) != [] {
        results := results + [FmtIssue(file, output)];
      }
      i := i + 1;
    }
    assert files[..i] == files;
  }

  /** A gofmt entry exists for a listed file exactly when its diff is not blank, and carries that diff. */
  lemma GofmtEntries(files: seq<string>, gofmt: string -> string)
    ensures forall k :: 0 <= k < |Collect(files, FmtIssueOf(gofmt))| ==>
      var e := Collect(files, FmtIssueOf(gofmt))[k];
      e.file in files && !IsBlank(e.diff) && e.diff == gofmt(e.file)
    ensures forall i :: 0 <= i < |files| && !IsBlank(gofmt(files[i])) ==>
      FmtIssue(files[i], gofmt(files[i])) in Collect(files, FmtIssueOf(gofmt))
    ensures |Collect(files, FmtIssueOf(gofmt))| <= |files|
  {
    var xs := Collect(files, FmtIssueOf(gofmt));
    forall k | 0 <= k < |xs|
      ensures xs[k].file in files && !IsBlank(xs[k].diff) && xs[k].diff == gofmt(xs[k].file)
    {
      CollectFrom(files, FmtIssueOf(gofmt), k);
    }
    forall i | 0 <= i < |files| && !IsBlank(gofmt(files[i]))
      ensures FmtIssue(files[i], gofmt(files[i])) in xs
    {
      CollectTo(files, FmtIssueOf(gofmt), i);
    }
    CollectLength(files, FmtIssueOf(gofmt));
  }

  // ---------------------------------------------------------------------
  // go test coverage profile
  // ---------------------------------------------------------------------

  /**
   * The key and value a profile line contributes: nothing for a `mode:`
   * line; otherwise the first two `:`-separated fields of the stripped line,
   * when there are at least two.
   */
  function CoverageEntry(line: string): Option<(string, string)> {
    if StartsWith(line, "mode:") then None
    else
      var parts := SplitOn(Strip(line), ':');
      if |parts| >= 2 then Some((parts[0], parts[1])) else None
  }

  /** The map built line by line, a later line overwriting an earlier one with the same key. */
  function CoverageOf(lines: seq<string>): map<string, string> {
    if lines == [] then map[]
    else
      var e := CoverageEntry(lines[|lines| - 1]);
      var m := CoverageOf(lines[..|lines| - 1]);
      if e.Some? then m[e.value.0 := e.value.1] else m
  }

  lemma CoverageStep(lines: seq<string>, i: nat)
    requires i < |lines|
    ensures CoverageOf(lines[..i + 1]) ==
      (var e := CoverageEntry(lines[i]);
       if e.Some? then CoverageOf(lines[..i])[e.value.0 := e.value.1] else CoverageOf(lines[..i]))
  {
    assert lines[..i + 1][..i] == lines[..i];
  }

  /**
   * The coverage parse of `run_go_test`: `profile` is the coverage file's
   * lines (each with its line terminator), `None` when no file was written.
   */
  method ParseCoverageProfile(profile: Option<seq<string>>) returns (coverage: map<string, string>)
    ensures profile.None? ==> coverage == map[]
    ensures profile.Some? ==> coverage == CoverageOf(profile.value)
  {
    coverage := map[];
    if profile.Some? {
      var lines := profile.value;
      var i := 0;
      while i < |lines|
        invariant 0 <= i <= |lines|
        invariant coverage == CoverageOf(lines[..i])
      {
        var line := lines[i];
        CoverageStep(lines, i);
        if !StartsWith(line, "mode:") {
          var parts := SplitOn(Strip(line), ':');
          if |parts| >= 2 {
            coverage := coverage[parts[0] := parts[1]];
          }
        }
        i := i + 1;
      }
      assert lines[..i] == lines;
    }
  }

  /** Every key comes from a profile line that is not a `mode:` line. */
  lemma {:induction false} CoverageKeysFromLines(lines: seq<string>, key: string)
    requires key in CoverageOf(lines)
    ensures exists i :: (0 <= i < |lines| && !StartsWith(lines[i], "mode:") &&
      CoverageEntry(lines[i]) == Some((key, CoverageOf(lines)[key])))
  {
    var init := lines[..|lines| - 1];
    var e := CoverageEntry(lines[|lines| - 1]);
    if e.Some? && e.value.0 == key {
      assert CoverageEntry(lines[|lines| - 1]) == Some((key, CoverageOf(lines)[key]));
    } else {
      CoverageKeysFromLines(init, key);
      var i :| 0 <= i < |init| && !StartsWith(init[i], "mode:") &&
        CoverageEntry(init[i]) == Some((key, CoverageOf(init)[key]));
      assert lines[i] == init[i];
    }
  }

  /** The last line carrying a key decides its value. */
  lemma {:induction false} CoverageLastWins(lines: seq<string>, i: nat, key: string, value: string)
    requires i < |lines| && CoverageEntry(lines[i]) == Some((key, value))
    requires forall j :: i < j < |lines| ==> CoverageEntry(lines[j]).None? || CoverageEntry(lines[j]).value.0 != key
    ensures key in CoverageOf(lines) && CoverageOf(lines)[key] == value
    decreases |lines|
  {
    var init := lines[..|lines| - 1];
    if i < |lines| - 1 {
      assert forall j :: i < j < |init| ==> init[j] == lines[j];
      CoverageLastWins(init, i, key, value);
    }
  }

  // ---------------------------------------------------------------------
  // go list: dependencies
  // ---------------------------------------------------------------------

  /** `{'name': ...}` with `'version'` present only when the line has a second token. */
  datatype Dependency = Dependency(name: string, version: Option<string>)

  datatype Outdated = Outdated(name: string, currentVersion: string, updateInfo: string)

  /** `analyze_dependencies`: an error record when `go.mod` is missing, else both lists. */
  datatype DependencyInfo =
    | NotAModule
    | Module(dependencies: seq<Dependency>, outdated: seq<Outdated>)

  /** A `go list -m all` line gives a dependency unless it is blank or its first token is `go`. */
  function DependencyOf(line: string): Option<Dependency> {
    var parts := Words(line);
    if |parts| >= 1 && parts[0] != "go" then
      Some(Dependency(parts[0], if |parts| >= 2 then Some(parts[1]) else None))
    else None
  }

  /** Python's `s[a:b]` for `0 <= a` and `b <= |s|`: empty when `a >= b`. */
  function Slice(s: string, a: nat, b: nat): (r: string)
    requires b <= |s|
    ensures a < b ==> r == s[a..b]
    ensures a >= b ==> r == []
  {
    if a < b then s[a..b] else []
  }

  /**
   * A `go list -u -m all` line containing both `[` and `]` gives an outdated
   * entry: the first token, the second token or `''`, and the text from the
   * first `[` through the first `]`.
   */
  function OutdatedOf(line: string): Option<Outdated> {
    var open, close := Find(line, '['), Find(line, ']');
    if open >= 0 && close >= 0 then
      var parts := Words(line);
      WordsEmptyIffBlank(line);
      assert !IsSpace(line[open]);
      Some(Outdated(parts[0], if |parts| > 1 then parts[1] else "", Slice(line, open, close + 1)))
    else None
  }

  /** When `]` follows `[`, the update info is the bracketed text; otherwise it is empty. */
  lemma UpdateInfoShape(line: string)
    requires OutdatedOf(line).Some?
    ensures var u := OutdatedOf(line).value.updateInfo;
      u == [] || (u[0] == '[' && u[|u| - 1] == ']' && u == line[Find(line, '[')..Find(line, ']') + 1])
    ensures Find(line, '[') < Find(line, ']') ==> OutdatedOf(line).value.updateInfo != []
  {
    var open, close := Find(line, '['), Find(line, ']');
    assert OutdatedOf(line).value.updateInfo == Slice(line, open, close + 1);
    if open < close + 1 {
      var u := line[open..close + 1];
      assert u[0] == line[open] && u[|u| - 1] == line[close];
    }
  }

  /** `analyze_dependencies` on the two `go list` outputs. */
  method AnalyzeDependencies(hasGoMod: bool, listAll: string, listUpdates: string) returns (info: DependencyInfo)
    ensures !hasGoMod ==> info == NotAModule
    ensures hasGoMod ==> info == Module(Collect(SplitLines(listAll), DependencyOf), Collect(SplitLines(listUpdates), OutdatedOf))
  {
    if !hasGoMod {
      return NotAModule;
    }
    var lines := SplitLines(listAll);
    var dependencies: seq<Dependency> := [];
    var i := 0;
    while i < |lines|
      invariant 0 <= i <= |lines|
      invariant dependencies == Collect(lines[..i], DependencyOf)
    {
      CollectStep(lines, i, DependencyOf);
      var parts := Words(lines[i]);
      if |parts| >= 1 && parts[0] != "go" {
        var version := if |parts| >= 2 then Some(parts[1]) else None;
        dependencies := dependencies + [Dependency(parts[0], version)];
      }
      i := i + 1;
    }
    assert lines[..i] == lines;

    var updates := SplitLines(listUpdates);
    var outdated: seq<Outdated> := [];
    i := 0;
    while i < |updates|
      invariant 0 <= i <= |updates|
      invariant outdated == Collect(updates[..i], OutdatedOf)
    {
      CollectStep(updates, i, OutdatedOf);
      var e := OutdatedOf(updates[i]);
      if e.Some? {
        outdated := outdated + [e.value];
      }
      i := i + 1;
    }
    assert updates[..i] == updates;
    info := Module(dependencies, outdated);
  }

  /** Dependencies come from non-blank lines whose first token is not `go`, with a version iff there is a second token. */
  lemma DependencyLines(line: string)
    ensures DependencyOf(line).Some? <==> !IsBlank(line) && Words(line)[0] != "go"
    ensures DependencyOf(line).Some? ==> (DependencyOf(line).value.version.Some? <==> |Words(line)| >= 2)
  {
    WordsEmptyIffBlank(line);
  }

  /** Outdated entries come exactly from the lines containing both `[` and `]`. */
  lemma OutdatedLines(line: string)
    ensures OutdatedOf(line).Some? <==> '[' in line && ']' in line
  {
    if '[' in line {
      var k :| 0 <= k < |line| && line[k] == '[';
      FindIsFirst(line, '[');
    }
    if ']' in line {
      var k :| 0 <= k < |line| && line[k] == ']';
      FindIsFirst(line, ']');
    }
  }
}
