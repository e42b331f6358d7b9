/**
 * The repository scanner: resolves the repository path, lists the Go
 * files of the directory walk, runs the six analyzers on the same path
 * and file list, and aggregates their scores into the scan result.
 */
module RepoScanner {
  import opened Text
  import opened Stats
  import opened Paths
  import opened GoTools
  import opened GitAnalyzer
  import Complexity
  import Duplication
  import TestQuality
  import Dependencies
  import Churn
  import Readability
  import Aggregator

  // ---------------------------------------------------------------------
  // _find_go_files
  // ---------------------------------------------------------------------

  /** One step of `os.walk`: a directory path and the names of the files directly in it. */
  datatype WalkEntry = WalkEntry(root: string, files: seq<string>)

  /**
   * The skip test as the scanner writes it: the directory path contains
   * `/vendor/` or `/.` anywhere, the repository's own location included.
   */
  predicate SkippedAsWritten(root: string) {
    Contains(root, "/vendor/") || Contains(root, "/.")
  }

  /** The part of a walked directory path below the repository. */
  function Below(repo: string, root: string): string {
    if StartsWith(root, repo) then root[|repo|..] else root
  }

  /**
   * The skip test applied to the directories below the repository only,
   * with a trailing `/` so that a directory named `vendor` is itself
   * skipped, not only its subdirectories.
   */
  predicate Skipped(repo: string, root: string) {
    var below := "/" + Below(repo, root);
    Contains(below + "/", "/vendor/") || Contains(below, "/.")
  }

  function SkipAsWritten(): string -> bool {
    (root: string) => SkippedAsWritten(root)
  }

  function SkipFor(repo: string): string -> bool {
    (root: string) => Skipped(repo, root)
  }

  /**
   * Which directory test the walk applies: the scanner's own, on the whole
   * directory path, or the corrected one, below the repository only.
   */
  datatype Filter = AsWritten | Corrected

  function SkipOf(filter: Filter, repo: string): string -> bool {
    match filter
    case AsWritten => SkipAsWritten()
    case Corrected => SkipFor(repo)
  }

  /** A file name ending in `.go` yields its path joined onto its directory. */
  function GoFileOf(root: string): string -> Option<string> {
    (f: string) => if EndsWith(f, ".go") then Some(Join(root, f)) else None
  }

  /** The Go files of one directory, none when the skip test accepts it. */
  function EntryGoFiles(e: WalkEntry, skip: string -> bool): seq<string> {
    if skip(e.root) then [] else Collect(e.files, GoFileOf(e.root))
  }

  /** The Go files of the walk, in walk order, with the directories `skip` accepts left out. */
  function GoFiles(walk: seq<WalkEntry>, skip: string -> bool): seq<string> {
    if walk == [] then []
    else GoFiles(walk[..|walk| - 1], skip) + EntryGoFiles(walk[|walk| - 1], skip)
  }

  lemma GoFilesStep(walk: seq<WalkEntry>, i: nat, skip: string -> bool)
    requires i < |walk|
    ensures GoFiles(walk[..i + 1], skip) == GoFiles(walk[..i], skip) + EntryGoFiles(walk[i], skip)
  {
    assert walk[..i + 1][..i] == walk[..i];
  }

  /** A walk of one directory yields that directory's Go files. */
  lemma GoFilesOfOne(e: WalkEntry, skip: string -> bool)
    ensures GoFiles([e], skip) == EntryGoFiles(e, skip)
  {
    assert [e][..0] == [];
  }

  /** The inner loop: append the Go files of one directory. */
  method AppendGoFiles(done: seq<string>, root: string, files: seq<string>) returns (goFiles: seq<string>)
    ensures goFiles == done + Collect(files, GoFileOf(root))
  {
    goFiles := done;
    var j := 0;
    while j < |files|
      invariant 0 <= j <= |files|
      invariant goFiles == done + Collect(files[..j], GoFileOf(root))
    {
      CollectStep(files, j, GoFileOf(root));
      if EndsWith(files[j], ".go") {
        goFiles := goFiles + [Join(root, files[j])];
      }
      j := j + 1;
    }
    assert files[..j] == files;
  }

  /**
   * `_find_go_files` over the walk of `repo`: with `AsWritten` the
   * scanner's own directory test, with `Corrected` the fixed one.
   */
  method FindGoFiles(repo: string, walk: seq<WalkEntry>, filter: Filter) returns (goFiles: seq<string>)
    ensures filter == AsWritten ==> goFiles == GoFiles(walk, SkipAsWritten())
    ensures filter == Corrected ==> goFiles == GoFiles(walk, SkipFor(repo))
  {
    var skip := SkipOf(filter, repo);
    goFiles := [];
    var i := 0;
    while i < |walk|
      invariant 0 <= i <= |walk|
      invariant goFiles == GoFiles(walk[..i], skip)
    {
      GoFilesStep(walk, i, skip);
      if !skip(walk[i].root) {
        goFiles := AppendGoFiles(goFiles, walk[i].root, walk[i].files);
      }
      i := i + 1;
    }
    assert walk[..i] == walk;
  }

  /** Every path one directory yields ends in `.go`. */
  lemma EntryGoFilesEndInGo(e: WalkEntry, skip: string -> bool)
    ensures forall k :: 0 <= k < |EntryGoFiles(e, skip)| ==> EndsWith(EntryGoFiles(e, skip)[k], ".go")
  {
    var part := EntryGoFiles(e, skip);
    forall k | 0 <= k < |part| ensures EndsWith(part[k], ".go") {
      CollectFrom(e.files, GoFileOf(e.root), k);
      var j :| 0 <= j < |e.files| && GoFileOf(e.root)(e.files[j]) == Some(part[k]);
      var f := e.files[j];
      if StartsWith(f, "/") {
        assert part[k] == f;
      } else {
        EndsWithTrans(part[k], f, ".go");
      }
    }
  }

  /** Every path the walk yields ends in `.go`, whatever the skip test. */
  lemma {:induction false} GoFilesEndInGo(walk: seq<WalkEntry>, skip: string -> bool)
    ensures forall k :: 0 <= k < |GoFiles(walk, skip)| ==> EndsWith(GoFiles(walk, skip)[k], ".go")
  {
    if walk != [] {
      var init := walk[..|walk| - 1];
      var part := EntryGoFiles(walk[|walk| - 1], skip);
      GoFilesEndInGo(init, skip);
      EntryGoFilesEndInGo(walk[|walk| - 1], skip);
      var all := GoFiles(walk, skip);
      forall k | 0 <= k < |all| ensures EndsWith(all[k], ".go") {
        if k >= |GoFiles(init, skip)| {
          assert all[k] == part[k - |GoFiles(init, skip)|];
        }
      }
    }
  }

  /** `p` is the path of a Go file of directory `e`, which the skip test keeps. */
  predicate ListedIn(e: WalkEntry, skip: string -> bool, p: string) {
    !skip(e.root) && exists j :: 0 <= j < |e.files| && EndsWith(e.files[j], ".go") && p == Join(e.root, e.files[j])
  }

  /** `p` is the path of a Go file of some directory of the walk that the skip test keeps. */
  predicate Listed(walk: seq<WalkEntry>, skip: string -> bool, p: string) {
    exists i :: 0 <= i < |walk| && ListedIn(walk[i], skip, p)
  }

  /** One directory yields a path exactly when the path names one of its Go files and the directory is kept. */
  lemma EntryGoFilesExact(e: WalkEntry, skip: string -> bool, p: string)
    ensures p in EntryGoFiles(e, skip) <==> ListedIn(e, skip, p)
  {
    if p in EntryGoFiles(e, skip) {
      var k :| 0 <= k < |EntryGoFiles(e, skip)| && EntryGoFiles(e, skip)[k] == p;
      CollectFrom(e.files, GoFileOf(e.root), k);
    }
    if ListedIn(e, skip, p) {
      var j :| 0 <= j < |e.files| && EndsWith(e.files[j], ".go") && p == Join(e.root, e.files[j]);
      CollectTo(e.files, GoFileOf(e.root), j);
    }
  }

  /** A path is found exactly when it names a Go file of a directory that is not skipped. */
  lemma {:induction false} GoFilesExact(walk: seq<WalkEntry>, skip: string -> bool, p: string)
    ensures p in GoFiles(walk, skip) <==> Listed(walk, skip, p)
  {
    if walk != [] {
      var n := |walk| - 1;
      var init := walk[..n];
      GoFilesExact(init, skip, p);
      EntryGoFilesExact(walk[n], skip, p);
      var front, back := GoFiles(init, skip), EntryGoFiles(walk[n], skip);
      assert GoFiles(walk, skip) == front + back;
      assert p in front + back <==> p in front || p in back;
      ListedSplit(walk, skip, p);
    }
  }

  /** A path is listed by a walk exactly when it is listed by all but the last directory or by the last one. */
  lemma ListedSplit(walk: seq<WalkEntry>, skip: string -> bool, p: string)
    requires walk != []
    ensures Listed(walk, skip, p) <==> Listed(walk[..|walk| - 1], skip, p) || ListedIn(walk[|walk| - 1], skip, p)
  {
    if Listed(walk[..|walk| - 1], skip, p) {
      ListedInInit(walk, skip, p);
    }
    if ListedIn(walk[|walk| - 1], skip, p) {
      ListedAt(walk, skip, p, |walk| - 1);
    }
    if Listed(walk, skip, p) {
      ListedInInitOrLast(walk, skip, p);
    }
  }

  lemma ListedInInit(walk: seq<WalkEntry>, skip: string -> bool, p: string)
    requires walk != [] && Listed(walk[..|walk| - 1], skip, p)
    ensures Listed(walk, skip, p)
  {
    var init := walk[..|walk| - 1];
    var i :| 0 <= i < |init| && ListedIn(init[i], skip, p);
    assert init[i] == walk[i];
    ListedAt(walk, skip, p, i);
  }

  lemma ListedInInitOrLast(walk: seq<WalkEntry>, skip: string -> bool, p: string)
    requires walk != [] && Listed(walk, skip, p)
    ensures Listed(walk[..|walk| - 1], skip, p) || ListedIn(walk[|walk| - 1], skip, p)
  {
    var init := walk[..|walk| - 1];
    var i :| 0 <= i < |walk| && ListedIn(walk[i], skip, p);
    if i < |init| {
      assert init[i] == walk[i];
      ListedAt(init, skip, p, i);
    }
  }

  /** A directory of the walk that lists `p` makes the walk list it. */
  lemma ListedAt(walk: seq<WalkEntry>, skip: string -> bool, p: string, i: int)
    requires 0 <= i < |walk| && ListedIn(walk[i], skip, p)
    ensures Listed(walk, skip, p)
  {
  }

  // ---------------------------------------------------------------------
  // The skip test: what it leaves out
  // ---------------------------------------------------------------------

  /** A one-directory walk of a kept directory with one Go file yields that file's path. */
  lemma KeptDirectory(root: string, f: string, skip: string -> bool)
    requires !skip(root) && EndsWith(f, ".go")
    ensures GoFiles([WalkEntry(root, [f])], skip) == [Join(root, f)]
  {
    GoFilesOfOne(WalkEntry(root, [f]), skip);
    assert GoFileOf(root)(f) == Some(Join(root, f));
    assert [f][..0] == [];
    assert Collect([f], GoFileOf(root)) == Collect([f][..0], GoFileOf(root)) + [Join(root, f)];
  }

  /** A one-directory walk of a skipped directory yields nothing. */
  lemma SkippedDirectory(root: string, files: seq<string>, skip: string -> bool)
    requires skip(root)
    ensures GoFiles([WalkEntry(root, files)], skip) == []
  {
    GoFilesOfOne(WalkEntry(root, files), skip);
  }

  /** A repository `/r` with a `vendor` directory holding the Go file `x.go`. */
  const VendorDir := "/r/vendor"
  const VendorFile := "x.go"

  /** As written, a Go file directly in `<repo>/vendor` is kept: `/r/vendor` has no `/vendor/` in it. */
  lemma VendorFileKeptAsWritten()
    ensures !SkippedAsWritten(VendorDir)
    ensures GoFiles([WalkEntry(VendorDir, [VendorFile])], SkipAsWritten()) == ["/r/vendor/x.go"]
  {
    VendorDirNotSkippedAsWritten();
    VendorFileFound(SkipAsWritten());
    VendorFilePath();
  }

  lemma VendorFileFound(skip: string -> bool)
    requires !skip(VendorDir)
    ensures GoFiles([WalkEntry(VendorDir, [VendorFile])], skip) == [Join(VendorDir, VendorFile)]
  {
    assert EndsWith(VendorFile, ".go");
    KeptDirectory(VendorDir, VendorFile, skip);
  }

  lemma VendorFilePath()
    ensures Join(VendorDir, VendorFile) == "/r/vendor/x.go"
  {
    JoinPlain(VendorDir, VendorFile);
  }

  lemma VendorDirNotSkippedAsWritten()
    ensures !SkippedAsWritten(VendorDir)
  {
    var s := VendorDir;
    NotStartsWithAt(s, "/vendor/", 1);
    NotStartsWithAt(s[1..], "/vendor/", 0);
    assert s[1..][1..] == s[2..];
    ShortNotContains(s[2..], "/vendor/");
    MissingCharNotContains(s, "/.", '.');
  }

  /** A repository `/h/.u/r` inside the hidden directory `/h/.u`, holding the Go file `main.go`. */
  const HiddenRepo := "/h/.u/r"
  const MainFile := "main.go"

  /** As written, a repository inside a hidden directory has every one of its directories skipped. */
  lemma HiddenParentSkipsAllAsWritten()
    ensures SkippedAsWritten(HiddenRepo)
    ensures GoFiles([WalkEntry(HiddenRepo, [MainFile])], SkipAsWritten()) == []
  {
    var s := HiddenRepo;
    assert s[2..4] == "/.";
    ContainsAt(s, "/.", 2);
    SkippedDirectory(s, [MainFile], SkipAsWritten());
  }

  /** The directory `<repo>/vendor` and everything below it are skipped. */
  lemma VendorSkipped(repo: string, rest: string)
    requires rest == [] || StartsWith(rest, "/")
    ensures Skipped(repo, repo + "/vendor" + rest)
  {
    var root := repo + "/vendor" + rest;
    assert root[..|repo|] == repo;
    assert root[|repo|..] == "/vendor" + rest;
    var t := "/" + Below(repo, root) + "/";
    assert t == "/" + "/vendor" + rest + "/";
    assert t[1..8] == "/vendor";
    assert t[8] == '/' by {
      if rest == [] {
        assert t[8] == "/"[0];
      } else {
        assert t[8] == rest[0];
      }
    }
    assert t[1..9] == "/vendor/";
    ContainsAt(t, "/vendor/", 1);
  }

  /** A directory below the repository whose name starts with `.` is skipped, and so is everything below it. */
  lemma HiddenSkipped(repo: string, rest: string)
    ensures Skipped(repo, repo + "/." + rest)
  {
    var root := repo + "/." + rest;
    assert root[..|repo|] == repo;
    assert root[|repo|..] == "/." + rest;
    var t := "/" + Below(repo, root);
    assert t[1..3] == "/.";
    ContainsAt(t, "/.", 1);
  }

  /** The repository directory itself is never skipped, wherever it lies. */
  lemma RepoKept(repo: string)
    ensures !Skipped(repo, repo)
  {
    assert StartsWith(repo, repo);
    assert Below(repo, repo) == [];
    ShortNotContains("/" + [] + "/", "/vendor/");
    ShortNotContains("/" + [], "/.");
  }

  /** With the skip test below the repository, the file in `<repo>/vendor` is left out. */
  lemma VendorFileSkipped()
    ensures GoFiles([WalkEntry(VendorDir, [VendorFile])], SkipFor("/r")) == []
  {
    VendorSkipped("/r", "");
    assert "/r" + "/vendor" + "" == VendorDir;
    SkippedDirectory(VendorDir, [VendorFile], SkipFor("/r"));
  }

  /** With the skip test below the repository, a repository inside a hidden directory keeps its Go files. */
  lemma HiddenRepoKept()
    ensures GoFiles([WalkEntry(HiddenRepo, [MainFile])], SkipFor(HiddenRepo)) == ["/h/.u/r/main.go"]
  {
    RepoKept(HiddenRepo);
    MainFileFound(SkipFor(HiddenRepo));
    MainFilePath();
  }

  lemma MainFileFound(skip: string -> bool)
    requires !skip(HiddenRepo)
    ensures GoFiles([WalkEntry(HiddenRepo, [MainFile])], skip) == [Join(HiddenRepo, MainFile)]
  {
    assert EndsWith(MainFile, ".go");
    KeptDirectory(HiddenRepo, MainFile, skip);
  }

  lemma MainFilePath()
    ensures Join(HiddenRepo, MainFile) == "/h/.u/r/main.go"
  {
    JoinPlain(HiddenRepo, MainFile);
  }

  // ---------------------------------------------------------------------
  // scan
  // ---------------------------------------------------------------------

  /**
   * What the tools report about the repository being scanned: each
   * complexity tool's output for a given `-over` threshold, the decoded scc
   * records, the coverage profile's lines, the two `go list` outputs and
   * whether `go.mod` exists, govulncheck's output, the git commands, golint's
   * and gofmt's output for a file, and each file's text.
   */
  datatype Toolchain = Toolchain(
    gocyclo: int -> string, gocognit: int -> string,
    scc: Option<seq<SccRecord>>,
    coverageProfile: Option<seq<string>>,
    hasGoMod: bool, listAll: string, listUpdates: string,
    govulncheck: Option<string>,
    git: GitRepo,
    golint: string -> string, gofmt: string -> string,
    contents: string -> string)

  /** The configuration: one section per analyzer and the aggregator's weights. */
  datatype ScanConfig = ScanConfig(
    complexity: Complexity.ComplexityConfig, duplication: Duplication.DuplicationConfig,
    testQuality: TestQuality.TestQualityConfig, dependencies: Dependencies.DependencyConfig,
    churn: Churn.ChurnConfig, readability: Readability.ReadabilityConfig,
    weights: Aggregator.Weights)

  /** `{'repo_path': ..., 'overall_score': ..., 'category_scores': ..., 'metrics': ...}` */
  datatype ScanResult = ScanResult(
    repoPath: string, overallScore: real,
    categoryScores: Aggregator.CategoryScores, metrics: Aggregator.Metrics)

  /**
   * The weight sums every analyzer and the aggregator divide by are not
   * zero; the dependency weights matter only for a Go module.
   */
  predicate Divisible(cfg: ScanConfig, hasGoMod: bool) {
    && cfg.complexity.cyclomaticWeight + cfg.complexity.cognitiveWeight != 0.0
    && cfg.testQuality.coverageWeight + cfg.testQuality.ratioWeight != 0.0
    && (hasGoMod ==> cfg.dependencies.outdatedWeight + cfg.dependencies.vulnerableWeight != 0.0)
    && cfg.readability.lintWeight + cfg.readability.fmtWeight
       + cfg.readability.commentWeight + cfg.readability.functionLengthWeight != 0.0
    && Aggregator.TotalWeight(cfg.weights) != 0.0
  }

  /** Every weight of the configuration is non-negative and the weights section has only the six categories. */
  predicate NonNegativeWeights(cfg: ScanConfig) {
    && cfg.complexity.cyclomaticWeight >= 0.0 && cfg.complexity.cognitiveWeight >= 0.0
    && cfg.testQuality.coverageWeight >= 0.0 && cfg.testQuality.ratioWeight >= 0.0
    && cfg.dependencies.outdatedWeight >= 0.0 && cfg.dependencies.vulnerableWeight >= 0.0
    && cfg.readability.lintWeight >= 0.0 && cfg.readability.fmtWeight >= 0.0
    && cfg.readability.commentWeight >= 0.0 && cfg.readability.functionLengthWeight >= 0.0
    && cfg.weights.NonNegative() && cfg.weights.others == []
  }

  /** The Go files of the walk, as the non-empty paths the test-quality analyzer takes. */
  function GoFilePaths(walk: seq<WalkEntry>, skip: string -> bool): seq<FilePath> {
    GoFilesEndInGo(walk, skip);
    GoFiles(walk, skip)
  }

  /** The coverage map `run_go_test` builds: empty when no profile was written. */
  function ProfileCoverage(profile: Option<seq<string>>): map<string, string> {
    if profile.None? then map[] else CoverageOf(profile.value)
  }

  /** The reports of the two complexity tools, run with the configured thresholds. */
  function CyclomaticReport(tools: Toolchain, cfg: ScanConfig): ComplexityReport {
    ComplexityReportOf(tools.gocyclo(Complexity.CyclomaticThreshold(cfg.complexity)))
  }

  function CognitiveReport(tools: Toolchain, cfg: ScanConfig): ComplexityReport {
    ComplexityReportOf(tools.gocognit(Complexity.CognitiveThreshold(cfg.complexity)))
  }

  /** `ComplexityAnalyzer.analyze` on the repository: both tools with the configured thresholds, then the summary. */
  method RunComplexity(tools: Toolchain, cfg: ScanConfig) returns (c: Complexity.ComplexityResult)
    requires cfg.complexity.cyclomaticWeight + cfg.complexity.cognitiveWeight != 0.0
    ensures c == Complexity.Analyze(cfg.complexity, CyclomaticReport(tools, cfg), CognitiveReport(tools, cfg))
    ensures NonNegativeWeights(cfg) ==> 0.0 <= c.overallScore <= 100.0
  {
    var cyclomatic := ParseComplexityOutput(tools.gocyclo(Complexity.CyclomaticThreshold(cfg.complexity)));
    var cognitive := ParseComplexityOutput(tools.gocognit(Complexity.CognitiveThreshold(cfg.complexity)));
    c := Complexity.Analyze(cfg.complexity, cyclomatic, cognitive);
  }

  /** `DuplicationAnalyzer.analyze` on the repository: scc's Go records summed and scored. */
  method RunDuplication(tools: Toolchain, cfg: ScanConfig) returns (d: Duplication.DuplicationResult)
    ensures d.totalLines == Sum(RunScc(tools.scc), Duplication.CodeOf)
    ensures d.duplicatedLines == Sum(RunScc(tools.scc), Duplication.DuplicateOf)
    ensures 0.0 <= d.score <= 100.0
  {
    d := Duplication.Analyze(tools.scc, cfg.duplication);
  }

  /** `TestQualityAnalyzer.analyze` on the repository: the coverage profile read, then the file split and scores. */
  method RunTestQuality(cwd: AbsoluteDir, repoPath: string, files: seq<FilePath>, tools: Toolchain, cfg: ScanConfig)
    returns (t: TestQuality.TestQualityResult)
    requires cfg.testQuality.coverageWeight + cfg.testQuality.ratioWeight != 0.0
    ensures t.testFileCount == |Collect(files, TestQuality.TestFileOf)|
    ensures t.coveredFiles ==
      Collect(files, TestQuality.Covered(TestQuality.Context(cwd, repoPath, ProfileCoverage(tools.coverageProfile))))
    ensures NonNegativeWeights(cfg) ==> 0.0 <= t.overallScore <= 100.0
  {
    var coverage := ParseCoverageProfile(tools.coverageProfile);
    t := TestQuality.Analyze(TestQuality.Context(cwd, repoPath, coverage), files, cfg.testQuality);
  }

  /** `DependencyAnalyzer.analyze` on the repository: the two `go list` outputs, then govulncheck and the scores. */
  method RunDependencies(tools: Toolchain, cfg: ScanConfig) returns (d: Dependencies.DependencyResult)
    requires tools.hasGoMod ==> cfg.dependencies.outdatedWeight + cfg.dependencies.vulnerableWeight != 0.0
    ensures d.ModuleReport? <==> tools.hasGoMod
    ensures NonNegativeWeights(cfg) ==> 0.0 <= d.Score() <= 100.0
  {
    var info := AnalyzeDependencies(tools.hasGoMod, tools.listAll, tools.listUpdates);
    d := Dependencies.Analyze(info, tools.govulncheck, cfg.dependencies);
  }

  /** `ReadabilityAnalyzer.analyze` on the Go files. */
  method RunReadability(files: seq<string>, tools: Toolchain, cfg: ScanConfig) returns (d: Readability.ReadabilityResult)
    requires cfg.readability.lintWeight + cfg.readability.fmtWeight
             + cfg.readability.commentWeight + cfg.readability.functionLengthWeight != 0.0
    ensures d.fileMetrics == Readability.Metrics(files, tools.contents)
    ensures NonNegativeWeights(cfg) ==> 0.0 <= d.score <= 100.0
  {
    d := Readability.Analyze(files, tools.golint, tools.gofmt, tools.contents, cfg.readability);
  }

  /**
   * `RepoScanner(path, config).scan()` run from working directory `cwd`
   * over the directory walk `walk` of the repository: every analyzer gets
   * the absolute repository path and the same Go file list, the category
   * scores are the analyzers' scores, the overall score is their weighted
   * mean, and with non-negative weights every score lies in [0, 100].
   * `filter` chooses the directory test of the walk: `AsWritten` is the
   * scanner as it stands, `Corrected` the fixed test.
   */
  method Scan(cwd: AbsoluteDir, path: string, walk: seq<WalkEntry>, tools: Toolchain, cfg: ScanConfig, filter: Filter)
    returns (r: ScanResult)
    requires Divisible(cfg, tools.hasGoMod)
    ensures r.repoPath == AbsPath(cwd, path)
    ensures r.metrics.complexity == Complexity.Analyze(cfg.complexity, CyclomaticReport(tools, cfg), CognitiveReport(tools, cfg))
    ensures r.metrics.duplication.totalLines == Sum(RunScc(tools.scc), Duplication.CodeOf)
    ensures r.metrics.duplication.duplicatedLines == Sum(RunScc(tools.scc), Duplication.DuplicateOf)
    ensures r.metrics.testQuality.testFileCount == |Collect(GoFilePaths(walk, SkipOf(filter, r.repoPath)), TestQuality.TestFileOf)|
    ensures r.metrics.testQuality.coveredFiles ==
      Collect(GoFilePaths(walk, SkipOf(filter, r.repoPath)),
              TestQuality.Covered(TestQuality.Context(cwd, r.repoPath, ProfileCoverage(tools.coverageProfile))))
    ensures r.metrics.dependencies.ModuleReport? <==> tools.hasGoMod
    ensures r.metrics.churn.fileOrder == Churn.Dedup(GoFiles(walk, SkipOf(filter, r.repoPath)))
    ensures r.metrics.readability.fileMetrics == Readability.Metrics(GoFiles(walk, SkipOf(filter, r.repoPath)), tools.contents)
    ensures r.categoryScores == Aggregator.CategoryScoresOf(r.metrics)
    ensures r.overallScore == Aggregator.Aggregate(r.metrics, cfg.weights).0
    ensures NonNegativeWeights(cfg) ==> r.categoryScores.InRange() && 0.0 <= r.overallScore <= 100.0
  {
    var repoPath := AbsPath(cwd, path);
    var goFiles := FindGoFiles(repoPath, walk, filter);
    var paths := GoFilePaths(walk, SkipOf(filter, repoPath));

    var complexity := RunComplexity(tools, cfg);
    var duplication := RunDuplication(tools, cfg);
    var testQuality := RunTestQuality(cwd, repoPath, paths, tools, cfg);
    var dependencies := RunDependencies(tools, cfg);
    var churn := Churn.Analyze(tools.git, goFiles, cfg.churn);
    var readability := RunReadability(goFiles, tools, cfg);

    var metrics := Aggregator.Metrics(complexity, duplication, testQuality, dependencies, churn, readability);
    var aggregate := Aggregator.Aggregate(metrics, cfg.weights);
    r := ScanResult(repoPath, aggregate.0, aggregate.1, metrics);
    if NonNegativeWeights(cfg) {
      Aggregator.OverallInRange(metrics, cfg.weights);
    }
  }
}
