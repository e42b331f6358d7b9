/**
 * The git history analyzer: commit and `--numstat` parsing for one file,
 * per-file accumulation and hotspots for the whole repository, and
 * contributor counting. Every git command is replaced by its output text
 * (the empty string when git fails).
 */
module GitAnalyzer {
  import opened Text
  import opened Stats

  /**
   * A `GitAnalyzer(repo_path)`: the output of each git command it runs in
   * that repository, as a function of the command's varying arguments.
   */
  datatype GitRepo = GitRepo(
    fileLog: (string, int) -> string,        // log --since=<days ago> --format=%H|%an|%ad|%s --date=short -- <file>
    showNumstat: (string, string) -> string, // show --numstat --format= <hash> -- <file>
    revCount: int -> string,                 // rev-list --count --since=<days ago> HEAD
    shortlog: int -> string,                 // shortlog -sn --since=<days ago> HEAD
    logNumstat: int -> string,               // log --since=<days ago> --numstat --format=%H
    fileShortlog: string -> string)          // shortlog -sn -- <file>

  // ---------------------------------------------------------------------
  // get_file_churn
  // ---------------------------------------------------------------------

  datatype Commit = Commit(hash: string, author: string, date: string, message: string)

  /** `{'commits': ..., 'additions': ..., 'deletions': ..., 'churn_rate': ...}` */
  datatype FileChurn = FileChurn(commits: int, additions: int, deletions: int, churnRate: real)

  /** A log line containing `|` with at least four `|`-separated fields is a commit. */
  function CommitOf(line: string): Option<Commit> {
    if '|' in line then
      var parts := SplitOn(line, '|');
      if |parts| >= 4 then Some(Commit(parts[0], parts[1], parts[2], parts[3])) else None
    else None
  }

  /** `int(tok) if tok != '-' else 0`, `None` where `int` raises. */
  function CountOf(tok: string): Option<int> {
    if tok == "-" then Some(0) else ParseInt(tok)
  }

  /** The counts a numstat line adds: at least three tokens and both counts parse. */
  function NumstatOf(line: string): Option<(int, int)> {
    var parts := Words(line);
    if |parts| >= 3 && CountOf(parts[0]).Some? && CountOf(parts[1]).Some? then
      Some((CountOf(parts[0]).value, CountOf(parts[1]).value))
    else None
  }

  function AddedBy(line: string): int {
    if NumstatOf(line).Some? then NumstatOf(line).value.0 else 0
  }

  function DeletedBy(line: string): int {
    if NumstatOf(line).Some? then NumstatOf(line).value.1 else 0
  }

  /** The commits `get_file_churn` records for a log output. */
  function CommitsOf(log: string): seq<Commit> {
    Collect(SplitLines(log), CommitOf)
  }

  /** Lines added to `file` over `commits`, as `show --numstat` reports them. */
  function AdditionsOver(repo: GitRepo, file: string, commits: seq<Commit>): int {
    Sum(commits, (c: Commit) => Sum(SplitLines(repo.showNumstat(c.hash, file)), AddedBy))
  }

  function DeletionsOver(repo: GitRepo, file: string, commits: seq<Commit>): int {
    Sum(commits, (c: Commit) => Sum(SplitLines(repo.showNumstat(c.hash, file)), DeletedBy))
  }

  /**
   * What `get_file_churn(file, days)` returns: at most one commit per log
   * line; the record, and its churn rate, are those of `ChurnRecord`.
   */
  function FileChurnOf(repo: GitRepo, file: string, days: int): (c: FileChurn)
    ensures 0 <= c.commits <= |SplitLines(repo.fileLog(file, days))|
  {
    var commits := CommitsOf(repo.fileLog(file, days));
    CollectLength(SplitLines(repo.fileLog(file, days)), CommitOf);
    ChurnRecord(|commits|, AdditionsOver(repo, file, commits), DeletionsOver(repo, file, commits))
  }

  /** The record for three counts: the churn rate is the changed lines per commit, guarded by `max(1, n)`. */
  function ChurnRecord(commits: nat, additions: int, deletions: int): (c: FileChurn)
    ensures c.commits == commits && c.additions == additions && c.deletions == deletions
    ensures commits == 0 ==> c.churnRate == (additions + deletions) as real
    ensures commits >= 1 ==> c.churnRate * commits as real == (additions + deletions) as real
  {
    FileChurn(commits, additions, deletions, Ratio((additions + deletions) as real, commits))
  }

  /** The inner loop of `get_file_churn`: the counts of one `show --numstat` output. */
  method NumstatTotals(output: string) returns (additions: int, deletions: int)
    ensures additions == Sum(SplitLines(output), AddedBy)
    ensures deletions == Sum(SplitLines(output), DeletedBy)
  {
    var lines := SplitLines(output);
    additions, deletions := 0, 0;
    var i := 0;
    while i < |lines|
      invariant 0 <= i <= |lines|
      invariant additions == Sum(lines[..i], AddedBy)
      invariant deletions == Sum(lines[..i], DeletedBy)
    {
      var added, deleted := NumstatLine(lines[i]);
      SumNext(lines, i, AddedBy, additions, added);
      SumNext(lines, i, DeletedBy, deletions, deleted);
      additions, deletions := additions + added, deletions + deleted;
      i := i + 1;
    }
    assert lines[..i] == lines;
  }

  /** The body of that loop: what one numstat line adds, nothing for a blank or malformed line. */
  method NumstatLine(line: string) returns (added: int, deleted: int)
    ensures added == AddedBy(line) && deleted == DeletedBy(line)
  {
    added, deleted := 0, 0;
    if Strip(line) != [] {
      var parts := Words(line);
      if |parts| >= 3 {
        var a := CountOf(parts[0]);
        var d := CountOf(parts[1]);
        if a.Some? && d.Some? {
          added, deleted := a.value, d.value;
        }
      }
    }
    NumstatOfNonBlank(line);
  }

  /** The counts of a line as the loop tests them: a blank line adds nothing. */
  lemma NumstatOfNonBlank(line: string)
    ensures var ws := Words(line);
      AddedBy(line) == (if Strip(line) != [] && |ws| >= 3 && CountOf(ws[0]).Some? && CountOf(ws[1]).Some?
                        then CountOf(ws[0]).value else 0)
    ensures var ws := Words(line);
      DeletedBy(line) == (if Strip(line) != [] && |ws| >= 3 && CountOf(ws[0]).Some? && CountOf(ws[1]).Some?
                          then CountOf(ws[1]).value else 0)
  {
    WordsEmptyIffBlank(line);
  }

  /** `get_file_churn`: commits from the log, counts from each commit's numstat. */
  method GetFileChurn(repo: GitRepo, file: string, days: int) returns (churn: FileChurn)
    ensures churn == FileChurnOf(repo, file, days)
  {
    var lines := SplitLines(repo.fileLog(file, days));
    var commits: seq<Commit> := [];
    var i := 0;
    while i < |lines|
      invariant 0 <= i <= |lines|
      invariant commits == Collect(lines[..i], CommitOf)
    {
      CollectStep(lines, i, CommitOf);
      var line := lines[i];
      if '|' in line {
        var parts := SplitOn(line, '|');
        if |parts| >= 4 {
          commits := commits + [Commit(parts[0], parts[1], parts[2], parts[3])];
        }
      }
      i := i + 1;
    }
    assert lines[..i] == lines;

    var additions, deletions := 0, 0;
    var k := 0;
    while k < |commits|
      invariant 0 <= k <= |commits|
      invariant additions == AdditionsOver(repo, file, commits[..k])
      invariant deletions == DeletionsOver(repo, file, commits[..k])
    {
      var a, d := NumstatTotals(repo.showNumstat(commits[k].hash, file));
      SumStep(commits, k, (c: Commit) => Sum(SplitLines(repo.showNumstat(c.hash, file)), AddedBy));
      SumStep(commits, k, (c: Commit) => Sum(SplitLines(repo.showNumstat(c.hash, file)), DeletedBy));
      additions, deletions := additions + a, deletions + d;
      k := k + 1;
    }
    assert commits[..k] == commits;
    churn := ChurnRecord(|commits|, additions, deletions);
  }

  /**
   * A commit is recorded exactly for a log line containing `|` with at least
   * four `|`-separated fields, which become hash, author, date and message.
   */
  lemma CommitLines(line: string)
    ensures CommitOf(line).Some? <==> '|' in line && |SplitOn(line, '|')| >= 4
    ensures CommitOf(line).Some? ==>
      var c, parts := CommitOf(line).value, SplitOn(line, '|');
      c.hash == parts[0] && c.author == parts[1] && c.date == parts[2] && c.message == parts[3]
  {
  }

  /** A line without `|` splits into a single field, so only lines with `|` can be commits. */
  lemma {:induction false} SplitOnWithoutSep(s: string, sep: char)
    requires sep !in s
    ensures SplitOn(s, sep) == [s]
  {
    FindIsFirst(s, sep);
  }

  /**
   * A numstat line changes the totals only with at least three tokens and
   * both counts parsing; `-` counts as 0.
   */
  lemma NumstatLines(line: string)
    ensures NumstatOf(line).Some? <==>
      |Words(line)| >= 3 && CountOf(Words(line)[0]).Some? && CountOf(Words(line)[1]).Some?
    ensures |Words(line)| >= 3 && Words(line)[0] == "-" && CountOf(Words(line)[1]).Some? ==> AddedBy(line) == 0
    ensures |Words(line)| >= 3 && Words(line)[1] == "-" && CountOf(Words(line)[0]).Some? ==> DeletedBy(line) == 0
    ensures NumstatOf(line).None? ==> AddedBy(line) == 0 && DeletedBy(line) == 0
  {
  }

  // ---------------------------------------------------------------------
  // get_repo_churn
  // ---------------------------------------------------------------------

  /** One `file_changes` entry. */
  datatype Changes = Changes(additions: int, deletions: int, commits: int)

  /** `{'file': ..., 'churn': ..., 'commits': ...}` */
  datatype Hotspot = Hotspot(file: string, churn: int, commits: int)

  /** `{'commit_count': ..., 'author_count': ..., ..., 'hotspots': [...]}` */
  datatype RepoChurn = RepoChurn(
    commitCount: int, authorCount: int, totalAdditions: int, totalDeletions: int,
    churnRate: real, hotspots: seq<Hotspot>)

  /**
   * The state of the numstat loop: the current commit, the totals, and the
   * `file_changes` dictionary as its keys in insertion order plus the map.
   */
  datatype RepoScan = RepoScan(
    current: Option<string>, totalAdditions: int, totalDeletions: int,
    paths: seq<string>, changes: map<string, Changes>)

  /** `re.match(r'^[0-9a-f]{40}$', line)`: exactly 40 lowercase hexadecimal characters. */
  predicate IsCommitHash(line: string) {
    |line| == 40 && forall i :: 0 <= i < |line| ==> IsLowerHex(line[i])
  }

  /** A numstat line counted for the repository: its path, additions and deletions. */
  function RepoNumstatOf(line: string, ext: string): Option<(string, int, int)> {
    var parts := Words(line);
    if |parts| >= 3 && EndsWith(parts[2], ext) && CountOf(parts[0]).Some? && CountOf(parts[1]).Some? then
      Some((parts[2], CountOf(parts[0]).value, CountOf(parts[1]).value))
    else None
  }

  /** `file_changes[path]` updated with one counted numstat line, and the totals with it. */
  function AddChange(st: RepoScan, path: string, a: int, d: int): RepoScan {
    var prev := if path in st.changes then st.changes[path] else Changes(0, 0, 0);
    RepoScan(
      st.current, st.totalAdditions + a, st.totalDeletions + d,
      if path in st.changes then st.paths else st.paths + [path],
      st.changes[path := Changes(prev.additions + a, prev.deletions + d, prev.commits + 1)])
  }

  /** One iteration of the numstat loop. */
  function ScanStep(st: RepoScan, line: string, ext: string): RepoScan {
    if IsCommitHash(line) then st.(current := Some(line))
    else if !IsBlank(line) && st.current.Some? && RepoNumstatOf(line, ext).Some? then
      var e := RepoNumstatOf(line, ext).value;
      AddChange(st, e.0, e.1, e.2)
    else st
  }

  const EmptyScan := RepoScan(None, 0, 0, [], map[])

  /** The loop state after the given lines. */
  function ScanOf(lines: seq<string>, ext: string): RepoScan {
    if lines == [] then EmptyScan else ScanStep(ScanOf(lines[..|lines| - 1], ext), lines[|lines| - 1], ext)
  }

  lemma ScanOfStep(lines: seq<string>, i: nat, ext: string)
    requires i < |lines|
    ensures ScanOf(lines[..i + 1], ext) == ScanStep(ScanOf(lines[..i], ext), lines[i], ext)
  {
    assert lines[..i + 1][..i] == lines[..i];
  }

  /** The loop body of `get_repo_churn`. */
  method ScanLine(st: RepoScan, line: string, ext: string) returns (next: RepoScan)
    ensures next == ScanStep(st, line, ext)
  {
    next := st;
    if IsCommitHash(line) {
      next := st.(current := Some(line));
    } else if Strip(line) != [] && st.current.Some? {
      var e := RepoNumstatOf(line, ext);
      if e.Some? {
        var (path, a, d) := e.value;
        next := AddChange(st, path, a, d);
      }
    }
  }

  /** Entries with changed lines become hotspots. */
  function HotspotOf(changes: map<string, Changes>): string -> Option<Hotspot> {
    p => if p in changes && changes[p].additions + changes[p].deletions > 0 then
           Some(Hotspot(p, changes[p].additions + changes[p].deletions, changes[p].commits))
         else None
  }

  function HotspotKey(h: Hotspot): real { h.churn as real }

  /** `int(s) if s.isdigit() else 0` for the stripped `rev-list --count` output. */
  function CommitCountOf(output: string): (n: int)
    ensures n >= 0
    ensures !IsDigits(Strip(output)) ==> n == 0
  {
    var t := Strip(output);
    if IsDigits(t) then DigitsValue(t) else 0
  }

  /** What `get_repo_churn(days, file_extension)` returns. */
  function RepoChurnOf(repo: GitRepo, days: int, ext: string): RepoChurn {
    var count := CommitCountOf(repo.revCount(days));
    var st := ScanOf(SplitLines(repo.logNumstat(days)), ext);
    var hotspots := SortDesc(Collect(st.paths, HotspotOf(st.changes)), HotspotKey);
    RepoChurn(
      count, |SplitLines(repo.shortlog(days))|, st.totalAdditions, st.totalDeletions,
      Ratio((st.totalAdditions + st.totalDeletions) as real, count), Top(hotspots, 10))
  }

  /** `get_repo_churn`. */
  method GetRepoChurn(repo: GitRepo, days: int, ext: string) returns (churn: RepoChurn)
    ensures churn == RepoChurnOf(repo, days, ext)
  {
    var commitCount := CommitCountOf(repo.revCount(days));
    var authorCount := |SplitLines(repo.shortlog(days))|;
    var st := ScanNumstat(SplitLines(repo.logNumstat(days)), ext);
    var hotspots := CollectHotspots(st.paths, st.changes);
    hotspots := SortDesc(hotspots, HotspotKey);
    churn := RepoChurn(
      commitCount, authorCount, st.totalAdditions, st.totalDeletions,
      Ratio((st.totalAdditions + st.totalDeletions) as real, commitCount), Top(hotspots, 10));
  }

  /** The numstat loop of `get_repo_churn`. */
  method ScanNumstat(lines: seq<string>, ext: string) returns (st: RepoScan)
    ensures st == ScanOf(lines, ext)
  {
    st := EmptyScan;
    var i := 0;
    while i < |lines|
      invariant 0 <= i <= |lines|
      invariant st == ScanOf(lines[..i], ext)
    {
      ScanOfStep(lines, i, ext);
      st := ScanLine(st, lines[i], ext);
      i := i + 1;
    }
    assert lines[..i] == lines;
  }

  /** The hotspot loop of `get_repo_churn`, before sorting. */
  method CollectHotspots(paths: seq<string>, changes: map<string, Changes>) returns (hotspots: seq<Hotspot>)
    ensures hotspots == Collect(paths, HotspotOf(changes))
  {
    hotspots := [];
    var k := 0;
    while k < |paths|
      invariant 0 <= k <= |paths|
      invariant hotspots == Collect(paths[..k], HotspotOf(changes))
    {
      CollectStep(paths, k, HotspotOf(changes));
      var p := paths[k];
      if p in changes {
        var c := changes[p];
        if c.additions + c.deletions > 0 {
          hotspots := hotspots + [Hotspot(p, c.additions + c.deletions, c.commits)];
        }
      }
      k := k + 1;
    }
    assert paths[..k] == paths;
  }

  function AdditionsOf(c: Changes): int { c.additions }

  function DeletionsOf(c: Changes): int { c.deletions }

  /** `sum(f(file_changes[p]) for p in file_changes)`. */
  function SumChanges(paths: seq<string>, changes: map<string, Changes>, f: Changes -> int): int
    requires forall i :: 0 <= i < |paths| ==> paths[i] in changes
  {
    if paths == [] then 0
    else SumChanges(paths[..|paths| - 1], changes, f) + f(changes[paths[|paths| - 1]])
  }

  predicate Distinct(xs: seq<string>) {
    forall i, j :: 0 <= i < j < |xs| ==> xs[i] != xs[j]
  }

  /**
   * The loop's invariant: the keys are listed once each, every entry's path
   * ends in the extension and has at least one counted line, and the totals
   * are the sums over the entries.
   */
  ghost predicate ScanInv(st: RepoScan, ext: string) {
    && Distinct(st.paths)
    && (forall i :: 0 <= i < |st.paths| ==> st.paths[i] in st.changes)
    && (forall p :: p in st.changes ==> p in st.paths)
    && (forall p :: p in st.changes ==> EndsWith(p, ext) && st.changes[p].commits >= 1)
    && st.totalAdditions == SumChanges(st.paths, st.changes, AdditionsOf)
    && st.totalDeletions == SumChanges(st.paths, st.changes, DeletionsOf)
  }

  /** Changing the entry of a key that is not listed does not change the sum. */
  lemma {:induction false} SumChangesFrame(paths: seq<string>, changes: map<string, Changes>, p: string, c: Changes, f: Changes -> int)
    requires forall i :: 0 <= i < |paths| ==> paths[i] in changes
    requires p !in paths
    ensures SumChanges(paths, changes[p := c], f) == SumChanges(paths, changes, f)
  {
    if paths != [] {
      SumChangesFrame(paths[..|paths| - 1], changes, p, c, f);
    }
  }

  /** Changing the entry of a listed key changes the sum by the difference. */
  lemma {:induction false} SumChangesUpdate(paths: seq<string>, changes: map<string, Changes>, p: string, c: Changes, f: Changes -> int)
    requires forall i :: 0 <= i < |paths| ==> paths[i] in changes
    requires Distinct(paths) && p in paths
    ensures SumChanges(paths, changes[p := c], f) == SumChanges(paths, changes, f) - f(changes[p]) + f(c)
  {
    var init := paths[..|paths| - 1];
    if paths[|paths| - 1] == p {
      assert p !in init;
      SumChangesFrame(init, changes, p, c, f);
    } else {
      assert p in init;
      SumChangesUpdate(init, changes, p, c, f);
    }
  }

  lemma AddChangeExistingInv(st: RepoScan, path: string, a: int, d: int, ext: string)
    requires ScanInv(st, ext) && path in st.changes
    ensures ScanInv(AddChange(st, path, a, d), ext)
  {
    var prev := st.changes[path];
    var c := Changes(prev.additions + a, prev.deletions + d, prev.commits + 1);
    var next := AddChange(st, path, a, d);
    assert next.paths == st.paths && next.changes == st.changes[path := c];
    SumChangesUpdate(st.paths, st.changes, path, c, AdditionsOf);
    SumChangesUpdate(st.paths, st.changes, path, c, DeletionsOf);
  }

  /** Listing a new key with its entry adds that entry to the sum. */
  lemma SumChangesAppend(paths: seq<string>, changes: map<string, Changes>, p: string, c: Changes, f: Changes -> int)
    requires forall i :: 0 <= i < |paths| ==> paths[i] in changes
    requires p !in paths
    ensures SumChanges(paths + [p], changes[p := c], f) == SumChanges(paths, changes, f) + f(c)
  {
    var ps := paths + [p];
    assert ps[..|ps| - 1] == paths;
    SumChangesFrame(paths, changes, p, c, f);
  }

  /** Appending a key that is not yet listed keeps the keys distinct. */
  lemma DistinctSnoc(xs: seq<string>, p: string)
    requires Distinct(xs) && p !in xs
    ensures Distinct(xs + [p])
  {
    var ys := xs + [p];
    forall i, j | 0 <= i < j < |ys|
      ensures ys[i] != ys[j]
    {
      assert ys[i] == xs[i];
      if j == |xs| {
        assert xs[i] in xs;
      } else {
        assert ys[j] == xs[j];
      }
    }
  }

  /** Listing a new key with its entry keeps keys and entries in step, and every entry well formed. */
  lemma NewEntryListed(paths: seq<string>, changes: map<string, Changes>, path: string, c: Changes, ext: string)
    requires forall i :: 0 <= i < |paths| ==> paths[i] in changes
    requires forall p :: p in changes ==> p in paths
    requires forall p :: p in changes ==> EndsWith(p, ext) && changes[p].commits >= 1
    requires EndsWith(path, ext) && c.commits >= 1
    ensures forall i :: 0 <= i < |paths + [path]| ==> (paths + [path])[i] in changes[path := c]
    ensures forall p :: p in changes[path := c] ==> p in paths + [path]
    ensures forall p :: p in changes[path := c] ==> EndsWith(p, ext) && changes[path := c][p].commits >= 1
  {
    var ps := paths + [path];
    forall i | 0 <= i < |ps|
      ensures ps[i] in changes[path := c]
    {
      if i < |paths| {
        assert ps[i] == paths[i];
      }
    }
  }

  /** Listing a new key with its entry, and adding the entry to the totals, keeps the invariant. */
  lemma AppendEntryInv(st: RepoScan, path: string, c: Changes, ext: string)
    requires ScanInv(st, ext) && path !in st.changes && EndsWith(path, ext) && c.commits >= 1
    ensures ScanInv(RepoScan(st.current, st.totalAdditions + c.additions, st.totalDeletions + c.deletions,
      st.paths + [path], st.changes[path := c]), ext)
  {
    assert path !in st.paths;
    DistinctSnoc(st.paths, path);
    NewEntryListed(st.paths, st.changes, path, c, ext);
    SumChangesAppend(st.paths, st.changes, path, c, AdditionsOf);
    SumChangesAppend(st.paths, st.changes, path, c, DeletionsOf);
  }

  lemma AddChangeNewInv(st: RepoScan, path: string, a: int, d: int, ext: string)
    requires ScanInv(st, ext) && path !in st.changes && EndsWith(path, ext)
    ensures ScanInv(AddChange(st, path, a, d), ext)
  {
    var c := Changes(a, d, 1);
    assert AddChange(st, path, a, d) == RepoScan(st.current, st.totalAdditions + c.additions,
      st.totalDeletions + c.deletions, st.paths + [path], st.changes[path := c]);
    AppendEntryInv(st, path, c, ext);
  }

  lemma AddChangeInv(st: RepoScan, path: string, a: int, d: int, ext: string)
    requires ScanInv(st, ext) && EndsWith(path, ext)
    ensures ScanInv(AddChange(st, path, a, d), ext)
  {
    if path in st.changes {
      AddChangeExistingInv(st, path, a, d, ext);
    } else {
      AddChangeNewInv(st, path, a, d, ext);
    }
  }

  lemma ScanStepInv(st: RepoScan, line: string, ext: string)
    requires ScanInv(st, ext)
    ensures ScanInv(ScanStep(st, line, ext), ext)
  {
    if !IsCommitHash(line) && !IsBlank(line) && st.current.Some? && RepoNumstatOf(line, ext).Some? {
      var e := RepoNumstatOf(line, ext).value;
      AddChangeInv(st, e.0, e.1, e.2, ext);
    }
  }

  /** The invariant holds after any prefix of the output. */
  lemma {:induction false} ScanOfInv(lines: seq<string>, ext: string)
    ensures ScanInv(ScanOf(lines, ext), ext)
  {
    if lines != [] {
      ScanOfInv(lines[..|lines| - 1], ext);
      ScanStepInv(ScanOf(lines[..|lines| - 1], ext), lines[|lines| - 1], ext);
    }
  }

  /**
   * The repository totals equal the sums over the per-file entries, and
   * every entry is for a path ending in the extension.
   */
  lemma RepoTotalsAreSums(repo: GitRepo, days: int, ext: string)
    ensures var st := ScanOf(SplitLines(repo.logNumstat(days)), ext);
      && ScanInv(st, ext)
      && RepoChurnOf(repo, days, ext).totalAdditions == SumChanges(st.paths, st.changes, AdditionsOf)
      && RepoChurnOf(repo, days, ext).totalDeletions == SumChanges(st.paths, st.changes, DeletionsOf)
      && forall p :: p in st.changes ==> EndsWith(p, ext)
  {
    ScanOfInv(SplitLines(repo.logNumstat(days)), ext);
  }

  /** Numstat lines seen before the first commit hash change nothing. */
  lemma {:induction false} NothingBeforeFirstHash(lines: seq<string>, ext: string)
    requires forall i :: 0 <= i < |lines| ==> !IsCommitHash(lines[i])
    ensures ScanOf(lines, ext) == EmptyScan
  {
    if lines != [] {
      NothingBeforeFirstHash(lines[..|lines| - 1], ext);
    }
  }

  /**
   * The hotspots: at most 10, ordered by non-increasing churn, each an
   * entry with changed lines and its churn the sum of its additions and
   * deletions; no left-out entry with changed lines has more churn than a
   * listed one.
   */
  lemma Hotspots(repo: GitRepo, days: int, ext: string)
    ensures var st := ScanOf(SplitLines(repo.logNumstat(days)), ext);
      var all := Collect(st.paths, HotspotOf(st.changes));
      var hs := RepoChurnOf(repo, days, ext).hotspots;
      && |hs| == (if |all| < 10 then |all| else 10)
      && SortedDesc(hs, HotspotKey)
      && multiset(hs) <= multiset(all)
      && (forall k :: 0 <= k < |all| ==>
            all[k].file in st.changes && all[k].churn > 0 &&
            all[k].churn == st.changes[all[k].file].additions + st.changes[all[k].file].deletions)
      && (forall i, j :: 0 <= i < |hs| <= j < |SortDesc(all, HotspotKey)| ==>
            SortDesc(all, HotspotKey)[j].churn <= hs[i].churn)
  {
    var st := ScanOf(SplitLines(repo.logNumstat(days)), ext);
    var all := Collect(st.paths, HotspotOf(st.changes));
    assert RepoChurnOf(repo, days, ext).hotspots == Top(SortDesc(all, HotspotKey), 10);
    TopOfSorted(all, HotspotKey, 10);
    HotspotsAreEntries(st.paths, st.changes);
  }

  /** Every hotspot is an entry with changed lines, its churn the entry's additions plus deletions. */
  lemma HotspotsAreEntries(paths: seq<string>, changes: map<string, Changes>)
    ensures var all := Collect(paths, HotspotOf(changes));
      forall k :: 0 <= k < |all| ==>
        all[k].file in changes && all[k].churn > 0 &&
        all[k].churn == changes[all[k].file].additions + changes[all[k].file].deletions
  {
    var all := Collect(paths, HotspotOf(changes));
    forall k | 0 <= k < |all|
      ensures all[k].file in changes && all[k].churn > 0
      ensures all[k].churn == changes[all[k].file].additions + changes[all[k].file].deletions
    {
      CollectFrom(paths, HotspotOf(changes), k);
    }
  }

  /** `commit_count` is the parsed count when the trimmed output is all digits, and 0 otherwise. */
  lemma CommitCount(output: string)
    ensures IsDigits(Strip(output)) ==> CommitCountOf(output) == DigitsValue(Strip(output))
    ensures !IsDigits(Strip(output)) ==> CommitCountOf(output) == 0
  {
  }

  /** `get_file_contributors`: the number of `shortlog -sn` lines. */
  function GetFileContributors(repo: GitRepo, file: string): (n: nat)
    ensures n <= |repo.fileShortlog(file)|
    ensures n == 0 <==> repo.fileShortlog(file) == []
  {
    |SplitLines(repo.fileShortlog(file))|
  }
}
