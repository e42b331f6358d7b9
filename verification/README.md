# Go technical-debt scanner, modelled in Dafny

The scanner walks a Go repository, runs external tools over it (gocyclo, gocognit, scc, golint,
gofmt, `go test`, `go list`, govulncheck, git), and turns their output into six category scores:
complexity, duplication, test quality, dependencies, churn and readability. Each score runs from
0 (no debt) to 100. A weighted mean of the six gives the overall technical-debt score, and a
three-way threshold rule turns a score into a debt level.

This project models everything between the tools' output and the final number:

- **Scoring primitives.** The clamped linear normaliser and its directional wrappers
  (`Normalizer`), the debt-level thresholds (`Thresholds`), and the six-category weighted mean
  (`Aggregator`).
- **The six category analyzers** (`Complexity`, `Duplication`, `TestQuality`, `Dependencies`,
  `Churn`, `Readability`). Each reduces already-collected tool results to a summary with its
  sub-scores and their weighted mean.
- **The parse loops over tool and git output** (`GoTools`, `GitAnalyzer`), and the repository
  scanner's Go-file filter and result assembly (`RepoScanner`). The directory test of the file
  search is a parameter, `Filter`. `AsWritten` is the scanner's own test, applied to the whole
  directory path. `Corrected` is the fixed test described under "## Findings". `FindGoFiles`
  and `Scan` are proved for both.

Each external tool's output is an input value. It is a string, a `seq` of lines, a sequence of
decoded records, or a function from a file name to that file's output. Scores, ratios and
averages are `real`. Two helper modules stand in for the Python built-ins the code relies on:

- `Text` models `str.strip`, `str.split()`, `str.split(sep)`, `str.splitlines`, `int()`,
  `str.find`, `str.lower`, `os.path.basename` and `' '.join`.
- `Stats` models filtering list comprehensions (`Collect`), sums, the `max(1, n)` guard
  (`Ratio`), weighted means, `sorted(..., reverse=True)` as a stable insertion sort, and `[:n]`.

A third helper module, `Paths`, models POSIX `os.path.join`, `os.path.abspath` and
`os.path.relpath`.

Loops in the source are `method`s with `while` loops. Each loop is proved equal to a
specification function defined from the end of the sequence, and the properties of the source
are proved about those functions as lemmas.

## Model

| member | source | states |
|---|---|---|
| Normalizer.Clamp | scoring/normalizer.py:25 | the result lies in [0, 100], and a value already in that range is unchanged |
| Normalizer.Normalize | scoring/normalizer.py:10-25 | the result lies in [0, 100] for all inputs; a degenerate range gives 0; for a proper range `min` maps to 0 and `max` to 100, whichever of the two is larger |
| Normalizer.NormalizeInterior | scoring/normalizer.py:24-25 | inside the range the score is exactly `(v - min) / (max - min) * 100` |
| Normalizer.NormalizeMonotone | scoring/normalizer.py:24-25 | with `min < max`, a larger value never gets a smaller score |
| Normalizer.NormalizeAntitone | scoring/normalizer.py:24-25 | with `max < min`, a larger value never gets a larger score |
| Normalizer.NormalizeSwap | scoring/normalizer.py:24-25 | swapping the ends of a proper range mirrors the score to `100 - score` |
| Normalizer.NormalizeInverse | scoring/normalizer.py:27-38 | `normalize_inverse` plus `normalize` is always 100, so it lies in [0, 100]; a degenerate range gives 100, `min` maps to 100 and `max` to 0 |
| Normalizer.NormalizeInverseAntitone | scoring/normalizer.py:27-38 | with `min < max`, a larger value never gets a larger inverse score |
| Normalizer.NormalizeComplexity | scoring/normalizer.py:40-51 | in [0, 100]; a degenerate range gives 0; `ideal` maps to 0 and `worst` to 100 |
| Normalizer.NormalizePercentage | scoring/normalizer.py:53-64 | in [0, 100]; a degenerate range gives 0; `ideal` maps to 0 and `worst` to 100 |
| Normalizer.NormalizeCount | scoring/normalizer.py:79-90 | in [0, 100]; a degenerate range gives 0; `ideal` maps to 0 and `worst` to 100 |
| Normalizer.NormalizeChurn | scoring/normalizer.py:109-120 | in [0, 100]; a degenerate range gives 0; `ideal` maps to 0 and `worst` to 100 |
| Normalizer.PlainWrappersAreNormalize | scoring/normalizer.py:40-120 | the complexity, percentage, count and churn wrappers each equal `normalize(value, ideal, worst)` exactly |
| Normalizer.NormalizeInversePercentage | scoring/normalizer.py:66-77 | equals `100 - normalize(v, worst, ideal)` and lies in [0, 100]; for a proper range `ideal` maps to 0 and `worst` to 100; a degenerate range gives 100 |
| Normalizer.InversePercentageIsNormalize | scoring/normalizer.py:66-77 | for a proper range the inverse-percentage score equals `normalize(v, ideal, worst)`; on a degenerate range it is 100 more |
| Normalizer.NormalizeRatio | scoring/normalizer.py:92-107 | in [0, 100]; a degenerate range gives 0; `ideal` maps to 0 and `worst` to 100 in both directions |
| Normalizer.NormalizeRatioBranches | scoring/normalizer.py:103-107 | with `ideal > worst` the result is `normalize_inverse` over the swapped range, otherwise plain `normalize`; either way it equals `normalize(v, ideal, worst)` |
| Normalizer.NormalizeRatioTowardsWorst | scoring/normalizer.py:92-107 | a value moving from `ideal` towards `worst` never lowers the ratio score |
| Thresholds.GetDebtLevel | scoring/thresholds.py:19-33 | `High` iff `score >= high`; `Medium` iff `medium <= score < high`; `Low` iff `score` is below both |
| Thresholds.BoundariesBelongAbove | scoring/thresholds.py:28-31 | a score equal to `high` is high, and a score equal to `medium` (below `high`) is medium |
| Thresholds.DebtLevelMonotone | scoring/thresholds.py:28-33 | with `medium <= high`, the level never goes down as the score goes up |
| Thresholds.NoMediumWhenInverted | scoring/thresholds.py:28-33 | with `medium > high`, no score is classified medium |
| Thresholds.DebtLevelIgnoresLowAndOverrides | scoring/thresholds.py:17-33 | the level depends only on the global `high` and `medium` values, never on `low` or on the per-category overrides |
| Thresholds.GetCategoryThresholds | scoring/thresholds.py:35-47 | the category's override when one exists, otherwise the global thresholds |
| Aggregator.Aggregate | scoring/aggregator.py:18-48 | the category scores are the six analyzers' figures, taken unchanged; with non-negative weights and no extra weight keys, the overall score lies between the smallest and largest category score |
| Aggregator.Mean6InRange | scoring/aggregator.py:39-46 | the six-term weighted mean with non-negative weights lies between the smallest and largest term |
| Aggregator.OverallInRange | scoring/aggregator.py:39-46 | with category scores in [0, 100], the overall score is in [0, 100] |
| Aggregator.Mean6Equal | scoring/aggregator.py:39-46 | with six equal positive weights, the weighted mean is the plain mean |
| Aggregator.EqualWeightsMean | scoring/aggregator.py:39-46 | with six equal positive weights, the overall score is the arithmetic mean of the six category scores |
| Aggregator.Mean6Dilute | scoring/aggregator.py:46 | extra weight in the divisor can only lower a mean of non-negative scores |
| Aggregator.ExtraWeightsDilute | scoring/aggregator.py:46 | weight keys beyond the six categories count in the divisor, and with non-negative scores they only lower the overall score |
| Complexity.CyclomaticThreshold | metrics/complexity.py:23 | the configured threshold, 15 when absent |
| Complexity.CognitiveThreshold | metrics/complexity.py:24 | the configured threshold, 15 when absent |
| Complexity.WorstOffendersProps | metrics/complexity.py:57-67 | at most ten offenders (`min(10, n)`), ordered by non-increasing complexity, a sub-multiset of the reported functions; no left-out function is more complex than a kept one |
| Complexity.Summarize | metrics/complexity.py:49-80 | the average passes through, the violation count is the number of reported functions, the offenders are the ten worst, and the score is the normalised average, in [0, 100] |
| Complexity.Analyze | metrics/complexity.py:26-105 | the two tool summaries; with non-negative weights, the overall score lies between the two sub-scores and hence in [0, 100] |
| Duplication.DuplicatedFileOf | metrics/duplication.py:48-57 | a record is listed iff `Duplicate > 0`, with its duplicated and code lines and percentage `Duplicate / max(1, Code) * 100` |
| Duplication.Analyze | metrics/duplication.py:22-75 | the totals are the sums of `Code` and `Duplicate` over Go records; the percentage is `duplicated / max(1, total) * 100`; the list is the listed files sorted by percentage and cut to ten; the score is the normalised percentage, in [0, 100] |
| Duplication.EmptyOutput | metrics/duplication.py:36-57 | with no scc records, both totals, the percentage and the list are all empty or 0 |
| Duplication.PercentageInRange | metrics/duplication.py:44 | when every record's duplicated lines are between 0 and its code lines, the percentage lies in [0, 100] |
| Duplication.DuplicatedFilesAreExactlyDuplicates | metrics/duplication.py:48-57 | every listed file comes from a record with duplicated lines, and every such record is listed |
| Duplication.TopDuplicatedFiles | metrics/duplication.py:60-73 | at most ten files, by non-increasing percentage, a sub-multiset of the listed ones; no left-out file has a larger percentage |
| TestQuality.TestFileOf | metrics/test_quality.py:42-43 | a file counts as a test file iff its basename ends in `_test.go` |
| TestQuality.CoveredOf | metrics/test_quality.py:49-69 | a file is covered iff it is not a test file and its relative path is a coverage key; the entry is that path with the 70.0 placeholder |
| TestQuality.UncoveredOf | metrics/test_quality.py:49-71 | a file is uncovered iff it is not a test file and its relative path is not a coverage key; the entry is that path |
| TestQuality.SplitFiles | metrics/test_quality.py:49-71 | the loop builds exactly the covered and uncovered lists, the covered count and the sum of their coverage |
| TestQuality.Analyze | metrics/test_quality.py:23-112 | the test count, the covered/uncovered split, `average_coverage = total / max(1, covered)`, `ratio = tests / max(1, total - tests)`, both sub-scores in [0, 100], and the weighted mean between them |
| TestQuality.TestFileRulesAgree | metrics/test_quality.py:42-51 | testing the basename and testing the whole path for `_test.go` agree |
| TestQuality.Partition | metrics/test_quality.py:49-71 | the numbers of covered, uncovered and test files add up to the number of files |
| TestQuality.CoveredArePlaceholders | metrics/test_quality.py:62 | every covered entry carries coverage 70.0 |
| TestQuality.AverageOfPlaceholders | metrics/test_quality.py:62-74 | entries all at 70.0 average to 70.0, and an empty list averages to 0 |
| TestQuality.AverageIsPlaceholder | metrics/test_quality.py:62-74 | `average_coverage` is 70.0 when any file is covered and 0 otherwise |
| TestQuality.UncoveredAreUnprofiled | metrics/test_quality.py:55-71 | uncovered paths are not coverage keys, and covered paths are |
| Dependencies.VulnerableOf | metrics/dependencies.py:67-69 | a govulncheck line is kept iff its lower-cased text contains `vulnerability` |
| Dependencies.ScanVulnerabilities | metrics/dependencies.py:56-72 | the loop keeps exactly those lines, and none when govulncheck is unavailable |
| Dependencies.Analyze | metrics/dependencies.py:24-110 | not a module: all counts and the score are 0, whatever the configuration; otherwise the two lists pass through, `outdated_percentage = outdated / max(1, deps) * 100`, the vulnerable score uses a fixed ideal of 0, and with non-negative weights the score lies between the two sub-scores |
| Dependencies.VulnerableLinesExact | metrics/dependencies.py:66-72 | every kept line is an output line containing `vulnerability`, and every such output line is kept |
| Dependencies.OutdatedPercentageBounds | metrics/dependencies.py:53 | with `0 <= outdated <= deps`, the percentage is in [0, 100]; it is 0 with no outdated dependency and 100 when all are outdated |
| Churn.DedupProps | metrics/churn.py:41-46 | the file order has no repeats and the same members as the file list |
| Churn.HighChurnOf | metrics/churn.py:53-62 | a file is listed iff its churn rate is positive, with its five fields copied unchanged |
| Churn.ChurnMapProps | metrics/churn.py:41-46 | the churn map has exactly the given files as keys, each mapped to its `get_file_churn` record |
| Churn.FileChurns | metrics/churn.py:41-46 | the loop builds exactly that map and its insertion order |
| Churn.CollectHighChurn | metrics/churn.py:53-62 | the loop over the map lists exactly the files with positive churn rate, in insertion order |
| Churn.Analyze | metrics/churn.py:22-79 | the repository churn passes through; the average is `sum of rates / max(1, files)`; the list is the positive-rate files sorted by rate and cut to ten; the score is the normalised average, in [0, 100] |
| Churn.HighChurnFilesExact | metrics/churn.py:53-62 | every listed file has a positive rate and is one of the files, and every such file is listed |
| Churn.TopHighChurn | metrics/churn.py:65-77 | at most ten files, by non-increasing churn rate, a sub-multiset of the listed ones; no left-out file has a larger rate |
| Churn.RepeatedFileIgnored | metrics/churn.py:41-46 | a repeated path adds nothing to the file order |
| Readability.CommentLinesBounded | metrics/readability.py:60 | the comment-line count lies between 0 and the line count |
| Readability.FunctionLengths | metrics/readability.py:66-79 | the scanner loop records exactly the lengths of the function-length state machine over the lines |
| Readability.ScanInvariant | metrics/readability.py:70-79 | every recorded length is at least 2; an open function has counted its header; recorded lengths plus the open count never exceed the lines read |
| Readability.NoCloseNoRecord | metrics/readability.py:70-79 | lines none of which is a lone `}` record nothing, so a function still open at the end is dropped |
| Readability.ScanBody | metrics/readability.py:72-76 | a header followed by other lines leaves a function open, counting the header and every line |
| Readability.OneFunction | metrics/readability.py:72-79 | a header, `n` body lines and a lone `}` record exactly one function of length `n + 2` |
| Readability.FileMetricBounds | metrics/readability.py:57-91 | comment lines are at most the total, the comment ratio is in [0, 1], and the average function length is 0 with no function and at least 2 otherwise |
| Readability.AverageLengthAtLeastTwo | metrics/readability.py:82 | when a function was recorded, the average length is at least 2 |
| Readability.MeasureFile | metrics/readability.py:52-91 | the per-file loop body computes exactly that file's metric record |
| Readability.Metrics | metrics/readability.py:49-91 | one metric record per file |
| Readability.MeasureFiles | metrics/readability.py:49-91 | the loop builds exactly the per-file records, in order |
| Readability.MetricsBounds | metrics/readability.py:57-91 | every file's comment ratio is in [0, 1] and its average function length is not negative |
| Readability.AveragesInRange | metrics/readability.py:94-95 | the average comment ratio across files is in [0, 1], and the average function length is not negative |
| Readability.CountIssues | metrics/readability.py:35-42 | the lint and format counts are the numbers of golint and gofmt entries |
| Readability.Analyze | metrics/readability.py:24-149 | issues per file are `count / max(1, files)`; the averages use the same guard; the comment score takes `avg_comment_ratio * 100` through the inverse-percentage map; with non-negative weights the score lies between the smallest and largest sub-score |
| GitAnalyzer.CommitLines | scanner/git_analyzer.py:63-72 | a log line gives a commit iff it contains a vertical bar and splits into at least 4 fields; fields 0-3 are hash, author, date and message |
| GitAnalyzer.NumstatLines | scanner/git_analyzer.py:82-92 | a numstat line counts iff it has at least 3 tokens and both counts parse; `-` counts as 0; a line that does not count adds nothing |
| GitAnalyzer.NumstatOfNonBlank | scanner/git_analyzer.py:82-92 | what one numstat line adds, stated through the blank test, the token count and both parses |
| GitAnalyzer.NumstatLine | scanner/git_analyzer.py:83-92 | the loop body adds exactly that line's counts |
| GitAnalyzer.NumstatTotals | scanner/git_analyzer.py:78-92 | the totals of one `git show --numstat` output are the sums over its lines |
| GitAnalyzer.ChurnRecord | scanner/git_analyzer.py:95-102 | the record holds the three counts, and the churn rate times `max(1, commits)` is the number of changed lines |
| GitAnalyzer.FileChurnOf | scanner/git_analyzer.py:38-102 | there are never more commits than log lines |
| GitAnalyzer.GetFileChurn | scanner/git_analyzer.py:38-102 | the loops compute exactly the file's churn record |
| GitAnalyzer.CommitCountOf | scanner/git_analyzer.py:120 | the commit count is never negative, and 0 unless the trimmed output is all digits |
| GitAnalyzer.CommitCount | scanner/git_analyzer.py:120 | the commit count is the value of the trimmed output when it is all digits, and 0 otherwise |
| GitAnalyzer.ScanLine | scanner/git_analyzer.py:146-165 | the loop body performs exactly one step of the numstat scan |
| GitAnalyzer.ScanNumstat | scanner/git_analyzer.py:141-165 | the loop computes exactly the scan state after all lines |
| GitAnalyzer.CollectHotspots | scanner/git_analyzer.py:168-176 | the loop lists exactly the entries with changed lines, in insertion order |
| GitAnalyzer.GetRepoChurn | scanner/git_analyzer.py:104-191 | the method computes exactly the repository churn record |
| GitAnalyzer.AddChangeInv | scanner/git_analyzer.py:158-163 | counting a line keeps the per-file invariant: each key listed once, every entry ends in the extension with at least one commit, and the totals are the sums over the entries |
| GitAnalyzer.ScanStepInv | scanner/git_analyzer.py:146-165 | every line of the scan keeps that invariant |
| GitAnalyzer.ScanOfInv | scanner/git_analyzer.py:146-165 | the invariant holds after any prefix of the output |
| GitAnalyzer.RepoTotalsAreSums | scanner/git_analyzer.py:150-163 | the repository totals equal the sums of the per-file additions and deletions, and every counted path ends in the extension |
| GitAnalyzer.NothingBeforeFirstHash | scanner/git_analyzer.py:146-149 | numstat lines before the first 40-hex commit line change nothing |
| GitAnalyzer.Hotspots | scanner/git_analyzer.py:168-190 | at most ten hotspots, by non-increasing churn, each an entry with positive churn equal to its additions plus deletions; no left-out entry has more churn |
| GitAnalyzer.HotspotsAreEntries | scanner/git_analyzer.py:169-176 | every hotspot is a per-file entry with positive churn equal to its additions plus deletions |
| GitAnalyzer.GetFileContributors | scanner/git_analyzer.py:209-214 | the contributor count is at most the output length, and 0 exactly for empty output |
| GoTools.ParseComplexityOutput | scanner/go_tools.py:40-64 | the gocyclo/gocognit parse loop computes exactly the last reported average and the list of function entries |
| GoTools.ComplexityEntriesFromLines | scanner/go_tools.py:43-59 | every entry comes from a qualifying line, and there are never more entries than lines |
| GoTools.ComplexityLinesToEntries | scanner/go_tools.py:48-59 | every qualifying line produces its entry |
| GoTools.LastAverageIsLast | scanner/go_tools.py:41-47 | the average is that of the last line reporting one, and 0 when none does |
| GoTools.AverageOfNumeral | scanner/go_tools.py:45-47 | for all non-empty ASCII digit strings `w` and `f`, and any tail not starting with a digit, the line `Average: w.f` plus the tail reports exactly the decimal value of `w.f` |
| GoTools.RunScc | scanner/go_tools.py:105-111 | undecodable output gives no records, and never more records than decoded |
| GoTools.RunSccKeepsExactlyGo | scanner/go_tools.py:108 | the kept records are exactly the decoded records whose `Language` is `Go` |
| GoTools.RunGolint | scanner/go_tools.py:126-139 | the nested loop builds exactly the golint entries |
| GoTools.AppendLintLines | scanner/go_tools.py:133-137 | the inner loop appends one entry per output line |
| GoTools.LintIssuesFromOutput | scanner/go_tools.py:128-137 | every golint entry names a file with non-blank output and carries a line of that output |
| GoTools.LintIssuesCount | scanner/go_tools.py:128-137 | the number of entries is the sum over files of their output line counts, 0 for blank output |
| GoTools.RunGofmt | scanner/go_tools.py:142-154 | the loop builds exactly the gofmt entries |
| GoTools.GofmtEntries | scanner/go_tools.py:144-152 | one entry per file with a non-blank diff, carrying that diff, and no other entries |
| GoTools.ParseCoverageProfile | scanner/go_tools.py:166-182 | no profile gives an empty map; otherwise the loop builds exactly the map from the profile lines |
| GoTools.CoverageKeysFromLines | scanner/go_tools.py:170-177 | every key comes from a line that is not a `mode:` line |
| GoTools.CoverageLastWins | scanner/go_tools.py:174-177 | a later line for the same key overwrites an earlier one |
| GoTools.AnalyzeDependencies | scanner/go_tools.py:185-225 | no `go.mod` gives the error result; otherwise the loops build exactly the dependency and outdated lists |
| GoTools.DependencyLines | scanner/go_tools.py:197-203 | a dependency comes from each non-blank line whose first token is not `go`, with a version iff there are at least 2 tokens |
| GoTools.OutdatedLines | scanner/go_tools.py:211 | an outdated entry comes from a line iff it contains both `[` and `]` |
| GoTools.UpdateInfoShape | scanner/go_tools.py:215 | the update info is empty or the text from the first `[` through the first `]`, and it is not empty when `]` follows `[` |
| Text.Strip | scanner/go_tools.py:132 | the result is empty iff the text is blank, and it neither starts nor ends with white space |
| Text.WordsAreWords | scanner/go_tools.py:49 | every `split()` token is non-empty and holds no white space |
| Text.WordsEmptyIffBlank | scanner/go_tools.py:49 | `split()` gives no token iff the text is blank |
| Text.WordsOfJoinSpaces | scanner/go_tools.py:53 | splitting tokens joined by single spaces gives the tokens back |
| Text.JoinOnSplitOn | scanner/git_analyzer.py:65 | joining the pieces of `split(sep)` with `sep` gives the text back |
| Text.SplitLines | scanner/go_tools.py:43 | no line holds a line break, there are never more lines than characters, and only empty text has no lines |
| Text.ParseInt | scanner/go_tools.py:52 | `int()` of a token succeeds iff it is digits with an optional sign, with the digits' value |
| Text.Lower | metrics/dependencies.py:68 | same length, each character lower-cased |
| Text.BasenameEndsWith | metrics/test_quality.py:42 | for a suffix without `/`, the basename ends in it iff the path does |
| Text.FindIsFirst | scanner/go_tools.py:215 | no earlier character is the one found, and none at all when the result is -1 |
| Stats.SortDescProps | metrics/duplication.py:60 | sorting yields an ordered permutation of the input |
| Stats.TopOfSorted | metrics/complexity.py:57-61 | the first `n` of the sorted list: `min(n, len)` entries, ordered, from the input, and none left out ranks higher |
| Stats.Ratio | metrics/duplication.py:44 | `x / max(1, n)`: equal to `x` when `n < 1`, in [0, 1] when `0 <= x <= n`, and not negative for non-negative `x` |
| Stats.RatioTimes | metrics/duplication.py:44 | with `n >= 1`, the quotient times `n` is `x` |
| Stats.WeightedMean2 | metrics/complexity.py:83-89 | with non-negative weights the two-term mean lies between the terms, and equal terms give that term |
| Stats.WeightedMean4 | metrics/readability.py:124-134 | with non-negative weights the four-term mean lies between the smallest and largest term |
| Paths.AbsPath | scanner/repo_scanner.py:28 | the stored repository path is absolute |
| Paths.AbsPathIdempotent | scanner/repo_scanner.py:28 | taking the absolute path twice changes nothing |
| Paths.Join | scanner/repo_scanner.py:79 | `os.path.join`: an absolute second part wins; otherwise the parts are joined with one `/` |
| Paths.RelPathSelf | metrics/test_quality.py:55 | a path relative to itself is `.` |
| Paths.RelPathOfChild | metrics/test_quality.py:55 | a file joined below a normalised directory is, relative to it, the joined names |
| Paths.ComponentsOfChild | metrics/test_quality.py:55 | joining names below a directory adds exactly those names to its normalised components |
| RepoScanner.FindGoFiles | scanner/repo_scanner.py:69-81 | the nested walk loop lists exactly the `.go` files of the directories that are not skipped, in walk order; with `AsWritten` the skip test is line 74's, on the whole directory path, and with `Corrected` it is the fixed test below the repository |
| RepoScanner.GoFilesEndInGo | scanner/repo_scanner.py:77-79 | every listed path ends in `.go` |
| RepoScanner.GoFilesExact | scanner/repo_scanner.py:72-79 | a path is listed iff some walked directory that is not skipped holds a `.go` file with that joined path |
| RepoScanner.KeptDirectory | scanner/repo_scanner.py:74-79 | a `.go` file in a kept directory is listed under its joined path |
| RepoScanner.SkippedDirectory | scanner/repo_scanner.py:74-75 | a skipped directory contributes no file |
| RepoScanner.VendorFileKeptAsWritten | scanner/repo_scanner.py:74 | the filter as written keeps `/r/vendor/x.go`, a file directly in the `vendor` directory |
| RepoScanner.HiddenParentSkipsAllAsWritten | scanner/repo_scanner.py:74 | the filter as written skips the repository root itself when a directory above it is hidden |
| RepoScanner.VendorSkipped | scanner/repo_scanner.py:74 | the corrected filter skips `vendor` below the repository and everything under it |
| RepoScanner.HiddenSkipped | scanner/repo_scanner.py:74 | the corrected filter skips every hidden directory below the repository |
| RepoScanner.RepoKept | scanner/repo_scanner.py:74 | the corrected filter never skips the repository root |
| RepoScanner.VendorFileSkipped | scanner/repo_scanner.py:74 | with the corrected filter, `/r/vendor/x.go` is not listed for repository `/r` |
| RepoScanner.HiddenRepoKept | scanner/repo_scanner.py:74 | with the corrected filter, `main.go` of a repository below a hidden directory is listed |
| RepoScanner.RunComplexity | scanner/repo_scanner.py:98 | the complexity analyzer on the two tools' reports, its score in [0, 100] with non-negative weights |
| RepoScanner.RunDuplication | scanner/repo_scanner.py:98 | the duplication totals over scc's Go records, its score in [0, 100] |
| RepoScanner.RunTestQuality | scanner/repo_scanner.py:98 | the test count and covered files of the scanned files, its score in [0, 100] with non-negative weights |
| RepoScanner.RunDependencies | scanner/repo_scanner.py:98 | a module report iff the repository has a `go.mod`, its score in [0, 100] with non-negative weights |
| RepoScanner.RunReadability | scanner/repo_scanner.py:98 | the per-file metrics of the scanned files, its score in [0, 100] with non-negative weights |
| RepoScanner.Scan | scanner/repo_scanner.py:83-111 | the result holds the absolute repository path; each analyzer runs on that path and the same file list, found with the chosen filter (`AsWritten` is `scan()` exactly); the category scores and overall score come unchanged from the aggregator; with non-negative weights every category score and the overall score lie in [0, 100] |

## Left out

- Subprocess, filesystem and clock effects are not modelled. Each tool's or git command's output, the `os.walk` listing, the file contents and the existence of `go.mod` are inputs. So are the coverage profile (`None` when the file is missing) and the `--since` date window, which only selects the output. `os.remove` of the profile has no model.
- `_verify_tools` only prints a warning about missing tools and is not part of this model.
- `run_golangci_lint` has no caller among the analyzers and is not part of this model.
- `get_file_age` needs the clock and date parsing and is not part of this model.
- `json.loads` of scc's output is an input: the decoded records, or `None` for output that is not JSON.
- `float(...)` of the gocyclo average is the exact decimal value as a `real`. IEEE-754 rounding is not modelled anywhere; all scores are exact reals.
- `re.match(r'^func\s+', line)` and the `\s` of `str.split()` and `str.strip()` use Python's `str.isspace` set by code point. Unicode digits accepted by `str.isdigit` and `int()`, and the underscores `int()` accepts between digits, are not modelled: only ASCII digits count.
- `str.lower` lower-cases ASCII letters only.
- Paths are POSIX only. `os.path.abspath` takes the working directory as a parameter, and `os.path.relpath` has no model of symbolic links.
- Missing configuration keys (Python `KeyError`) and file read errors are not modelled: configuration records always carry every field, and every file can be read.
- A zero sum of weights is a Python `ZeroDivisionError`. Every weighted mean instead requires its weight sum to be non-zero; `RepoScanner.Divisible` states this for a whole scan.
- `cli.py`, `main.py`, `api/`, `reporting/` and `project_structure.py` are not part of this model. They hold argument parsing, HTTP handlers, background tasks, report rendering and a docstring. The CLI's and the report's strict `>` level rules are deliberately not merged with `get_debt_level`.
- The `defaultdict` of per-file changes is a map plus the sequence of its keys in insertion order, standing in for Python's ordered dict iteration.
- Aggregator.Aggregate: the range guarantee is stated only when the weights have no keys beyond the six categories. Extra keys enter `sum(weights.values())` but not the numerator; `Aggregator.ExtraWeightsDilute` states what they do instead.
- Readability.Analyze: the bounds on the averages are stated in `Readability.AveragesInRange` and `Readability.FileMetricBounds`, not in the method's own contract.
- GitAnalyzer.FileChurnOf: its own contract bounds only the commit count; the churn rate is stated by `GitAnalyzer.ChurnRecord`, which builds the record.
- RepoScanner.RunDuplication: the file list and percentage are stated by `Duplication.Analyze`, not repeated here.

## Findings

| source | as written | input that shows it | evidently intended | confidence | as-written member | corrected member |
|---|---|---|---|---|---|---|
| scanner/repo_scanner.py:74 | `'/vendor/' in root` tests the directory path without a trailing `/`, so the `vendor` directory itself is not skipped, only its subdirectories | repository `/r`, file `x.go` directly in `/r/vendor`: root is `/r/vendor` and `/r/vendor/x.go` is listed | every file under `<repo>/vendor` is skipped | not executed | RepoScanner.VendorFileKeptAsWritten | RepoScanner.VendorSkipped, RepoScanner.VendorFileSkipped, RepoScanner.FindGoFiles |
| scanner/repo_scanner.py:74 | `'/.' in root` tests the whole absolute path, so a repository below any hidden directory has every directory skipped | repository `/h/.u/r` holding `main.go`: root `/h/.u/r` contains `/.` and no file is listed | only hidden directories below the repository are skipped | not executed | RepoScanner.HiddenParentSkipsAllAsWritten | RepoScanner.RepoKept, RepoScanner.HiddenRepoKept, RepoScanner.FindGoFiles |
