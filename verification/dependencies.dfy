/**
 * The dependency analyzer: a repository without `go.mod` scores 0; a
 * module is scored on its share of outdated dependencies and on the number
 * of govulncheck output lines that mention a vulnerability.
 */
module Dependencies {
  import opened Text
  import opened Stats
  import opened Normalizer
  import opened GoTools

  /** The `dependencies` section of the configuration. */
  datatype DependencyConfig = DependencyConfig(
    idealOutdated: real, worstOutdated: real, worstVulnerabilities: real,
    outdatedWeight: real, vulnerableWeight: real)

  /** The fixed ideal number of vulnerabilities. */
  const IdealVulnerabilities: real := 0.0

  /**
   * The analyzer's result: the short record for a non-module (all counts
   * and the score 0), or the full report for a module.
   */
  datatype DependencyResult =
    | NonModule
    | ModuleReport(
        dependencyCount: int, dependencies: seq<Dependency>,
        outdatedCount: int, outdatedPercentage: real, outdatedDependencies: seq<Outdated>,
        vulnerableCount: int, vulnerableDependencies: seq<string>,
        outdatedScore: real, vulnerableScore: real, score: real)
  {
    /** `result['score']` */
    function Score(): real {
      if NonModule? then 0.0 else score
    }

    /** `result['dependency_count']`, `result['outdated_count']`, `result['vulnerable_count']` */
    function Counts(): (int, int, int) {
      if NonModule? then (0, 0, 0) else (dependencyCount, outdatedCount, vulnerableCount)
    }
  }

  /** A govulncheck line is kept when it mentions "vulnerability" in any letter case. */
  function VulnerableOf(line: string): (v: Option<string>)
    ensures v.Some? <==> Contains(Lower(line), "vulnerability")
    ensures v.Some? ==> v.value == line
  {
    if Contains(Lower(line), "vulnerability") then Some(line) else None
  }

  /** The vulnerable entries of govulncheck's output; none when the tool is not installed. */
  function VulnerableLines(govulncheck: Option<string>): seq<string> {
    if govulncheck.None? then [] else Collect(SplitLines(govulncheck.value), VulnerableOf)
  }

  /** The loop over govulncheck's output lines. */
  method ScanVulnerabilities(govulncheck: Option<string>) returns (deps: seq<string>)
    ensures deps == VulnerableLines(govulncheck)
  {
    deps := [];
    if govulncheck.None? {
      return;
    }
    var lines := SplitLines(govulncheck.value);
    var i := 0;
    while i < |lines|
      invariant 0 <= i <= |lines|
      invariant deps == Collect(lines[..i], VulnerableOf)
    {
      CollectStep(lines, i, VulnerableOf);
      if Contains(Lower(lines[i]), "vulnerability") {
        deps := deps + [lines[i]];
      }
      i := i + 1;
    }
    assert lines[..i] == lines;
  }

  /**
   * `DependencyAnalyzer.analyze` over the result of `analyze_dependencies`
   * and govulncheck's output (`None` when the tool is missing).
   */
  method Analyze(info: DependencyInfo, govulncheck: Option<string>, cfg: DependencyConfig) returns (r: DependencyResult)
    requires info.Module? ==> cfg.outdatedWeight + cfg.vulnerableWeight != 0.0
    ensures info.NotAModule? ==> r == NonModule && r.Score() == 0.0 && r.Counts() == (0, 0, 0)
    ensures info.Module? ==> r.ModuleReport?
    ensures info.Module? ==> r.dependencies == info.dependencies && r.dependencyCount == |info.dependencies|
    ensures info.Module? ==> r.outdatedDependencies == info.outdated && r.outdatedCount == |info.outdated|
    ensures info.Module? ==> r.outdatedPercentage == Ratio(r.outdatedCount as real, r.dependencyCount) * 100.0
    ensures info.Module? ==> r.vulnerableDependencies == VulnerableLines(govulncheck)
    ensures info.Module? ==> r.vulnerableCount == |r.vulnerableDependencies|
    ensures info.Module? ==> r.outdatedScore == NormalizePercentage(r.outdatedPercentage, cfg.idealOutdated, cfg.worstOutdated)
    ensures info.Module? ==> r.vulnerableScore == NormalizeCount(r.vulnerableCount as real, IdealVulnerabilities, cfg.worstVulnerabilities)
    ensures info.Module? ==> r.score == WeightedMean2(r.outdatedScore, cfg.outdatedWeight, r.vulnerableScore, cfg.vulnerableWeight)
    ensures info.Module? && cfg.outdatedWeight >= 0.0 && cfg.vulnerableWeight >= 0.0 ==>
      Min2(r.outdatedScore, r.vulnerableScore) <= r.Score() <= Max2(r.outdatedScore, r.vulnerableScore)
  {
    if info.NotAModule? {
      return NonModule;
    }
    var dependencyCount := |info.dependencies|;
    var outdatedCount := |info.outdated|;
    var outdatedPercentage := Ratio(outdatedCount as real, dependencyCount) * 100.0;
    var vulnerableDeps := ScanVulnerabilities(govulncheck);
    var vulnerableCount := |vulnerableDeps|;
    var outdatedScore := NormalizePercentage(outdatedPercentage, cfg.idealOutdated, cfg.worstOutdated);
    var vulnerableScore := NormalizeCount(vulnerableCount as real, IdealVulnerabilities, cfg.worstVulnerabilities);
    var overall := WeightedMean2(outdatedScore, cfg.outdatedWeight, vulnerableScore, cfg.vulnerableWeight);
    r := ModuleReport(dependencyCount, info.dependencies, outdatedCount, outdatedPercentage, info.outdated,
                      vulnerableCount, vulnerableDeps, outdatedScore, vulnerableScore, overall);
  }

  /**
   * The vulnerable entries are exactly the output lines that mention a
   * vulnerability, in output order; a missing tool gives none.
   */
  lemma VulnerableLinesExact(govulncheck: Option<string>)
    ensures govulncheck.None? ==> VulnerableLines(govulncheck) == []
    ensures govulncheck.Some? ==> forall k :: 0 <= k < |VulnerableLines(govulncheck)| ==>
      Contains(Lower(VulnerableLines(govulncheck)[k]), "vulnerability") &&
      VulnerableLines(govulncheck)[k] in SplitLines(govulncheck.value)
    ensures govulncheck.Some? ==> forall line ::
      (line in SplitLines(govulncheck.value) && Contains(Lower(line), "vulnerability")) ==> line in VulnerableLines(govulncheck)
  {
    if govulncheck.Some? {
      var lines := SplitLines(govulncheck.value);
      var vs := Collect(lines, VulnerableOf);
      forall k | 0 <= k < |vs|
        ensures Contains(Lower(vs[k]), "vulnerability") && vs[k] in lines
      {
        CollectFrom(lines, VulnerableOf, k);
      }
      forall line | line in lines && Contains(Lower(line), "vulnerability")
        ensures line in vs
      {
        var i :| 0 <= i < |lines| && lines[i] == line;
        CollectTo(lines, VulnerableOf, i);
      }
    }
  }

  /** With no outdated dependency the outdated share is 0, and with all of them outdated it is 100. */
  lemma OutdatedPercentageBounds(dependencyCount: int, outdatedCount: int)
    requires 0 <= outdatedCount <= dependencyCount
    ensures 0.0 <= Ratio(outdatedCount as real, dependencyCount) * 100.0 <= 100.0
    ensures outdatedCount == 0 ==> Ratio(outdatedCount as real, dependencyCount) * 100.0 == 0.0
    ensures 0 < outdatedCount == dependencyCount ==> Ratio(outdatedCount as real, dependencyCount) * 100.0 == 100.0
  {
    if 0 < outdatedCount == dependencyCount {
      RatioOfMultiple(1.0, dependencyCount);
      assert 1.0 * dependencyCount as real == outdatedCount as real;
    }
  }
}
