/**
 * Debt levels: a score is classified against the global `high` and
 * `medium` thresholds, each an inclusive lower bound; per-category
 * threshold overrides can be looked up but do not take part in the
 * classification.
 */
module Thresholds {
  datatype Level = Low | Medium | High

  /** The order low < medium < high. */
  function Rank(l: Level): nat {
    match l
    case Low => 0
    case Medium => 1
    case High => 2
  }

  /** One `{'high': ..., 'medium': ..., 'low': ...}` threshold table. */
  datatype ThresholdValues = ThresholdValues(high: real, medium: real, low: real)

  /**
   * A `DebtThresholds` object: the global table from `config['thresholds']`
   * and the per-category tables from `config['category_thresholds']`.
   */
  datatype DebtThresholds = DebtThresholds(thresholds: ThresholdValues, categoryThresholds: map<string, ThresholdValues>)

  /**
   * `get_debt_level`: high from `high` upwards, medium from `medium` up to
   * (not including) `high`, low below both.
   */
  function GetDebtLevel(d: DebtThresholds, score: real): (l: Level)
    ensures l == High <==> score >= d.thresholds.high
    ensures l == Medium <==> d.thresholds.medium <= score < d.thresholds.high
    ensures l == Low <==> score < d.thresholds.high && score < d.thresholds.medium
  {
    if score >= d.thresholds.high then High
    else if score >= d.thresholds.medium then Medium
    else Low
  }

  /** A score on a threshold belongs to the higher level. */
  lemma BoundariesBelongAbove(d: DebtThresholds)
    ensures GetDebtLevel(d, d.thresholds.high) == High
    ensures d.thresholds.medium < d.thresholds.high ==> GetDebtLevel(d, d.thresholds.medium) == Medium
  {
  }

  /** With `medium <= high`, a higher score never gets a lower level. */
  lemma DebtLevelMonotone(d: DebtThresholds, s1: real, s2: real)
    requires d.thresholds.medium <= d.thresholds.high
    requires s1 <= s2
    ensures Rank(GetDebtLevel(d, s1)) <= Rank(GetDebtLevel(d, s2))
  {
  }

  /** When `medium > high` the medium level is never produced. */
  lemma NoMediumWhenInverted(d: DebtThresholds, score: real)
    requires d.thresholds.medium > d.thresholds.high
    ensures GetDebtLevel(d, score) != Medium
  {
  }

  /**
   * Only `high` and `medium` of the global table decide the level: the
   * `low` value and every category override can change freely.
   */
  lemma DebtLevelIgnoresLowAndOverrides(d: DebtThresholds, e: DebtThresholds, score: real)
    requires d.thresholds.high == e.thresholds.high && d.thresholds.medium == e.thresholds.medium
    ensures GetDebtLevel(d, score) == GetDebtLevel(e, score)
  {
  }

  /** `get_category_thresholds`: the category's own table when there is one, else the global table. */
  function GetCategoryThresholds(d: DebtThresholds, category: string): (t: ThresholdValues)
    ensures category in d.categoryThresholds ==> t == d.categoryThresholds[category]
    ensures category !in d.categoryThresholds ==> t == d.thresholds
  {
    if category in d.categoryThresholds then d.categoryThresholds[category] else d.thresholds
  }
}
