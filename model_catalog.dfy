/**
 * The model catalog helpers of the ai_model app: the token estimate, the random choice of two
 * models for a comparison and the recommendation of one model (`ModelSelector`). The random
 * sample is an input: a pair of numbers that picks two different candidates. The catalog is
 * the `ai_models` table in its default order (provider, then model name).
 */
module ModelCatalog {
  import opened Wrappers
  import opened Entities
  import Ordering
  import Text
  import MetricHistory

  /** `count_tokens`: about four characters per token, rounded down. */
  function CountTokens(text: string): (n: nat)
    ensures 4 * n <= |text| < 4 * n + 4
  {
    |text| / 4
  }

  /** Estimating a concatenation never loses more than one token against estimating the parts. */
  lemma CountTokensAppend(a: string, b: string)
    ensures CountTokens(a) + CountTokens(b) <= CountTokens(a + b) <= CountTokens(a) + CountTokens(b) + 1
  {
  }

  /** A category filter that Python treats as given: present and non-empty. */
  predicate HasCategory(category: Option<string>)
  {
    category.Some? && category.value != ""
  }

  /** The candidates of `get_random_models_for_comparison`: active, with the category, not excluded. */
  function Candidate(exclude: set<Id>, category: Option<string>): AIModel -> bool
  {
    (m: AIModel) => m.isActive && (!HasCategory(category) || category.value in m.capabilities) && m.id !in exclude
  }

  /** The two distinct positions below `n` that the sample `pick` names: the second skips the first. */
  function PickPair(n: nat, pick: (nat, nat)): (r: (nat, nat))
    requires n >= 2
    ensures r.0 < n && r.1 < n && r.0 != r.1
  {
    var i := pick.0 % n;
    var j := pick.1 % (n - 1);
    (i, if j < i then j else j + 1)
  }

  /** Every ordered pair of distinct positions is a possible sample. */
  lemma PickPairCovers(n: nat, i: nat, j: nat)
    requires n >= 2 && i < n && j < n && i != j
    ensures PickPair(n, (i, if j < i then j else j - 1)) == (i, j)
  {
    var k: nat := if j < i then j else j - 1;
    SmallMod(k, n - 1);
    SmallMod(i, n);
  }

  lemma SmallMod(k: nat, m: nat)
    requires k < m
    ensures k % m == k
  {
  }

  /**
   * `ModelSelector.get_random_models_for_comparison`: fewer than two candidates is an error;
   * otherwise two different candidates.
   */
  function RandomModels(catalog: seq<AIModel>, exclude: set<Id>, category: Option<string>, pick: (nat, nat)): (r: Result<(AIModel, AIModel)>)
    ensures r.Err? <==> Ordering.CountIf(catalog, Candidate(exclude, category)) < 2
    ensures r.Err? ==> r.error == "Not enough models available for comparison"
    ensures r.Ok? ==> r.value.0 in catalog && r.value.1 in catalog
    ensures r.Ok? ==> Candidate(exclude, category)(r.value.0) && Candidate(exclude, category)(r.value.1)
    ensures r.Ok? ==> exists i, j :: 0 <= i < j < |catalog| && {catalog[i], catalog[j]} == {r.value.0, r.value.1}
  {
    var candidates := Ordering.Filter(catalog, Candidate(exclude, category));
    if |candidates| < 2 then Err("Not enough models available for comparison")
    else
      var (i, j) := PickPair(|candidates|, pick);
      var a, b := candidates[i], candidates[j];
      FilterPositions(catalog, Candidate(exclude, category), i, j);
      Ok((a, b))
  }

  /** Two different positions of a filtered sequence come from two different positions of the original. */
  lemma {:induction false} FilterPositions(s: seq<AIModel>, p: AIModel -> bool, i: nat, j: nat)
    requires i < |Ordering.Filter(s, p)| && j < |Ordering.Filter(s, p)| && i != j
    ensures exists a, b :: 0 <= a < b < |s| && {s[a], s[b]} == {Ordering.Filter(s, p)[i], Ordering.Filter(s, p)[j]}
    decreases |s|
  {
    var f := Ordering.Filter(s, p);
    var last := s[|s| - 1];
    var init := Ordering.Filter(s[..|s| - 1], p);
    assert f == if p(last) then init + [last] else init;
    if i < |init| && j < |init| {
      FilterPositions(s[..|s| - 1], p, i, j);
      var a, b :| 0 <= a < b < |s| - 1 && {s[..|s| - 1][a], s[..|s| - 1][b]} == {init[i], init[j]};
      assert s[a] == s[..|s| - 1][a] && s[b] == s[..|s| - 1][b];
    } else {
      var k := if i < |init| then i else j;
      assert k < |init|;
      assert init[k] in Ordering.Filter(s[..|s| - 1], p);
      var a :| 0 <= a < |s| - 1 && s[..|s| - 1][a] == init[k];
      assert s[a] == init[k];
      assert {s[a], s[|s| - 1]} == {f[i], f[j]};
    }
  }

  /** Over a catalog with distinct ids the two models chosen have different ids. */
  lemma RandomModelsDistinct(catalog: seq<AIModel>, exclude: set<Id>, category: Option<string>, pick: (nat, nat))
    requires forall i, j :: 0 <= i < j < |catalog| ==> catalog[i].id != catalog[j].id
    ensures var r := RandomModels(catalog, exclude, category, pick);
            r.Ok? ==> r.value.0.id != r.value.1.id
  {
    var r := RandomModels(catalog, exclude, category, pick);
    if r.Ok? {
      var i, j :| 0 <= i < j < |catalog| && {catalog[i], catalog[j]} == {r.value.0, r.value.1};
      assert catalog[i].id != catalog[j].id;
      assert catalog[i] in {r.value.0, r.value.1} && catalog[j] in {r.value.0, r.value.1};
      assert r.value.0 in {catalog[i], catalog[j]} && r.value.1 in {catalog[i], catalog[j]};
    }
  }

  // ---------------------------------------------------------------- get_recommended_model

  /** The two flags of the user preferences the recommendation reads. */
  datatype Preferences = Preferences(preferFast: bool, preferAccurate: bool)

  const TASK_GENERAL: string := "general"

  predicate EndsWith(s: string, suffix: string)
  {
    |suffix| <= |s| && s[|s| - |suffix|..] == suffix
  }

  /** The candidates: active models, with the task type as a capability unless the type is "general". */
  predicate Recommendable(m: AIModel, taskType: string)
  {
    m.isActive && (taskType == TASK_GENERAL || taskType in m.capabilities)
  }

  /** The metric category a task is scored on. */
  function ScoreCategory(taskType: string): string
  {
    if taskType != TASK_GENERAL then taskType else "overall"
  }

  /**
   * A candidate's score: the rating of its latest all-time metric of the task type's category,
   * plus 100 for a "-mini" model when fast models are preferred and 50 for a model without
   * "turbo" in its code when accurate ones are; None without such a metric.
   */
  function Score(history: seq<ModelMetric>, m: AIModel, taskType: string, prefs: Preferences): Option<int>
  {
    var metric := MetricHistory.LatestOf(history, m.id, ScoreCategory(taskType), PERIOD_ALL_TIME);
    if metric.None? then None
    else Some(metric.value.eloRating
              + (if prefs.preferFast && EndsWith(m.modelCode, "-mini") then 100 else 0)
              + (if prefs.preferAccurate && !Text.Contains(m.modelCode, "turbo") then 50 else 0))
  }

  /** A candidate with a score. */
  predicate Scored(history: seq<ModelMetric>, m: AIModel, taskType: string, prefs: Preferences)
  {
    Recommendable(m, taskType) && Score(history, m, taskType, prefs).Some?
  }

  /**
   * `ModelSelector.get_recommended_model`: the scored candidates sorted by score, highest first
   * and stably, give their head: the first candidate with the highest score. Without a scored
   * candidate it is the first candidate, or none.
   */
  method RecommendedModel(catalog: seq<AIModel>, history: seq<ModelMetric>, prefs: Preferences, taskType: string)
    returns (r: Option<AIModel>)
    ensures (exists i :: 0 <= i < |catalog| && Scored(history, catalog[i], taskType, prefs)) ==>
      exists i :: FirstHighest(catalog, history, taskType, prefs, i) && r == Some(catalog[i])
    ensures (forall i :: 0 <= i < |catalog| ==> !Scored(history, catalog[i], taskType, prefs)) ==>
      var candidates := Ordering.Filter(catalog, (m: AIModel) => Recommendable(m, taskType));
      r == if candidates == [] then None else Some(candidates[0])
  {
    var scores := seq(|catalog|, i requires 0 <= i < |catalog| => Ranked(history, catalog[i], taskType, prefs));
    var best := FirstBest(scores);
    if best.Some? {
      r := Some(catalog[best.value]);
      BestIsRecommended(catalog, history, prefs, taskType, scores, best.value);
    } else {
      var candidates := Ordering.Filter(catalog, (m: AIModel) => Recommendable(m, taskType));
      r := if candidates == [] then None else Some(candidates[0]);
      forall i | 0 <= i < |catalog| ensures !Scored(history, catalog[i], taskType, prefs) {
        assert scores[i] == Ranked(history, catalog[i], taskType, prefs);
      }
    }
  }

  /** The score a candidate is sorted by, None for a model that is not a candidate or has no score. */
  function Ranked(history: seq<ModelMetric>, m: AIModel, taskType: string, prefs: Preferences): (s: Option<int>)
    ensures s.Some? <==> Scored(history, m, taskType, prefs)
    ensures s.Some? ==> s == Score(history, m, taskType, prefs)
  {
    if Recommendable(m, taskType) then Score(history, m, taskType, prefs) else None
  }

  /** The first of the highest scores is the first scored candidate with the highest score. */
  lemma BestIsRecommended(catalog: seq<AIModel>, history: seq<ModelMetric>, prefs: Preferences, taskType: string,
                          scores: seq<Option<int>>, b: nat)
    requires |scores| == |catalog| && forall i :: 0 <= i < |catalog| ==> scores[i] == Ranked(history, catalog[i], taskType, prefs)
    requires b < |scores| && scores[b].Some?
    requires forall j :: 0 <= j < |scores| && scores[j].Some? ==> scores[j].value <= scores[b].value
    requires forall j :: 0 <= j < b && scores[j].Some? ==> scores[j].value < scores[b].value
    ensures FirstHighest(catalog, history, taskType, prefs, b)
  {
  }

  /** Candidate `i` is scored, no scored candidate beats it, and every scored one before it scores lower. */
  ghost predicate FirstHighest(catalog: seq<AIModel>, history: seq<ModelMetric>, taskType: string, prefs: Preferences, i: int)
  {
    0 <= i < |catalog| && Scored(history, catalog[i], taskType, prefs)
    && (forall j :: 0 <= j < |catalog| && Scored(history, catalog[j], taskType, prefs) ==>
          Score(history, catalog[j], taskType, prefs).value <= Score(history, catalog[i], taskType, prefs).value)
    && (forall j :: 0 <= j < i && Scored(history, catalog[j], taskType, prefs) ==>
          Score(history, catalog[j], taskType, prefs).value < Score(history, catalog[i], taskType, prefs).value)
  }

  /** The position a stable sort by score, highest first, puts at the head: the first of the highest scores. */
  method FirstBest(scores: seq<Option<int>>) returns (best: Option<nat>)
    ensures best.Some? <==> exists j :: 0 <= j < |scores| && scores[j].Some?
    ensures best.Some? ==> best.value < |scores| && scores[best.value].Some?
    ensures best.Some? ==> forall j :: 0 <= j < |scores| && scores[j].Some? ==> scores[j].value <= scores[best.value].value
    ensures best.Some? ==> forall j :: 0 <= j < best.value && scores[j].Some? ==> scores[j].value < scores[best.value].value
  {
    best := None;
    for i := 0 to |scores|
      invariant best.Some? ==> best.value < i && scores[best.value].Some?
      invariant best.Some? <==> exists j :: 0 <= j < i && scores[j].Some?
      invariant best.Some? ==> forall j :: 0 <= j < i && scores[j].Some? ==> scores[j].value <= scores[best.value].value
      invariant best.Some? ==> forall j :: 0 <= j < best.value && scores[j].Some? ==> scores[j].value < scores[best.value].value
    {
      if scores[i].Some? && (best.None? || scores[i].value > scores[best.value].value) {
        best := Some(i);
      }
    }
  }
}
