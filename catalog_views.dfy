/**
 * The model catalog's views and serializers (ai_model/view.py, ai_model/serializers.py): the
 * list filters, the capability listing, the leaderboard trend, a model's per-category
 * performance and per-opponent record, and the validation of comparison and test requests.
 * The catalog is the `ai_models` table in its default order (provider, then model name); the
 * metric history and the feedback rows are the tables the queries read.
 */
module CatalogViews {
  import opened Wrappers
  import opened Entities
  import Text
  import Ordering
  import MetricHistory
  import MetricCounters
  import Comparison
  import MessageRules
  import Fields
  import Users

  // ---------------------------------------------------------------- list filters

  /** The query parameters of the model list. */
  datatype ListQuery = ListQuery(provider: Option<string>, capabilities: seq<string>, search: Option<string>)

  /** `field__icontains=search`, for ASCII text. */
  predicate ContainsIgnoringCase(field: string, search: string)
  {
    Text.Contains(Text.Lower(field), Text.Lower(search))
  }

  /** `get_queryset`: what one model must satisfy to be listed. */
  predicate Listed(m: AIModel, isStaff: bool, q: ListQuery)
  {
    (isStaff || m.isActive)
    && (q.provider.None? || q.provider.value == "" || m.provider == q.provider.value)
    && (forall c :: c in q.capabilities ==> c in m.capabilities)
    && (q.search.None? || q.search.value == ""
        || ContainsIgnoringCase(m.displayName, q.search.value)
        || ContainsIgnoringCase(m.description, q.search.value)
        || ContainsIgnoringCase(m.modelCode, q.search.value))
  }

  /** The listed models, in catalog order. */
  function ListModels(catalog: seq<AIModel>, isStaff: bool, q: ListQuery): (r: seq<AIModel>)
  {
    Ordering.Filter(catalog, (m: AIModel) => Listed(m, isStaff, q))
  }

  /**
   * A non-staff user sees active models only; every listed model has every requested
   * capability and the requested provider; with no parameters a staff user sees the whole
   * catalog.
   */
  lemma ListModelsRules(catalog: seq<AIModel>, isStaff: bool, q: ListQuery)
    ensures forall m :: m in ListModels(catalog, isStaff, q) ==> m in catalog
    ensures !isStaff ==> forall m :: m in ListModels(catalog, isStaff, q) ==> m.isActive
    ensures forall m, c :: m in ListModels(catalog, isStaff, q) && c in q.capabilities ==> c in m.capabilities
    ensures q.provider.Some? && q.provider.value != "" ==>
      forall m :: m in ListModels(catalog, isStaff, q) ==> m.provider == q.provider.value
    ensures isStaff && q == ListQuery(None, [], None) ==> ListModels(catalog, isStaff, q) == catalog
  {
    if isStaff && q == ListQuery(None, [], None) {
      Ordering.FilterKeepsAll(catalog, (m: AIModel) => Listed(m, isStaff, q));
    }
  }

  /** What Python raises for `request.user.is_staff` on the project's user model, which has no such field. */
  const NO_IS_STAFF_ERROR: string := "'User' object has no attribute 'is_staff'"

  /**
   * `get_queryset` as written, by who asks: Django's `AnonymousUser` is not staff and sees the
   * active models; an account resolved to the project's user model has no `is_staff`, so the
   * listing fails for every signed-in or anonymous-token user.
   */
  function ListModelsAsWritten(catalog: seq<AIModel>, who: Users.Principal, q: ListQuery): (r: Result<seq<AIModel>>)
    ensures r.Err? <==> who.Member?
    ensures r.Err? ==> r.error == NO_IS_STAFF_ERROR
    ensures r.Ok? ==> forall m :: m in r.value ==> m in catalog && m.isActive
  {
    if who.Member? then Err(NO_IS_STAFF_ERROR)
    else
      ListModelsRules(catalog, false, q);
      Ok(ListModels(catalog, false, q))
  }

  /** An account with an active model in the catalog is refused a listing that would have shown it. */
  lemma ListModelsAsWrittenRefusesAccount(catalog: seq<AIModel>, id: Id, q: ListQuery, m: AIModel)
    requires m in catalog && m.isActive && q == ListQuery(None, [], None)
    ensures ListModelsAsWritten(catalog, Users.Member(id, false), q).Err?
    ensures m in ListModels(catalog, false, q)
  {
    assert Listed(m, false, q);
  }

  // ---------------------------------------------------------------- capabilities

  datatype CapabilityInfo = CapabilityInfo(name: string, displayName: string, modelCount: nat)

  /**
   * `cap.replace('_', ' ').title()`: underscores become spaces, other non-letters stay, and each
   * letter keeps its letter, upper-cased at the start of a word and lower-cased elsewhere.
   */
  function CapabilityDisplayName(cap: string): (r: string)
    ensures |r| == |cap|
    ensures forall i :: 0 <= i < |cap| && !Text.IsLetter(cap[i]) ==> r[i] == if cap[i] == '_' then ' ' else cap[i]
    ensures forall i :: 0 <= i < |cap| && Text.IsLetter(cap[i]) ==>
              r[i] == if i == 0 || !Text.IsLetter(cap[i - 1]) then Text.UpperChar(cap[i]) else Text.LowerChar(cap[i])
  {
    var spaced := Text.ReplaceChar(cap, '_', " ");
    Text.ReplaceCharAt(cap, '_', ' ');
    Text.TitleCaseRules(spaced, false);
    Text.Title(spaced)
  }

  /** The active models offering a capability. */
  function ModelsWith(catalog: seq<AIModel>, cap: string): nat
  {
    Ordering.CountIf(catalog, (m: AIModel) => m.isActive && cap in m.capabilities)
  }

  /** Some active model of the catalog offers the capability. */
  ghost predicate Offered(catalog: seq<AIModel>, c: string)
  {
    exists m :: m in catalog && m.isActive && c in m.capabilities
  }

  /** The capability names of a listing, in order. */
  function Names(info: seq<CapabilityInfo>): (names: seq<string>)
    ensures |names| == |info| && forall i :: 0 <= i < |info| ==> names[i] == info[i].name
  {
    seq(|info|, i requires 0 <= i < |info| => info[i].name)
  }

  /**
   * The `capabilities` action: every capability of an active model, once, in sorted order,
   * with its display name and the number of active models offering it.
   */
  method CapabilityListing(catalog: seq<AIModel>) returns (info: seq<CapabilityInfo>)
    ensures Text.StrictlySorted(Names(info))
    ensures forall c :: c in Names(info) <==> Offered(catalog, c)
    ensures forall i :: 0 <= i < |info| ==>
      info[i].displayName == CapabilityDisplayName(info[i].name) && info[i].modelCount == ModelsWith(catalog, info[i].name)
    ensures forall i :: 0 <= i < |info| ==> info[i].modelCount > 0
  {
    var all: set<string> := {};
    for k := 0 to |catalog|
      invariant forall c :: c in all <==> Offered(catalog[..k], c)
    {
      assert catalog[..k + 1] == catalog[..k] + [catalog[k]];
      if catalog[k].isActive {
        all := all + set c | c in catalog[k].capabilities;
      }
    }
    assert catalog[..|catalog|] == catalog;
    var names := Text.SortedSet(all);
    info := [];
    for i := 0 to |names|
      invariant |info| == i
      invariant forall j :: 0 <= j < i ==> info[j] == CapabilityInfo(names[j], CapabilityDisplayName(names[j]), ModelsWith(catalog, names[j]))
    {
      info := info + [CapabilityInfo(names[i], CapabilityDisplayName(names[i]), ModelsWith(catalog, names[i]))];
    }
    assert Names(info) == names;
    forall i | 0 <= i < |info| ensures info[i].modelCount > 0 {
      assert Offered(catalog, names[i]);
      var m :| m in catalog && m.isActive && names[i] in m.capabilities;
      var k :| 0 <= k < |catalog| && catalog[k] == m;
      CountIfPositive(catalog, (m: AIModel) => m.isActive && names[i] in m.capabilities, k);
    }
  }

  /** A sequence with an element satisfying `p` counts at least one. */
  lemma {:induction false} CountIfPositive<T>(s: seq<T>, p: T -> bool, k: nat)
    requires k < |s| && p(s[k])
    ensures Ordering.CountIf(s, p) > 0
  {
    if k < |s| - 1 {
      CountIfPositive(s[..|s| - 1], p, k);
    }
  }

  // ---------------------------------------------------------------- leaderboard trend

  const TREND_UP: string := "up"
  const TREND_DOWN: string := "down"
  const TREND_STABLE: string := "stable"

  /**
   * `_calculate_trend`: the latest row of the series against the one before it (rows of a
   * series have distinct calculation times).
   */
  function Trend(history: seq<ModelMetric>, model: Id, category: string, period: string): (t: string)
  {
    var current := MetricHistory.LatestOf(history, model, category, period);
    if current.None? then TREND_STABLE
    else
      var previous := MetricHistory.PreviousOf(history, current.value);
      if previous.None? then TREND_STABLE
      else if current.value.eloRating > previous.value.eloRating then TREND_UP
      else if current.value.eloRating < previous.value.eloRating then TREND_DOWN
      else TREND_STABLE
  }

  /**
   * The trend is "up" (or "down") exactly when the series has a row calculated before its
   * latest one, and the latest of those earlier rows rated lower (or higher) than the latest
   * row; a series with fewer than two rows is "stable".
   */
  lemma TrendMeaning(history: seq<ModelMetric>, model: Id, category: string, period: string)
    ensures Trend(history, model, category, period) in {TREND_UP, TREND_DOWN, TREND_STABLE}
    ensures (forall h :: h in history && MetricHistory.InSeries(h, model, category, period) ==>
               h == MetricHistory.LatestOf(history, model, category, period).value)
            ==> Trend(history, model, category, period) == TREND_STABLE
    ensures Trend(history, model, category, period) == TREND_UP <==>
      exists cur, prev :: Some(cur) == MetricHistory.LatestOf(history, model, category, period)
                          && Some(prev) == MetricHistory.PreviousOf(history, cur) && cur.eloRating > prev.eloRating
    ensures Trend(history, model, category, period) == TREND_DOWN <==>
      exists cur, prev :: Some(cur) == MetricHistory.LatestOf(history, model, category, period)
                          && Some(prev) == MetricHistory.PreviousOf(history, cur) && cur.eloRating < prev.eloRating
  {
    var current := MetricHistory.LatestOf(history, model, category, period);
    if current.Some? {
      var previous := MetricHistory.PreviousOf(history, current.value);
      if previous.Some? {
        assert Some(current.value) == current && Some(previous.value) == previous;
      }
    }
  }

  // ---------------------------------------------------------------- model statistics

  /**
   * `_get_performance_metrics` over the model's all-time rows in query order (newest first):
   * the first row of each category.
   */
  method PerformanceMetrics(rows: seq<ModelMetric>, model: Id) returns (perf: map<string, ModelMetric>)
    ensures forall c :: c in perf <==> exists i :: 0 <= i < |rows| && IsPerformanceRow(rows[i], model, c)
    ensures forall c :: c in perf ==> exists i :: 0 <= i < |rows| && perf[c] == rows[i] && IsPerformanceRow(rows[i], model, c)
                                       && forall j :: 0 <= j < i ==> !IsPerformanceRow(rows[j], model, c)
  {
    perf := map[];
    for i := 0 to |rows|
      invariant forall c :: c in perf <==> exists k :: 0 <= k < i && IsPerformanceRow(rows[k], model, c)
      invariant forall c :: c in perf ==> exists k :: 0 <= k < i && perf[c] == rows[k] && IsPerformanceRow(rows[k], model, c)
                                           && forall j :: 0 <= j < k ==> !IsPerformanceRow(rows[j], model, c)
    {
      var m := rows[i];
      if m.model == model && m.period == PERIOD_ALL_TIME && m.category !in perf {
        perf := perf[m.category := m];
      }
    }
  }

  /** An all-time row of the model, of one category. */
  predicate IsPerformanceRow(m: ModelMetric, model: Id, category: string)
  {
    m.model == model && m.period == PERIOD_ALL_TIME && m.category == category
  }

  /** Over rows ordered newest first, the kept row of each category is that category's latest. */
  lemma PerformanceIsLatest(rows: seq<ModelMetric>, model: Id, c: string, i: nat)
    requires forall j, k :: 0 <= j < k < |rows| ==> rows[j].calculatedAt >= rows[k].calculatedAt
    requires i < |rows| && IsPerformanceRow(rows[i], model, c) && forall j :: 0 <= j < i ==> !IsPerformanceRow(rows[j], model, c)
    ensures forall h :: h in rows && IsPerformanceRow(h, model, c) ==> h.calculatedAt <= rows[i].calculatedAt
  {
    forall h | h in rows && IsPerformanceRow(h, model, c) ensures h.calculatedAt <= rows[i].calculatedAt {
      var k :| 0 <= k < |rows| && rows[k] == h;
    }
  }

  /** A model's record against one opponent. */
  datatype Versus = Versus(wins: nat, losses: nat, total: nat)

  /** The comparisons `_get_comparison_stats` reads: preference feedback on a compare session with the model on either side. */
  predicate IsComparisonOf(row: MetricCounters.FeedbackRow, model: Id)
  {
    row.fb.feedbackType == FEEDBACK_PREFERENCE && row.sessionMode == MODE_COMPARE
    && (row.sessionA == Some(model) || row.sessionB == Some(model))
  }

  /** The other side of the session; model A's side when the model is model A. */
  function OpponentOf(row: MetricCounters.FeedbackRow, model: Id): Option<Id>
  {
    if row.sessionA == Some(model) then row.sessionB else row.sessionA
  }

  /** One comparison of the loop, for one opponent: a win when the model was preferred, a loss only when the opponent was. */
  function Counted(v: Versus, row: MetricCounters.FeedbackRow, model: Id, o: Id): Versus
  {
    if IsComparisonOf(row, model) && OpponentOf(row, model) == Some(o) then
      var won := row.fb.preferred == Some(model);
      Versus(v.wins + (if won then 1 else 0), v.losses + (if !won && row.fb.preferred == Some(o) then 1 else 0), v.total + 1)
    else v
  }

  /** The record against `o` over the rows. */
  function VersusOf(rows: seq<MetricCounters.FeedbackRow>, model: Id, o: Id): (v: Versus)
    ensures v.wins + v.losses <= v.total
  {
    if rows == [] then Versus(0, 0, 0)
    else Counted(VersusOf(rows[..|rows| - 1], model, o), rows[|rows| - 1], model, o)
  }

  /** The record counts the comparisons against `o`, and the model's wins among them. */
  lemma {:induction false} VersusCounts(rows: seq<MetricCounters.FeedbackRow>, model: Id, o: Id)
    ensures VersusOf(rows, model, o).total ==
      Ordering.CountIf(rows, (r: MetricCounters.FeedbackRow) => IsComparisonOf(r, model) && OpponentOf(r, model) == Some(o))
    ensures VersusOf(rows, model, o).wins ==
      Ordering.CountIf(rows, (r: MetricCounters.FeedbackRow) =>
        IsComparisonOf(r, model) && OpponentOf(r, model) == Some(o) && r.fb.preferred == Some(model))
  {
    if rows != [] {
      VersusCounts(rows[..|rows| - 1], model, o);
    }
  }

  /** The message of the `AttributeError` raised for a compare session without an opponent. */
  const NO_OPPONENT: string := "'NoneType' object has no attribute 'id'"

  /**
   * The counting loop of `_get_comparison_stats`: an entry per opponent met, holding the
   * record against it. A comparison whose session lacks the other model raises.
   */
  method ComparisonStats(rows: seq<MetricCounters.FeedbackRow>, model: Id) returns (r: Result<map<Id, Versus>>)
    ensures r.Err? <==> exists i :: 0 <= i < |rows| && IsComparisonOf(rows[i], model) && OpponentOf(rows[i], model).None?
    ensures r.Err? ==> r.error == NO_OPPONENT
    ensures r.Ok? ==> forall o :: o in r.value <==> VersusOf(rows, model, o).total > 0
    ensures r.Ok? ==> forall o :: o in r.value ==> r.value[o] == VersusOf(rows, model, o)
  {
    var versus: map<Id, Versus> := map[];
    for i := 0 to |rows|
      invariant forall j :: 0 <= j < i ==> !(IsComparisonOf(rows[j], model) && OpponentOf(rows[j], model).None?)
      invariant Tracks(versus, rows[..i], model)
    {
      var row := rows[i];
      if IsComparisonOf(row, model) {
        var opponent := OpponentOf(row, model);
        if opponent.None? {
          return Err(NO_OPPONENT);
        }
        var o := opponent.value;
        var v := if o in versus then versus[o] else Versus(0, 0, 0);
        ghost var before := v;
        var won := row.fb.preferred == Some(model);
        v := v.(total := v.total + 1);
        if won {
          v := v.(wins := v.wins + 1);
        } else if row.fb.preferred == Some(o) {
          v := v.(losses := v.losses + 1);
        }
        assert v == Counted(before, row, model, o);
        TrackedStep(versus, rows, i, model);
        versus := versus[o := v];
      } else {
        TrackedStep(versus, rows, i, model);
      }
    }
    assert rows[..|rows|] == rows;
    r := Ok(versus);
  }

  /** The map holds, for each opponent met in the rows, the record against it, and nothing else. */
  ghost predicate Tracks(versus: map<Id, Versus>, rows: seq<MetricCounters.FeedbackRow>, model: Id)
  {
    (forall o :: o in versus <==> VersusOf(rows, model, o).total > 0)
    && (forall o :: o in versus ==> versus[o] == VersusOf(rows, model, o))
  }

  /** One more row updates only the entry of that row's opponent, by counting the row. */
  lemma TrackedStep(versus: map<Id, Versus>, rows: seq<MetricCounters.FeedbackRow>, i: nat, model: Id)
    requires i < |rows| && Tracks(versus, rows[..i], model)
    ensures !IsComparisonOf(rows[i], model) ==> Tracks(versus, rows[..i + 1], model)
    ensures IsComparisonOf(rows[i], model) && OpponentOf(rows[i], model).Some? ==>
      var o := OpponentOf(rows[i], model).value;
      Tracks(versus[o := Counted(if o in versus then versus[o] else Versus(0, 0, 0), rows[i], model, o)], rows[..i + 1], model)
  {
    assert rows[..i + 1][..i] == rows[..i];
    assert forall o :: VersusOf(rows[..i + 1], model, o) == Counted(VersusOf(rows[..i], model, o), rows[i], model, o);
  }

  /** The `win_rate` of an opponent entry, as a percentage; 0 without comparisons. */
  function VersusWinRate(v: Versus): (rate: real)
    ensures v.total == 0 ==> rate == 0.0
    ensures v.wins <= v.total ==> 0.0 <= rate <= 100.0
    ensures v.total > 0 ==> rate * v.total as real == v.wins as real * 100.0
  {
    Comparison.Percent(v.wins, v.total)
  }

  /** `AIModelSerializer.get_win_rate`: the latest overall all-time win rate, 0 without a row or without comparisons. */
  function SerializedWinRate(history: seq<ModelMetric>, model: Id): (rate: real)
    ensures MetricHistory.LatestOf(history, model, "overall", PERIOD_ALL_TIME).None? ==> rate == 0.0
    ensures var latest := MetricHistory.LatestOf(history, model, "overall", PERIOD_ALL_TIME);
            latest.Some? && latest.value.totalComparisons <= 0 ==> rate == 0.0
    ensures var latest := MetricHistory.LatestOf(history, model, "overall", PERIOD_ALL_TIME);
            latest.Some? && 0 <= latest.value.wins <= latest.value.totalComparisons ==> 0.0 <= rate <= 100.0
  {
    var latest := MetricHistory.LatestOf(history, model, "overall", PERIOD_ALL_TIME);
    if latest.Some? && latest.value.totalComparisons > 0 then latest.value.WinRate() else 0.0
  }

  // ---------------------------------------------------------------- request serializers

  const ROLES: set<string> := {ROLE_SYSTEM, ROLE_USER, ROLE_ASSISTANT}
  const MISSING_FIELDS: string := "Each message must have 'role' and 'content'"
  const BAD_ROLE: string := "Role must be 'system', 'user', or 'assistant'"

  /** The complaint about one message dictionary, if any. */
  function MessageProblem(m: map<string, string>): Option<string>
  {
    if "role" !in m || "content" !in m then Some(MISSING_FIELDS)
    else if m["role"] !in ROLES then Some(BAD_ROLE)
    else None
  }

  /** `ModelComparisonSerializer.validate_messages`: the first malformed message decides the error. */
  method ValidateMessages(messages: seq<map<string, string>>) returns (r: Result<seq<map<string, string>>>)
    ensures r.Ok? <==> forall i :: 0 <= i < |messages| ==> "role" in messages[i] && "content" in messages[i] && messages[i]["role"] in ROLES
    ensures r.Ok? ==> r.value == messages
    ensures r.Err? ==> exists i :: 0 <= i < |messages| && MessageProblem(messages[i]) == Some(r.error)
                                  && forall j :: 0 <= j < i ==> MessageProblem(messages[j]).None?
  {
    for i := 0 to |messages|
      invariant forall j :: 0 <= j < i ==> MessageProblem(messages[j]).None?
    {
      var problem := MessageProblem(messages[i]);
      if problem.Some? {
        return Err(problem.value);
      }
    }
    r := Ok(messages);
  }

  /** `AIModel.objects.get(id=..., is_active=True)` over a catalog with unique ids. */
  function ActiveModel(catalog: seq<AIModel>, id: Id): (r: Option<AIModel>)
    ensures r.Some? ==> r.value in catalog && r.value.id == id && r.value.isActive
    ensures r.None? <==> forall m :: m in catalog ==> !(m.id == id && m.isActive)
  {
    if catalog == [] then None
    else if catalog[0].id == id && catalog[0].isActive then Some(catalog[0])
    else
      assert forall m :: m in catalog ==> m == catalog[0] || m in catalog[1..];
      ActiveModel(catalog[1..], id)
  }

  datatype ComparisonRequest = ComparisonRequest(modelA: AIModel, modelB: AIModel, messages: seq<map<string, string>>,
                                                 temperature: real, maxTokens: int)

  const COMPARE_DEFAULT_MAX_TOKENS: int := 2000
  const TEST_DEFAULT_MAX_TOKENS: int := 500

  /**
   * `ModelComparisonSerializer`: the temperature (default 0.7) in [0, 2], max_tokens (default
   * 2000) in [1, 8000], the messages well formed, and two different active models.
   */
  method ValidateComparison(catalog: seq<AIModel>, modelAId: Id, modelBId: Id, messages: seq<map<string, string>>,
                            temperature: Option<real>, maxTokens: Option<int>) returns (r: Result<ComparisonRequest>)
    ensures r.Ok? <==>
      MessageRules.InBounds(temperature.GetOr(MessageRules.DEFAULT_TEMPERATURE), maxTokens.GetOr(COMPARE_DEFAULT_MAX_TOKENS))
      && (forall i :: 0 <= i < |messages| ==> MessageProblem(messages[i]).None?)
      && ActiveModel(catalog, modelAId).Some? && ActiveModel(catalog, modelBId).Some? && modelAId != modelBId
    ensures r.Ok? ==> r.value.modelA.id == modelAId && r.value.modelB.id == modelBId
                      && r.value.modelA.isActive && r.value.modelB.isActive && r.value.modelA.id != r.value.modelB.id
                      && r.value.messages == messages
                      && MessageRules.InBounds(r.value.temperature, r.value.maxTokens)
    ensures r.Ok? && temperature.None? ==> r.value.temperature == MessageRules.DEFAULT_TEMPERATURE
    ensures r.Ok? && maxTokens.None? ==> r.value.maxTokens == COMPARE_DEFAULT_MAX_TOKENS
    ensures r.Err? && (ActiveModel(catalog, modelAId).None? || ActiveModel(catalog, modelBId).None?)
            && MessageRules.InBounds(temperature.GetOr(MessageRules.DEFAULT_TEMPERATURE), maxTokens.GetOr(COMPARE_DEFAULT_MAX_TOKENS))
            && (forall i :: 0 <= i < |messages| ==> MessageProblem(messages[i]).None?)
            ==> r.error == "One or both models not found or inactive"
  {
    var t := temperature.GetOr(MessageRules.DEFAULT_TEMPERATURE);
    var n := maxTokens.GetOr(COMPARE_DEFAULT_MAX_TOKENS);
    if !MessageRules.InBounds(t, n) {
      return Err("temperature or max_tokens out of range");
    }
    var checked := ValidateMessages(messages);
    if checked.Err? {
      return Err(checked.error);
    }
    var a := ActiveModel(catalog, modelAId);
    var b := ActiveModel(catalog, modelBId);
    if a.None? || b.None? {
      return Err("One or both models not found or inactive");
    }
    if a.value.id == b.value.id {
      return Err("Cannot compare a model with itself");
    }
    r := Ok(ComparisonRequest(a.value, b.value, messages, t, n));
  }

  datatype TestRequest = TestRequest(prompt: string, temperature: real, maxTokens: int, stream: bool)

  /** `ModelTestSerializer`: a prompt non-blank once trimmed, the bounds with max_tokens defaulting to 500, streaming by default. */
  function ValidateTest(prompt: Option<string>, temperature: Option<real>, maxTokens: Option<int>, stream: Option<bool>): (r: Result<TestRequest>)
    ensures r.Ok? <==> prompt.Some? && Text.Strip(prompt.value) != []
                       && MessageRules.InBounds(temperature.GetOr(MessageRules.DEFAULT_TEMPERATURE), maxTokens.GetOr(TEST_DEFAULT_MAX_TOKENS))
    ensures r.Ok? ==> r.value.prompt == Text.Strip(prompt.value) && MessageRules.InBounds(r.value.temperature, r.value.maxTokens)
    ensures r.Ok? && maxTokens.None? ==> r.value.maxTokens == TEST_DEFAULT_MAX_TOKENS
    ensures r.Ok? ==> r.value.stream == stream.GetOr(true)
  {
    var t := temperature.GetOr(MessageRules.DEFAULT_TEMPERATURE);
    var n := maxTokens.GetOr(TEST_DEFAULT_MAX_TOKENS);
    var text := Fields.CharField(prompt, true, false, None);
    if text.Err? then Err("prompt: " + text.error)
    else if !MessageRules.InBounds(t, n) then Err("temperature or max_tokens out of range")
    else Ok(TestRequest(text.value.value, t, n, stream.GetOr(true)))
  }
}
