/**
 * The metric history: every ModelMetric row ever written, in table order. Reports that look
 * back in time (the leaderboard's previous rank, anomalies, movers, trends) read it through
 * the "latest row matching a filter" lookups the source writes as
 * `filter(...).order_by('-calculated_at').first()`.
 */
module MetricHistory {
  import opened Wrappers
  import opened Entities
  import Ordering
  import Text

  /** The row belongs to the (model, category, period) series. */
  predicate InSeries(m: ModelMetric, model: Id, category: string, period: string)
  {
    m.model == model && m.category == category && m.period == period
  }

  /** The most recently calculated row satisfying `p`, or None when no row does. */
  function LatestWhere(history: seq<ModelMetric>, p: ModelMetric -> bool): (r: Option<ModelMetric>)
    ensures r.Some? ==> r.value in history && p(r.value)
    ensures r.Some? ==> forall h :: h in history && p(h) ==> h.calculatedAt <= r.value.calculatedAt
    ensures r.None? <==> forall h :: h in history ==> !p(h)
  {
    if history == [] then None
    else
      var last := history[|history| - 1];
      var before := LatestWhere(history[..|history| - 1], p);
      assert history == history[..|history| - 1] + [last];
      if p(last) && (before.None? || last.calculatedAt > before.value.calculatedAt) then Some(last) else before
  }

  /** The latest row of a series. */
  function LatestOf(history: seq<ModelMetric>, model: Id, category: string, period: string): (r: Option<ModelMetric>)
    ensures r.Some? ==> r.value in history && InSeries(r.value, model, category, period)
    ensures r.Some? ==> forall h :: h in history && InSeries(h, model, category, period) ==> h.calculatedAt <= r.value.calculatedAt
    ensures r.None? <==> forall h :: h in history ==> !InSeries(h, model, category, period)
  {
    LatestWhere(history, (h: ModelMetric) => InSeries(h, model, category, period))
  }

  /** The latest row of the same series calculated strictly before `m`. */
  function PreviousOf(history: seq<ModelMetric>, m: ModelMetric): (r: Option<ModelMetric>)
    ensures r.Some? ==>
      (r.value in history && InSeries(r.value, m.model, m.category, m.period) && r.value.calculatedAt < m.calculatedAt)
    ensures r.Some? ==> forall h :: h in history && InSeries(h, m.model, m.category, m.period) && h.calculatedAt < m.calculatedAt ==>
      h.calculatedAt <= r.value.calculatedAt
    ensures r.None? <==> forall h :: h in history && InSeries(h, m.model, m.category, m.period) ==> h.calculatedAt >= m.calculatedAt
  {
    LatestWhere(history, (h: ModelMetric) => InSeries(h, m.model, m.category, m.period) && h.calculatedAt < m.calculatedAt)
  }

  /** The model has at least one row of the (category, period) series. */
  ghost predicate HasSeries(history: seq<ModelMetric>, model: Id, category: string, period: string)
  {
    exists h :: h in history && InSeries(h, model, category, period)
  }

  /** The models with at least one row of the (category, period) series, in order of first appearance. */
  function SeriesModels(history: seq<ModelMetric>, category: string, period: string): (ids: seq<Id>)
    ensures Ordering.Distinct(ids)
    ensures forall id :: id in ids <==> HasSeries(history, id, category, period)
  {
    if history == [] then []
    else
      var last := history[|history| - 1];
      var before := SeriesModels(history[..|history| - 1], category, period);
      assert history == history[..|history| - 1] + [last];
      assert forall id :: HasSeries(history, id, category, period) <==>
        HasSeries(history[..|history| - 1], id, category, period) || InSeries(last, id, category, period);
      if last.category == category && last.period == period && last.model !in before then before + [last.model] else before
  }

  /**
   * The models of the (category, period) series in the order `order_by('model_id')` gives them
   * (LATEST_PER_MODEL_QUERY below): by id, compared here as strings.
   */
  function ModelIdOrder(history: seq<ModelMetric>, category: string, period: string): (ids: seq<Id>)
    ensures Text.StrictlySorted(ids)
    ensures forall id :: id in ids <==> HasSeries(history, id, category, period)
    ensures |ids| == |SeriesModels(history, category, period)|
  {
    Text.SortedStrings(SeriesModels(history, category, period))
  }

  /**
   * `distinct('model')` over rows ordered by `model_id` then newest first (LATEST_PER_MODEL_QUERY
   * below): the latest row of each model's series, one per model, in model-id order. The source
   * orders by `model` instead, which PostgreSQL refuses (OrderByModelRefused).
   */
  function LatestMetrics(history: seq<ModelMetric>, category: string, period: string): (r: seq<ModelMetric>)
    ensures |r| == |SeriesModels(history, category, period)|
    ensures forall i :: 0 <= i < |r| ==> r[i].model == ModelIdOrder(history, category, period)[i]
    ensures forall i :: 0 <= i < |r| ==> Some(r[i]) == LatestOf(history, r[i].model, category, period)
    ensures forall i, j :: 0 <= i < j < |r| ==> Text.LexLess(r[i].model, r[j].model)
    ensures forall i, j :: 0 <= i < j < |r| ==> r[i].model != r[j].model
  {
    var ids := ModelIdOrder(history, category, period);
    assert forall i, j :: 0 <= i < j < |ids| ==> ids[i] != ids[j] by {
      forall i, j | 0 <= i < j < |ids| ensures ids[i] != ids[j] {
        Text.LexOrder(ids[i], ids[j], ids[j]);
      }
    }
    seq(|ids|, i requires 0 <= i < |ids| => LatestRow(history, ids[i], category, period))
  }

  /** The latest row of a series known to have one. */
  function LatestRow(history: seq<ModelMetric>, model: Id, category: string, period: string): (m: ModelMetric)
    requires HasSeries(history, model, category, period)
    ensures Some(m) == LatestOf(history, model, category, period) && m.model == model
  {
    var r := LatestOf(history, model, category, period);
    assert r.Some?;
    r.value
  }

  /** Every model with a row of the series has exactly its latest row in LatestMetrics. */
  lemma LatestMetricsComplete(history: seq<ModelMetric>, category: string, period: string, model: Id)
    ensures HasSeries(history, model, category, period) <==>
      exists i :: 0 <= i < |LatestMetrics(history, category, period)| && LatestMetrics(history, category, period)[i].model == model
  {
    var ids := ModelIdOrder(history, category, period);
    if HasSeries(history, model, category, period) {
      var i :| 0 <= i < |ids| && ids[i] == model;
      assert LatestMetrics(history, category, period)[i].model == model;
    }
  }

  // ---------------------------------------------------------------- the latest-row-per-model query

  /** What decides whether PostgreSQL runs a DISTINCT ON query: its DISTINCT ON fields and its `order_by` fields. */
  datatype MetricQuery = MetricQuery(distinctOn: seq<string>, ordering: seq<string>)

  /** `.order_by(...)`: Django drops any ordering set before. */
  function OrderBy(q: MetricQuery, fields: seq<string>): MetricQuery { q.(ordering := fields) }

  /** `.distinct(...)` with field names: DISTINCT ON those fields. */
  function DistinctOn(q: MetricQuery, fields: seq<string>): MetricQuery { q.(distinctOn := fields) }

  /** The column DISTINCT ON uses for a metric field: the foreign key `model` is its `model_id` column. */
  function DistinctColumn(field: string): string { if field == "model" then "model_id" else field }

  /**
   * The columns one `order_by` field of a metric sorts on, a leading '-' only giving the
   * direction: ordering by the foreign key `model` follows AIModel's default ordering, provider
   * then model name (backend/ai_model/models.py:35).
   */
  function SortColumns(field: string): seq<string>
  {
    var name := if |field| > 0 && field[0] == '-' then field[1..] else field;
    if name == "model" then ["ai_model.provider", "ai_model.model_name"] else [name]
  }

  function SortColumnsOf(ordering: seq<string>): seq<string>
  {
    if ordering == [] then [] else SortColumns(ordering[0]) + SortColumnsOf(ordering[1..])
  }

  /**
   * PostgreSQL's rule for DISTINCT ON: walking the ORDER BY columns, each column met while a
   * DISTINCT ON column is still unmatched must be one of them.
   */
  predicate DistinctOnMatches(distinct: set<string>, columns: seq<string>)
  {
    distinct == {} || columns == [] || (columns[0] in distinct && DistinctOnMatches(distinct - {columns[0]}, columns[1..]))
  }

  function DistinctColumns(fields: seq<string>): set<string>
  {
    if fields == [] then {} else {DistinctColumn(fields[0])} + DistinctColumns(fields[1..])
  }

  predicate Accepted(q: MetricQuery)
  {
    DistinctOnMatches(DistinctColumns(q.distinctOn), SortColumnsOf(q.ordering))
  }

  /** PostgreSQL's message for a refused DISTINCT ON. */
  const DISTINCT_ON_ERROR: string := "SELECT DISTINCT ON expressions must match initial ORDER BY expressions"

  const NO_QUERY: MetricQuery := MetricQuery([], [])

  /**
   * The latest row per model as the source writes it at backend/ai_model/view.py:205-210,
   * backend/model_metrics/services.py:55-60, backend/model_metrics/calculators.py:169-172 and
   * backend/model_metrics/aggregators.py:120-123.
   */
  const LATEST_PER_MODEL_AS_WRITTEN: MetricQuery := DistinctOn(OrderBy(NO_QUERY, ["model", "-calculated_at"]), ["model"])

  /** The same query ordered by the `model_id` column first, which is what LatestMetrics gives. */
  const LATEST_PER_MODEL_QUERY: MetricQuery := DistinctOn(OrderBy(NO_QUERY, ["model_id", "-calculated_at"]), ["model"])

  /**
   * As written the query is refused: ordering by `model` sorts on the catalog's provider and
   * name, not on `model_id`.
   */
  lemma OrderByModelRefused()
    ensures !Accepted(LATEST_PER_MODEL_AS_WRITTEN)
  {
    var field := "model";
    assert field[0] != '-';
    var columns := SortColumnsOf(["model", "-calculated_at"]);
    assert columns[0] == "ai_model.provider";
    assert DistinctColumns(["model"]) == {"model_id"};
  }

  /** Ordering by the `model_id` column first, the latest-row-per-model query is accepted. */
  lemma LatestPerModelAccepted()
    ensures Accepted(LATEST_PER_MODEL_QUERY)
  {
    var field := "model_id";
    assert field[0] != '-' && field != "model";
    var columns := SortColumnsOf(["model_id", "-calculated_at"]);
    assert columns[0] == "model_id";
    assert DistinctColumns(["model"]) == {"model_id"};
    assert {"model_id"} - {"model_id"} == {};
  }

  /**
   * Running one of the two latest-row-per-model queries against the metric table: PostgreSQL
   * refuses the query before reading a row unless it is accepted, and otherwise returns LatestMetrics.
   */
  function RunLatestPerModel(q: MetricQuery, history: seq<ModelMetric>, category: string, period: string): Result<seq<ModelMetric>>
  {
    if Accepted(q) then Ok(LatestMetrics(history, category, period)) else Err(DISTINCT_ON_ERROR)
  }

  /** The query as written fails on every table, even an empty one; the corrected one gives the latest rows. */
  lemma LatestPerModelRuns(history: seq<ModelMetric>, category: string, period: string)
    ensures RunLatestPerModel(LATEST_PER_MODEL_AS_WRITTEN, history, category, period) == Err(DISTINCT_ON_ERROR)
    ensures RunLatestPerModel(LATEST_PER_MODEL_QUERY, history, category, period) == Ok(LatestMetrics(history, category, period))
  {
    OrderByModelRefused();
    LatestPerModelAccepted();
  }

  /** The leaderboard view's query (backend/ai_model/view.py:205-210) as written: refused, whatever the series holds. */
  function LatestMetricsAsWritten(history: seq<ModelMetric>, category: string, period: string): (r: Result<seq<ModelMetric>>)
    ensures r == Err(DISTINCT_ON_ERROR)
  {
    LatestPerModelRuns(history, category, period);
    RunLatestPerModel(LATEST_PER_MODEL_AS_WRITTEN, history, category, period)
  }

  function EloOf(m: ModelMetric): int { m.eloRating }
}
