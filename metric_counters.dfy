/**
 * The counting rules shared by the metric recalculations: the period window, the
 * win/loss/tie derivation over preference feedback (model_metrics/calculators.py,
 * ai_model/tasks.py, feedback/tasks.py), average ratings and the percentile rank.
 */
module MetricCounters {
  import opened Wrappers
  import opened Entities
  import Ordering
  import MetricHistory

  /** A feedback row joined with its session and, when it has one, its message's model. */
  datatype FeedbackRow = FeedbackRow(
    fb: Feedback,
    sessionMode: string,
    sessionA: Option<Id>,
    sessionB: Option<Id>,
    messageModel: Option<Id>)

  /** The window length of a period in days; periods without one are unbounded. */
  function WindowDays(period: string): (days: Option<nat>)
    ensures days.Some? <==> period in {PERIOD_DAILY, PERIOD_WEEKLY, PERIOD_MONTHLY}
  {
    if period == PERIOD_DAILY then Some(1)
    else if period == PERIOD_WEEKLY then Some(7)
    else if period == PERIOD_MONTHLY then Some(30)
    else None
  }

  /** The earliest creation time a period counts: `now` minus the window, or no bound. */
  function WindowStart(period: string, now: int): (start: Option<int>)
    ensures start.None? <==> period !in {PERIOD_DAILY, PERIOD_WEEKLY, PERIOD_MONTHLY}
    ensures start.Some? ==> start.value <= now - SECONDS_PER_DAY
  {
    match WindowDays(period)
    case None => None
    case Some(d) => Some(now - d * SECONDS_PER_DAY)
  }

  /** A longer period never counts less: its window starts no later. */
  lemma WindowsNest(now: int)
    ensures WindowStart(PERIOD_MONTHLY, now).value <= WindowStart(PERIOD_WEEKLY, now).value
            <= WindowStart(PERIOD_DAILY, now).value
  {
  }

  predicate InWindow(row: FeedbackRow, start: Option<int>)
  {
    start.None? || row.fb.createdAt >= start.value
  }

  /** Wins, losses and ties of one model over a set of comparisons. */
  datatype Outcome = Outcome(total: int, wins: int, losses: int, ties: int)

  function IsWin(model: Id): FeedbackRow -> bool { (r: FeedbackRow) => r.fb.preferred == Some(model) }
  function IsLoss(model: Id): FeedbackRow -> bool
  {
    (r: FeedbackRow) => r.fb.preferred != Some(model) && r.fb.preferred.Some?
  }
  function IsUndecided(): FeedbackRow -> bool { (r: FeedbackRow) => r.fb.preferred.None? }
  function Decided(model: Id): FeedbackRow -> bool { (r: FeedbackRow) => r.fb.preferred.Some? }

  /**
   * The counters over the comparisons of a model: wins name the model, losses name some other
   * model, and the rest (no preferred model) are ties.
   */
  function Outcomes(comparisons: seq<FeedbackRow>, model: Id): (o: Outcome)
    ensures o.total == |comparisons|
    ensures o.wins + o.losses + o.ties == o.total
    ensures o.ties == Ordering.CountIf(comparisons, IsUndecided())
    ensures 0 <= o.wins && 0 <= o.losses && 0 <= o.ties
  {
    var total := |comparisons|;
    var wins := Ordering.CountIf(comparisons, IsWin(model));
    var losses := Ordering.CountIf(comparisons, IsLoss(model));
    Ordering.CountIfSplit(comparisons, IsWin(model), IsLoss(model), Decided(model));
    Ordering.CountIfSplit(comparisons, Decided(model), IsUndecided(), (r: FeedbackRow) => true);
    AllCount(comparisons);
    Outcome(total, wins, losses, total - wins - losses)
  }

  lemma {:induction false} AllCount(s: seq<FeedbackRow>)
    ensures Ordering.CountIf(s, (r: FeedbackRow) => true) == |s|
  {
    if s != [] {
      AllCount(s[..|s| - 1]);
    }
  }

  /** calculate_category_metrics' comparisons: compare-mode preferences involving the model, in the window and category. */
  predicate IsCategoryComparison(row: FeedbackRow, model: Id, category: string, start: Option<int>)
  {
    && InWindow(row, start)
    && row.fb.feedbackType == FEEDBACK_PREFERENCE
    && row.sessionMode == MODE_COMPARE
    && (category == "overall" || category in row.fb.categories)
    && (row.sessionA == Some(model) || row.sessionB == Some(model))
  }

  /** calculate_category_metrics' ratings: rating feedback on the model's messages, in the window and category. */
  predicate IsCategoryRating(row: FeedbackRow, model: Id, category: string, start: Option<int>)
  {
    && InWindow(row, start)
    && row.fb.feedbackType == FEEDBACK_RATING
    && row.fb.rating.Some?
    && row.messageModel == Some(model)
    && (category == "overall" || category in row.fb.categories)
  }

  function Sum(xs: seq<int>): int
  {
    if xs == [] then 0 else Sum(xs[..|xs| - 1]) + xs[|xs| - 1]
  }

  lemma {:induction false} SumBounds(xs: seq<int>, lo: int, hi: int)
    requires forall i :: 0 <= i < |xs| ==> lo <= xs[i] <= hi
    ensures lo * |xs| <= Sum(xs) <= hi * |xs|
  {
    if xs != [] {
      SumBounds(xs[..|xs| - 1], lo, hi);
    }
  }

  /** The arithmetic mean, as Django's Avg computes it; None for no values. */
  function Average(xs: seq<int>): (avg: Option<real>)
    ensures avg.None? <==> xs == []
    ensures avg.Some? ==> avg.value * |xs| as real == Sum(xs) as real
  {
    if xs == [] then None else Some(Sum(xs) as real / |xs| as real)
  }

  /** An average of values between lo and hi lies between them. */
  lemma AverageBounds(xs: seq<int>, lo: int, hi: int)
    requires xs != []
    requires forall i :: 0 <= i < |xs| ==> lo <= xs[i] <= hi
    ensures lo as real <= Average(xs).value <= hi as real
  {
    SumBounds(xs, lo, hi);
    var n := |xs| as real;
    var avg := Average(xs).value;
    assert avg * n == Sum(xs) as real;
    assert lo as real * n <= avg * n <= hi as real * n;
  }

  function RatingValues(rows: seq<FeedbackRow>): (vs: seq<int>)
    ensures |vs| == |rows|
  {
    if rows == [] then []
    else RatingValues(rows[..|rows| - 1]) + [rows[|rows| - 1].fb.rating.GetOr(0)]
  }

  // ---------------------------------------------------------------- percentile rank

  /** The keys of the latest all-time records of a category. */
  function CategoryKeys(records: map<MetricKey, ModelMetric>, category: string): set<MetricKey>
  {
    set k | k in records && k.category == category && k.period == PERIOD_ALL_TIME
  }

  function LowerKeys(records: map<MetricKey, ModelMetric>, category: string, value: int): (s: set<MetricKey>)
    ensures s <= CategoryKeys(records, category)
  {
    set k | k in records && k.category == category && k.period == PERIOD_ALL_TIME && records[k].eloRating < value
  }

  /**
   * calculate_percentile_rank: 0 for a model without an all-time record, 100 when it is the
   * only model with one, else the share of the other models rated strictly lower, in percent.
   */
  function PercentileRank(records: map<MetricKey, ModelMetric>, model: Id, category: string): (p: real)
    ensures MetricKey(model, category, PERIOD_ALL_TIME) !in records ==> p == 0.0
    ensures MetricKey(model, category, PERIOD_ALL_TIME) in records && |CategoryKeys(records, category)| <= 1 ==> p == 100.0
    ensures var key := MetricKey(model, category, PERIOD_ALL_TIME);
            var total := |CategoryKeys(records, category)|;
            key in records && total > 1 ==>
              p * (total - 1) as real == |LowerKeys(records, category, records[key].eloRating)| as real * 100.0
    ensures 0.0 <= p <= 100.0
  {
    var key := MetricKey(model, category, PERIOD_ALL_TIME);
    if key !in records then 0.0
    else
      var value := records[key].eloRating;
      var total := |CategoryKeys(records, category)|;
      if total <= 1 then 100.0
      else
        var lower := |LowerKeys(records, category, value)|;
        LowerBound(records, category, key);
        (lower as real / (total - 1) as real) * 100.0
  }

  /**
   * calculate_percentile_rank as written: 0.0 without an all-time record, before the second
   * query runs; otherwise `.count()` runs the latest-per-model query, which PostgreSQL refuses.
   */
  function PercentileRankAsWritten(records: map<MetricKey, ModelMetric>, model: Id, category: string): (r: Result<real>)
    ensures MetricKey(model, category, PERIOD_ALL_TIME) !in records ==> r == Ok(0.0)
    ensures MetricKey(model, category, PERIOD_ALL_TIME) in records ==> r == Err(MetricHistory.DISTINCT_ON_ERROR)
  {
    MetricHistory.OrderByModelRefused();
    if MetricKey(model, category, PERIOD_ALL_TIME) !in records then Ok(0.0)
    else if MetricHistory.Accepted(MetricHistory.LATEST_PER_MODEL_AS_WRITTEN) then Ok(PercentileRank(records, model, category))
    else Err(MetricHistory.DISTINCT_ON_ERROR)
  }

  /** The model's own record is never strictly lower than itself, so at most the others are. */
  lemma LowerBound(records: map<MetricKey, ModelMetric>, category: string, key: MetricKey)
    requires key in records && key.category == category && key.period == PERIOD_ALL_TIME
    ensures |LowerKeys(records, category, records[key].eloRating)| <= |CategoryKeys(records, category)| - 1
  {
    var lower := LowerKeys(records, category, records[key].eloRating);
    var all := CategoryKeys(records, category);
    assert lower <= all - {key};
    Ordering.SubsetCard(lower, all - {key});
  }

  /** A model rated no higher than any other of its category is at 0. */
  lemma PercentileExtremes(records: map<MetricKey, ModelMetric>, model: Id, category: string)
    requires MetricKey(model, category, PERIOD_ALL_TIME) in records
    requires |CategoryKeys(records, category)| > 1
    ensures (forall k :: k in CategoryKeys(records, category) ==>
               records[k].eloRating >= records[MetricKey(model, category, PERIOD_ALL_TIME)].eloRating)
            ==> PercentileRank(records, model, category) == 0.0
  {
    var key := MetricKey(model, category, PERIOD_ALL_TIME);
    if forall k :: k in CategoryKeys(records, category) ==> records[k].eloRating >= records[key].eloRating {
      assert LowerKeys(records, category, records[key].eloRating) == {};
    }
  }
}
