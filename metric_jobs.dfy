/**
 * What the metric-writing jobs compute, as functions of the stored records and the feedback
 * rows: the get-or-create lookups, the recalculated records of calculate_category_metrics
 * (model_metrics/calculators.py), calculate_model_metrics and cleanup_old_metrics
 * (ai_model/tasks.py), _update_model_metrics (feedback/services.py),
 * update_model_metrics_from_feedback (feedback/tasks.py) and cleanup_old_metrics
 * (model_metrics/tasks.py).
 */
module MetricJobs {
  import opened Wrappers
  import opened Entities
  import opened MetricCounters
  import Ordering

  /** get_or_create keyed on today's date: the latest record if it was written today, else a fresh one. */
  function GetOrCreateToday(records: map<MetricKey, ModelMetric>, key: MetricKey, now: int): (m: ModelMetric)
    ensures m.Key() == key || (key in records && m == records[key])
    ensures key in records && Day(records[key].calculatedAt) == Day(now) ==> m == records[key]
    ensures !(key in records && Day(records[key].calculatedAt) == Day(now)) ==> m == NewMetric(key.model, key.category, key.period, now)
  {
    if key in records && Day(records[key].calculatedAt) == Day(now) then records[key]
    else NewMetric(key.model, key.category, key.period, now)
  }

  /**
   * The record calculate_category_metrics starts from, as written: for 'all_time' the lookup
   * asks for a null calculation date, which no record has, so a fresh record is created.
   */
  function BaseAsWritten(records: map<MetricKey, ModelMetric>, key: MetricKey, now: int): ModelMetric
  {
    if key.period == PERIOD_ALL_TIME then NewMetric(key.model, key.category, key.period, now)
    else GetOrCreateToday(records, key, now)
  }

  /** The record it evidently means to start from: the existing all-time record when there is one. */
  function BaseCorrected(records: map<MetricKey, ModelMetric>, key: MetricKey, now: int): ModelMetric
  {
    if key.period == PERIOD_ALL_TIME then
      if key in records then records[key] else NewMetric(key.model, key.category, key.period, now)
    else GetOrCreateToday(records, key, now)
  }

  /** The comparison counters of one metric key: compare-mode preferences of its category in its window. */
  function Counters(key: MetricKey, rows: seq<FeedbackRow>, now: int): (o: Outcome)
    ensures o.wins + o.losses + o.ties == o.total && o.ties >= 0
  {
    var start := WindowStart(key.period, now);
    Outcomes(Ordering.Filter(rows, (r: FeedbackRow) => IsCategoryComparison(r, key.model, key.category, start)), key.model)
  }

  /** The record holds exactly these counters. */
  predicate HasCounters(m: ModelMetric, o: Outcome)
  {
    m.totalComparisons == o.total && m.wins == o.wins && m.losses == o.losses && m.ties == o.ties
  }

  /** The counters and average calculate_category_metrics writes into its base record. */
  function Recalculated(base: ModelMetric, rows: seq<FeedbackRow>, now: int): (m: ModelMetric)
  {
    var start := WindowStart(base.period, now);
    var ratings := Ordering.Filter(rows, (r: FeedbackRow) => IsCategoryRating(r, base.model, base.category, start));
    var o := Counters(base.Key(), rows, now);
    base.(totalComparisons := o.total, wins := o.wins, losses := o.losses, ties := o.ties,
          averageRating := if ratings == [] then base.averageRating else Average(RatingValues(ratings)))
  }

  /** Recalculation writes counters and the average, and nothing else: not the rating, not the key. */
  lemma RecalculatedKeepsRating(base: ModelMetric, rows: seq<FeedbackRow>, now: int)
    ensures var m := Recalculated(base, rows, now);
      && m.eloRating == base.eloRating && m.Key() == base.Key() && m.calculatedAt == base.calculatedAt
      && HasCounters(m, Counters(base.Key(), rows, now))
  {
  }

  /** Finding: recalculating all-time metrics as written resets the model's rating to 1500. */
  lemma AllTimeRecalculationResetsRating(records: map<MetricKey, ModelMetric>, model: Id, category: string,
                                         rows: seq<FeedbackRow>, now: int)
    requires MetricKey(model, category, PERIOD_ALL_TIME) in records
    requires records[MetricKey(model, category, PERIOD_ALL_TIME)].eloRating != DEFAULT_ELO
    ensures var key := MetricKey(model, category, PERIOD_ALL_TIME);
      Recalculated(BaseAsWritten(records, key, now), rows, now).eloRating != records[key].eloRating
  {
    var key := MetricKey(model, category, PERIOD_ALL_TIME);
    RecalculatedKeepsRating(BaseAsWritten(records, key, now), rows, now);
  }

  /** The corrected lookup keeps the rating of an existing record in every period. */
  lemma CorrectedRecalculationKeepsRating(records: map<MetricKey, ModelMetric>, key: MetricKey,
                                          rows: seq<FeedbackRow>, now: int)
    requires key in records
    requires key.period == PERIOD_ALL_TIME || Day(records[key].calculatedAt) == Day(now)
    ensures Recalculated(BaseCorrected(records, key, now), rows, now).eloRating == records[key].eloRating
  {
    RecalculatedKeepsRating(BaseCorrected(records, key, now), rows, now);
  }

  /** One run of calculate_category_metrics on the table, with the corrected lookup. */
  function Recalculate(records: map<MetricKey, ModelMetric>, rows: seq<FeedbackRow>, key: MetricKey, now: int): map<MetricKey, ModelMetric>
  {
    records[key := Recalculated(BaseCorrected(records, key, now), rows, now)]
  }

  /** A (model, category) pair of a job whose calculation raises; the job logs it and moves on. */
  type Failure = (Id, string) -> bool

  /** A job that catches nothing is run with no failures. */
  const NEVER_FAILS: Failure := (m: Id, c: string) => false

  /** The categories calculate_daily_metrics covers. */
  const DAILY_CATEGORIES: seq<string> := ["overall", "code", "creative", "reasoning", "conversation"]

  /** The table after the first `n` categories of one model; failing pairs are skipped. */
  function RecalculateCategories(records: map<MetricKey, ModelMetric>, rows: seq<FeedbackRow>, model: Id,
                                 categories: seq<string>, period: string, fails: Failure, n: nat, now: int): map<MetricKey, ModelMetric>
    requires n <= |categories|
  {
    if n == 0 then records
    else
      var before := RecalculateCategories(records, rows, model, categories, period, fails, n - 1, now);
      if fails(model, categories[n - 1]) then before
      else Recalculate(before, rows, MetricKey(model, categories[n - 1], period), now)
  }

  /** The table after the first `n` models, each over all categories. */
  function RecalculateModels(records: map<MetricKey, ModelMetric>, rows: seq<FeedbackRow>, models: seq<Id>,
                             categories: seq<string>, period: string, fails: Failure, n: nat, now: int): map<MetricKey, ModelMetric>
    requires n <= |models|
  {
    if n == 0 then records
    else RecalculateCategories(RecalculateModels(records, rows, models, categories, period, fails, n - 1, now),
                               rows, models[n - 1], categories, period, fails, |categories|, now)
  }

  /** The keys a job calculates successfully. */
  function ScheduledKeys(models: seq<Id>, categories: seq<string>, period: string, fails: Failure): set<MetricKey>
  {
    set m, c | m in models && c in categories && !fails(m, c) :: MetricKey(m, c, period)
  }

  /** The record is one whose rating a recalculation keeps: all-time, or written on the same day. */
  predicate Reused(k: MetricKey, m: ModelMetric, now: int)
  {
    k.period == PERIOD_ALL_TIME || Day(m.calculatedAt) == Day(now)
  }

  /**
   * What recalculating the keys of `done` guarantees of the table it leaves behind: those keys
   * exist and hold their counters, no other record changes, and no reused record's rating or
   * date changes.
   */
  ghost predicate RecalculationOutcome(records: map<MetricKey, ModelMetric>, r: map<MetricKey, ModelMetric>,
                                       done: set<MetricKey>, rows: seq<FeedbackRow>, now: int)
  {
    && KeysConsistent(r)
    && records.Keys <= r.Keys
    && (forall k :: k in r && k !in records ==> k in done)
    && (forall k :: k in records && k !in done ==> r[k] == records[k])
    && (forall k :: k in done ==> k in r && HasCounters(r[k], Counters(k, rows, now)))
    && (forall k :: k in records && Reused(k, records[k], now) ==>
          r[k].eloRating == records[k].eloRating && r[k].calculatedAt == records[k].calculatedAt)
  }

  lemma RecalculateEffect(records: map<MetricKey, ModelMetric>, rows: seq<FeedbackRow>, key: MetricKey, now: int)
    requires KeysConsistent(records)
    ensures RecalculationOutcome(records, Recalculate(records, rows, key, now), {key}, rows, now)
  {
    var base := BaseCorrected(records, key, now);
    RecalculatedKeepsRating(base, rows, now);
    assert base.Key() == key;
    assert key in records && Reused(key, records[key], now) ==> base == records[key];
    WriteOutcome(records, key, Recalculated(base, rows, now), rows, now);
  }

  /** Writing one record that holds its key's counters, and keeps a reused record's rating and date. */
  lemma WriteOutcome(records: map<MetricKey, ModelMetric>, key: MetricKey, m: ModelMetric, rows: seq<FeedbackRow>, now: int)
    requires KeysConsistent(records) && m.Key() == key
    requires HasCounters(m, Counters(key, rows, now))
    requires key in records && Reused(key, records[key], now) ==>
      m.eloRating == records[key].eloRating && m.calculatedAt == records[key].calculatedAt
    ensures RecalculationOutcome(records, records[key := m], {key}, rows, now)
  {
  }

  /** Two recalculations in a row account for the union of their keys. */
  lemma RecalculationsCompose(r0: map<MetricKey, ModelMetric>, r1: map<MetricKey, ModelMetric>, r2: map<MetricKey, ModelMetric>,
                              d1: set<MetricKey>, d2: set<MetricKey>, rows: seq<FeedbackRow>, now: int)
    requires RecalculationOutcome(r0, r1, d1, rows, now)
    requires RecalculationOutcome(r1, r2, d2, rows, now)
    ensures RecalculationOutcome(r0, r2, d1 + d2, rows, now)
  {
    forall k | k in r0 && Reused(k, r0[k], now)
      ensures r2[k].eloRating == r0[k].eloRating && r2[k].calculatedAt == r0[k].calculatedAt
    {
      assert Reused(k, r1[k], now);
    }
  }

  /**
   * A failing pair leaves its record as it was, every other pair is calculated, and no reused
   * record's rating is touched.
   */
  lemma {:induction false} RecalculateCategoriesEffect(records: map<MetricKey, ModelMetric>, rows: seq<FeedbackRow>, model: Id,
                                                       categories: seq<string>, period: string, fails: Failure, n: nat, now: int)
    requires n <= |categories|
    requires KeysConsistent(records)
    ensures RecalculationOutcome(records, RecalculateCategories(records, rows, model, categories, period, fails, n, now),
                                 ScheduledKeys([model], categories[..n], period, fails), rows, now)
  {
    if n == 0 {
      assert ScheduledKeys([model], categories[..n], period, fails) == {};
    } else {
      var before := RecalculateCategories(records, rows, model, categories, period, fails, n - 1, now);
      var d1 := ScheduledKeys([model], categories[..n - 1], period, fails);
      RecalculateCategoriesEffect(records, rows, model, categories, period, fails, n - 1, now);
      var c := categories[n - 1];
      assert categories[..n] == categories[..n - 1] + [c];
      if fails(model, c) {
        assert ScheduledKeys([model], categories[..n], period, fails) == d1;
      } else {
        var key := MetricKey(model, c, period);
        RecalculateEffect(before, rows, key, now);
        RecalculationsCompose(records, before, Recalculate(before, rows, key, now), d1, {key}, rows, now);
        assert ScheduledKeys([model], categories[..n], period, fails) == d1 + {key};
      }
    }
  }

  lemma {:induction false} RecalculateModelsEffect(records: map<MetricKey, ModelMetric>, rows: seq<FeedbackRow>, models: seq<Id>,
                                                   categories: seq<string>, period: string, fails: Failure, n: nat, now: int)
    requires n <= |models|
    requires KeysConsistent(records)
    ensures RecalculationOutcome(records, RecalculateModels(records, rows, models, categories, period, fails, n, now),
                                 ScheduledKeys(models[..n], categories, period, fails), rows, now)
  {
    if n == 0 {
      assert ScheduledKeys(models[..n], categories, period, fails) == {};
    } else {
      var before := RecalculateModels(records, rows, models, categories, period, fails, n - 1, now);
      RecalculateModelsEffect(records, rows, models, categories, period, fails, n - 1, now);
      RecalculateCategoriesEffect(before, rows, models[n - 1], categories, period, fails, |categories|, now);
      assert categories[..|categories|] == categories;
      RecalculationsCompose(records, before, RecalculateModels(records, rows, models, categories, period, fails, n, now),
                            ScheduledKeys(models[..n - 1], categories, period, fails),
                            ScheduledKeys([models[n - 1]], categories, period, fails), rows, now);
      assert models[..n] == models[..n - 1] + [models[n - 1]];
      assert ScheduledKeys(models[..n], categories, period, fails)
          == ScheduledKeys(models[..n - 1], categories, period, fails) + ScheduledKeys([models[n - 1]], categories, period, fails);
    }
  }

  // ---------------------------------------------------------------- calculate_model_metrics

  /** Preference feedback involving the model in the window; the session mode is not checked. */
  predicate IsTaskComparison(row: FeedbackRow, model: Id, start: Option<int>)
  {
    && (row.sessionA == Some(model) || row.sessionB == Some(model))
    && row.fb.feedbackType == FEEDBACK_PREFERENCE
    && InWindow(row, start)
  }

  /** The record calculate_model_metrics creates for one model. */
  function TaskRecord(rows: seq<FeedbackRow>, model: Id, period: string, now: int): (m: ModelMetric)
    ensures m.Key() == MetricKey(model, "overall", period) && m.calculatedAt == now
    ensures m.wins + m.losses + m.ties == m.totalComparisons && m.ties >= 0
    ensures m.eloRating == DEFAULT_ELO
  {
    var start := WindowStart(period, now);
    var comparisons := Ordering.Filter(rows, (r: FeedbackRow) => IsTaskComparison(r, model, start));
    var ratings := Ordering.Filter(rows, (r: FeedbackRow) => r.messageModel == Some(model) && r.fb.rating.Some?);
    var o := Outcomes(comparisons, model);
    NewMetric(model, "overall", period, now).(totalComparisons := o.total, wins := o.wins, losses := o.losses,
                                               ties := o.ties, averageRating := Average(RatingValues(ratings)))
  }

  /** The active models, in store order. */
  function ActiveModels(models: seq<AIModel>): (r: seq<AIModel>)
    ensures forall m :: m in r <==> m in models && m.isActive
  {
    Ordering.Filter(models, (m: AIModel) => m.isActive)
  }

  /** The ids of a list of models, in order. */
  function ModelIds(models: seq<AIModel>): (ids: seq<Id>)
    ensures |ids| == |models| && forall i :: 0 <= i < |models| ==> ids[i] == models[i].id
  {
    if models == [] then [] else [models[0].id] + ModelIds(models[1..])
  }

  /** The table after calculate_model_metrics has written the records of the first `n` models. */
  function AfterTaskRecords(records: map<MetricKey, ModelMetric>, rows: seq<FeedbackRow>, models: seq<Id>,
                            period: string, n: nat, now: int): map<MetricKey, ModelMetric>
    requires n <= |models|
  {
    if n == 0 then records
    else AfterTaskRecords(records, rows, models, period, n - 1, now)[MetricKey(models[n - 1], "overall", period) :=
                                                                     TaskRecord(rows, models[n - 1], period, now)]
  }

  /**
   * calculate_model_metrics writes a fresh overall record for every listed model and touches no
   * other key; run for 'all_time' it therefore puts every rating back at 1500.
   */
  lemma {:induction false} TaskRecordsEffect(records: map<MetricKey, ModelMetric>, rows: seq<FeedbackRow>, models: seq<Id>,
                                             period: string, n: nat, now: int)
    requires n <= |models|
    ensures var r := AfterTaskRecords(records, rows, models, period, n, now);
      && (forall i :: 0 <= i < n ==>
            (MetricKey(models[i], "overall", period) in r
             && r[MetricKey(models[i], "overall", period)] == TaskRecord(rows, models[i], period, now)))
      && (forall k :: k in records && !(k.category == "overall" && k.period == period && k.model in models[..n]) ==>
            k in r && r[k] == records[k])
      && (forall k :: k in r ==> k in records || (k.category == "overall" && k.period == period && k.model in models[..n]))
  {
    if n > 0 {
      TaskRecordsEffect(records, rows, models, period, n - 1, now);
      assert models[..n] == models[..n - 1] + [models[n - 1]];
      var r := AfterTaskRecords(records, rows, models, period, n, now);
      forall i | 0 <= i < n
        ensures MetricKey(models[i], "overall", period) in r
        ensures r[MetricKey(models[i], "overall", period)] == TaskRecord(rows, models[i], period, now)
      {
        if models[i] != models[n - 1] {
          assert models[i] in models[..n - 1];
        }
      }
    }
  }

  // ---------------------------------------------------------------- feedback-driven updates

  /**
   * _update_model_metrics' targets: the message's model when it has one; otherwise both session
   * models in compare mode; otherwise model A. Missing models are skipped.
   */
  function MetricTargets(row: FeedbackRow): (ts: seq<Id>)
    ensures row.messageModel.Some? ==> ts == [row.messageModel.value]
    ensures row.messageModel.None? && row.sessionMode == MODE_COMPARE ==>
      forall t :: t in ts <==> Some(t) == row.sessionA || Some(t) == row.sessionB
    ensures row.messageModel.None? && row.sessionMode != MODE_COMPARE ==>
      ts == (if row.sessionA.Some? then [row.sessionA.value] else [])
    ensures |ts| <= 2
  {
    if row.messageModel.Some? then [row.messageModel.value]
    else if row.sessionMode == MODE_COMPARE then
      (if row.sessionA.Some? then [row.sessionA.value] else []) + (if row.sessionB.Some? then [row.sessionB.value] else [])
    else if row.sessionA.Some? then [row.sessionA.value]
    else []
  }

  /** process_new_feedback moves ratings only for a preference given in a compare session. */
  predicate MovesRatings(row: FeedbackRow)
  {
    row.fb.feedbackType == FEEDBACK_PREFERENCE && row.sessionMode == MODE_COMPARE
  }

  /** Rating feedback on the model's messages created today. */
  predicate IsTodayRating(row: FeedbackRow, model: Id, now: int)
  {
    row.fb.feedbackType == FEEDBACK_RATING && row.fb.rating.Some? && row.messageModel == Some(model)
    && Day(row.fb.createdAt) == Day(now)
  }

  /** A truthy rating: present and non-zero. */
  predicate HasTruthyRating(fb: Feedback) { fb.feedbackType == FEEDBACK_RATING && fb.rating.Some? && fb.rating.value != 0 }

  /** Today's daily record for a target after _update_model_metrics. */
  function DailyAfterFeedback(records: map<MetricKey, ModelMetric>, model: Id, row: FeedbackRow,
                              rows: seq<FeedbackRow>, now: int): ModelMetric
  {
    var base := GetOrCreateToday(records, MetricKey(model, "overall", PERIOD_DAILY), now);
    if HasTruthyRating(row.fb) then
      base.(averageRating := Average(RatingValues(Ordering.Filter(rows, (r: FeedbackRow) => IsTodayRating(r, model, now)))))
    else base
  }

  /** The models update_model_metrics_from_feedback visits: every model named by the last hour's feedback. */
  function RecentModelIds(rows: seq<FeedbackRow>, now: int): (ids: set<Id>)
    ensures forall id :: id in ids <==> exists r :: r in rows && r.fb.createdAt >= now - 3600 && id in ModelsOf(r)
  {
    set r, id | r in rows && r.fb.createdAt >= now - 3600 && id in ModelsOf(r) :: id
  }

  /** Every model a recent feedback row names, through its message or its session, is visited. */
  lemma RecentModelIdsCover(rows: seq<FeedbackRow>, now: int, r: FeedbackRow)
    requires r in rows && r.fb.createdAt >= now - 3600
    ensures r.messageModel.Some? ==> r.messageModel.value in RecentModelIds(rows, now)
    ensures r.sessionA.Some? ==> r.sessionA.value in RecentModelIds(rows, now)
    ensures r.sessionB.Some? ==> r.sessionB.value in RecentModelIds(rows, now)
  {
    var ids := RecentModelIds(rows, now);
    if r.messageModel.Some? { assert r.messageModel.value in ModelsOf(r); }
    if r.sessionA.Some? { assert r.sessionA.value in ModelsOf(r); }
    if r.sessionB.Some? { assert r.sessionB.value in ModelsOf(r); }
  }

  function ModelsOf(r: FeedbackRow): (ids: set<Id>)
    ensures forall id :: id in ids <==> r.messageModel == Some(id) || r.sessionA == Some(id) || r.sessionB == Some(id)
  {
    (if r.messageModel.Some? then {r.messageModel.value} else {})
    + (if r.sessionA.Some? then {r.sessionA.value} else {})
    + (if r.sessionB.Some? then {r.sessionB.value} else {})
  }

  /** Today's compare-mode preferences involving the model. */
  predicate IsTodayComparison(row: FeedbackRow, model: Id, now: int)
  {
    row.fb.feedbackType == FEEDBACK_PREFERENCE && row.sessionMode == MODE_COMPARE
    && Day(row.fb.createdAt) == Day(now) && (row.sessionA == Some(model) || row.sessionB == Some(model))
  }

  /** The daily record update_model_metrics_from_feedback writes for one model, over its base record. */
  function HourlyRecord(base: ModelMetric, model: Id, rows: seq<FeedbackRow>, now: int): (m: ModelMetric)
    ensures m.wins + m.losses + m.ties == m.totalComparisons && m.ties >= 0
    ensures m.Key() == base.Key() && m.eloRating == base.eloRating && m.calculatedAt == base.calculatedAt
  {
    var ratings := Ordering.Filter(rows, (r: FeedbackRow) => IsTodayRating(r, model, now));
    var comparisons := Ordering.Filter(rows, (r: FeedbackRow) => IsTodayComparison(r, model, now));
    var o := Outcomes(comparisons, model);
    base.(averageRating := if ratings == [] then base.averageRating else Average(RatingValues(ratings)),
          totalComparisons := o.total, wins := o.wins, losses := o.losses, ties := o.ties)
  }

  /** The key of a model's daily overall record. */
  function DailyKey(model: Id): MetricKey { MetricKey(model, "overall", PERIOD_DAILY) }

  /** The table after _update_model_metrics has visited the first `n` targets. */
  function AfterTargets(records: map<MetricKey, ModelMetric>, targets: seq<Id>, row: FeedbackRow,
                        rows: seq<FeedbackRow>, n: nat, now: int): map<MetricKey, ModelMetric>
    requires n <= |targets|
  {
    if n == 0 then records
    else
      var before := AfterTargets(records, targets, row, rows, n - 1, now);
      before[DailyKey(targets[n - 1]) := DailyAfterFeedback(before, targets[n - 1], row, rows, now)]
  }

  /** Feedback only ever writes today's daily overall records of its targets. */
  lemma {:induction false} AfterTargetsEffect(records: map<MetricKey, ModelMetric>, targets: seq<Id>, row: FeedbackRow,
                                              rows: seq<FeedbackRow>, n: nat, now: int)
    requires n <= |targets|
    ensures var r := AfterTargets(records, targets, row, rows, n, now);
      && records.Keys <= r.Keys
      && (forall i :: 0 <= i < n ==> DailyKey(targets[i]) in r)
      && (forall k :: k in r && !(k.period == PERIOD_DAILY && k.category == "overall" && k.model in targets[..n]) ==>
            k in records && r[k] == records[k])
  {
    if n > 0 {
      AfterTargetsEffect(records, targets, row, rows, n - 1, now);
      assert targets[..n] == targets[..n - 1] + [targets[n - 1]];
    }
  }

  /** The record update_model_metrics_from_feedback leaves for a visited model. */
  function HourlyFor(records: map<MetricKey, ModelMetric>, id: Id, rows: seq<FeedbackRow>, now: int): ModelMetric
  {
    HourlyRecord(GetOrCreateToday(records, DailyKey(id), now), id, rows, now)
  }

  /** The record update_model_metrics_from_feedback leaves for each model, over a starting table. */
  function Hourly(records: map<MetricKey, ModelMetric>, rows: seq<FeedbackRow>, now: int): Id -> ModelMetric
  {
    (id: Id) => HourlyFor(records, id, rows, now)
  }

  /**
   * The table `r` is `records` after a pass that has visited the models of `visited`, writing
   * `hourly(id)` as each one's daily record: every other record is as it was.
   */
  ghost predicate HourlyDone(records: map<MetricKey, ModelMetric>, r: map<MetricKey, ModelMetric>, visited: set<Id>,
                             hourly: Id -> ModelMetric)
  {
    && (forall id :: id in visited ==> DailyKey(id) in r && r[DailyKey(id)] == hourly(id))
    && (forall k :: k in r ==> k in records || (k.model in visited && k == DailyKey(k.model)))
    && (forall k :: k in records && !(k.model in visited && k == DailyKey(k.model)) ==> k in r && r[k] == records[k])
  }

  /** Visiting one more model writes its record on top of the table so far. */
  lemma HourlyStep(records: map<MetricKey, ModelMetric>, t: map<MetricKey, ModelMetric>, visited: set<Id>, id: Id,
                   hourly: Id -> ModelMetric)
    requires HourlyDone(records, t, visited, hourly)
    requires id !in visited
    ensures HourlyDone(records, t[DailyKey(id) := hourly(id)], visited + {id}, hourly)
  {
    var t' := t[DailyKey(id) := hourly(id)];
    forall x | x in visited + {id} ensures DailyKey(x) in t' && t'[DailyKey(x)] == hourly(x) {
      if x != id {
        assert DailyKey(x) != DailyKey(id);
      }
    }
  }

  /** A model not yet visited starts from the record it had before the pass. */
  lemma HourlyUnvisited(records: map<MetricKey, ModelMetric>, t: map<MetricKey, ModelMetric>, visited: set<Id>, id: Id,
                        rows: seq<FeedbackRow>, now: int)
    requires HourlyDone(records, t, visited, Hourly(records, rows, now))
    requires id !in visited
    ensures HourlyFor(t, id, rows, now) == HourlyFor(records, id, rows, now)
  {
    var key := DailyKey(id);
    assert key in t <==> key in records;
    assert GetOrCreateToday(t, key, now) == GetOrCreateToday(records, key, now);
  }

  // ---------------------------------------------------------------- cleanup

  /** A retention rule: records of `period` older than `days` days are deleted. */
  datatype Retention = Retention(period: string, days: nat)

  /** ai_model/tasks.py: daily 30 days, weekly 12 weeks, monthly 365 days. */
  const TASK_RETENTION: seq<Retention> :=
    [Retention(PERIOD_DAILY, 30), Retention(PERIOD_WEEKLY, 84), Retention(PERIOD_MONTHLY, 365)]

  /** model_metrics/tasks.py: daily 90 days, weekly 365 days. */
  const METRICS_RETENTION: seq<Retention> := [Retention(PERIOD_DAILY, 90), Retention(PERIOD_WEEKLY, 365)]

  predicate Expired(m: ModelMetric, rule: Retention, now: int)
  {
    m.period == rule.period && m.calculatedAt < now - rule.days * SECONDS_PER_DAY
  }

  /** The keys one rule deletes. */
  function ExpiredKeys(records: map<MetricKey, ModelMetric>, rule: Retention, now: int): set<MetricKey>
  {
    set k | k in records && Expired(records[k], rule, now)
  }

  /** The records one rule keeps. */
  function PruneRule(records: map<MetricKey, ModelMetric>, rule: Retention, now: int): (r: map<MetricKey, ModelMetric>)
    ensures r.Keys == records.Keys - ExpiredKeys(records, rule, now)
  {
    map k | k in records && !Expired(records[k], rule, now) :: records[k]
  }

  /** What a rule keeps and what it deletes add up to what there was. */
  lemma PruneRuleCount(records: map<MetricKey, ModelMetric>, rule: Retention, now: int)
    ensures |PruneRule(records, rule, now)| + |ExpiredKeys(records, rule, now)| == |records|
  {
    var kept := PruneRule(records, rule, now);
    var gone := ExpiredKeys(records, rule, now);
    assert records.Keys == kept.Keys + gone;
    assert kept.Keys * gone == {};
    assert |kept| == |kept.Keys| && |records| == |records.Keys|;
  }

  /** The records left after applying the first `n` rules. */
  function Pruned(records: map<MetricKey, ModelMetric>, rules: seq<Retention>, n: nat, now: int): (r: map<MetricKey, ModelMetric>)
    requires n <= |rules|
    ensures r.Keys <= records.Keys
    ensures forall k :: k in r ==> r[k] == records[k]
    ensures forall k :: k in records ==> (k in r <==> forall i :: 0 <= i < n ==> !Expired(records[k], rules[i], now))
  {
    if n == 0 then records
    else PruneRule(Pruned(records, rules, n - 1, now), rules[n - 1], now)
  }

  /** All-time records survive both cleanup jobs, and so do records of periods without a rule. */
  lemma CleanupKeepsAllTime(records: map<MetricKey, ModelMetric>, now: int)
    ensures forall k :: k in records && records[k].period == PERIOD_ALL_TIME ==>
      k in Pruned(records, TASK_RETENTION, |TASK_RETENTION|, now)
      && k in Pruned(records, METRICS_RETENTION, |METRICS_RETENTION|, now)
    ensures forall k :: k in records && records[k].period == PERIOD_MONTHLY ==>
      k in Pruned(records, METRICS_RETENTION, |METRICS_RETENTION|, now)
  {
  }

  /** The first job deletes a daily record once it is 30 days old; the second waits 90 days. */
  lemma CleanupCutoffsDiffer(records: map<MetricKey, ModelMetric>, k: MetricKey, now: int)
    requires k in records && records[k].period == PERIOD_DAILY
    requires now - 90 * SECONDS_PER_DAY <= records[k].calculatedAt < now - 30 * SECONDS_PER_DAY
    ensures k !in Pruned(records, TASK_RETENTION, |TASK_RETENTION|, now)
    ensures k in Pruned(records, METRICS_RETENTION, |METRICS_RETENTION|, now)
  {
    assert Expired(records[k], TASK_RETENTION[0], now);
  }
}
