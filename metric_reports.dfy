/**
 * The cross-model reports: MetricsAggregator of model_metrics/aggregators.py (provider
 * aggregates, category dominance and the dominance score) and the report tasks of
 * model_metrics/tasks.py (anomalous rating jumps, biggest movers, top models per category).
 */
module MetricReports {
  import opened Wrappers
  import opened Entities
  import opened Ordering
  import opened MetricHistory
  import Leaderboard

  /** `total / count` as a real, and 0 for no items. */
  function Mean(total: int, count: nat): (r: real)
    ensures count == 0 ==> r == 0.0
  {
    if count == 0 then 0.0 else total as real / count as real
  }

  /** The latest overall all-time record of a model. */
  function OverallOf(history: seq<ModelMetric>, model: Id): Option<ModelMetric>
  {
    LatestOf(history, model, "overall", PERIOD_ALL_TIME)
  }

  // ---------------------------------------------------------------- aggregate_provider_metrics

  datatype ProviderModel = ProviderModel(model: Id, eloRating: int, winRate: real)

  function ProviderModelElo(p: ProviderModel): int { p.eloRating }

  datatype ProviderMetrics = ProviderMetrics(
    provider: string,
    modelCount: nat,
    averageElo: real,
    totalComparisons: int,
    totalWins: int,
    averageRating: Option<real>,
    models: seq<ProviderModel>)

  /** The provider's active models, in table order. */
  function ProviderModels(models: seq<AIModel>, provider: string): seq<AIModel>
  {
    Filter(models, (m: AIModel) => m.provider == provider && m.isActive)
  }

  /** The latest overall all-time record of each model that has one, in model order. */
  function Present(history: seq<ModelMetric>, models: seq<AIModel>): (r: seq<ModelMetric>)
    ensures |r| <= |models|
    ensures (forall md :: md in models ==> OverallOf(history, md.id).Some?) ==> |r| == |models|
  {
    if models == [] then []
    else
      var init := Present(history, models[..|models| - 1]);
      assert models == models[..|models| - 1] + [models[|models| - 1]];
      match OverallOf(history, models[|models| - 1].id)
      case Some(m) => init + [m]
      case None => init
  }

  function ProviderEntry(m: ModelMetric): ProviderModel { ProviderModel(m.model, m.eloRating, m.WinRate()) }

  function Entries(present: seq<ModelMetric>): (r: seq<ProviderModel>)
    ensures |r| == |present| && forall i :: 0 <= i < |r| ==> r[i] == ProviderEntry(present[i])
  {
    seq(|present|, i requires 0 <= i < |present| => ProviderEntry(present[i]))
  }

  /** Python truthiness of an optional average: present and non-zero. */
  predicate Truthy(r: Option<real>) { r.Some? && r.value != 0.0 }

  /** The truthy average ratings of the records, in order. */
  function Ratings(present: seq<ModelMetric>): (r: seq<real>)
    ensures |r| <= |present|
  {
    if present == [] then []
    else
      var last := present[|present| - 1];
      Ratings(present[..|present| - 1]) + (if Truthy(last.averageRating) then [last.averageRating.value] else [])
  }

  function RealSum(xs: seq<real>): real
  {
    if xs == [] then 0.0 else RealSum(xs[..|xs| - 1]) + xs[|xs| - 1]
  }

  function RealMean(xs: seq<real>): (r: Option<real>)
    ensures r.None? <==> xs == []
  {
    if xs == [] then None else Some(RealSum(xs) / |xs| as real)
  }

  function Comparisons(m: ModelMetric): int { m.totalComparisons }
  function Wins(m: ModelMetric): int { m.wins }

  /**
   * aggregate_provider_metrics: totals over the provider's active models that have an overall
   * all-time record; the average rating divides by all active models, including those without
   * a record; the average of averages uses only truthy ones; the list is sorted by rating.
   */
  method AggregateProviderMetrics(history: seq<ModelMetric>, models: seq<AIModel>, provider: string) returns (r: ProviderMetrics)
    ensures var active := ProviderModels(models, provider);
      var present := Present(history, active);
      && r.provider == provider
      && r.modelCount == |active|
      && r.totalComparisons == SumOf(present, Comparisons)
      && r.totalWins == SumOf(present, Wins)
      && r.averageElo == Mean(SumOf(present, EloOf), |active|)
      && r.averageRating == RealMean(Ratings(present))
      && SortedBy(r.models, ProviderModelElo)
      && multiset(r.models) == multiset(Entries(present))
  {
    var active := ProviderModels(models, provider);
    var totalElo, totalComparisons, totalWins, ratings, entries := AccumulateProvider(history, active);
    r := ProviderMetrics(provider, |active|, Mean(totalElo, |active|), totalComparisons, totalWins,
                         RealMean(ratings), SortDesc(entries, ProviderModelElo));
  }

  /** The accumulation loop of aggregate_provider_metrics. */
  method AccumulateProvider(history: seq<ModelMetric>, active: seq<AIModel>)
    returns (totalElo: int, totalComparisons: int, totalWins: int, ratings: seq<real>, entries: seq<ProviderModel>)
    ensures totalElo == SumOf(Present(history, active), EloOf)
    ensures totalComparisons == SumOf(Present(history, active), Comparisons)
    ensures totalWins == SumOf(Present(history, active), Wins)
    ensures ratings == Ratings(Present(history, active))
    ensures entries == Entries(Present(history, active))
  {
    totalElo, totalComparisons, totalWins := 0, 0, 0;
    ratings, entries := [], [];
    ghost var present: seq<ModelMetric> := [];
    for i := 0 to |active|
      invariant present == Present(history, active[..i])
      invariant totalElo == SumOf(present, EloOf)
      invariant totalComparisons == SumOf(present, Comparisons)
      invariant totalWins == SumOf(present, Wins)
      invariant ratings == Ratings(present)
      invariant entries == Entries(present)
    {
      var latest := OverallOf(history, active[i].id);
      if latest.Some? {
        var m := latest.value;
        assert Present(history, active[..i + 1]) == present + [m] by { PresentStep(history, active, i); }
        assert totalElo + m.eloRating == SumOf(present + [m], EloOf) by { SumOfSnoc(present, m, EloOf); }
        assert totalComparisons + m.totalComparisons == SumOf(present + [m], Comparisons) by {
          SumOfSnoc(present, m, Comparisons);
        }
        assert totalWins + m.wins == SumOf(present + [m], Wins) by { SumOfSnoc(present, m, Wins); }
        assert Ratings(present + [m]) == ratings + (if Truthy(m.averageRating) then [m.averageRating.value] else [])
          && Entries(present + [m]) == entries + [ProviderEntry(m)] by { RatingsSnoc(present, m); }
        totalElo := totalElo + m.eloRating;
        totalComparisons := totalComparisons + m.totalComparisons;
        totalWins := totalWins + m.wins;
        if m.averageRating.Some? && m.averageRating.value != 0.0 {
          ratings := ratings + [m.averageRating.value];
        }
        entries := entries + [ProviderEntry(m)];
        present := present + [m];
      } else {
        assert Present(history, active[..i + 1]) == present by { PresentStep(history, active, i); }
      }
    }
    assert active[..|active|] == active;
  }

  lemma PresentStep(history: seq<ModelMetric>, active: seq<AIModel>, i: nat)
    requires i < |active|
    ensures Present(history, active[..i + 1]) ==
      match OverallOf(history, active[i].id)
      case Some(m) => Present(history, active[..i]) + [m]
      case None => Present(history, active[..i])
  {
    assert active[..i + 1][..i] == active[..i];
  }

  lemma RatingsSnoc(present: seq<ModelMetric>, m: ModelMetric)
    ensures Ratings(present + [m]) == Ratings(present) + (if Truthy(m.averageRating) then [m.averageRating.value] else [])
    ensures Entries(present + [m]) == Entries(present) + [ProviderEntry(m)]
  {
    assert (present + [m])[..|present|] == present;
  }

  /** A mean of a total between count·lo and count·hi lies between lo and hi. */
  lemma MeanBetween(total: int, count: nat, lo: int, hi: int)
    requires count > 0 && lo * count <= total <= hi * count
    ensures lo as real <= Mean(total, count) <= hi as real
  {
    var c := count as real;
    assert lo as real * c <= total as real by { assert (lo * count) as real == lo as real * c; }
    assert total as real <= hi as real * c by { assert (hi * count) as real == hi as real * c; }
    LowerDiv(lo as real, total as real, c);
    UpperDiv(total as real, hi as real, c);
  }

  lemma LowerDiv(x: real, t: real, c: real)
    requires c > 0.0 && x * c <= t
    ensures x <= t / c
  {
    assert x == x * c / c;
  }

  lemma UpperDiv(t: real, x: real, c: real)
    requires c > 0.0 && t <= x * c
    ensures t / c <= x
  {
    assert x == x * c / c;
  }

  lemma DivBetween(x: real, y: real, z: real, c: real)
    requires c > 0.0 && x <= y <= z
    ensures x / c <= y / c <= z / c
  {
  }

  /** When every active model has a record rated between lo and hi, so is the provider's average. */
  lemma AverageEloBounds(history: seq<ModelMetric>, models: seq<AIModel>, provider: string, lo: int, hi: int)
    requires forall md :: md in ProviderModels(models, provider) ==> OverallOf(history, md.id).Some?
    requires forall m :: m in Present(history, ProviderModels(models, provider)) ==> lo <= m.eloRating <= hi
    requires ProviderModels(models, provider) != []
    ensures var active := ProviderModels(models, provider);
      lo as real <= Mean(SumOf(Present(history, active), EloOf), |active|) <= hi as real
  {
    var active := ProviderModels(models, provider);
    var present := Present(history, active);
    SumOfBounds(present, EloOf, lo, hi);
    MeanBetween(SumOf(present, EloOf), |active|, lo, hi);
  }

  /** A model without a record counts as a zero rating: with ratings at most hi > 0, the average stays below hi. */
  lemma MissingRecordCountsAsZero(history: seq<ModelMetric>, models: seq<AIModel>, provider: string, lo: int, hi: int)
    requires forall m :: m in Present(history, ProviderModels(models, provider)) ==> lo <= m.eloRating <= hi
    requires 0 <= lo && 0 < hi
    requires exists md :: md in ProviderModels(models, provider) && OverallOf(history, md.id).None?
    ensures var active := ProviderModels(models, provider);
      Mean(SumOf(Present(history, active), EloOf), |active|) < hi as real
  {
    var active := ProviderModels(models, provider);
    var present := Present(history, active);
    MissingShortens(history, active);
    SumOfBounds(present, EloOf, lo, hi);
    var n := |active|;
    var total := SumOf(present, EloOf);
    MulMono(hi, |present|, n - 1);
    MeanBelow(total, n, hi);
  }

  lemma MulMono(c: int, a: int, b: int)
    requires c >= 0 && a <= b
    ensures c * a <= c * b
  {
    assert c * b - c * a == c * (b - a);
  }

  lemma MeanBelow(total: int, n: nat, hi: int)
    requires n > 0 && hi > 0 && total <= hi * (n - 1)
    ensures Mean(total, n) < hi as real
  {
    var c := n as real;
    assert (hi * (n - 1)) as real < (hi * n) as real;
    DivStrict(total as real, (hi * n) as real, c);
    assert (hi * n) as real == hi as real * c;
    assert hi as real * c / c == hi as real;
  }

  lemma DivStrict(x: real, y: real, c: real)
    requires c > 0.0 && x < y
    ensures x / c < y / c
  {
  }

  lemma {:induction false} MissingShortens(history: seq<ModelMetric>, models: seq<AIModel>)
    requires exists md :: md in models && OverallOf(history, md.id).None?
    ensures |Present(history, models)| < |models|
  {
    var last := models[|models| - 1];
    var init := models[..|models| - 1];
    assert models == init + [last];
    if OverallOf(history, last.id).Some? {
      var md :| md in models && OverallOf(history, md.id).None?;
      assert md in init;
      MissingShortens(history, init);
    }
  }

  // ---------------------------------------------------------------- dominance

  /** The other metrics of the list (`m != metric`). */
  function Others(metric: ModelMetric, all: seq<ModelMetric>): seq<ModelMetric>
  {
    Filter(all, (m: ModelMetric) => m != metric)
  }

  function Clamp100(x: real): (r: real)
    ensures 0.0 <= r <= 100.0
    ensures 0.0 <= x <= 100.0 ==> r == x
  {
    if x > 100.0 then 100.0 else if x < 0.0 then 0.0 else x
  }

  /**
   * _calculate_dominance_score: 100 without at least two metrics or without another metric;
   * otherwise the gap to the others' average rating on a 0..100 scale where a 200-point lead
   * is full dominance.
   */
  function DominanceScore(metric: ModelMetric, all: seq<ModelMetric>): (d: real)
    ensures 0.0 <= d <= 100.0
    ensures |all| < 2 || Others(metric, all) == [] ==> d == 100.0
  {
    if |all| < 2 then 100.0
    else
      var others := Others(metric, all);
      if others == [] then 100.0
      else
        LeadScore(metric.eloRating as real - Mean(SumOf(others, EloOf), |others|))
  }

  /** A rating lead on a 0..100 scale where a 200-point lead is full dominance. */
  function LeadScore(difference: real): real
  {
    Clamp100((difference / 200.0) * 100.0)
  }

  /** The lead of a rating over the mean of the other k ratings of a total. */
  function LeadOver(elo: int, total: int, k: nat): real
  {
    elo as real - Mean(total - elo, k)
  }

  /**
   * With others to compare against, no lead gives 0, a lead of 200 points or more gives 100,
   * and a lead in between scales linearly.
   */
  lemma DominanceScale(metric: ModelMetric, all: seq<ModelMetric>)
    requires |all| >= 2 && Others(metric, all) != []
    ensures var others := Others(metric, all);
      var gap := metric.eloRating as real - Mean(SumOf(others, EloOf), |others|);
      var d := DominanceScore(metric, all);
      && (gap <= 0.0 ==> d == 0.0)
      && (gap >= 200.0 ==> d == 100.0)
      && (0.0 <= gap <= 200.0 ==> d == gap / 2.0)
  {
  }

  /** Rows with distinct models. */
  ghost predicate DistinctModels(all: seq<ModelMetric>)
  {
    forall i, j :: 0 <= i < j < |all| ==> all[i].model != all[j].model
  }

  /** In a list of distinct models, the others of a member are all the rest. */
  lemma {:induction false} OthersSum(all: seq<ModelMetric>, x: ModelMetric)
    requires x in all && DistinctModels(all)
    ensures |Others(x, all)| == |all| - 1
    ensures SumOf(Others(x, all), EloOf) == SumOf(all, EloOf) - x.eloRating
  {
    var init := all[..|all| - 1];
    var last := all[|all| - 1];
    assert all == init + [last];
    var p := (m: ModelMetric) => m != x;
    assert Others(x, all) == if p(last) then Others(x, init) + [last] else Others(x, init);
    assert DistinctModels(init);
    if last == x {
      forall m | m in init ensures p(m) {
        var k :| 0 <= k < |init| && init[k] == m;
        assert all[k] == m;
      }
      FilterKeepsAll(init, p);
    } else {
      OthersSum(init, x);
      SumOfSnoc(Others(x, init), last, EloOf);
    }
  }

  /** Among distinct models, the others' average of a member is the total without it. */
  lemma DominanceOfMember(all: seq<ModelMetric>, x: ModelMetric)
    requires x in all && DistinctModels(all) && |all| >= 2
    ensures DominanceScore(x, all) == LeadScore(LeadOver(x.eloRating, SumOf(all, EloOf), |all| - 1))
  {
    OthersSum(all, x);
    assert Others(x, all) != [];
  }

  lemma LeadMonotone(a: int, b: int, total: int, k: nat)
    requires a >= b && k > 0
    ensures LeadOver(a, total, k) >= LeadOver(b, total, k)
  {
    DivBetween((total - a) as real, (total - b) as real, (total - b) as real, k as real);
  }

  lemma LeadScoreMonotone(x: real, y: real)
    requires x >= y
    ensures LeadScore(x) >= LeadScore(y)
  {
  }

  /** Among distinct models, a higher rating never gets a lower dominance score. */
  lemma DominanceMonotone(all: seq<ModelMetric>, a: ModelMetric, b: ModelMetric)
    requires a in all && b in all && DistinctModels(all)
    requires a.eloRating >= b.eloRating
    ensures DominanceScore(a, all) >= DominanceScore(b, all)
  {
    if |all| >= 2 {
      var total := SumOf(all, EloOf);
      DominanceOfMember(all, a);
      DominanceOfMember(all, b);
      LeadMonotone(a.eloRating, b.eloRating, total, |all| - 1);
      LeadScoreMonotone(LeadOver(a.eloRating, total, |all| - 1), LeadOver(b.eloRating, total, |all| - 1));
    }
  }

  // ---------------------------------------------------------------- calculate_category_dominance

  const DOMINANCE_CATEGORIES: seq<string> :=
    ["overall", "code", "creative", "reasoning", "translation", "summarization", "conversation"]

  datatype DominanceEntry = DominanceEntry(rank: nat, model: Id, eloRating: int, winRate: real, dominanceScore: real)

  function DominanceEntryOf(top: seq<ModelMetric>, i: nat): DominanceEntry
    requires i < |top|
  {
    DominanceEntry(i + 1, top[i].model, top[i].eloRating, top[i].WinRate(), DominanceScore(top[i], top))
  }

  /** The dominance list of a category's top records: entry i ranks record i from 1. */
  function DominanceEntries(top: seq<ModelMetric>): (r: seq<DominanceEntry>)
  {
    seq(|top|, i requires 0 <= i < |top| => DominanceEntryOf(top, i))
  }

  /** The five best-rated latest all-time records of a category. */
  function TopFive(history: seq<ModelMetric>, category: string): seq<ModelMetric>
  {
    Leaderboard.Ranked(history, category, PERIOD_ALL_TIME, 5)
  }

  /**
   * calculate_category_dominance: for each category, the five best-rated models' latest
   * all-time records ranked 1..n, each with its dominance among those five.
   */
  method CalculateCategoryDominance(history: seq<ModelMetric>) returns (dominance: map<string, seq<DominanceEntry>>)
    ensures forall c :: c in dominance <==> c in DOMINANCE_CATEGORIES
    ensures forall c :: c in dominance ==> dominance[c] == DominanceEntries(TopFive(history, c))
  {
    dominance := map[];
    for k := 0 to |DOMINANCE_CATEGORIES|
      invariant forall c :: c in dominance <==> c in DOMINANCE_CATEGORIES[..k]
      invariant forall c :: c in dominance ==> dominance[c] == DominanceEntries(TopFive(history, c))
    {
      var category := DOMINANCE_CATEGORIES[k];
      var entries := DominanceList(TopFive(history, category));
      assert DOMINANCE_CATEGORIES[..k + 1] == DOMINANCE_CATEGORIES[..k] + [category];
      dominance := dominance[category := entries];
    }
    assert DOMINANCE_CATEGORIES[..|DOMINANCE_CATEGORIES|] == DOMINANCE_CATEGORIES;
  }

  /**
   * calculate_category_dominance as written: the first category's latest-per-model query is
   * refused by the database, so the call raises before any list is built.
   */
  method CalculateCategoryDominanceAsWritten(history: seq<ModelMetric>) returns (r: Result<map<string, seq<DominanceEntry>>>)
    ensures r == Err(DISTINCT_ON_ERROR)
  {
    var category := DOMINANCE_CATEGORIES[0];
    LatestPerModelRuns(history, category, PERIOD_ALL_TIME);
    match RunLatestPerModel(LATEST_PER_MODEL_AS_WRITTEN, history, category, PERIOD_ALL_TIME) {
      case Err(e) =>
        r := Err(e);
      case Ok(_) =>
        var dominance := CalculateCategoryDominance(history);
        r := Ok(dominance);
    }
  }

  /** The inner loop of calculate_category_dominance: entries ranked from 1. */
  method DominanceList(top: seq<ModelMetric>) returns (entries: seq<DominanceEntry>)
    ensures entries == DominanceEntries(top)
  {
    entries := [];
    for i := 0 to |top|
      invariant |entries| == i
      invariant forall j :: 0 <= j < i ==> entries[j] == DominanceEntryOf(top, j)
    {
      entries := entries + [DominanceEntryOf(top, i)];
    }
  }

  /**
   * A category's dominance list has at most five entries, ranked 1..n, and down the list
   * ratings and dominance scores never increase.
   */
  lemma DominanceFollowsRank(history: seq<ModelMetric>, category: string, i: nat, j: nat)
    requires i < j < |TopFive(history, category)|
    ensures var entries := DominanceEntries(TopFive(history, category));
      && |entries| <= 5
      && entries[i].rank == i + 1 && entries[j].rank == j + 1
      && entries[i].eloRating >= entries[j].eloRating
      && entries[i].dominanceScore >= entries[j].dominanceScore
  {
    var top := TopFive(history, category);
    Leaderboard.RankedBoard(history, category, PERIOD_ALL_TIME, 5);
    assert EloOf(top[i]) >= EloOf(top[j]);
    DominanceMonotone(top, top[i], top[j]);
  }

  // ---------------------------------------------------------------- detect_anomalous_metrics

  /** A jump of more than this many rating points between consecutive records is flagged. */
  const ANOMALY_THRESHOLD: int := 100

  datatype Anomaly = Anomaly(model: Id, category: string, change: nat, increase: bool)

  /** The record was calculated in the last 24 hours. */
  predicate IsRecent(m: ModelMetric, now: int) { m.calculatedAt >= now - SECONDS_PER_DAY }

  /** A recent record whose series has an earlier record more than 100 points away. */
  predicate IsAnomalous(history: seq<ModelMetric>, m: ModelMetric, now: int)
  {
    IsRecent(m, now) && PreviousOf(history, m).Some?
    && Abs(m.eloRating - PreviousOf(history, m).value.eloRating) > ANOMALY_THRESHOLD
  }

  function Anomalous(history: seq<ModelMetric>, now: int): ModelMetric -> bool
  {
    (m: ModelMetric) => IsAnomalous(history, m, now)
  }

  function AnomalyOf(history: seq<ModelMetric>, m: ModelMetric): (a: Anomaly)
    requires PreviousOf(history, m).Some?
    ensures var prev := PreviousOf(history, m).value;
      && a.model == m.model && a.category == m.category
      && a.change as int == Abs(m.eloRating - prev.eloRating)
      && (a.increase <==> m.eloRating > prev.eloRating)
  {
    var prev := PreviousOf(history, m).value;
    Anomaly(m.model, m.category, Abs(m.eloRating - prev.eloRating), m.eloRating > prev.eloRating)
  }

  /**
   * The anomalies of some rows of the table, in row order: one per recent row that moved more
   * than 100 points from the previous record of its series.
   */
  function AnomaliesIn(history: seq<ModelMetric>, rows: seq<ModelMetric>, now: int): (r: seq<Anomaly>)
    ensures |r| == CountIf(rows, Anomalous(history, now))
    ensures forall a :: a in r ==> exists m :: m in rows && IsAnomalous(history, m, now) && a == AnomalyOf(history, m)
    ensures forall m :: m in rows && IsAnomalous(history, m, now) ==> AnomalyOf(history, m) in r
    ensures forall a :: a in r ==> a.change as int > ANOMALY_THRESHOLD
  {
    if rows == [] then []
    else
      var init := rows[..|rows| - 1];
      var last := rows[|rows| - 1];
      assert rows == init + [last];
      AnomaliesIn(history, init, now) + (if IsAnomalous(history, last, now) then [AnomalyOf(history, last)] else [])
  }

  /** detect_anomalous_metrics: the anomalies of the whole table, in table order. */
  method DetectAnomalousMetrics(history: seq<ModelMetric>, now: int) returns (anomalies: seq<Anomaly>)
    ensures anomalies == AnomaliesIn(history, history, now)
  {
    anomalies := [];
    for i := 0 to |history|
      invariant anomalies == AnomaliesIn(history, history[..i], now)
    {
      assert history[..i + 1][..i] == history[..i];
      var metric := history[i];
      if IsRecent(metric, now) {
        var previous := PreviousOf(history, metric);
        if previous.Some? {
          var eloChange := Abs(metric.eloRating - previous.value.eloRating);
          if eloChange > ANOMALY_THRESHOLD {
            anomalies := anomalies + [AnomalyOf(history, metric)];
          }
        }
      }
    }
    assert history[..|history|] == history;
  }

  /** The first record of a series is never flagged, however far it is from the default rating. */
  lemma FirstRecordNotAnomalous(history: seq<ModelMetric>, m: ModelMetric, now: int)
    requires forall h :: h in history && InSeries(h, m.model, m.category, m.period) ==> h.calculatedAt >= m.calculatedAt
    ensures !IsAnomalous(history, m, now)
  {
  }

  // ---------------------------------------------------------------- generate_metric_report

  const REPORT_CATEGORIES: seq<string> := ["overall", "code", "creative", "reasoning"]
  const MOVER_THRESHOLD: int := 50
  const MAX_MOVERS: nat := 10
  const WEEK: int := 7 * SECONDS_PER_DAY

  datatype Mover = Mover(model: Id, change: int, currentElo: int)

  function AbsChange(m: Mover): int { Abs(m.change) }

  /** The latest overall all-time record calculated at least a week before `now`. */
  function WeekOldOf(history: seq<ModelMetric>, model: Id, now: int): Option<ModelMetric>
  {
    LatestWhere(history, (h: ModelMetric) => InSeries(h, model, "overall", PERIOD_ALL_TIME) && h.calculatedAt <= now - WEEK)
  }

  /** A model whose overall rating moved by more than 50 points since a week ago. */
  function MoverOf(history: seq<ModelMetric>, model: Id, now: int): (r: Option<Mover>)
    ensures r.Some? <==>
      OverallOf(history, model).Some? && WeekOldOf(history, model, now).Some?
      && Abs(OverallOf(history, model).value.eloRating - WeekOldOf(history, model, now).value.eloRating) > MOVER_THRESHOLD
    ensures r.Some? ==>
      && r.value.model == model
      && r.value.change == OverallOf(history, model).value.eloRating - WeekOldOf(history, model, now).value.eloRating
      && r.value.currentElo == OverallOf(history, model).value.eloRating
  {
    match (OverallOf(history, model), WeekOldOf(history, model, now))
    case (Some(current), Some(weekOld)) =>
      var change := current.eloRating - weekOld.eloRating;
      if Abs(change) > MOVER_THRESHOLD then Some(Mover(model, change, current.eloRating)) else None
    case _ => None
  }

  /** The movers of the active models, in model order. */
  function Candidates(history: seq<ModelMetric>, models: seq<AIModel>, now: int): (r: seq<Mover>)
    ensures forall x :: x in r ==> AbsChange(x) > MOVER_THRESHOLD
    ensures forall x :: x in r ==> exists md :: md in models && md.isActive && MoverOf(history, md.id, now) == Some(x)
    ensures forall md :: md in models && md.isActive && MoverOf(history, md.id, now).Some? ==> MoverOf(history, md.id, now).value in r
  {
    if models == [] then []
    else
      var last := models[|models| - 1];
      var prev := Candidates(history, models[..|models| - 1], now);
      var mover := if last.isActive then MoverOf(history, last.id, now) else None;
      assert forall md :: md in models ==> md in models[..|models| - 1] || md == last by {
        assert models == models[..|models| - 1] + [last];
      }
      assert mover.Some? ==> AbsChange(mover.value) > MOVER_THRESHOLD;
      if mover.Some? then prev + [mover.value] else prev
  }

  /**
   * The biggest movers of generate_metric_report: of the active models that moved more than
   * 50 points in a week, at most ten, largest absolute change first; any mover left out moved
   * no more than every mover listed.
   */
  method BiggestMovers(history: seq<ModelMetric>, models: seq<AIModel>, now: int) returns (movers: seq<Mover>)
    ensures |movers| <= MAX_MOVERS
    ensures SortedBy(movers, AbsChange)
    ensures forall x :: x in movers ==> x in Candidates(history, models, now)
    ensures forall x :: x in Candidates(history, models, now) && x !in movers ==>
      |movers| == MAX_MOVERS && forall y :: y in movers ==> AbsChange(y) >= AbsChange(x)
  {
    var candidates := CollectCandidates(history, models, now);
    movers := Take(SortDesc(candidates, AbsChange), MAX_MOVERS);
    LargestFirst(candidates, MAX_MOVERS);
  }

  /** The first k of the movers sorted by absolute change are at least as large as any left out. */
  lemma LargestFirst(candidates: seq<Mover>, k: nat)
    ensures var movers := Take(SortDesc(candidates, AbsChange), k);
      && SortedBy(movers, AbsChange)
      && (forall x :: x in movers ==> x in candidates)
      && (forall x :: x in candidates && x !in movers ==>
            |movers| == k && forall y :: y in movers ==> AbsChange(y) >= AbsChange(x))
  {
    var sorted := SortDesc(candidates, AbsChange);
    var movers := Take(sorted, k);
    TakeKeepsOrder(sorted, k, AbsChange);
    PrefixOfSorted(candidates, sorted, movers, AbsChange);
    forall x | x in candidates && x !in movers ensures |movers| == k {
      assert x in multiset(sorted);
    }
  }

  /** The candidate loop of generate_metric_report. */
  method CollectCandidates(history: seq<ModelMetric>, models: seq<AIModel>, now: int) returns (candidates: seq<Mover>)
    ensures candidates == Candidates(history, models, now)
  {
    candidates := [];
    for i := 0 to |models|
      invariant candidates == Candidates(history, models[..i], now)
    {
      assert models[..i + 1][..i] == models[..i];
      var model := models[i];
      if model.isActive {
        var mover := MoverOf(history, model.id, now);
        if mover.Some? {
          candidates := candidates + [mover.value];
        }
      }
    }
    assert models[..|models|] == models;
  }

  datatype TopModel = TopModel(model: Id, eloRating: int, winRate: real)

  /**
   * The top models of a category in generate_metric_report: the five best-rated latest all-time
   * records, best first. The query as written (`distinct('model')` followed by
   * `order_by('-elo_rating')`) is rejected by PostgreSQL's DISTINCT ON rule; this is what it asks for.
   */
  function TopModels(history: seq<ModelMetric>, category: string): (r: seq<TopModel>)
    ensures |r| <= 5
  {
    var top := Leaderboard.Ranked(history, category, PERIOD_ALL_TIME, 5);
    Leaderboard.RankedBoard(history, category, PERIOD_ALL_TIME, 5);
    seq(|top|, i requires 0 <= i < |top| => TopModel(top[i].model, top[i].eloRating, top[i].WinRate()))
  }

  /** The top models are listed best first, each with the rating of its latest all-time record. */
  lemma TopModelsRanked(history: seq<ModelMetric>, category: string)
    ensures var r := TopModels(history, category);
      && (forall i, j :: 0 <= i < j < |r| ==> r[i].eloRating >= r[j].eloRating)
      && (forall i :: 0 <= i < |r| ==>
            LatestOf(history, r[i].model, category, PERIOD_ALL_TIME).Some?
            && LatestOf(history, r[i].model, category, PERIOD_ALL_TIME).value.eloRating == r[i].eloRating)
  {
    var top := Leaderboard.Ranked(history, category, PERIOD_ALL_TIME, 5);
    Leaderboard.RankedBoard(history, category, PERIOD_ALL_TIME, 5);
    var r := TopModels(history, category);
    forall i, j | 0 <= i < j < |r| ensures r[i].eloRating >= r[j].eloRating {
      assert EloOf(top[i]) >= EloOf(top[j]);
    }
    forall i | 0 <= i < |r|
      ensures LatestOf(history, r[i].model, category, PERIOD_ALL_TIME) == Some(top[i])
    {
      assert top[i] in top;
    }
  }

  datatype ProviderSummary = ProviderSummary(provider: string, averageElo: real, modelCount: nat)

  datatype Report = Report(
    generatedAt: int,
    topModelsByCategory: map<string, seq<TopModel>>,
    biggestMovers: seq<Mover>,
    providerSummary: seq<ProviderSummary>)

  /** The distinct providers of the active models, in order of first appearance. */
  function ActiveProviders(models: seq<AIModel>): (ps: seq<string>)
    ensures Distinct(ps)
    ensures forall p :: p in ps <==> exists md :: md in models && md.isActive && md.provider == p
  {
    if models == [] then []
    else
      var last := models[|models| - 1];
      var init := ActiveProviders(models[..|models| - 1]);
      assert models == models[..|models| - 1] + [last];
      if last.isActive && last.provider !in init then init + [last.provider] else init
  }

  function ProviderAndName(m: AIModel): (string, string) { (m.provider, m.modelName) }

  /** The (provider, model name) pairs of the active models, each once, in catalog order. */
  function ActivePairs(models: seq<AIModel>): (pairs: seq<(string, string)>)
    ensures forall x :: x in pairs <==> exists md :: md in models && md.isActive && ProviderAndName(md) == x
  {
    var active := Filter(models, (m: AIModel) => m.isActive);
    var named := seq(|active|, i requires 0 <= i < |active| => ProviderAndName(active[i]));
    assert forall x :: x in named ==> exists md :: md in models && md.isActive && ProviderAndName(md) == x by {
      forall x | x in named ensures exists md :: md in models && md.isActive && ProviderAndName(md) == x {
        var i :| 0 <= i < |named| && named[i] == x;
        assert active[i] in active;
      }
    }
    assert forall md :: md in models && md.isActive ==> ProviderAndName(md) in named by {
      forall md | md in models && md.isActive ensures ProviderAndName(md) in named {
        assert md in active;
        var i :| 0 <= i < |active| && active[i] == md;
        assert named[i] == ProviderAndName(md);
      }
    }
    Dedup(named)
  }

  /**
   * `AIModel.objects.filter(is_active=True).values_list('provider', flat=True).distinct()` as
   * written: the model's default ordering (`provider`, `model_name`) joins the distinct columns,
   * so a provider comes once per distinct model name of its active models; `models` is the
   * catalog in that order.
   */
  function ActiveProviderRows(models: seq<AIModel>): (rows: seq<string>)
    ensures forall p :: p in rows <==> p in ActiveProviders(models)
  {
    var pairs := ActivePairs(models);
    var rows := seq(|pairs|, i requires 0 <= i < |pairs| => pairs[i].0);
    assert forall p :: p in rows ==> p in ActiveProviders(models) by {
      forall p | p in rows ensures p in ActiveProviders(models) {
        var i :| 0 <= i < |rows| && rows[i] == p;
        assert pairs[i] in pairs;
      }
    }
    assert forall p :: p in ActiveProviders(models) ==> p in rows by {
      forall p | p in ActiveProviders(models) ensures p in rows {
        var md :| md in models && md.isActive && md.provider == p;
        assert ProviderAndName(md) in pairs;
        var i :| 0 <= i < |pairs| && pairs[i] == ProviderAndName(md);
        assert rows[i] == p;
      }
    }
    rows
  }

  /**
   * The discrepancy: a provider with two active models of different names is a row twice as
   * written, where the intended list names every provider once.
   */
  lemma ProviderRowRepeats(models: seq<AIModel>, m1: AIModel, m2: AIModel) returns (i: nat, j: nat)
    requires m1 in models && m2 in models && m1.isActive && m2.isActive
    requires m1.provider == m2.provider && m1.modelName != m2.modelName
    ensures i < j < |ActiveProviderRows(models)|
    ensures ActiveProviderRows(models)[i] == m1.provider && ActiveProviderRows(models)[j] == m1.provider
    ensures Distinct(ActiveProviders(models))
  {
    var pairs := ActivePairs(models);
    assert ProviderAndName(m1) in pairs && ProviderAndName(m2) in pairs;
    var a :| 0 <= a < |pairs| && pairs[a] == ProviderAndName(m1);
    var b :| 0 <= b < |pairs| && pairs[b] == ProviderAndName(m2);
    i, j := if a < b then a else b, if a < b then b else a;
  }

  /** A provider's line of the report: its average rating over its active models and their number. */
  function SummaryOf(history: seq<ModelMetric>, models: seq<AIModel>, p: string): ProviderSummary
  {
    var active := ProviderModels(models, p);
    ProviderSummary(p, Mean(SumOf(Present(history, active), EloOf), |active|), |active|)
  }

  /**
   * generate_metric_report without the e-mail: the top models of four categories, the
   * biggest movers and, per provider of an active model, its average rating and model count.
   */
  method GenerateMetricReport(history: seq<ModelMetric>, models: seq<AIModel>, now: int) returns (report: Report)
    ensures report.generatedAt == now
    ensures forall c :: c in report.topModelsByCategory <==> c in REPORT_CATEGORIES
    ensures forall c :: c in report.topModelsByCategory ==> report.topModelsByCategory[c] == TopModels(history, c)
    ensures |report.biggestMovers| <= MAX_MOVERS
    ensures |report.providerSummary| == |ActiveProviders(models)|
    ensures forall i :: 0 <= i < |report.providerSummary| ==>
      report.providerSummary[i] == SummaryOf(history, models, ActiveProviders(models)[i])
  {
    var top := TopModelsByCategory(history);
    var movers := BiggestMovers(history, models, now);
    var summary := ProviderSummaries(history, models, ActiveProviders(models));
    report := Report(now, top, movers, summary);
  }

  /**
   * generate_metric_report with the top-models query corrected and the provider query as
   * written: one provider line per row of the provider query, so a provider is summarised once
   * per distinct model name.
   */
  method GenerateMetricReportWithProviderRows(history: seq<ModelMetric>, models: seq<AIModel>, now: int)
    returns (report: Report)
    ensures report.generatedAt == now
    ensures forall c :: c in report.topModelsByCategory ==> report.topModelsByCategory[c] == TopModels(history, c)
    ensures |report.biggestMovers| <= MAX_MOVERS
    ensures |report.providerSummary| == |ActiveProviderRows(models)|
    ensures forall i :: 0 <= i < |report.providerSummary| ==>
      report.providerSummary[i] == SummaryOf(history, models, ActiveProviderRows(models)[i])
  {
    var top := TopModelsByCategory(history);
    var movers := BiggestMovers(history, models, now);
    var summary := ProviderSummaries(history, models, ActiveProviderRows(models));
    report := Report(now, top, movers, summary);
  }

  // ---------------------------------------------------------------- the top-models query as written

  /** The top-models query of one category (backend/model_metrics/tasks.py:128-131) as Django builds it. */
  const TOP_MODELS_QUERY: MetricQuery := OrderBy(LATEST_PER_MODEL_AS_WRITTEN, ["-elo_rating"])

  /** As written, the last `order_by` leaves only the rating to sort on, and PostgreSQL refuses the query. */
  lemma TopModelsQueryRefused()
    ensures TOP_MODELS_QUERY == MetricQuery(["model"], ["-elo_rating"])
    ensures !Accepted(TOP_MODELS_QUERY)
  {
    var field := "-elo_rating";
    assert field[0] == '-' && field[1..] == "elo_rating";
    assert SortColumnsOf([field]) == ["elo_rating"] + SortColumnsOf([]);
    assert DistinctColumns(["model"]) == {"model_id"};
  }

  /**
   * generate_metric_report as written: the first category's query is refused by the database,
   * so the task raises before any report or e-mail is produced.
   */
  method GenerateMetricReportAsWritten(history: seq<ModelMetric>, models: seq<AIModel>, now: int)
    returns (r: Result<Report>)
    ensures r == Err(DISTINCT_ON_ERROR)
  {
    TopModelsQueryRefused();
    r := Err(DISTINCT_ON_ERROR);
  }

  /** The category loop of generate_metric_report. */
  method TopModelsByCategory(history: seq<ModelMetric>) returns (top: map<string, seq<TopModel>>)
    ensures forall c :: c in top <==> c in REPORT_CATEGORIES
    ensures forall c :: c in top ==> top[c] == TopModels(history, c)
  {
    top := map[];
    for k := 0 to |REPORT_CATEGORIES|
      invariant forall c :: c in top <==> c in REPORT_CATEGORIES[..k]
      invariant forall c :: c in top ==> top[c] == TopModels(history, c)
    {
      top := top[REPORT_CATEGORIES[k] := TopModels(history, REPORT_CATEGORIES[k])];
    }
    assert REPORT_CATEGORIES[..|REPORT_CATEGORIES|] == REPORT_CATEGORIES;
  }

  /** The provider loop of generate_metric_report. */
  method ProviderSummaries(history: seq<ModelMetric>, models: seq<AIModel>, providers: seq<string>)
    returns (summary: seq<ProviderSummary>)
    ensures |summary| == |providers|
    ensures forall i :: 0 <= i < |providers| ==> summary[i] == SummaryOf(history, models, providers[i])
  {
    summary := [];
    for i := 0 to |providers|
      invariant |summary| == i
      invariant forall j :: 0 <= j < i ==> summary[j] == SummaryOf(history, models, providers[j])
    {
      var line := ProviderLine(history, models, providers[i]);
      summary := summary + [line];
    }
  }

  /** One provider's line of the report, from its aggregate. */
  method ProviderLine(history: seq<ModelMetric>, models: seq<AIModel>, provider: string) returns (line: ProviderSummary)
    ensures line == SummaryOf(history, models, provider)
  {
    var aggregate := AggregateProviderMetrics(history, models, provider);
    line := ProviderSummary(provider, aggregate.averageElo, aggregate.modelCount);
  }
}
