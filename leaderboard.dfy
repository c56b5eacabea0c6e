/**
 * The leaderboard and model comparison reports of model_metrics/services.py, and the entry
 * and comparison formatting of model_metrics/utils.py, over the metric history.
 */
module Leaderboard {
  import opened Wrappers
  import opened Entities
  import opened Elo
  import opened Ordering
  import opened MetricHistory

  // ---------------------------------------------------------------- get_leaderboard

  /** The leaderboard's rows: the latest row per model, highest rating first, cut at `limit` as `[:limit]` does. */
  function Ranked(history: seq<ModelMetric>, category: string, period: string, limit: int): (r: seq<ModelMetric>)
    ensures SortedBy(r, EloOf)
    ensures |r| <= |SeriesModels(history, category, period)|
  {
    var sorted := SortDesc(LatestMetrics(history, category, period), EloOf);
    var r := PyPrefix(sorted, limit);
    SortedPrefix(sorted, |r|);
    r
  }

  lemma SortedPrefix(s: seq<ModelMetric>, m: nat)
    requires SortedBy(s, EloOf) && m <= |s|
    ensures SortedBy(s[..m], EloOf)
  {
    assert s[..m] == Take(s, m);
    TakeKeepsOrder(s, m, EloOf);
  }

  /**
   * The board holds each model at most once, each with its latest row; with a non-negative
   * limit it holds min(limit, models) rows, and every model left off rates no higher than
   * any model on it.
   */
  lemma RankedBoard(history: seq<ModelMetric>, category: string, period: string, limit: int)
    ensures var r := Ranked(history, category, period, limit);
      && (forall m :: m in r ==> Some(m) == LatestOf(history, m.model, category, period))
      && (forall i, j :: 0 <= i < j < |r| ==> r[i].model != r[j].model)
      && (limit >= 0 ==> |r| == Min(limit, |SeriesModels(history, category, period)|))
      && (forall m, x :: m in r && x in LatestMetrics(history, category, period) && x !in r ==> m.eloRating >= x.eloRating)
  {
    var latest := LatestMetrics(history, category, period);
    var sorted := SortDesc(latest, EloOf);
    var r := Ranked(history, category, period, limit);
    assert r == PyPrefix(sorted, limit);
    PrefixOfPermutation(latest, sorted, r);
    forall m | m in r ensures Some(m) == LatestOf(history, m.model, category, period) {
      assert m in latest;
    }
  }

  /** A prefix of a reordering of rows with distinct models keeps them distinct, and the rows it leaves off rate no higher. */
  lemma PrefixOfPermutation(latest: seq<ModelMetric>, sorted: seq<ModelMetric>, r: seq<ModelMetric>)
    requires forall a, b :: 0 <= a < b < |latest| ==> latest[a].model != latest[b].model
    requires multiset(sorted) == multiset(latest) && SortedBy(sorted, EloOf)
    requires |r| <= |sorted| && r == sorted[..|r|]
    ensures forall m :: m in r ==> m in latest
    ensures forall i, j :: 0 <= i < j < |r| ==> r[i].model != r[j].model
    ensures forall m, x :: m in r && x in latest && x !in r ==> m.eloRating >= x.eloRating
  {
    forall m | m in r ensures m in latest {
      assert m in multiset(sorted);
    }
    forall i, j | 0 <= i < j < |r| ensures r[i].model != r[j].model {
      DistinctModelsPermuted(latest, sorted, i, j);
    }
    PrefixDominates(sorted, |r|, EloOf);
    forall m, x | m in r && x in latest && x !in r ensures m.eloRating >= x.eloRating {
      assert x in multiset(sorted);
      assert sorted == r + sorted[|r|..];
      assert x in sorted[|r|..];
      assert EloOf(m) >= EloOf(x);
    }
  }

  lemma DistinctModelsPermuted(latest: seq<ModelMetric>, sorted: seq<ModelMetric>, i: nat, j: nat)
    requires forall a, b :: 0 <= a < b < |latest| ==> latest[a].model != latest[b].model
    requires multiset(sorted) == multiset(latest)
    requires i < j < |sorted|
    ensures sorted[i].model != sorted[j].model
  {
    assert sorted[i] in multiset(latest) && sorted[j] in multiset(latest);
    var a :| 0 <= a < |latest| && latest[a] == sorted[i];
    var b :| 0 <= b < |latest| && latest[b] == sorted[j];
    if a == b {
      TwiceInMultiset(sorted, i, j);
      OnceInMultiset(latest, a);
      assert false;
    }
  }

  /** A row of a sequence whose rows have distinct models occurs once. */
  lemma OnceInMultiset(latest: seq<ModelMetric>, a: nat)
    requires forall x, y :: 0 <= x < y < |latest| ==> latest[x].model != latest[y].model
    requires a < |latest|
    ensures multiset(latest)[latest[a]] == 1
  {
    var x := latest[a];
    var pre, post := latest[..a], latest[a + 1..];
    assert latest == pre + [x] + post;
    assert multiset(pre)[x] == 0 by {
      forall b | 0 <= b < |pre| ensures pre[b] != x {
        assert pre[b] == latest[b];
      }
    }
    assert multiset(post)[x] == 0 by {
      forall b | 0 <= b < |post| ensures post[b] != x {
        assert post[b] == latest[a + 1 + b];
      }
    }
    assert multiset(latest) == multiset(pre) + multiset{x} + multiset(post);
  }

  /** The row was on the same day as `prev`, in the same series family, and rated higher. */
  predicate HigherThatDay(h: ModelMetric, prev: ModelMetric)
  {
    h.category == prev.category && h.period == prev.period
    && Day(h.calculatedAt) == Day(prev.calculatedAt) && h.eloRating > prev.eloRating
  }

  /**
   * The rank the model held at its previous row: one more than the number of rows of that
   * day, category and period rated strictly higher. None when the model has no earlier row.
   */
  function PreviousRank(history: seq<ModelMetric>, m: ModelMetric): (r: Option<nat>)
    ensures r.Some? <==> PreviousOf(history, m).Some?
    ensures r.Some? ==> r.value >= 1
  {
    match PreviousOf(history, m)
    case None => None
    case Some(prev) => Some(1 + CountIf(history, (h: ModelMetric) => HigherThatDay(h, prev)))
  }

  /** A model whose previous row was the day's best held rank 1 then. */
  lemma PreviousRankOfBest(history: seq<ModelMetric>, m: ModelMetric)
    requires PreviousOf(history, m).Some?
    requires forall h :: h in history ==> !HigherThatDay(h, PreviousOf(history, m).value)
    ensures PreviousRank(history, m) == Some(1)
  {
    var prev := PreviousOf(history, m).value;
    CountIfNone(history, (h: ModelMetric) => HigherThatDay(h, prev));
  }

  /** `change = previous_rank - rank` when there is a previous rank, else 0: positive means the model climbed. */
  function RankChange(previousRank: Option<nat>, rank: nat): (c: int)
    ensures previousRank.None? ==> c == 0
    ensures previousRank.Some? && previousRank.value > 0 ==> (c > 0 <==> rank < previousRank.value)
    ensures previousRank.Some? && previousRank.value > 0 ==> (c == 0 <==> rank == previousRank.value)
  {
    if previousRank.Some? && previousRank.value != 0 then previousRank.value - rank else 0
  }

  /** The window of get_leaderboard's activity counts: the last seven days. */
  const RECENT_SECONDS: int := 7 * SECONDS_PER_DAY

  /** The feedback concerns the model: on one of its messages, or preferring it. */
  predicate AboutModel(f: Feedback, messages: seq<Message>, model: Id)
  {
    (f.message.Some? && exists m :: m in messages && m.id == f.message.value && m.model == Some(model))
    || f.preferred == Some(model)
  }

  predicate RecentFeedback(f: Feedback, messages: seq<Message>, model: Id, now: int)
  {
    AboutModel(f, messages, model) && f.createdAt >= now - RECENT_SECONDS
  }

  predicate RecentRating(f: Feedback, messages: seq<Message>, model: Id, now: int)
  {
    RecentFeedback(f, messages, model, now) && f.feedbackType == FEEDBACK_RATING && f.rating.Some?
  }

  predicate RecentComparison(f: Feedback, messages: seq<Message>, model: Id, now: int)
  {
    RecentFeedback(f, messages, model, now) && f.feedbackType == FEEDBACK_PREFERENCE
  }

  predicate RecentUse(m: Message, model: Id, now: int)
  {
    m.model == Some(model) && m.createdAt >= now - RECENT_SECONDS
  }

  /** An entry's `stats`: rated and compared feedback on the model, and its messages, in the last week. */
  datatype Stats = Stats(recentRatings: nat, recentComparisons: nat, usage7d: nat)

  /**
   * The stats of get_leaderboard's entry for `model`. Ratings and comparisons are different
   * kinds of feedback, so together they are at most the model's recent feedback.
   */
  function RecentStats(feedback: seq<Feedback>, messages: seq<Message>, model: Id, now: int): (st: Stats)
    ensures st.recentRatings + st.recentComparisons <= CountIf(feedback, f => RecentFeedback(f, messages, model, now))
    ensures st.usage7d <= |messages|
  {
    var rated := (f: Feedback) => RecentRating(f, messages, model, now);
    var compared := (f: Feedback) => RecentComparison(f, messages, model, now);
    var either := (f: Feedback) => rated(f) || compared(f);
    CountIfSplit(feedback, rated, compared, either);
    CountIfMono(feedback, either, f => RecentFeedback(f, messages, model, now));
    Stats(CountIf(feedback, rated), CountIf(feedback, compared), CountIf(messages, m => RecentUse(m, model, now)))
  }

  /** A model with no feedback or message in the last week has all three counts at zero. */
  lemma QuietModelStats(feedback: seq<Feedback>, messages: seq<Message>, model: Id, now: int)
    requires forall f :: f in feedback ==> f.createdAt < now - RECENT_SECONDS
    requires forall m :: m in messages ==> m.createdAt < now - RECENT_SECONDS
    ensures RecentStats(feedback, messages, model, now) == Stats(0, 0, 0)
  {
    CountIfNone(feedback, f => RecentRating(f, messages, model, now));
    CountIfNone(feedback, f => RecentComparison(f, messages, model, now));
    CountIfNone(messages, m => RecentUse(m, model, now));
  }

  datatype Entry = Entry(rank: nat, metric: ModelMetric, change: int, stats: Stats)

  /**
   * get_leaderboard: a non-empty cached board is returned as it is; otherwise each ranked
   * row becomes an entry with ranks 1, 2, ... and its rank change.
   */
  method GetLeaderboard(history: seq<ModelMetric>, feedback: seq<Feedback>, messages: seq<Message>, now: int,
                        category: string, period: string, limit: int,
                        cached: Option<seq<Entry>>) returns (board: seq<Entry>)
    ensures cached.Some? && cached.value != [] ==> board == cached.value
    ensures !(cached.Some? && cached.value != []) ==>
      var ranked := Ranked(history, category, period, limit);
      && |board| == |ranked|
      && (forall i :: 0 <= i < |board| ==> board[i].rank == i + 1 && board[i].metric == ranked[i])
      && (forall i :: 0 <= i < |board| ==> board[i].change == RankChange(PreviousRank(history, ranked[i]), i + 1))
      && (forall i :: 0 <= i < |board| ==> board[i].stats == RecentStats(feedback, messages, ranked[i].model, now))
      && (forall i, j :: 0 <= i < j < |board| ==> board[i].metric.eloRating >= board[j].metric.eloRating)
  {
    if cached.Some? && cached.value != [] {
      return cached.value;
    }
    var ranked := Ranked(history, category, period, limit);
    board := BuildBoard(history, feedback, messages, now, ranked);
    BoardOrdered(board, ranked);
  }

  /**
   * get_leaderboard as written: a non-empty cached board is returned; otherwise the
   * latest-per-model query is refused by the database and the call raises.
   */
  method GetLeaderboardAsWritten(history: seq<ModelMetric>, feedback: seq<Feedback>, messages: seq<Message>, now: int,
                                 category: string, period: string, limit: int,
                                 cached: Option<seq<Entry>>) returns (r: Result<seq<Entry>>)
    ensures cached.Some? && cached.value != [] ==> r == Ok(cached.value)
    ensures !(cached.Some? && cached.value != []) ==> r == Err(DISTINCT_ON_ERROR)
  {
    if cached.Some? && cached.value != [] {
      return Ok(cached.value);
    }
    LatestPerModelRuns(history, category, period);
    match RunLatestPerModel(LATEST_PER_MODEL_AS_WRITTEN, history, category, period) {
      case Err(e) =>
        r := Err(e);
      case Ok(_) =>
        var board := GetLeaderboard(history, feedback, messages, now, category, period, limit, cached);
        r := Ok(board);
    }
  }

  /** The entry get_leaderboard makes of the row at position i of the ranking. */
  function EntryAt(history: seq<ModelMetric>, feedback: seq<Feedback>, messages: seq<Message>, now: int,
                   ranked: seq<ModelMetric>, i: nat): Entry
    requires i < |ranked|
  {
    Entry(i + 1, ranked[i], RankChange(PreviousRank(history, ranked[i]), i + 1), RecentStats(feedback, messages, ranked[i].model, now))
  }

  /** The entry loop of get_leaderboard. */
  method BuildBoard(history: seq<ModelMetric>, feedback: seq<Feedback>, messages: seq<Message>, now: int,
                    ranked: seq<ModelMetric>) returns (board: seq<Entry>)
    ensures |board| == |ranked|
    ensures forall i :: 0 <= i < |board| ==> board[i] == EntryAt(history, feedback, messages, now, ranked, i)
  {
    board := [];
    for idx := 0 to |ranked|
      invariant |board| == idx
      invariant forall i :: 0 <= i < idx ==> board[i] == EntryAt(history, feedback, messages, now, ranked, i)
    {
      var metric := ranked[idx];
      var previousRank := PreviousRank(history, metric);
      var stats := RecentStats(feedback, messages, metric.model, now);
      board := board + [Entry(idx + 1, metric, RankChange(previousRank, idx + 1), stats)];
    }
  }

  lemma BoardOrdered(board: seq<Entry>, ranked: seq<ModelMetric>)
    requires SortedBy(ranked, EloOf) && |board| == |ranked|
    requires forall i :: 0 <= i < |board| ==> board[i].metric == ranked[i]
    ensures forall i, j :: 0 <= i < j < |board| ==> board[i].metric.eloRating >= board[j].metric.eloRating
  {
    forall i, j | 0 <= i < j < |board| ensures board[i].metric.eloRating >= board[j].metric.eloRating {
      assert EloOf(ranked[i]) >= EloOf(ranked[j]);
    }
  }

  // ---------------------------------------------------------------- performance analysis

  /** The categories get_model_performance_analysis breaks down. */
  const ANALYSIS_CATEGORIES: seq<string> := ["code", "creative", "reasoning", "conversation", "translation"]

  datatype CategoryElo = CategoryElo(category: string, elo: int)

  function CategoryEloKey(c: CategoryElo): int { c.elo }

  /** The latest all-time rating of each listed category the model has a row for, in list order. */
  function Breakdown(history: seq<ModelMetric>, model: Id, categories: seq<string>): (b: seq<CategoryElo>)
    ensures forall c :: c in b ==>
      && c.category in categories
      && LatestOf(history, model, c.category, PERIOD_ALL_TIME).Some?
      && c.elo == LatestOf(history, model, c.category, PERIOD_ALL_TIME).value.eloRating
    ensures forall cat :: cat in categories && LatestOf(history, model, cat, PERIOD_ALL_TIME).Some? ==>
      exists c :: c in b && c.category == cat
  {
    if categories == [] then []
    else
      var cat := categories[|categories| - 1];
      var before := Breakdown(history, model, categories[..|categories| - 1]);
      assert categories == categories[..|categories| - 1] + [cat];
      match LatestOf(history, model, cat, PERIOD_ALL_TIME)
      case Some(m) => before + [CategoryElo(cat, m.eloRating)]
      case None => before
  }

  /** Strengths: of the two best-rated categories, those above the 1500 baseline. */
  function Strengths(b: seq<CategoryElo>): seq<CategoryElo>
  {
    Filter(Take(SortDesc(b, CategoryEloKey), 2), (c: CategoryElo) => c.elo > DEFAULT_ELO)
  }

  /** Weaknesses: of the two worst-rated categories, those below the 1500 baseline. */
  function Weaknesses(b: seq<CategoryElo>): seq<CategoryElo>
  {
    Filter(TakeLast(SortDesc(b, CategoryEloKey), 2), (c: CategoryElo) => c.elo < DEFAULT_ELO)
  }

  /** The categories rated strictly higher than `c`. */
  function Higher(b: seq<CategoryElo>, c: CategoryElo): nat
  {
    CountIf(b, (d: CategoryElo) => d.elo > c.elo)
  }

  /** The categories rated strictly lower than `c`. */
  function Lower(b: seq<CategoryElo>, c: CategoryElo): nat
  {
    CountIf(b, (d: CategoryElo) => d.elo < c.elo)
  }

  /** A strength is one of the categories, is rated above 1500 and is outranked by at most one category. */
  lemma StrengthIsNearTop(b: seq<CategoryElo>, c: CategoryElo)
    requires c in Strengths(b)
    ensures c in b && c.elo > DEFAULT_ELO && Higher(b, c) <= 1
  {
    var sorted := SortDesc(b, CategoryEloKey);
    var top := Take(sorted, 2);
    var i :| 0 <= i < |top| && top[i] == c;
    assert sorted[i] == c;
    assert c in multiset(b);
    var p := (d: CategoryElo) => d.elo > c.elo;
    SortedHigherBefore(sorted, CategoryEloKey, i, p);
    CountIfPerm(b, sorted, p);
  }

  /** A weakness is one of the categories, is rated below 1500 and at most one category rates lower. */
  lemma WeaknessIsNearBottom(b: seq<CategoryElo>, c: CategoryElo)
    requires c in Weaknesses(b)
    ensures c in b && c.elo < DEFAULT_ELO && Lower(b, c) <= 1
  {
    var sorted := SortDesc(b, CategoryEloKey);
    assert c in TakeLast(sorted, 2) && c.elo < DEFAULT_ELO;
    assert c in multiset(b) by { assert c in multiset(sorted); }
    var p := (d: CategoryElo) => d.elo < c.elo;
    InTakeLastFewLower(sorted, CategoryEloKey, 2, c, p);
    CountIfPerm(b, sorted, p);
  }

  /** _get_common_feedback_categories: the five most mentioned categories with their counts. */
  method CommonFeedbackCategories(feedback: seq<Feedback>) returns (top: seq<Count<string>>)
    ensures |top| <= 5
    ensures SortedBy(top, CountKey)
    ensures forall i :: 0 <= i < |top| ==> top[i].count == Occurrences(Mentions(feedback), top[i].key)
    ensures Distinct(Keys(top))
    ensures forall k :: k in Mentions(feedback) && k !in Keys(top) ==>
      |top| == 5 && forall i :: 0 <= i < |top| ==> Occurrences(Mentions(feedback), k) <= top[i].count
  {
    top := TopCounts(Mentions(feedback), 5);
  }

  /** Every category mention of every feedback, in order. */
  function Mentions(feedback: seq<Feedback>): (ms: seq<string>)
    ensures forall c :: c in ms <==> exists i :: 0 <= i < |feedback| && c in feedback[i].categories
  {
    var lists := seq(|feedback|, i requires 0 <= i < |feedback| => feedback[i].categories);
    assert forall i :: 0 <= i < |feedback| ==> lists[i] == feedback[i].categories;
    FlattenMembers(lists);
    Flatten(lists)
  }

  // ---------------------------------------------------------------- LeaderboardFormatter

  datatype IndicatorType = New | Up | Down | Stable

  datatype ChangeIndicator = ChangeIndicator(kind: IndicatorType, value: nat)

  /** _get_change_indicator: how the rank moved since `previousRank`, with a non-negative magnitude. */
  function GetChangeIndicator(currentRank: int, previousRank: Option<int>): (c: ChangeIndicator)
    ensures previousRank.None? ==> c == ChangeIndicator(New, 0)
    ensures previousRank.Some? ==> (c.kind == Up <==> previousRank.value > currentRank)
    ensures previousRank.Some? ==> (c.kind == Down <==> previousRank.value < currentRank)
    ensures previousRank.Some? ==> (c.kind == Stable <==> previousRank.value == currentRank)
    ensures previousRank.Some? ==> c.value as int == if previousRank.value >= currentRank
      then previousRank.value - currentRank else currentRank - previousRank.value
  {
    match previousRank
    case None => ChangeIndicator(New, 0)
    case Some(prev) =>
      var change := prev - currentRank;
      if change > 0 then ChangeIndicator(Up, change)
      else if change < 0 then ChangeIndicator(Down, -change)
      else ChangeIndicator(Stable, 0)
  }

  /** The indicator agrees with the leaderboard's own `change`: up for a climb, down for a drop, by the same amount. */
  lemma IndicatorMatchesRankChange(rank: nat, previousRank: nat)
    requires previousRank > 0
    ensures var c := GetChangeIndicator(rank, Some(previousRank));
      var change := RankChange(Some(previousRank), rank);
      && (c.kind == Up ==> c.value as int == change)
      && (c.kind == Down ==> c.value as int == -change)
      && (c.kind == Stable <==> change == 0)
  {
  }

  datatype FormattedEntry = FormattedEntry(rank: int, model: Id, eloRating: int, winRate: real,
                                           totalBattles: int, averageRating: Option<real>, indicator: ChangeIndicator)

  /** format_leaderboard_entry: the record's rating and counters, its win rate and the rank movement. */
  function FormatLeaderboardEntry(rank: int, metric: ModelMetric, previousRank: Option<int>): (f: FormattedEntry)
    ensures f.rank == rank && f.model == metric.model && f.eloRating == metric.eloRating
    ensures f.totalBattles == metric.totalComparisons && f.averageRating == metric.averageRating
    ensures metric.totalComparisons == 0 ==> f.winRate == 0.0
    ensures 0 <= metric.wins <= metric.totalComparisons ==> 0.0 <= f.winRate <= 100.0
    ensures f.indicator.kind == New <==> previousRank.None?
  {
    FormattedEntry(rank, metric.model, metric.eloRating, metric.WinRate(), metric.totalComparisons,
                   metric.averageRating, GetChangeIndicator(rank, previousRank))
  }

  datatype Winner = ModelA | ModelB | Tie

  datatype ComparisonResult = ComparisonResult(category: string, winner: Winner, ratingDifference: nat,
                                               probabilityA: real, probabilityB: real)

  /**
   * format_comparison_result: a missing rating counts as 0; the higher rating wins; the two
   * win probabilities (as percentages, before presentation rounding) come from the expected score.
   */
  function FormatComparisonResult(e: ExpectedScore, ratingA: Option<int>, ratingB: Option<int>, category: string): (c: ComparisonResult)
    requires ExpectedLaws(e)
    ensures var a := ratingA.GetOr(0); var b := ratingB.GetOr(0);
      && (c.winner == ModelA <==> a > b)
      && (c.winner == ModelB <==> b > a)
      && (c.winner == Tie <==> a == b)
      && c.ratingDifference as int == (if a >= b then a - b else b - a)
      && c.probabilityA + c.probabilityB == 100.0
      && 0.0 < c.probabilityA < 100.0
      && (a == b ==> c.probabilityA == 50.0)
    ensures c.category == category
  {
    var a := ratingA.GetOr(0);
    var b := ratingB.GetOr(0);
    var probabilityA := e(a, b);
    ExpectedEven(e, a);
    ComparisonResult(category,
                     if a > b then ModelA else if b > a then ModelB else Tie,
                     if a >= b then a - b else b - a,
                     probabilityA * 100.0, (1.0 - probabilityA) * 100.0)
  }

  /** The win probabilities of the two sides swap when the two sides are swapped. */
  lemma ComparisonSwaps(e: ExpectedScore, ratingA: Option<int>, ratingB: Option<int>, category: string)
    requires ExpectedLaws(e)
    ensures var ab := FormatComparisonResult(e, ratingA, ratingB, category);
      var ba := FormatComparisonResult(e, ratingB, ratingA, category);
      && ab.probabilityA == ba.probabilityB
      && ab.ratingDifference == ba.ratingDifference
      && (ab.winner == ModelA <==> ba.winner == ModelB)
  {
    var a := ratingA.GetOr(0);
    var b := ratingB.GetOr(0);
    assert e(a, b) + e(b, a) == 1.0;
  }

  // ---------------------------------------------------------------- MetricExporter

  datatype ExportEntry = ExportEntry(rank: nat, model: Id, eloRating: int, winRate: real, totalBattles: int, averageRating: Option<real>)

  datatype LeaderboardExport = LeaderboardExport(exportedAt: int, totalModels: nat, entries: seq<ExportEntry>)

  /** export_leaderboard_json: one export entry per board entry, in board order, counted in `totalModels`. */
  method ExportLeaderboard(board: seq<Entry>, now: int) returns (x: LeaderboardExport)
    ensures x.totalModels == |x.entries| == |board|
    ensures forall i :: 0 <= i < |board| ==>
      && x.entries[i].rank == board[i].rank
      && x.entries[i].model == board[i].metric.model
      && x.entries[i].eloRating == board[i].metric.eloRating
      && x.entries[i].totalBattles == board[i].metric.totalComparisons
      && x.entries[i].winRate == 0.0
    ensures x.exportedAt == now
  {
    var entries: seq<ExportEntry> := [];
    for i := 0 to |board|
      invariant |entries| == i
      invariant forall j :: 0 <= j < i ==>
        && entries[j].rank == board[j].rank
        && entries[j].model == board[j].metric.model
        && entries[j].eloRating == board[j].metric.eloRating
        && entries[j].totalBattles == board[j].metric.totalComparisons
        && entries[j].winRate == 0.0
    {
      var entry := board[i];
      entries := entries + [ExportEntry(entry.rank, entry.metric.model, entry.metric.eloRating, 0.0,
                                        entry.metric.totalComparisons, entry.metric.averageRating)];
    }
    x := LeaderboardExport(now, |board|, entries);
  }
}
