/**
 * The feedback summaries of feedback/services.py: the per-session summary, a model's rating
 * and preference statistics, the head-to-head statistics of two models, and the trending
 * categories. Feedback rows carry their session's mode and models and, when the feedback
 * names a message, that message's model (MetricCounters.FeedbackRow).
 */
module FeedbackStats {
  import opened Wrappers
  import opened Entities
  import opened Ordering
  import MetricCounters
  import Comparison
  import Leaderboard

  // ---------------------------------------------------------------- shared pieces

  /** The rating values of rating feedback, in order (a missing rating reads as 0). */
  function RatingsOf(fbs: seq<Feedback>): (vs: seq<int>)
    ensures |vs| == |fbs|
    ensures forall i :: 0 <= i < |fbs| ==> vs[i] == fbs[i].rating.GetOr(0)
  {
    seq(|fbs|, i requires 0 <= i < |fbs| => fbs[i].rating.GetOr(0))
  }

  predicate IsStoredRating(f: Feedback) { f.feedbackType == FEEDBACK_RATING && f.rating.Some? }

  /**
   * The `for rating in range(1, 6)` loop: the number of ratings of each value 1..5, filled only
   * when there is at least one rating.
   */
  method RatingDistribution(ratings: seq<int>) returns (dist: map<int, nat>)
    ensures ratings == [] ==> dist == map[]
    ensures ratings != [] ==> dist.Keys == {1, 2, 3, 4, 5}
    ensures forall k :: k in dist ==> dist[k] == Occurrences(ratings, k)
  {
    dist := map[];
    if ratings != [] {
      for k := 1 to 6
        invariant forall j :: j in dist <==> 1 <= j < k
        invariant forall j :: j in dist ==> dist[j] == Occurrences(ratings, j)
      {
        dist := dist[k := Occurrences(ratings, k)];
      }
      assert forall j :: j in dist <==> j in {1, 2, 3, 4, 5};
    }
  }

  /** The five counts of a distribution account for every rating when all ratings lie in 1..5. */
  lemma {:induction false} DistributionCoversRatings(ratings: seq<int>)
    requires forall i :: 0 <= i < |ratings| ==> 1 <= ratings[i] <= 5
    ensures Occurrences(ratings, 1) + Occurrences(ratings, 2) + Occurrences(ratings, 3)
            + Occurrences(ratings, 4) + Occurrences(ratings, 5) == |ratings|
  {
    if ratings != [] {
      DistributionCoversRatings(ratings[..|ratings| - 1]);
    }
  }

  // ---------------------------------------------------------------- get_session_feedback_summary

  datatype PreferenceShare = PreferenceShare(count: nat, percentage: real)

  datatype SessionSummary = SessionSummary(
    sessionId: Id,
    totalFeedbackCount: nat,
    averageRating: Option<real>,
    ratingDistribution: map<int, nat>,
    preferences: map<Id, PreferenceShare>,
    categoriesMentioned: map<string, nat>,
    recentComments: seq<Feedback>)

  function CreatedAtKey(f: Feedback): int { f.createdAt }

  /** The feedback of one session. */
  function OfSession(feedback: seq<Feedback>, session: Id): seq<Feedback>
  {
    Filter(feedback, (f: Feedback) => f.session == session)
  }

  /** The preference counts and shares of the session's two models, in compare mode only. */
  function SessionPreferences(session: ChatSession, fbs: seq<Feedback>): (prefs: map<Id, PreferenceShare>)
    ensures session.mode != MODE_COMPARE ==> prefs == map[]
    ensures forall m :: m in prefs <==> session.mode == MODE_COMPARE && Some(m) in {session.modelA, session.modelB}
  {
    if session.mode != MODE_COMPARE then map[]
    else
      var preferences := Filter(fbs, (f: Feedback) => f.feedbackType == FEEDBACK_PREFERENCE);
      var seated := (if session.modelA.Some? then {session.modelA.value} else {})
                    + (if session.modelB.Some? then {session.modelB.value} else {});
      map m | m in seated ::
        var count := CountIf(preferences, (f: Feedback) => f.preferred == Some(m));
        PreferenceShare(count, Comparison.Percent(count, |preferences|))
  }

  /**
   * When every preference names one of the session's two distinct models, the two shares
   * split all preferences: the counts add up to the number of preferences.
   */
  lemma PreferenceSharesSplit(session: ChatSession, fbs: seq<Feedback>)
    requires session.mode == MODE_COMPARE && session.modelA.Some? && session.modelB.Some?
    requires session.modelA != session.modelB
    requires forall f :: f in fbs && f.feedbackType == FEEDBACK_PREFERENCE ==> f.preferred in {session.modelA, session.modelB}
    ensures var prefs := SessionPreferences(session, fbs);
      prefs[session.modelA.value].count + prefs[session.modelB.value].count
        == CountIf(fbs, (f: Feedback) => f.feedbackType == FEEDBACK_PREFERENCE)
  {
    var isPref := (f: Feedback) => f.feedbackType == FEEDBACK_PREFERENCE;
    var preferences := Filter(fbs, isPref);
    var a, b := session.modelA.value, session.modelB.value;
    var forA := (f: Feedback) => f.preferred == Some(a);
    var forB := (f: Feedback) => f.preferred == Some(b);
    var either := (f: Feedback) => f.preferred == Some(a) || f.preferred == Some(b);
    CountIfSplit(preferences, forA, forB, either);
    CountIfAll(preferences, either);
  }

  /** The categories named by the session's feedback, each with its number of mentions. */
  function CategoriesMentioned(fbs: seq<Feedback>): (counts: map<string, nat>)
    ensures forall c :: c in counts <==> exists f :: f in fbs && c in f.categories
    ensures forall c :: c in counts ==> counts[c] == Occurrences(Leaderboard.Mentions(fbs), c) && counts[c] > 0
  {
    var all := Leaderboard.Mentions(fbs);
    map c | c in all :: Occurrences(all, c)
  }

  /** The five newest feedback with a non-empty comment, newest first. */
  function RecentComments(fbs: seq<Feedback>): (recent: seq<Feedback>)
    ensures |recent| <= 5
    ensures forall f :: f in recent ==> f in fbs && f.comment != ""
    ensures SortedBy(recent, CreatedAtKey)
    ensures |recent| == Min(5, CountIf(fbs, (f: Feedback) => f.comment != ""))
  {
    var commented := Filter(fbs, (f: Feedback) => f.comment != "");
    var sorted := SortDesc(commented, CreatedAtKey);
    var top := Take(sorted, 5);
    forall f | f in top ensures f in fbs && f.comment != "" {
      assert f in sorted;
      assert f in multiset(commented);
    }
    TakeKeepsOrder(sorted, 5, CreatedAtKey);
    top
  }

  /** get_session_feedback_summary over the session's feedback. */
  method GetSessionFeedbackSummary(session: ChatSession, feedback: seq<Feedback>) returns (s: SessionSummary)
    ensures var fbs := OfSession(feedback, session.id);
      && s.sessionId == session.id
      && s.totalFeedbackCount == |fbs|
      && s.averageRating == MetricCounters.Average(RatingsOf(Filter(fbs, IsStoredRating)))
      && s.preferences == SessionPreferences(session, fbs)
      && s.categoriesMentioned == CategoriesMentioned(fbs)
      && s.recentComments == RecentComments(fbs)
    ensures s.averageRating.None? <==> s.ratingDistribution == map[]
    ensures s.ratingDistribution != map[] ==> s.ratingDistribution.Keys == {1, 2, 3, 4, 5}
    ensures forall k :: k in s.ratingDistribution ==>
      s.ratingDistribution[k] == Occurrences(RatingsOf(Filter(OfSession(feedback, session.id), IsStoredRating)), k)
  {
    var fbs := OfSession(feedback, session.id);
    var ratings := RatingsOf(Filter(fbs, IsStoredRating));
    var dist := RatingDistribution(ratings);
    s := SessionSummary(session.id, |fbs|, MetricCounters.Average(ratings), dist,
                        SessionPreferences(session, fbs), CategoriesMentioned(fbs), RecentComments(fbs));
  }

  // ---------------------------------------------------------------- get_model_feedback_stats

  /** A time period filters only when it is given and not zero (a zero timedelta is falsy). */
  predicate InPeriod(row: MetricCounters.FeedbackRow, period: Option<int>, now: int)
  {
    period.None? || period.value == 0 || row.fb.createdAt >= now - period.value
  }

  /** Rating feedback on one of the model's messages. */
  predicate IsModelRating(row: MetricCounters.FeedbackRow, model: Id, period: Option<int>, now: int)
  {
    && InPeriod(row, period, now)
    && row.fb.feedbackType == FEEDBACK_RATING && row.fb.rating.Some?
    && row.messageModel == Some(model)
  }

  /** Preference feedback in a compare session that seated the model. */
  predicate IsModelPreference(row: MetricCounters.FeedbackRow, model: Id, period: Option<int>, now: int)
  {
    && InPeriod(row, period, now)
    && row.fb.feedbackType == FEEDBACK_PREFERENCE && row.sessionMode == MODE_COMPARE
    && (row.sessionA == Some(model) || row.sessionB == Some(model))
  }

  function RowRatings(rows: seq<MetricCounters.FeedbackRow>): (vs: seq<int>)
    ensures |vs| == |rows|
    ensures forall i :: 0 <= i < |rows| ==> vs[i] == rows[i].fb.rating.GetOr(0)
  {
    seq(|rows|, i requires 0 <= i < |rows| => rows[i].fb.rating.GetOr(0))
  }

  function Repeat(x: int, n: nat): (r: seq<int>)
    ensures |r| == n && forall i :: 0 <= i < n ==> r[i] == x
  {
    seq(n, _ => x)
  }

  /**
   * The ratings collected for a category: each rating once per mention of the category in its
   * feedback, in order.
   */
  function CategoryRatings(ratings: seq<MetricCounters.FeedbackRow>, category: string): seq<int>
  {
    if ratings == [] then []
    else
      var last := ratings[|ratings| - 1];
      CategoryRatings(ratings[..|ratings| - 1], category)
        + Repeat(last.fb.rating.GetOr(0), Occurrences(last.fb.categories, category))
  }

  /** A category has ratings exactly when some rating feedback names it. */
  lemma {:induction false} CategoryRatingsNonEmpty(ratings: seq<MetricCounters.FeedbackRow>, category: string)
    ensures |CategoryRatings(ratings, category)| > 0 <==> exists r :: r in ratings && category in r.fb.categories
  {
    if ratings != [] {
      var n := |ratings| - 1;
      CategoryRatingsNonEmpty(ratings[..n], category);
      assert ratings == ratings[..n] + [ratings[n]];
    }
  }

  /** Every collected rating is the rating of some feedback that named the category. */
  lemma {:induction false} CategoryRatingsFrom(ratings: seq<MetricCounters.FeedbackRow>, category: string, lo: int, hi: int)
    requires forall r :: r in ratings ==> lo <= r.fb.rating.GetOr(0) <= hi
    ensures forall i :: 0 <= i < |CategoryRatings(ratings, category)| ==> lo <= CategoryRatings(ratings, category)[i] <= hi
  {
    if ratings != [] {
      var n := |ratings| - 1;
      CategoryRatingsFrom(ratings[..n], category, lo, hi);
      assert ratings[n] in ratings;
    }
  }

  datatype CategoryPerformance = CategoryPerformance(averageRating: real, count: nat)

  function RatingMentions(ratings: seq<MetricCounters.FeedbackRow>): seq<string>
  {
    Leaderboard.Mentions(seq(|ratings|, i requires 0 <= i < |ratings| => ratings[i].fb))
  }

  /** The mean and the number of the ratings collected for one category (a mean of nothing reads as 0). */
  function PerformanceOf(ratings: seq<MetricCounters.FeedbackRow>, c: string): (p: CategoryPerformance)
    ensures p.count == |CategoryRatings(ratings, c)|
    ensures p.count > 0 ==> p.averageRating * p.count as real == MetricCounters.Sum(CategoryRatings(ratings, c)) as real
  {
    var xs := CategoryRatings(ratings, c);
    CategoryPerformance(if xs == [] then 0.0 else MetricCounters.Average(xs).value, |xs|)
  }

  /** The `categories_performance` dictionary: one entry per category the rating feedback names. */
  function CategoriesPerformance(ratings: seq<MetricCounters.FeedbackRow>): (perf: map<string, CategoryPerformance>)
    ensures forall c :: c in perf <==> c in RatingMentions(ratings)
    ensures forall c :: c in perf ==> perf[c] == PerformanceOf(ratings, c)
  {
    map c | c in RatingMentions(ratings) :: PerformanceOf(ratings, c)
  }

  /** Every listed category has at least one rating, so its mean is a true mean. */
  lemma MentionedCategoryHasRatings(ratings: seq<MetricCounters.FeedbackRow>, c: string)
    requires c in RatingMentions(ratings)
    ensures PerformanceOf(ratings, c).count > 0
  {
    var fbs := seq(|ratings|, i requires 0 <= i < |ratings| => ratings[i].fb);
    var i :| 0 <= i < |fbs| && c in fbs[i].categories;
    assert ratings[i] in ratings;
    CategoryRatingsNonEmpty(ratings, c);
  }

  /** A category's mean of valid ratings lies in 1..5. */
  lemma CategoryAverageInRange(ratings: seq<MetricCounters.FeedbackRow>, c: string)
    requires forall r :: r in ratings ==> 1 <= r.fb.rating.GetOr(0) <= 5
    requires c in CategoriesPerformance(ratings)
    ensures 1.0 <= CategoriesPerformance(ratings)[c].averageRating <= 5.0
  {
    MentionedCategoryHasRatings(ratings, c);
    CategoryRatingsFrom(ratings, c, 1, 5);
    MetricCounters.AverageBounds(CategoryRatings(ratings, c), 1, 5);
  }

  datatype ModelStats = ModelStats(
    model: Id,
    totalRatings: nat,
    averageRating: Option<real>,
    ratingBreakdown: map<int, nat>,
    totalPreferences: nat,
    winCount: nat,
    lossCount: nat,
    winRate: real,
    categoriesPerformance: map<string, CategoryPerformance>)

  /**
   * get_model_feedback_stats: ratings of the model's own messages and preferences of the
   * compare sessions that seated it, both within the optional period. A loss is a preference
   * for some other model; a preference with no model counts as neither.
   */
  method GetModelFeedbackStats(model: Id, rows: seq<MetricCounters.FeedbackRow>, period: Option<int>, now: int)
    returns (s: ModelStats)
    ensures var ratings := Filter(rows, (r: MetricCounters.FeedbackRow) => IsModelRating(r, model, period, now));
      && s.totalRatings == |ratings|
      && s.averageRating == MetricCounters.Average(RowRatings(ratings))
      && s.categoriesPerformance == CategoriesPerformance(ratings)
      && (ratings == [] ==> s.ratingBreakdown == map[])
      && (ratings != [] ==> s.ratingBreakdown.Keys == {1, 2, 3, 4, 5})
      && (forall k :: k in s.ratingBreakdown ==> s.ratingBreakdown[k] == Occurrences(RowRatings(ratings), k))
    ensures var prefs := Filter(rows, (r: MetricCounters.FeedbackRow) => IsModelPreference(r, model, period, now));
      && s.totalPreferences == |prefs|
      && s.winCount == CountIf(prefs, MetricCounters.IsWin(model))
      && s.lossCount == CountIf(prefs, MetricCounters.IsLoss(model))
      && s.winCount + s.lossCount + CountIf(prefs, MetricCounters.IsUndecided()) == s.totalPreferences
    ensures s.winRate == Comparison.Percent(s.winCount, s.totalPreferences)
    ensures s.totalPreferences == 0 ==> s.winRate == 0.0
    ensures 0.0 <= s.winRate <= 100.0
  {
    var ratings := Filter(rows, (r: MetricCounters.FeedbackRow) => IsModelRating(r, model, period, now));
    var values := RowRatings(ratings);
    var breakdown := RatingDistribution(values);
    var prefs := Filter(rows, (r: MetricCounters.FeedbackRow) => IsModelPreference(r, model, period, now));
    var outcome := MetricCounters.Outcomes(prefs, model);
    assert outcome.wins <= outcome.total && outcome.losses >= 0;
    s := ModelStats(model, |ratings|, MetricCounters.Average(values), breakdown, |prefs|,
                    outcome.wins, outcome.losses, Comparison.Percent(outcome.wins, |prefs|),
                    CategoriesPerformance(ratings));
  }

  // ---------------------------------------------------------------- calculate_model_comparison_stats

  /** Preference feedback of a compare session between the two models, in either seat order. */
  predicate IsPairComparison(row: MetricCounters.FeedbackRow, a: Id, b: Id, period: Option<int>, now: int)
  {
    && InPeriod(row, period, now)
    && row.fb.feedbackType == FEEDBACK_PREFERENCE && row.sessionMode == MODE_COMPARE
    && ((row.sessionA == Some(a) && row.sessionB == Some(b)) || (row.sessionA == Some(b) && row.sessionB == Some(a)))
  }

  function PairComparisons(rows: seq<MetricCounters.FeedbackRow>, a: Id, b: Id, period: Option<int>, now: int)
    : seq<MetricCounters.FeedbackRow>
  {
    Filter(rows, (r: MetricCounters.FeedbackRow) => IsPairComparison(r, a, b, period, now))
  }

  datatype PairStats = PairStats(total: nat, aWins: nat, aWinRate: real, bWins: nat, bWinRate: real, ties: int)

  /**
   * calculate_model_comparison_stats: ties are what the two win counts leave of the total.
   * For two different models that is exactly the preferences naming neither, so never negative.
   */
  function ModelComparisonStats(rows: seq<MetricCounters.FeedbackRow>, a: Id, b: Id, period: Option<int>, now: int)
    : (s: PairStats)
    ensures var cs := PairComparisons(rows, a, b, period, now);
      && s.total == |cs|
      && s.aWins == CountIf(cs, MetricCounters.IsWin(a))
      && s.bWins == CountIf(cs, MetricCounters.IsWin(b))
    ensures s.aWins + s.bWins + s.ties == s.total
    ensures s.aWinRate == Comparison.Percent(s.aWins, s.total) && s.bWinRate == Comparison.Percent(s.bWins, s.total)
    ensures s.total == 0 ==> s.aWinRate == 0.0 && s.bWinRate == 0.0
    ensures a != b ==> s.ties >= 0
    ensures a != b ==>
      s.ties == CountIf(PairComparisons(rows, a, b, period, now),
                        (r: MetricCounters.FeedbackRow) => r.fb.preferred != Some(a) && r.fb.preferred != Some(b))
  {
    var cs := PairComparisons(rows, a, b, period, now);
    var total := |cs|;
    var aWins := CountIf(cs, MetricCounters.IsWin(a));
    var bWins := CountIf(cs, MetricCounters.IsWin(b));
    NeitherCount(cs, a, b);
    PairStats(total, aWins, Comparison.Percent(aWins, total), bWins, Comparison.Percent(bWins, total), total - aWins - bWins)
  }

  /** For two different models, wins for A, wins for B and the rest partition the comparisons. */
  lemma NeitherCount(cs: seq<MetricCounters.FeedbackRow>, a: Id, b: Id)
    ensures a != b ==>
      CountIf(cs, MetricCounters.IsWin(a)) + CountIf(cs, MetricCounters.IsWin(b))
            + CountIf(cs, (r: MetricCounters.FeedbackRow) => r.fb.preferred != Some(a) && r.fb.preferred != Some(b)) == |cs|
  {
    if a == b {
      return;
    }
    var either := (r: MetricCounters.FeedbackRow) => r.fb.preferred == Some(a) || r.fb.preferred == Some(b);
    var neither := (r: MetricCounters.FeedbackRow) => r.fb.preferred != Some(a) && r.fb.preferred != Some(b);
    var all := (r: MetricCounters.FeedbackRow) => true;
    CountIfSplit(cs, MetricCounters.IsWin(a), MetricCounters.IsWin(b), either);
    CountIfSplit(cs, either, neither, all);
    CountIfAll(cs, all);
  }

  /** Asking about the two models in the other order swaps their wins and keeps the total and ties. */
  lemma ComparisonStatsSwap(rows: seq<MetricCounters.FeedbackRow>, a: Id, b: Id, period: Option<int>, now: int)
    ensures var ab := ModelComparisonStats(rows, a, b, period, now);
      var ba := ModelComparisonStats(rows, b, a, period, now);
      ba.total == ab.total && ba.aWins == ab.bWins && ba.bWins == ab.aWins && ba.ties == ab.ties
  {
    assert PairComparisons(rows, a, b, period, now) == PairComparisons(rows, b, a, period, now) by {
      SameFilter(rows, (r: MetricCounters.FeedbackRow) => IsPairComparison(r, a, b, period, now),
                       (r: MetricCounters.FeedbackRow) => IsPairComparison(r, b, a, period, now));
    }
  }

  /** Filtering by two predicates that agree everywhere gives the same sequence. */
  lemma {:induction false} SameFilter<T(!new)>(s: seq<T>, p: T -> bool, q: T -> bool)
    requires forall x :: p(x) == q(x)
    ensures Filter(s, p) == Filter(s, q)
  {
    if s != [] {
      SameFilter(s[..|s| - 1], p, q);
    }
  }

  // ---------------------------------------------------------------- get_trending_feedback_categories

  /**
   * get_trending_feedback_categories: the ten categories mentioned most often by the feedback
   * of the last `days` days, most mentioned first.
   */
  method TrendingFeedbackCategories(feedback: seq<Feedback>, days: int, now: int) returns (top: seq<Count<string>>)
    ensures var mentions := Leaderboard.Mentions(Filter(feedback, (f: Feedback) => f.createdAt >= now - days * SECONDS_PER_DAY));
      && |top| <= 10
      && SortedBy(top, CountKey)
      && Distinct(Keys(top))
      && (forall i :: 0 <= i < |top| ==> top[i].count == Occurrences(mentions, top[i].key) && top[i].key in mentions)
      && (forall k :: k in mentions && k !in Keys(top) ==>
            |top| == 10 && forall i :: 0 <= i < |top| ==> Occurrences(mentions, k) <= top[i].count)
  {
    var recent := Filter(feedback, (f: Feedback) => f.createdAt >= now - days * SECONDS_PER_DAY);
    top := TopCounts(Leaderboard.Mentions(recent), 10);
  }
}
