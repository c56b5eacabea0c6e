/**
 * ModelComparisonService of model_metrics/services.py: head-to-head counts over the
 * preferences of sessions that paired the two models, the per-category and overall
 * comparison of their latest all-time records, and the day-by-day merge of their daily history.
 */
module Comparison {
  import opened Wrappers
  import opened Entities
  import opened Ordering
  import opened MetricHistory

  // ---------------------------------------------------------------- _get_head_to_head_stats

  /** A compare-mode session between the two models, in either seat order. */
  predicate Pairs(s: ChatSession, a: Id, b: Id)
  {
    s.mode == MODE_COMPARE
    && ((s.modelA == Some(a) && s.modelB == Some(b)) || (s.modelA == Some(b) && s.modelB == Some(a)))
  }

  /** Preference feedback given in a session that paired the two models. */
  predicate IsHeadToHead(fb: Feedback, sessions: map<Id, ChatSession>, a: Id, b: Id)
  {
    fb.feedbackType == FEEDBACK_PREFERENCE && fb.session in sessions && Pairs(sessions[fb.session], a, b)
  }

  function HeadToHeadOf(sessions: map<Id, ChatSession>, a: Id, b: Id): Feedback -> bool
  {
    (fb: Feedback) => IsHeadToHead(fb, sessions, a, b)
  }

  function WinFor(sessions: map<Id, ChatSession>, a: Id, b: Id): Feedback -> bool
  {
    (fb: Feedback) => IsHeadToHead(fb, sessions, a, b) && fb.preferred == Some(a)
  }

  /** A win for B is checked only after A, so with a == b every decided preference is A's. */
  function WinForSecond(sessions: map<Id, ChatSession>, a: Id, b: Id): Feedback -> bool
  {
    (fb: Feedback) => IsHeadToHead(fb, sessions, a, b) && fb.preferred != Some(a) && fb.preferred == Some(b)
  }

  datatype HeadToHead = HeadToHead(total: nat, aWins: nat, bWins: nat, ties: nat, aPercent: real, bPercent: real)

  /**
   * _get_head_to_head_stats: every head-to-head preference is a win for A, a win for B or a
   * tie; the win percentages are the shares of the total, 0 when there is none.
   */
  method GetHeadToHeadStats(sessions: map<Id, ChatSession>, feedback: seq<Feedback>, a: Id, b: Id) returns (h: HeadToHead)
    ensures h.total == CountIf(feedback, HeadToHeadOf(sessions, a, b))
    ensures h.aWins == CountIf(feedback, WinFor(sessions, a, b))
    ensures h.bWins == CountIf(feedback, WinForSecond(sessions, a, b))
    ensures h.aWins + h.bWins + h.ties == h.total
    ensures h.aPercent == Percent(h.aWins, h.total) && h.bPercent == Percent(h.bWins, h.total)
  {
    var total, aWins, bWins, ties := 0, 0, 0, 0;
    var isH2H, isWinA, isWinB := HeadToHeadOf(sessions, a, b), WinFor(sessions, a, b), WinForSecond(sessions, a, b);
    for i := 0 to |feedback|
      invariant total == CountIf(feedback[..i], isH2H)
      invariant aWins == CountIf(feedback[..i], isWinA)
      invariant bWins == CountIf(feedback[..i], isWinB)
      invariant aWins + bWins + ties == total
    {
      CountIfPrefix(feedback, i, isH2H);
      CountIfPrefix(feedback, i, isWinA);
      CountIfPrefix(feedback, i, isWinB);
      var fb := feedback[i];
      if isH2H(fb) {
        total := total + 1;
        if fb.preferred == Some(a) {
          aWins := aWins + 1;
        } else if fb.preferred == Some(b) {
          bWins := bWins + 1;
        } else {
          ties := ties + 1;
        }
      }
    }
    assert feedback[..|feedback|] == feedback;
    h := HeadToHead(total, aWins, bWins, ties, Percent(aWins, total), Percent(bWins, total));
  }

  /** `round(part / total * 100, 2)` before rounding, and 0 when the total is 0. */
  function Percent(part: nat, total: nat): (p: real)
    ensures total == 0 ==> p == 0.0
    ensures total > 0 ==> p * total as real == part as real * 100.0
    ensures part <= total ==> 0.0 <= p <= 100.0
  {
    if total == 0 then 0.0 else (part as real / total as real) * 100.0
  }

  /** The head-to-head counts do not depend on which model is asked about first, when the two differ. */
  lemma {:induction false} HeadToHeadSymmetric(sessions: map<Id, ChatSession>, feedback: seq<Feedback>, a: Id, b: Id)
    requires a != b
    ensures CountIf(feedback, HeadToHeadOf(sessions, a, b)) == CountIf(feedback, HeadToHeadOf(sessions, b, a))
    ensures CountIf(feedback, WinFor(sessions, a, b)) == CountIf(feedback, WinForSecond(sessions, b, a))
    decreases |feedback|
  {
    if feedback != [] {
      HeadToHeadSymmetric(sessions, feedback[..|feedback| - 1], a, b);
    }
  }

  // ---------------------------------------------------------------- compare_models

  /** The categories compare_models breaks down when none are given. */
  const DEFAULT_COMPARE_CATEGORIES: seq<string> := ["overall", "code", "creative", "reasoning"]

  datatype Side = Side(eloRating: int, winRate: real, averageRating: Option<real>)

  datatype Difference = Difference(eloRating: int, winRate: real, averageRating: real)

  datatype CategoryComparison = CategoryComparison(a: Side, b: Side, difference: Difference)

  function SideOf(m: ModelMetric): Side { Side(m.eloRating, m.WinRate(), m.averageRating) }

  /** A missing average rating counts as 0 in a difference. */
  function RatingOrZero(r: Option<real>): real { r.GetOr(0.0) }

  /**
   * The category_breakdown of compare_models: an entry for each requested category in which
   * both models have an all-time record, holding both sides and their differences.
   */
  function CategoryBreakdown(history: seq<ModelMetric>, a: Id, b: Id, categories: seq<string>): (r: map<string, CategoryComparison>)
    ensures forall c :: c in r <==>
      && c in categories
      && LatestOf(history, a, c, PERIOD_ALL_TIME).Some?
      && LatestOf(history, b, c, PERIOD_ALL_TIME).Some?
    ensures forall c :: c in r ==>
      var ma := LatestOf(history, a, c, PERIOD_ALL_TIME).value;
      var mb := LatestOf(history, b, c, PERIOD_ALL_TIME).value;
      && r[c].a.eloRating == ma.eloRating && r[c].b.eloRating == mb.eloRating
      && r[c].difference.eloRating == ma.eloRating - mb.eloRating
      && r[c].difference.winRate == ma.WinRate() - mb.WinRate()
      && r[c].difference.averageRating == RatingOrZero(ma.averageRating) - RatingOrZero(mb.averageRating)
      && (ma.totalComparisons == 0 ==> r[c].a.winRate == 0.0)
      && (mb.totalComparisons == 0 ==> r[c].b.winRate == 0.0)
  {
    map c | c in categories && LatestOf(history, a, c, PERIOD_ALL_TIME).Some? && LatestOf(history, b, c, PERIOD_ALL_TIME).Some? ::
      Compared(LatestOf(history, a, c, PERIOD_ALL_TIME).value, LatestOf(history, b, c, PERIOD_ALL_TIME).value)
  }

  function Compared(ma: ModelMetric, mb: ModelMetric): CategoryComparison
  {
    CategoryComparison(SideOf(ma), SideOf(mb),
      Difference(ma.eloRating - mb.eloRating, ma.WinRate() - mb.WinRate(),
                 RatingOrZero(ma.averageRating) - RatingOrZero(mb.averageRating)))
  }

  datatype Performance = Performance(aBetter: bool, eloDifference: int, winRateDifference: real, ratingDifference: real)

  /** The performance_comparison of compare_models: present iff both models have an overall all-time record. */
  function PerformanceComparison(history: seq<ModelMetric>, a: Id, b: Id): (p: Option<Performance>)
    ensures p.Some? <==> LatestOf(history, a, "overall", PERIOD_ALL_TIME).Some? && LatestOf(history, b, "overall", PERIOD_ALL_TIME).Some?
    ensures p.Some? ==>
      var ma := LatestOf(history, a, "overall", PERIOD_ALL_TIME).value;
      var mb := LatestOf(history, b, "overall", PERIOD_ALL_TIME).value;
      && (p.value.aBetter <==> ma.eloRating > mb.eloRating)
      && p.value.eloDifference == ma.eloRating - mb.eloRating
      && (p.value.aBetter ==> p.value.eloDifference > 0)
  {
    match (LatestOf(history, a, "overall", PERIOD_ALL_TIME), LatestOf(history, b, "overall", PERIOD_ALL_TIME))
    case (Some(ma), Some(mb)) =>
      Some(Performance(ma.eloRating > mb.eloRating, ma.eloRating - mb.eloRating, ma.WinRate() - mb.WinRate(),
                       RatingOrZero(ma.averageRating) - RatingOrZero(mb.averageRating)))
    case _ => None
  }

  // ---------------------------------------------------------------- historical comparison

  /** The daily overall records of a model since `start`, oldest first. */
  function DailySince(history: seq<ModelMetric>, model: Id, start: int): (r: seq<ModelMetric>)
    ensures forall m :: m in r <==> m in history && InSeries(m, model, "overall", PERIOD_DAILY) && m.calculatedAt >= start
    ensures SortedBy(r, Newer)
  {
    var rows := Filter(history, (m: ModelMetric) => InSeries(m, model, "overall", PERIOD_DAILY) && m.calculatedAt >= start);
    var r := SortDesc(rows, Newer);
    forall m ensures m in r <==> m in rows {
      assert m in r <==> m in multiset(r);
      assert m in rows <==> m in multiset(rows);
    }
    r
  }

  /** Sorting largest-first by the negated time puts the oldest first. */
  function Newer(m: ModelMetric): int { -m.calculatedAt }

  /** `{h['calculated_at'].date(): h for h in rows}`: each day maps to the last of that day's rows. */
  function ByDay(rows: seq<ModelMetric>): (d: map<int, ModelMetric>)
    ensures forall day :: day in d ==> d[day] in rows && Day(d[day].calculatedAt) == day
  {
    if rows == [] then map[]
    else
      var last := rows[|rows| - 1];
      var before := ByDay(rows[..|rows| - 1]);
      assert rows == rows[..|rows| - 1] + [last];
      before[Day(last.calculatedAt) := last]
  }

  /** With the rows oldest first, the row kept for a day is that day's latest. */
  lemma {:induction false} ByDayKeepsLatest(rows: seq<ModelMetric>, m: ModelMetric)
    requires SortedBy(rows, Newer)
    requires m in rows
    ensures Day(m.calculatedAt) in ByDay(rows)
    ensures m.calculatedAt <= ByDay(rows)[Day(m.calculatedAt)].calculatedAt
    decreases |rows|
  {
    var last := rows[|rows| - 1];
    var init := rows[..|rows| - 1];
    assert rows == init + [last];
    assert ByDay(rows) == ByDay(init)[Day(last.calculatedAt) := last];
    if Day(last.calculatedAt) == Day(m.calculatedAt) {
      var k :| 0 <= k < |rows| && rows[k] == m;
      if k < |rows| - 1 {
        assert Newer(rows[k]) >= Newer(rows[|rows| - 1]);
      }
    } else {
      assert m in init;
      assert SortedBy(init, Newer) by {
        forall i, j | 0 <= i < j < |init| ensures Newer(init[i]) >= Newer(init[j]) {
          assert init[i] == rows[i] && init[j] == rows[j];
        }
      }
      ByDayKeepsLatest(init, m);
    }
  }

  /** Some element of a non-empty set of days is the earliest. */
  lemma {:induction false} EarliestExists(days: set<int>)
    requires days != {}
    ensures exists m :: m in days && forall x :: x in days ==> m <= x
    decreases |days|
  {
    assert exists y :: y in days by {
      if forall y :: y !in days {
        assert false;
      }
    }
    var x :| x in days;
    if days == {x} {
      assert forall z :: z in days ==> x <= z;
    } else {
      var rest := days - {x};
      EarliestExists(rest);
      var y :| y in rest && forall z :: z in rest ==> y <= z;
      var m := if x < y then x else y;
      forall z | z in days ensures m <= z {
        if z != x { assert z in rest; }
      }
      assert m in days;
    }
  }

  /** `sorted(set(...))`: the days in increasing order. */
  method SortedDays(days: set<int>) returns (r: seq<int>)
    ensures forall x :: x in r <==> x in days
    ensures forall i, j :: 0 <= i < j < |r| ==> r[i] < r[j]
  {
    var todo := days;
    r := [];
    while todo != {}
      invariant todo <= days
      invariant forall x :: x in r ==> x in days && x !in todo
      invariant forall x :: x in days ==> x in r || x in todo
      invariant forall i, j :: 0 <= i < j < |r| ==> r[i] < r[j]
      invariant forall i, x :: 0 <= i < |r| && x in todo ==> r[i] < x
      decreases |todo|
    {
      EarliestExists(todo);
      var first :| first in todo && forall x :: x in todo ==> first <= x;
      r := r + [first];
      todo := todo - {first};
    }
  }

  datatype Point = Point(eloRating: int, averageRating: Option<real>)

  datatype DayComparison = DayComparison(day: int, a: Option<Point>, b: Option<Point>)

  function PointOf(days: map<int, ModelMetric>, day: int): (p: Option<Point>)
    ensures p.Some? <==> day in days
  {
    if day in days then Some(Point(days[day].eloRating, days[day].averageRating)) else None
  }

  /**
   * The historical_comparison of compare_models: one entry per day on which either model has a
   * daily record, days increasing; a side is None exactly when that model has no record that day,
   * and otherwise shows that day's latest record (HistoricalPointIsLatest).
   */
  method HistoricalComparison(history: seq<ModelMetric>, a: Id, b: Id, start: int) returns (r: seq<DayComparison>)
    ensures forall i, j :: 0 <= i < j < |r| ==> r[i].day < r[j].day
    ensures forall day :: (exists i :: 0 <= i < |r| && r[i].day == day) <==>
      day in ByDay(DailySince(history, a, start)) || day in ByDay(DailySince(history, b, start))
    ensures forall i :: 0 <= i < |r| ==>
      && r[i].a == PointOf(ByDay(DailySince(history, a, start)), r[i].day)
      && r[i].b == PointOf(ByDay(DailySince(history, b, start)), r[i].day)
  {
    r := MergeDays(ByDay(DailySince(history, a, start)), ByDay(DailySince(history, b, start)));
  }

  /** The merge loop: one entry per day of either side, in day order. */
  method MergeDays(byA: map<int, ModelMetric>, byB: map<int, ModelMetric>) returns (r: seq<DayComparison>)
    ensures forall i, j :: 0 <= i < j < |r| ==> r[i].day < r[j].day
    ensures forall day :: (exists i :: 0 <= i < |r| && r[i].day == day) <==> day in byA || day in byB
    ensures forall i :: 0 <= i < |r| ==> r[i].a == PointOf(byA, r[i].day) && r[i].b == PointOf(byB, r[i].day)
  {
    var days := SortedDays(byA.Keys + byB.Keys);
    r := [];
    for i := 0 to |days|
      invariant |r| == i
      invariant forall k :: 0 <= k < i ==> r[k] == DayComparison(days[k], PointOf(byA, days[k]), PointOf(byB, days[k]))
    {
      r := r + [DayComparison(days[i], PointOf(byA, days[i]), PointOf(byB, days[i]))];
    }
    forall day ensures (exists i :: 0 <= i < |r| && r[i].day == day) <==> day in byA || day in byB {
      if day in byA || day in byB {
        assert day in days;
        var i :| 0 <= i < |days| && days[i] == day;
        assert r[i].day == day;
      }
      if exists i :: 0 <= i < |r| && r[i].day == day {
        var i :| 0 <= i < |r| && r[i].day == day;
        assert days[i] in days;
      }
    }
  }

  /** A side shown for a day is the model's latest daily record of that day in the window. */
  lemma HistoricalPointIsLatest(history: seq<ModelMetric>, model: Id, start: int, day: int, x: ModelMetric)
    requires x in history && InSeries(x, model, "overall", PERIOD_DAILY) && x.calculatedAt >= start && Day(x.calculatedAt) == day
    ensures var p := PointOf(ByDay(DailySince(history, model, start)), day);
      && p.Some?
      && exists m ::
        && m in history && InSeries(m, model, "overall", PERIOD_DAILY) && m.calculatedAt >= start
        && Day(m.calculatedAt) == day && p == Some(Point(m.eloRating, m.averageRating))
        && x.calculatedAt <= m.calculatedAt
  {
    var rows := DailySince(history, model, start);
    ByDayKeepsLatest(rows, x);
    var m := ByDay(rows)[day];
    assert m in rows;
  }
}
