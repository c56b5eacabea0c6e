/**
 * Feedback quality checks of feedback/utils.py (weighted rating, rating anomalies, preference
 * consistency, spam) and the tasks of feedback/tasks.py that run them over recent users and
 * delete old anonymous feedback. Timestamps are whole seconds.
 */
module FeedbackChecks {
  import opened Wrappers
  import opened Entities
  import opened Ordering
  import MetricCounters

  // ---------------------------------------------------------------- calculate_weighted_rating

  function RealSum(xs: seq<real>): real
  {
    if xs == [] then 0.0 else RealSum(xs[..|xs| - 1]) + xs[|xs| - 1]
  }

  /** Σ ratings[i]·weights[i] over the first n pairs: what `zip` pairs up. */
  function Dot(ratings: seq<int>, weights: seq<real>, n: nat): real
    requires n <= |ratings| && n <= |weights|
  {
    if n == 0 then 0.0 else Dot(ratings, weights, n - 1) + ratings[n - 1] as real * weights[n - 1]
  }

  function Ones(n: nat): (ws: seq<real>)
    ensures |ws| == n && forall i :: 0 <= i < n ==> ws[i] == 1.0
  {
    seq(n, _ => 1.0)
  }

  /**
   * calculate_weighted_rating: 0 for no ratings; default weights are all 1. The weighted sum
   * pairs ratings with weights up to the shorter list, but the total is over every weight, and
   * a total that is not positive gives 0.
   */
  function WeightedRating(ratings: seq<int>, weights: Option<seq<real>>): (r: real)
    ensures ratings == [] ==> r == 0.0
    ensures weights.Some? && RealSum(weights.value) <= 0.0 ==> r == 0.0
  {
    if ratings == [] then 0.0
    else
      var ws := if weights.None? then Ones(|ratings|) else weights.value;
      var total := RealSum(ws);
      if total > 0.0 then Dot(ratings, ws, Min(|ratings|, |ws|)) / total else 0.0
  }

  lemma {:induction false} DotOnes(ratings: seq<int>, n: nat)
    requires n <= |ratings|
    ensures Dot(ratings, Ones(|ratings|), n) == MetricCounters.Sum(ratings[..n]) as real
  {
    if n > 0 {
      DotOnes(ratings, n - 1);
      assert ratings[..n][..n - 1] == ratings[..n - 1];
    }
  }

  lemma {:induction false} SumOnes(n: nat)
    ensures RealSum(Ones(n)) == n as real
  {
    if n > 0 {
      assert Ones(n)[..n - 1] == Ones(n - 1);
      SumOnes(n - 1);
    }
  }

  /** With the default weights the weighted rating is the arithmetic mean. */
  lemma DefaultWeightsGiveMean(ratings: seq<int>)
    requires ratings != []
    ensures WeightedRating(ratings, None) == MetricCounters.Sum(ratings) as real / |ratings| as real
  {
    var n := |ratings|;
    DotOnes(ratings, n);
    SumOnes(n);
    assert ratings[..n] == ratings;
    assert Min(n, n) == n;
  }

  lemma {:induction false} DotPrefix(ratings: seq<int>, extra: seq<int>, weights: seq<real>, n: nat)
    requires n <= |ratings| && n <= |weights|
    ensures Dot(ratings + extra, weights, n) == Dot(ratings, weights, n)
  {
    if n > 0 {
      DotPrefix(ratings, extra, weights, n - 1);
      assert (ratings + extra)[n - 1] == ratings[n - 1];
    }
  }

  /** Ratings beyond the last weight take no part: appending them changes nothing. */
  lemma UnpairedRatingsIgnored(ratings: seq<int>, extra: seq<int>, weights: seq<real>)
    requires ratings != [] && |weights| <= |ratings|
    ensures WeightedRating(ratings + extra, Some(weights)) == WeightedRating(ratings, Some(weights))
  {
    DotPrefix(ratings, extra, weights, |weights|);
  }

  lemma RealMulMono(lo: real, x: real, hi: real, w: real)
    requires lo <= x <= hi && w >= 0.0
    ensures lo * w <= x * w <= hi * w
  {
  }

  lemma RealDistrib(c: real, a: real, b: real)
    ensures c * (a + b) == c * a + c * b
  {
  }

  lemma LowerStep(lo: real, total: real, dot: real, x: real, w: real)
    requires lo * total <= dot && lo <= x && w >= 0.0
    ensures lo * (total + w) <= dot + x * w
  {
    RealMulMono(lo, x, x, w);
    RealDistrib(lo, total, w);
  }

  lemma UpperStep(hi: real, total: real, dot: real, x: real, w: real)
    requires dot <= hi * total && x <= hi && w >= 0.0
    ensures dot + x * w <= hi * (total + w)
  {
    RealMulMono(x, x, hi, w);
    RealDistrib(hi, total, w);
  }

  /** Ratings of at least `lo` with non-negative weights: the weighted sum is at least lo·Σweights. */
  lemma {:induction false} DotAtLeast(ratings: seq<int>, weights: seq<real>, n: nat, lo: real)
    requires n <= |ratings| && n <= |weights|
    requires forall i :: 0 <= i < n ==> lo <= ratings[i] as real && weights[i] >= 0.0
    ensures lo * RealSum(weights[..n]) <= Dot(ratings, weights, n)
  {
    if n > 0 {
      DotAtLeast(ratings, weights, n - 1, lo);
      assert weights[..n][..n - 1] == weights[..n - 1];
      var total, dot := RealSum(weights[..n - 1]), Dot(ratings, weights, n - 1);
      assert RealSum(weights[..n]) == total + weights[n - 1];
      assert Dot(ratings, weights, n) == dot + ratings[n - 1] as real * weights[n - 1];
      LowerStep(lo, total, dot, ratings[n - 1] as real, weights[n - 1]);
    }
  }

  /** Ratings of at most `hi` with non-negative weights: the weighted sum is at most hi·Σweights. */
  lemma {:induction false} DotAtMost(ratings: seq<int>, weights: seq<real>, n: nat, hi: real)
    requires n <= |ratings| && n <= |weights|
    requires forall i :: 0 <= i < n ==> ratings[i] as real <= hi && weights[i] >= 0.0
    ensures Dot(ratings, weights, n) <= hi * RealSum(weights[..n])
  {
    if n > 0 {
      DotAtMost(ratings, weights, n - 1, hi);
      assert weights[..n][..n - 1] == weights[..n - 1];
      var total, dot := RealSum(weights[..n - 1]), Dot(ratings, weights, n - 1);
      assert RealSum(weights[..n]) == total + weights[n - 1];
      assert Dot(ratings, weights, n) == dot + ratings[n - 1] as real * weights[n - 1];
      UpperStep(hi, total, dot, ratings[n - 1] as real, weights[n - 1]);
    }
  }

  lemma GivenWeights(ratings: seq<int>, weights: seq<real>)
    requires ratings != [] && RealSum(weights) > 0.0
    ensures WeightedRating(ratings, Some(weights)) == Dot(ratings, weights, Min(|ratings|, |weights|)) / RealSum(weights)
  {
  }

  lemma RealDivBetween(lo: real, x: real, hi: real, t: real)
    requires t > 0.0 && lo * t <= x <= hi * t
    ensures lo <= x / t <= hi
  {
  }

  /**
   * With one non-negative weight per rating and a positive total, the weighted rating lies
   * between the smallest and the largest possible rating.
   */
  lemma WeightedRatingBounds(ratings: seq<int>, weights: seq<real>, lo: int, hi: int)
    requires ratings != [] && |weights| == |ratings|
    requires forall i :: 0 <= i < |ratings| ==> lo <= ratings[i] <= hi && weights[i] >= 0.0
    requires RealSum(weights) > 0.0
    ensures lo as real <= WeightedRating(ratings, Some(weights)) <= hi as real
  {
    var total := RealSum(weights);
    var dot := Dot(ratings, weights, |weights|);
    assert WeightedRating(ratings, Some(weights)) == dot / total by {
      GivenWeights(ratings, weights);
      assert Min(|ratings|, |weights|) == |weights|;
    }
    assert weights[..|weights|] == weights;
    DotAtLeast(ratings, weights, |weights|, lo as real);
    DotAtMost(ratings, weights, |weights|, hi as real);
    RealDivBetween(lo as real, dot, hi as real, total);
  }

  // ---------------------------------------------------------------- detect_rating_anomalies

  /** A rating with its creation time: (created_at, rating). */
  type TimedRating = (int, int)

  const RAPID_SECONDS: int := 300
  const RAPID_POINTS: int := 3
  const MIN_RATINGS: nat := 5
  const NO_VARIATION_MIN: nat := 10

  datatype RatingAnomaly =
    | RapidChange(timestamp: int, ratingDiff: nat, timeDiff: int)
    | NoVariation(timestamp: int, count: nat)

  function EarlierFirst(x: TimedRating): int { -x.0 }

  /** The ratings sorted by time, oldest first (the source's in-place `sort(key=created_at)`). */
  function Chronological(ratings: seq<TimedRating>): (s: seq<TimedRating>)
    ensures multiset(s) == multiset(ratings) && |s| == |ratings|
    ensures forall i, j :: 0 <= i < j < |s| ==> s[i].0 <= s[j].0
  {
    var s := SortDesc(ratings, EarlierFirst);
    assert forall i, j :: 0 <= i < j < |s| ==> EarlierFirst(s[i]) >= EarlierFirst(s[j]);
    s
  }

  /** A change of at least 3 points less than 5 minutes after the previous rating. */
  predicate IsRapid(prev: TimedRating, cur: TimedRating)
  {
    cur.0 - prev.0 < RAPID_SECONDS && Abs(cur.1 - prev.1) >= RAPID_POINTS
  }

  function RapidChangeOf(prev: TimedRating, cur: TimedRating): RatingAnomaly
  {
    RapidChange(cur.0, Abs(cur.1 - prev.1), cur.0 - prev.0)
  }

  /** The rapid changes among the consecutive pairs (s[i-1], s[i]) with i < n, in order. */
  function RapidChanges(s: seq<TimedRating>, n: nat): seq<RatingAnomaly>
    requires n <= |s|
  {
    if n <= 1 then []
    else RapidChanges(s, n - 1) + (if IsRapid(s[n - 2], s[n - 1]) then [RapidChangeOf(s[n - 2], s[n - 1])] else [])
  }

  /** Every rating is the same value (`len(set(ratings)) == 1` on a non-empty list). */
  predicate AllSame(s: seq<TimedRating>)
  {
    forall i :: 0 <= i < |s| ==> s[i].1 == s[0].1
  }

  /** What detect_rating_anomalies returns, as a function of its input. */
  function RatingAnomalies(ratings: seq<TimedRating>): seq<RatingAnomaly>
  {
    if |ratings| < MIN_RATINGS then []
    else
      var s := Chronological(ratings);
      RapidChanges(s, |s|) + (if AllSame(s) && |s| > NO_VARIATION_MIN then [NoVariation(s[|s| - 1].0, |s|)] else [])
  }

  /** The loop over consecutive pairs of detect_rating_anomalies. */
  method ScanRapidChanges(s: seq<TimedRating>) returns (anomalies: seq<RatingAnomaly>)
    ensures anomalies == RapidChanges(s, |s|)
  {
    anomalies := [];
    if |s| == 0 {
      return;
    }
    for i := 1 to |s|
      invariant anomalies == RapidChanges(s, i)
    {
      var timeDiff := s[i].0 - s[i - 1].0;
      var ratingDiff := Abs(s[i].1 - s[i - 1].1);
      if timeDiff < RAPID_SECONDS && ratingDiff >= RAPID_POINTS {
        anomalies := anomalies + [RapidChange(s[i].0, ratingDiff, timeDiff)];
      }
    }
  }

  /** `len(set(ratings)) == 1`, checked element by element. */
  method AllRatingsSame(s: seq<TimedRating>) returns (same: bool)
    ensures same <==> AllSame(s)
  {
    same := true;
    for i := 0 to |s|
      invariant same <==> forall j :: 0 <= j < i ==> s[j].1 == s[0].1
    {
      if s[i].1 != s[0].1 {
        same := false;
      }
    }
  }

  /** detect_rating_anomalies: sort by time, flag rapid changes pair by pair, then a lack of variation. */
  method DetectRatingAnomalies(ratings: seq<TimedRating>) returns (anomalies: seq<RatingAnomaly>)
    ensures anomalies == RatingAnomalies(ratings)
  {
    if |ratings| < MIN_RATINGS {
      return [];
    }
    var s := Chronological(ratings);
    anomalies := ScanRapidChanges(s);
    var same := AllRatingsSame(s);
    if same && |s| > NO_VARIATION_MIN {
      anomalies := anomalies + [NoVariation(s[|s| - 1].0, |s|)];
    }
  }

  /**
   * Each rapid change comes from a consecutive pair of the time-ordered ratings that is less
   * than 5 minutes apart (never negatively) and 3 or more points apart.
   */
  lemma {:induction false} RapidChangesSound(s: seq<TimedRating>, n: nat, a: RatingAnomaly)
    requires n <= |s|
    requires forall i, j :: 0 <= i < j < |s| ==> s[i].0 <= s[j].0
    requires a in RapidChanges(s, n)
    ensures exists i :: 1 <= i < n && IsRapid(s[i - 1], s[i]) && a == RapidChangeOf(s[i - 1], s[i])
    ensures a.RapidChange? && 0 <= a.timeDiff < RAPID_SECONDS && a.ratingDiff >= RAPID_POINTS
  {
    if n > 1 {
      if a in RapidChanges(s, n - 1) {
        RapidChangesSound(s, n - 1, a);
      } else {
        assert a == RapidChangeOf(s[n - 2], s[n - 1]);
      }
    }
  }

  /** Every consecutive pair that is rapid is reported. */
  lemma {:induction false} RapidChangesComplete(s: seq<TimedRating>, n: nat, i: nat)
    requires n <= |s| && 1 <= i < n
    requires IsRapid(s[i - 1], s[i])
    ensures RapidChangeOf(s[i - 1], s[i]) in RapidChanges(s, n)
  {
    if i < n - 1 {
      RapidChangesComplete(s, n - 1, i);
    }
  }

  lemma SameAfterSorting(ratings: seq<TimedRating>, s: seq<TimedRating>)
    requires multiset(s) == multiset(ratings) && ratings != []
    ensures AllSame(s) <==> AllSame(ratings)
  {
    if AllSame(ratings) {
      forall i | 0 <= i < |s| ensures s[i].1 == s[0].1 {
        assert s[i] in multiset(ratings) && s[0] in multiset(ratings);
        var j :| 0 <= j < |ratings| && ratings[j] == s[i];
        var k :| 0 <= k < |ratings| && ratings[k] == s[0];
      }
    }
    if AllSame(s) {
      forall i | 0 <= i < |ratings| ensures ratings[i].1 == ratings[0].1 {
        assert ratings[i] in multiset(s) && ratings[0] in multiset(s);
        var j :| 0 <= j < |s| && s[j] == ratings[i];
        var k :| 0 <= k < |s| && s[k] == ratings[0];
      }
    }
  }

  /**
   * The no-variation anomaly is reported iff there are more than 10 ratings and they are all
   * equal, whatever their order; fewer than 5 ratings are never flagged.
   */
  lemma NoVariationIff(ratings: seq<TimedRating>)
    ensures |ratings| < MIN_RATINGS ==> RatingAnomalies(ratings) == []
    ensures (exists a :: a in RatingAnomalies(ratings) && a.NoVariation?)
            <==> |ratings| > NO_VARIATION_MIN && AllSame(ratings)
  {
    if |ratings| >= MIN_RATINGS {
      var s := Chronological(ratings);
      SameAfterSorting(ratings, s);
      forall a | a in RapidChanges(s, |s|) ensures a.RapidChange? {
        RapidChangesSound(s, |s|, a);
      }
      if |ratings| > NO_VARIATION_MIN && AllSame(ratings) {
        assert NoVariation(s[|s| - 1].0, |s|) in RatingAnomalies(ratings);
      }
    }
  }

  // ---------------------------------------------------------------- validate_preference_consistency

  /** Python's `str` of an optional id: the id, or "None". */
  function Str(id: Option<Id>): string
  {
    match id
    case Some(v) => v
    case None => "None"
  }

  /** Python's string order: lexicographic by character. */
  predicate StrLeq(x: string, y: string)
    decreases |x|
  {
    x == [] || (y != [] && (x[0] < y[0] || (x[0] == y[0] && StrLeq(x[1..], y[1..]))))
  }

  lemma {:induction false} StrLeqTotal(x: string, y: string)
    ensures StrLeq(x, y) || StrLeq(y, x)
    decreases |x|
  {
    if x != [] && y != [] && x[0] == y[0] {
      StrLeqTotal(x[1..], y[1..]);
    }
  }

  lemma {:induction false} StrLeqAntisymmetric(x: string, y: string)
    requires StrLeq(x, y) && StrLeq(y, x)
    ensures x == y
    decreases |x|
  {
    if x != [] {
      StrLeqAntisymmetric(x[1..], y[1..]);
      assert x == [x[0]] + x[1..] && y == [y[0]] + y[1..];
    }
  }

  /** `tuple(sorted([a, b]))`. */
  function SortedPair(a: string, b: string): (string, string)
  {
    if StrLeq(a, b) then (a, b) else (b, a)
  }

  /** The pair key does not depend on which model sat in seat A. */
  lemma SortedPairSymmetric(a: string, b: string)
    ensures SortedPair(a, b) == SortedPair(b, a)
  {
    StrLeqTotal(a, b);
    if StrLeq(a, b) && StrLeq(b, a) {
      StrLeqAntisymmetric(a, b);
    }
  }

  function PairKey(row: MetricCounters.FeedbackRow): (string, string)
  {
    SortedPair(Str(row.sessionA), Str(row.sessionB))
  }

  /** Preference feedback of a compare session; the rest is skipped. */
  predicate IsComparedPreference(row: MetricCounters.FeedbackRow)
  {
    row.fb.feedbackType == FEEDBACK_PREFERENCE && row.sessionMode == MODE_COMPARE
  }

  function Compared(rows: seq<MetricCounters.FeedbackRow>): seq<MetricCounters.FeedbackRow>
  {
    Filter(rows, IsComparedPreference)
  }

  function Project<A, B>(s: seq<A>, f: A -> B): (r: seq<B>)
    ensures |r| == |s| && forall i :: 0 <= i < |s| ==> r[i] == f(s[i])
  {
    seq(|s|, i requires 0 <= i < |s| => f(s[i]))
  }

  /** The users with compared preferences, in order of first appearance. */
  function CheckedUsers(rows: seq<MetricCounters.FeedbackRow>): seq<Id>
  {
    Dedup(Project(Compared(rows), (r: MetricCounters.FeedbackRow) => r.fb.user))
  }

  /** The model pairs a user compared, in order of first appearance. */
  function UserPairs(rows: seq<MetricCounters.FeedbackRow>, user: Id): seq<(string, string)>
  {
    Dedup(Project(Filter(Compared(rows), (r: MetricCounters.FeedbackRow) => r.fb.user == user), PairKey))
  }

  /** The models a user preferred for one pair, in order (`str(preferred_model_id)`). */
  function Choices(rows: seq<MetricCounters.FeedbackRow>, user: Id, pair: (string, string)): seq<string>
  {
    Project(Filter(Compared(rows), (r: MetricCounters.FeedbackRow) => r.fb.user == user && PairKey(r) == pair),
            (r: MetricCounters.FeedbackRow) => Str(r.fb.preferred))
  }

  /** More than one distinct choice (`len(set(choices)) > 1`). */
  predicate Varied(choices: seq<string>)
  {
    exists i :: 0 <= i < |choices| && choices[i] != choices[0]
  }

  datatype Inconsistency = Inconsistency(user: Id, pair: (string, string), choices: seq<Count<string>>, consistencyRate: real)

  datatype ConsistencyReport = ConsistencyReport(totalUsersChecked: nat, inconsistentUsers: nat, details: seq<Inconsistency>)

  function UserPairOf(e: Inconsistency): (Id, (string, string)) { (e.user, e.pair) }

  /** The largest count of a non-empty tally. */
  method MaxCount(items: seq<Count<string>>) returns (best: nat)
    requires items != []
    ensures exists i :: 0 <= i < |items| && best == items[i].count
    ensures forall i :: 0 <= i < |items| ==> items[i].count <= best
  {
    best := items[0].count;
    for i := 1 to |items|
      invariant exists j :: 0 <= j < |items| && best == items[j].count
      invariant forall j :: 0 <= j < i ==> items[j].count <= best
    {
      if items[i].count > best {
        best := items[i].count;
      }
    }
  }

  lemma {:induction false} TwoValuesShare(xs: seq<string>, c: string, d: string)
    requires c != d
    ensures Occurrences(xs, c) + Occurrences(xs, d) <= |xs|
  {
    if xs != [] {
      TwoValuesShare(xs[..|xs| - 1], c, d);
    }
  }

  /** In a varied list every value occurs, but not everywhere. */
  lemma ShareOfVaried(choices: seq<string>, c: string)
    requires Varied(choices) && c in choices
    ensures 0 < Occurrences(choices, c) < |choices|
  {
    var i :| 0 <= i < |choices| && choices[i] != choices[0];
    var other := if c == choices[0] then choices[i] else choices[0];
    TwoValuesShare(choices, c, other);
  }

  lemma RatioInUnit(p: nat, n: nat)
    requires 0 < p < n
    ensures 0.0 < p as real / n as real < 1.0
  {
  }

  /**
   * One inconsistency entry for a user's pair with varied choices: the count of each choice and
   * the share of the most frequent one, which lies strictly between 0 and 1.
   */
  method InconsistencyOf(user: Id, pair: (string, string), choices: seq<string>) returns (e: Inconsistency)
    requires Varied(choices)
    ensures e.user == user && e.pair == pair
    ensures forall i :: 0 <= i < |e.choices| ==> e.choices[i].count == Occurrences(choices, e.choices[i].key)
    ensures forall c :: c in choices <==> c in Keys(e.choices)
    ensures exists c :: c in choices && e.consistencyRate == Occurrences(choices, c) as real / |choices| as real
                        && forall d :: d in choices ==> Occurrences(choices, d) <= Occurrences(choices, c)
    ensures 0.0 < e.consistencyRate < 1.0
  {
    var items := Tally(choices);
    assert choices[0] in Keys(items);
    var best := MaxCount(items);
    var k :| 0 <= k < |items| && best == items[k].count;
    var c := items[k].key;
    assert c in Keys(items);
    forall d | d in choices ensures Occurrences(choices, d) <= best {
      assert d in Keys(items);
      var j :| 0 <= j < |items| && items[j].key == d;
    }
    assert best == Occurrences(choices, c);
    ShareOfVaried(choices, c);
    var rate := best as real / |choices| as real;
    RatioInUnit(best, |choices|);
    e := Inconsistency(user, pair, items, rate);
  }

  /** The entries for one user: one per pair whose choices vary, each pair once. */
  method UserInconsistencies(user: Id, pairs: seq<(string, string)>, choicesOf: ((string, string)) -> seq<string>)
      returns (entries: seq<Inconsistency>)
    requires Distinct(pairs)
    ensures forall e :: e in entries ==>
      e.user == user && e.pair in pairs && Varied(choicesOf(e.pair)) && 0.0 < e.consistencyRate < 1.0
    ensures forall p :: p in pairs && Varied(choicesOf(p)) ==> exists e :: e in entries && e.pair == p
    ensures Distinct(Project(entries, UserPairOf))
  {
    entries := [];
    for j := 0 to |pairs|
      invariant forall e :: e in entries ==>
        e.user == user && e.pair in pairs[..j] && Varied(choicesOf(e.pair)) && 0.0 < e.consistencyRate < 1.0
      invariant forall p :: p in pairs[..j] && Varied(choicesOf(p)) ==> exists e :: e in entries && e.pair == p
      invariant Distinct(Project(entries, UserPairOf))
    {
      assert pairs[..j + 1] == pairs[..j] + [pairs[j]];
      var choices := choicesOf(pairs[j]);
      if Varied(choices) {
        var e := InconsistencyOf(user, pairs[j], choices);
        forall d | d in entries ensures UserPairOf(d) != UserPairOf(e) {
          var k :| 0 <= k < j && pairs[k] == d.pair;
        }
        AppendDistinct(entries, e);
        entries := entries + [e];
      }
    }
    assert pairs[..|pairs|] == pairs;
  }

  /** The nested loops of validate_preference_consistency, over users and then their pairs. */
  method CollectInconsistencies(users: seq<Id>, pairsOf: Id -> seq<(string, string)>,
                                choicesOf: (Id, (string, string)) -> seq<string>)
      returns (details: seq<Inconsistency>)
    requires Distinct(users)
    requires forall u :: Distinct(pairsOf(u))
    ensures forall e :: e in details ==>
      e.user in users && e.pair in pairsOf(e.user) && Varied(choicesOf(e.user, e.pair)) && 0.0 < e.consistencyRate < 1.0
    ensures forall u, p :: u in users && p in pairsOf(u) && Varied(choicesOf(u, p)) ==>
      exists e :: e in details && e.user == u && e.pair == p
    ensures Distinct(Project(details, UserPairOf))
  {
    details := [];
    for i := 0 to |users|
      invariant forall e :: e in details ==>
        e.user in users[..i] && e.pair in pairsOf(e.user) && Varied(choicesOf(e.user, e.pair))
        && 0.0 < e.consistencyRate < 1.0
      invariant forall u, p :: u in users[..i] && p in pairsOf(u) && Varied(choicesOf(u, p)) ==>
        exists e :: e in details && e.user == u && e.pair == p
      invariant Distinct(Project(details, UserPairOf))
    {
      assert users[..i + 1] == users[..i] + [users[i]];
      var u := users[i];
      var entries := UserInconsistencies(u, pairsOf(u), p => choicesOf(u, p));
      forall d, e | d in details && e in entries ensures UserPairOf(d) != UserPairOf(e) {
        var k :| 0 <= k < i && users[k] == d.user;
      }
      AppendAllDistinct(details, entries);
      details := details + entries;
    }
    assert users[..|users|] == users;
  }

  /**
   * What a consistency report over `rows` holds: the number of users with compared preferences,
   * and exactly one entry for each (user, pair) whose choices vary.
   */
  ghost predicate IsConsistencyReport(rows: seq<MetricCounters.FeedbackRow>, report: ConsistencyReport)
  {
    && report.totalUsersChecked == |CheckedUsers(rows)|
    && (forall e :: e in report.details ==>
         e.user in CheckedUsers(rows) && e.pair in UserPairs(rows, e.user) && Varied(Choices(rows, e.user, e.pair))
         && 0.0 < e.consistencyRate < 1.0)
    && (forall u, p :: u in CheckedUsers(rows) && p in UserPairs(rows, u) && Varied(Choices(rows, u, p)) ==>
         exists e :: e in report.details && e.user == u && e.pair == p)
    && Distinct(Project(report.details, UserPairOf))
  }

  /**
   * validate_preference_consistency: for each user with compared preferences and each model pair
   * they compared, an entry when their choices for that pair vary. `inconsistentUsers` counts
   * the distinct users among the entries, so it never exceeds the users checked.
   */
  method ValidatePreferenceConsistency(rows: seq<MetricCounters.FeedbackRow>) returns (report: ConsistencyReport)
    ensures IsConsistencyReport(rows, report)
    ensures report.inconsistentUsers == InconsistentUserCount(report.details)
    ensures report.inconsistentUsers <= report.totalUsersChecked
  {
    var users := CheckedUsers(rows);
    var pairsOf := u => UserPairs(rows, u);
    var choicesOf := (u, p) => Choices(rows, u, p);
    assert forall u :: pairsOf(u) == UserPairs(rows, u);
    assert forall u, p :: choicesOf(u, p) == Choices(rows, u, p);
    var details := CollectInconsistencies(users, pairsOf, choicesOf);
    report := ConsistencyReport(|users|, InconsistentUserCount(details), details);
    InconsistentUsersBounded(rows, report);
  }

  lemma AppendAllDistinct(details: seq<Inconsistency>, entries: seq<Inconsistency>)
    requires Distinct(Project(details, UserPairOf)) && Distinct(Project(entries, UserPairOf))
    requires forall d, e :: d in details && e in entries ==> UserPairOf(d) != UserPairOf(e)
    ensures Distinct(Project(details + entries, UserPairOf))
  {
    var p := Project(details + entries, UserPairOf);
    var n := |details|;
    forall a, b | 0 <= a < b < |p| ensures p[a] != p[b] {
      if b < n {
        assert p[a] == Project(details, UserPairOf)[a] && p[b] == Project(details, UserPairOf)[b];
      } else if a < n {
        assert details[a] in details && entries[b - n] in entries;
      } else {
        assert p[a] == Project(entries, UserPairOf)[a - n] && p[b] == Project(entries, UserPairOf)[b - n];
      }
    }
  }

  lemma AppendDistinct(details: seq<Inconsistency>, e: Inconsistency)
    requires Distinct(Project(details, UserPairOf))
    requires forall d :: d in details ==> UserPairOf(d) != UserPairOf(e)
    ensures Distinct(Project(details + [e], UserPairOf))
  {
    var p := Project(details + [e], UserPairOf);
    forall a, b | 0 <= a < b < |p| ensures p[a] != p[b] {
      if b == |details| {
        assert details[a] in details;
      } else {
        assert p[a] == Project(details, UserPairOf)[a] && p[b] == Project(details, UserPairOf)[b];
      }
    }
  }

  /** The number of distinct users among the entries: what `inconsistent_users` evidently means. */
  function InconsistentUserCount(details: seq<Inconsistency>): nat
  {
    |Dedup(Project(details, (e: Inconsistency) => e.user))|
  }

  /** `len(inconsistencies)`, the count the source reports: one per (user, pair) entry. */
  function EntryCount(details: seq<Inconsistency>): nat
  {
    |details|
  }

  lemma {:induction false} DistinctSubsetLength(xs: seq<Id>, ys: seq<Id>)
    requires Distinct(xs) && Distinct(ys)
    requires forall x :: x in xs ==> x in ys
    ensures |xs| <= |ys|
    decreases |xs|
  {
    if xs != [] {
      var x := xs[|xs| - 1];
      assert x in xs;
      var k :| 0 <= k < |ys| && ys[k] == x;
      var rest := ys[..k] + ys[k + 1..];
      forall y | y in xs[..|xs| - 1] ensures y in rest {
        var a :| 0 <= a < |xs| - 1 && xs[a] == y;
        assert y in xs;
        var b :| 0 <= b < |ys| && ys[b] == y;
        assert b != k;
        if b < k { assert rest[b] == y; } else { assert rest[b - 1] == y; }
      }
      forall a, b | 0 <= a < b < |rest| ensures rest[a] != rest[b] {
        if b < k {
        } else if a < k {
          assert rest[b] == ys[b + 1];
        } else {
          assert rest[a] == ys[a + 1] && rest[b] == ys[b + 1];
        }
      }
      DistinctSubsetLength(xs[..|xs| - 1], rest);
    }
  }

  /** Counted per user, the inconsistent users never outnumber the users checked. */
  lemma InconsistentUsersBounded(rows: seq<MetricCounters.FeedbackRow>, report: ConsistencyReport)
    requires report.totalUsersChecked == |CheckedUsers(rows)|
    requires forall e :: e in report.details ==> e.user in CheckedUsers(rows)
    ensures InconsistentUserCount(report.details) <= report.totalUsersChecked
  {
    var us := Dedup(Project(report.details, (e: Inconsistency) => e.user));
    forall u | u in us ensures u in CheckedUsers(rows) {
      var k :| 0 <= k < |report.details| && report.details[k].user == u;
      assert report.details[k] in report.details;
    }
    DistinctSubsetLength(us, CheckedUsers(rows));
  }

  /** A compared preference of user "u" for `preferred` in a session between `a` and `b`. */
  function PreferenceRow(a: Id, b: Id, preferred: Id): MetricCounters.FeedbackRow
  {
    MetricCounters.FeedbackRow(
      Feedback("f", "u", "s", None, FEEDBACK_PREFERENCE, Some(preferred), None, [], "", 0),
      MODE_COMPARE, Some(a), Some(b), None)
  }

  lemma {:induction false} DedupConstant(xs: seq<Id>, u: Id)
    requires xs != [] && forall x :: x in xs ==> x == u
    ensures Dedup(xs) == [u]
  {
    if |xs| > 1 {
      var init := xs[..|xs| - 1];
      forall x | x in init ensures x == u {
        var k :| 0 <= k < |init| && init[k] == x;
        assert xs[k] in xs;
      }
      DedupConstant(init, u);
      assert xs[|xs| - 1] in xs && init[0] in init;
    } else {
      assert xs[0] in xs;
    }
  }

  /** Two compared preferences of a user for the same pair that name different models make the choices vary. */
  lemma TwoChoicesVary(rows: seq<MetricCounters.FeedbackRow>, u: Id, pair: (string, string),
                       r: MetricCounters.FeedbackRow, r': MetricCounters.FeedbackRow)
    requires r in rows && r' in rows && IsComparedPreference(r) && IsComparedPreference(r')
    requires r.fb.user == u && r'.fb.user == u && PairKey(r) == pair && PairKey(r') == pair
    requires Str(r.fb.preferred) != Str(r'.fb.preferred)
    ensures Varied(Choices(rows, u, pair))
  {
    var mine := Filter(Compared(rows), (x: MetricCounters.FeedbackRow) => x.fb.user == u && PairKey(x) == pair);
    assert r in mine && r' in mine;
    var i :| 0 <= i < |mine| && mine[i] == r;
    var j :| 0 <= j < |mine| && mine[j] == r';
    var choices := Choices(rows, u, pair);
    assert choices[i] == Str(r.fb.preferred) && choices[j] == Str(r'.fb.preferred);
  }

  lemma TwoMembers<T>(s: seq<T>, a: T, b: T)
    requires a in s && b in s && a != b
    ensures |s| >= 2
  {
    var i :| 0 <= i < |s| && s[i] == a;
    var j :| 0 <= j < |s| && s[j] == b;
    assert i != j;
  }

  /** One user who preferred each model once, in a session between "a" and "b" and in one between "c" and "d". */
  function TwoPairRows(): seq<MetricCounters.FeedbackRow>
  {
    [PreferenceRow("a", "b", "a"), PreferenceRow("a", "b", "b"), PreferenceRow("c", "d", "c"), PreferenceRow("c", "d", "d")]
  }

  lemma TwoPairRowsCompared()
    ensures Compared(TwoPairRows()) == TwoPairRows()
  {
    var rows := TwoPairRows();
    forall r | r in rows ensures IsComparedPreference(r) {
      var k :| 0 <= k < 4 && rows[k] == r;
    }
    FilterKeepsAll(rows, IsComparedPreference);
  }

  lemma TwoPairRowsOwned()
    ensures Filter(TwoPairRows(), (r: MetricCounters.FeedbackRow) => r.fb.user == "u") == TwoPairRows()
  {
    var rows := TwoPairRows();
    forall r | r in rows ensures r.fb.user == "u" {
      var k :| 0 <= k < 4 && rows[k] == r;
    }
    FilterKeepsAll(rows, (r: MetricCounters.FeedbackRow) => r.fb.user == "u");
  }

  lemma TwoPairRowsUsers()
    ensures CheckedUsers(TwoPairRows()) == ["u"]
  {
    var rows := TwoPairRows();
    TwoPairRowsCompared();
    var owners := Project(rows, (r: MetricCounters.FeedbackRow) => r.fb.user);
    assert owners == ["u", "u", "u", "u"];
    DedupConstant(owners, "u");
  }

  lemma TwoPairRowsPairs()
    ensures ("a", "b") in UserPairs(TwoPairRows(), "u") && ("c", "d") in UserPairs(TwoPairRows(), "u")
  {
    var rows := TwoPairRows();
    TwoPairRowsCompared();
    TwoPairRowsOwned();
    assert StrLeq("a", "b") && StrLeq("c", "d");
    var keys := Project(rows, PairKey);
    assert keys[0] == PairKey(rows[0]) == ("a", "b");
    assert keys[2] == PairKey(rows[2]) == ("c", "d");
  }

  lemma TwoPairRowsVary()
    ensures Varied(Choices(TwoPairRows(), "u", ("a", "b"))) && Varied(Choices(TwoPairRows(), "u", ("c", "d")))
  {
    var rows := TwoPairRows();
    assert StrLeq("a", "b") && StrLeq("c", "d");
    TwoChoicesVary(rows, "u", ("a", "b"), rows[0], rows[1]);
    TwoChoicesVary(rows, "u", ("c", "d"), rows[2], rows[3]);
  }

  /**
   * As written, `inconsistent_users` counts entries: one user who changed their mind on two
   * different model pairs is reported as two inconsistent users out of one user checked.
   */
  lemma EntryCountExceedsUsersChecked(report: ConsistencyReport)
    requires IsConsistencyReport(TwoPairRows(), report)
    ensures report.totalUsersChecked == 1
    ensures EntryCount(report.details) >= 2
  {
    TwoPairRowsUsers();
    TwoPairRowsPairs();
    TwoPairRowsVary();
    var ab :| ab in report.details && ab.user == "u" && ab.pair == ("a", "b");
    var cd :| cd in report.details && cd.user == "u" && cd.pair == ("c", "d");
    TwoMembers(report.details, ab, cd);
  }

  // ---------------------------------------------------------------- validate_spam_feedback

  const SPAM_MAX_FEEDBACK: nat := 10
  const SPAM_MIN_COMMENTS: nat := 3
  const SPAM_MIN_RATINGS: nat := 5
  const PATTERN_MIN_RATINGS: nat := 10
  const PATTERN_LENGTH: nat := 5
  const SPAM_WINDOW_SECONDS: int := 300

  datatype SpamReason = TooManyFeedbacks(count: nat) | IdenticalComments | SameRatings | RepetitivePattern

  datatype SpamCheck = SpamCheck(isSpam: bool, reasons: seq<SpamReason>, feedbackCount: nat, windowMinutes: real)

  function CreatedAtKey(f: Feedback): int { f.createdAt }

  /** The user's feedback of the window, newest first (the model's default ordering). */
  function RecentOf(feedback: seq<Feedback>, user: Id, now: int, window: int): seq<Feedback>
  {
    SortDesc(Filter(feedback, (f: Feedback) => f.user == user && f.createdAt >= now - window), CreatedAtKey)
  }

  predicate AllEqual<T(==)>(xs: seq<T>)
  {
    forall i :: 0 <= i < |xs| ==> xs[i] == xs[0]
  }

  /** Every rating repeats the one five places earlier. */
  predicate Periodic(xs: seq<int>)
  {
    forall i :: 0 <= i < |xs| ==> xs[i] == xs[i % PATTERN_LENGTH]
  }

  function Comments(recent: seq<Feedback>): seq<string>
  {
    Project(Filter(recent, (f: Feedback) => f.comment != ""), (f: Feedback) => f.comment)
  }

  function Ratings(recent: seq<Feedback>): seq<int>
  {
    Project(Filter(recent, (f: Feedback) => f.feedbackType == FEEDBACK_RATING && f.rating.Some?),
            (f: Feedback) => f.rating.GetOr(0))
  }

  predicate TooMany(count: nat) { count > SPAM_MAX_FEEDBACK }
  predicate CommentsIdentical(comments: seq<string>) { |comments| > SPAM_MIN_COMMENTS && AllEqual(comments) }
  predicate RatingsSame(ratings: seq<int>) { |ratings| > SPAM_MIN_RATINGS && AllEqual(ratings) }
  predicate RatingsRepeat(ratings: seq<int>)
  {
    |ratings| > SPAM_MIN_RATINGS && |ratings| >= PATTERN_MIN_RATINGS && Periodic(ratings)
  }

  /** The reasons recorded, in the order the source checks them. */
  function SpamReasons(count: nat, comments: seq<string>, ratings: seq<int>): (rs: seq<SpamReason>)
    ensures TooManyFeedbacks(count) in rs <==> TooMany(count)
    ensures IdenticalComments in rs <==> CommentsIdentical(comments)
    ensures SameRatings in rs <==> RatingsSame(ratings)
    ensures RepetitivePattern in rs <==> RatingsRepeat(ratings)
    ensures forall r :: r in rs && r.TooManyFeedbacks? ==> r.count == count
    ensures |rs| <= 4
  {
    (if TooMany(count) then [TooManyFeedbacks(count)] else [])
    + (if CommentsIdentical(comments) then [IdenticalComments] else [])
    + (if RatingsSame(ratings) then [SameRatings] else [])
    + (if RatingsRepeat(ratings) then [RepetitivePattern] else [])
  }

  /**
   * validate_spam_feedback over the user's feedback of the window: too many feedbacks, more
   * than three identical comments, more than five equal ratings, and ten or more ratings
   * repeating with period five each set the spam flag and record a reason.
   */
  function ValidateSpamFeedback(feedback: seq<Feedback>, user: Id, now: int, window: int): (v: SpamCheck)
    ensures v.feedbackCount == |RecentOf(feedback, user, now, window)|
    ensures v.reasons == SpamReasons(v.feedbackCount, Comments(RecentOf(feedback, user, now, window)),
                                     Ratings(RecentOf(feedback, user, now, window)))
    ensures v.isSpam <==> v.reasons != []
  {
    var recent := RecentOf(feedback, user, now, window);
    var comments := Comments(recent);
    var ratings := Ratings(recent);
    var isSpam := TooMany(|recent|) || CommentsIdentical(comments) || RatingsSame(ratings) || RatingsRepeat(ratings);
    var reasons := SpamReasons(|recent|, comments, ratings);
    assert !isSpam ==> reasons == [];
    assert isSpam ==> reasons != [] by {
      if TooMany(|recent|) { assert TooManyFeedbacks(|recent|) in reasons; }
      else if CommentsIdentical(comments) { assert IdenticalComments in reasons; }
      else if RatingsSame(ratings) { assert SameRatings in reasons; }
      else if RatingsRepeat(ratings) { assert RepetitivePattern in reasons; }
    }
    SpamCheck(isSpam, reasons, |recent|, window as real / 60.0)
  }

  /** Ten or more equal ratings are reported twice: as all the same and as a repeating pattern. */
  lemma EqualRatingsAlsoRepeat(xs: seq<int>)
    requires RatingsSame(xs) && |xs| >= PATTERN_MIN_RATINGS
    ensures RatingsRepeat(xs)
  {
    forall i | 0 <= i < |xs| ensures xs[i] == xs[i % PATTERN_LENGTH] {
      assert 0 <= i % PATTERN_LENGTH <= i;
    }
  }

  // ---------------------------------------------------------------- feedback/tasks.py

  const HOUR: int := 3600
  const ANOMALY_USER_LIMIT: nat := 100
  const ANONYMOUS_RETENTION_DAYS: int := 90

  datatype SpamUser = SpamUser(user: Id, reasons: seq<SpamReason>)
  datatype UserAnomalies = UserAnomalies(user: Id, anomalies: seq<RatingAnomaly>)

  /** The feedback of the last hour. */
  predicate IsRecent(now: int, f: Feedback) { f.createdAt >= now - HOUR }

  function Recent(feedback: seq<Feedback>, now: int): seq<Feedback>
  {
    Filter(feedback, f => IsRecent(now, f))
  }

  function UserOf(f: Feedback): Id { f.user }

  /** The users who gave feedback in the last hour, each once, in order of first appearance. */
  function RecentUsers(feedback: seq<Feedback>, now: int): seq<Id>
  {
    Dedup(Project(Recent(feedback, now), UserOf))
  }

  /** A user's stored ratings with their times, oldest first. */
  function UserRatings(feedback: seq<Feedback>, user: Id): seq<TimedRating>
  {
    Project(Filter(feedback, (f: Feedback) => f.user == user && f.feedbackType == FEEDBACK_RATING && f.rating.Some?),
            (f: Feedback) => (f.createdAt, f.rating.GetOr(0)))
  }

  function SpamUserIds(s: seq<SpamUser>): seq<Id>
  {
    if s == [] then [] else SpamUserIds(s[..|s| - 1]) + [s[|s| - 1].user]
  }

  function AnomalyUserIds(s: seq<UserAnomalies>): seq<Id>
  {
    if s == [] then [] else AnomalyUserIds(s[..|s| - 1]) + [s[|s| - 1].user]
  }

  /** A user that still exists and whose feedback of the last 5 minutes is spam. */
  predicate IsSpammer(feedback: seq<Feedback>, users: set<Id>, now: int, u: Id)
  {
    u in users && ValidateSpamFeedback(feedback, u, now, SPAM_WINDOW_SECONDS).isSpam
  }

  /** The spammers among `us`, in order. */
  function Spammers(feedback: seq<Feedback>, users: set<Id>, now: int, us: seq<Id>): (r: seq<Id>)
    ensures forall u :: u in r <==> u in us && IsSpammer(feedback, users, now, u)
  {
    if us == [] then []
    else
      Spammers(feedback, users, now, us[..|us| - 1])
      + (if IsSpammer(feedback, users, now, us[|us| - 1]) then [us[|us| - 1]] else [])
  }

  /** The users among `us` whose ratings show anomalies, in order. */
  function Anomalous(feedback: seq<Feedback>, us: seq<Id>): (r: seq<Id>)
    ensures forall u :: u in r <==> u in us && RatingAnomalies(UserRatings(feedback, u)) != []
  {
    if us == [] then []
    else
      Anomalous(feedback, us[..|us| - 1])
      + (if RatingAnomalies(UserRatings(feedback, us[|us| - 1])) != [] then [us[|us| - 1]] else [])
  }

  /** The spam pass of detect_feedback_anomalies, over the recent users. */
  method SpamUsers(feedback: seq<Feedback>, users: set<Id>, now: int, recent: seq<Id>) returns (spam: seq<SpamUser>)
    ensures SpamUserIds(spam) == Spammers(feedback, users, now, recent)
    ensures forall x :: x in spam ==> x.reasons == ValidateSpamFeedback(feedback, x.user, now, SPAM_WINDOW_SECONDS).reasons
  {
    spam := [];
    for i := 0 to |recent|
      invariant SpamUserIds(spam) == Spammers(feedback, users, now, recent[..i])
      invariant forall x :: x in spam ==> x.reasons == ValidateSpamFeedback(feedback, x.user, now, SPAM_WINDOW_SECONDS).reasons
    {
      assert recent[..i + 1][..i] == recent[..i];
      var user := recent[i];
      if user in users {
        var validation := ValidateSpamFeedback(feedback, user, now, SPAM_WINDOW_SECONDS);
        if validation.isSpam {
          var x := SpamUser(user, validation.reasons);
          assert (spam + [x])[..|spam|] == spam;
          spam := spam + [x];
        }
      }
    }
    assert recent[..|recent|] == recent;
  }

  /** The rating-anomaly pass of detect_feedback_anomalies, over the given users. */
  method AnomalousUsers(feedback: seq<Feedback>, first: seq<Id>) returns (flagged: seq<UserAnomalies>)
    ensures AnomalyUserIds(flagged) == Anomalous(feedback, first)
    ensures forall x :: x in flagged ==> x.anomalies == RatingAnomalies(UserRatings(feedback, x.user))
  {
    flagged := [];
    for i := 0 to |first|
      invariant AnomalyUserIds(flagged) == Anomalous(feedback, first[..i])
      invariant forall x :: x in flagged ==> x.anomalies == RatingAnomalies(UserRatings(feedback, x.user))
    {
      assert first[..i + 1][..i] == first[..i];
      var user := first[i];
      var ratings := UserRatings(feedback, user);
      if ratings != [] {
        var anomalies := DetectRatingAnomalies(ratings);
        if anomalies != [] {
          var x := UserAnomalies(user, anomalies);
          assert (flagged + [x])[..|flagged|] == flagged;
          flagged := flagged + [x];
        }
      }
    }
    assert first[..|first|] == first;
  }

  /**
   * detect_feedback_anomalies: every recent user that still exists is checked for spam over the
   * default 5-minute window, and the first 100 recent users for rating anomalies over all their
   * ratings; only flagged users are listed, in the order of the recent users.
   */
  method DetectFeedbackAnomalies(feedback: seq<Feedback>, users: set<Id>, now: int)
    returns (spam: seq<SpamUser>, flagged: seq<UserAnomalies>)
    ensures SpamUserIds(spam) == Spammers(feedback, users, now, RecentUsers(feedback, now))
    ensures forall x :: x in spam ==> x.reasons == ValidateSpamFeedback(feedback, x.user, now, SPAM_WINDOW_SECONDS).reasons
    ensures AnomalyUserIds(flagged) == Anomalous(feedback, Take(RecentUsers(feedback, now), ANOMALY_USER_LIMIT))
    ensures forall x :: x in flagged ==> x.anomalies == RatingAnomalies(UserRatings(feedback, x.user))
  {
    var recent := RecentUsers(feedback, now);
    spam := SpamUsers(feedback, users, now, recent);
    flagged := AnomalousUsers(feedback, Take(recent, ANOMALY_USER_LIMIT));
  }


  function UserAndTime(f: Feedback): (Id, int) { (f.user, f.createdAt) }

  /**
   * `values_list('user', flat=True).distinct()` as written: the table's default ordering
   * (`-created_at`) joins the distinct columns, so a user comes once per distinct time of their
   * feedback of the last hour; `feedback` is the table in that order.
   */
  function RecentUserRows(feedback: seq<Feedback>, now: int): (rows: seq<Id>)
    ensures forall u :: u in rows <==> u in RecentUsers(feedback, now)
  {
    var recent := Recent(feedback, now);
    var pairs := Dedup(Project(recent, UserAndTime));
    var rows := Project(pairs, (p: (Id, int)) => p.0);
    assert forall u :: u in rows ==> u in RecentUsers(feedback, now) by {
      forall u | u in rows ensures u in RecentUsers(feedback, now) {
        var i :| 0 <= i < |rows| && rows[i] == u;
        assert pairs[i] in Project(recent, UserAndTime);
        var k :| 0 <= k < |recent| && pairs[i] == UserAndTime(recent[k]);
        assert Project(recent, UserOf)[k] == u;
      }
    }
    assert forall u :: u in RecentUsers(feedback, now) ==> u in rows by {
      forall u | u in RecentUsers(feedback, now) ensures u in rows {
        assert u in Project(recent, UserOf);
        var k :| 0 <= k < |recent| && u == Project(recent, UserOf)[k];
        assert Project(recent, UserAndTime)[k] == UserAndTime(recent[k]);
        assert UserAndTime(recent[k]) in pairs;
        var i :| 0 <= i < |pairs| && pairs[i] == UserAndTime(recent[k]);
        assert rows[i] == u;
      }
    }
    rows
  }

  /**
   * A user with feedback at two different times of the last hour is a row twice as written,
   * where the intended list names every recent user once.
   */
  lemma RecentUserRepeats(feedback: seq<Feedback>, now: int, f1: Feedback, f2: Feedback) returns (i: nat, j: nat)
    requires f1 in feedback && f2 in feedback && IsRecent(now, f1) && IsRecent(now, f2)
    requires f1.user == f2.user && f1.createdAt != f2.createdAt
    ensures i < j < |RecentUserRows(feedback, now)|
    ensures RecentUserRows(feedback, now)[i] == f1.user && RecentUserRows(feedback, now)[j] == f1.user
    ensures Distinct(RecentUsers(feedback, now))
  {
    var recent := Recent(feedback, now);
    var pairs := Dedup(Project(recent, UserAndTime));
    assert f1 in recent && f2 in recent;
    var k1 :| 0 <= k1 < |recent| && recent[k1] == f1;
    var k2 :| 0 <= k2 < |recent| && recent[k2] == f2;
    assert UserAndTime(f1) in Project(recent, UserAndTime) && UserAndTime(f2) in Project(recent, UserAndTime);
    var a :| 0 <= a < |pairs| && pairs[a] == UserAndTime(f1);
    var b :| 0 <= b < |pairs| && pairs[b] == UserAndTime(f2);
    assert a != b;
    i, j := if a < b then a else b, if a < b then b else a;
  }

  /** Every occurrence of a spammer in the checked list gives a spam entry, so a repeated spammer is listed twice. */
  lemma {:induction false} SpammersKeepRepeats(feedback: seq<Feedback>, users: set<Id>, now: int, us: seq<Id>, i: nat, j: nat)
      returns (a: nat, b: nat)
    requires i < j < |us| && us[i] == us[j] && IsSpammer(feedback, users, now, us[i])
    ensures a < b < |Spammers(feedback, users, now, us)|
    ensures Spammers(feedback, users, now, us)[a] == us[i] && Spammers(feedback, users, now, us)[b] == us[i]
  {
    var init := us[..|us| - 1];
    var before := Spammers(feedback, users, now, init);
    if j == |us| - 1 {
      assert us[i] == init[i];
      assert us[i] in before;
      a :| 0 <= a < |before| && before[a] == us[i];
      b := |before|;
    } else {
      assert init[i] == us[i] && init[j] == us[j];
      a, b := SpammersKeepRepeats(feedback, users, now, init, i, j);
    }
  }

  /**
   * detect_feedback_anomalies as written: the spam pass runs over the rows of the distinct
   * query, and the anomaly pass over its first 100 rows.
   */
  method DetectFeedbackAnomaliesAsWritten(feedback: seq<Feedback>, users: set<Id>, now: int)
    returns (spam: seq<SpamUser>, flagged: seq<UserAnomalies>)
    ensures SpamUserIds(spam) == Spammers(feedback, users, now, RecentUserRows(feedback, now))
    ensures forall x :: x in spam ==> x.reasons == ValidateSpamFeedback(feedback, x.user, now, SPAM_WINDOW_SECONDS).reasons
    ensures AnomalyUserIds(flagged) == Anomalous(feedback, Take(RecentUserRows(feedback, now), ANOMALY_USER_LIMIT))
    ensures forall x :: x in flagged ==> x.anomalies == RatingAnomalies(UserRatings(feedback, x.user))
  {
    var rows := RecentUserRows(feedback, now);
    spam := SpamUsers(feedback, users, now, rows);
    flagged := AnomalousUsers(feedback, Take(rows, ANOMALY_USER_LIMIT));
  }

  /**
   * The discrepancy: a spammer with feedback at two different times of the last hour gets two
   * spam entries as written.
   */
  lemma SpammerListedTwice(feedback: seq<Feedback>, users: set<Id>, now: int, f1: Feedback, f2: Feedback)
    requires f1 in feedback && f2 in feedback && IsRecent(now, f1) && IsRecent(now, f2)
    requires f1.user == f2.user && f1.createdAt != f2.createdAt && IsSpammer(feedback, users, now, f1.user)
    ensures exists a, b :: (0 <= a < b < |Spammers(feedback, users, now, RecentUserRows(feedback, now))|
                             && Spammers(feedback, users, now, RecentUserRows(feedback, now))[a] == f1.user
                             && Spammers(feedback, users, now, RecentUserRows(feedback, now))[b] == f1.user)
  {
    var i, j := RecentUserRepeats(feedback, now, f1, f2);
    var a, b := SpammersKeepRepeats(feedback, users, now, RecentUserRows(feedback, now), i, j);
  }

  /** Feedback of an anonymous user older than 90 days. */
  predicate Expired(f: Feedback, anonymous: set<Id>, now: int)
  {
    f.user in anonymous && f.createdAt < now - ANONYMOUS_RETENTION_DAYS * SECONDS_PER_DAY
  }

  /**
   * cleanup_old_feedback: deletes exactly the expired feedback, keeping the rest in order, and
   * returns how many it deleted. `anonymous` holds the ids of anonymous users.
   */
  function CleanupOldFeedback(feedback: seq<Feedback>, anonymous: set<Id>, now: int): (r: (seq<Feedback>, nat))
    ensures forall f :: f in r.0 <==> f in feedback && !Expired(f, anonymous, now)
    ensures r.1 == CountIf(feedback, (f: Feedback) => Expired(f, anonymous, now))
    ensures |r.0| + r.1 == |feedback|
  {
    var kept := Filter(feedback, (f: Feedback) => !Expired(f, anonymous, now));
    var expired := (f: Feedback) => Expired(f, anonymous, now);
    CountIfSplit(feedback, expired, (f: Feedback) => !Expired(f, anonymous, now), (f: Feedback) => true);
    CountIfAll(feedback, (f: Feedback) => true);
    (kept, CountIf(feedback, expired))
  }

  /** Feedback of registered users is never deleted, however old. */
  lemma RegisteredFeedbackKept(feedback: seq<Feedback>, anonymous: set<Id>, now: int, f: Feedback)
    requires f in feedback && f.user !in anonymous
    ensures f in CleanupOldFeedback(feedback, anonymous, now).0
  {
  }
}
