/**
 * The all-time rating records and the operations that move them: update_model_ratings
 * (ai_model/utils.py), the preference-to-result mapping and per-category updates of
 * _update_elo_ratings (feedback/services.py), and the batch job update_model_elo_ratings
 * (ai_model/tasks.py).
 *
 * The metric table is a map from (model, category, period) to the latest record of that
 * series. Each side of a rating update is its own write; nothing makes the pair atomic.
 * The same table is written by the metric jobs, whose results are specified in MetricJobs.
 */
module RatingStore {
  import opened Wrappers
  import opened Entities
  import opened Elo
  import Ordering
  import opened MetricCounters
  import opened MetricJobs

  const RESULT_A_WINS: string := "a_wins"
  const RESULT_B_WINS: string := "b_wins"
  const RESULT_TIE: string := "tie"

  function AllTimeKey(model: Id, category: string): MetricKey
  {
    MetricKey(model, category, PERIOD_ALL_TIME)
  }

  /** The rating a model has in a category; a model without a record rates 1500. */
  function CurrentRating(records: map<MetricKey, ModelMetric>, model: Id, category: string): (r: int)
    ensures AllTimeKey(model, category) !in records ==> r == INITIAL_RATING
    ensures AllTimeKey(model, category) in records ==> r == records[AllTimeKey(model, category)].eloRating
  {
    var k := AllTimeKey(model, category);
    if k in records then records[k].eloRating else DEFAULT_ELO
  }

  /** One row of the two-row loop: which record to write and how its counters move. */
  datatype Side = Side(key: MetricKey, rating: int, existed: bool, won: bool, lost: bool, tied: bool, at: int)

  function Inc(b: bool): int { if b then 1 else 0 }

  /** The write for one side: update the existing record in place, or create a new one. */
  function ApplySide(records: map<MetricKey, ModelMetric>, s: Side): (r: map<MetricKey, ModelMetric>)
    requires s.existed ==> s.key in records
  {
    if s.existed then
      var m := records[s.key];
      records[s.key := m.(eloRating := s.rating,
                          totalComparisons := m.totalComparisons + 1,
                          wins := m.wins + Inc(s.won),
                          losses := m.losses + Inc(s.lost),
                          ties := m.ties + Inc(s.tied))]
    else
      records[s.key := ModelMetric(s.key.model, s.key.category, s.key.period,
                                   1, Inc(s.won), Inc(s.lost), Inc(s.tied), None, s.rating, s.at)]
  }

  /** The two sides of update_model_ratings, computed from the records read before any write. */
  function Sides(e: ExpectedScore, records: map<MetricKey, ModelMetric>, a: Id, b: Id, result: string,
                 category: string, at: int): (sides: seq<Side>)
    ensures |sides| == 2
  {
    var ka := AllTimeKey(a, category);
    var kb := AllTimeKey(b, category);
    var scores := OutcomeScores(result);
    var r := NewRatings(e, CurrentRating(records, a, category), CurrentRating(records, b, category),
                        scores.0, Some(scores.1));
    [Side(ka, r.a, ka in records, result == RESULT_A_WINS, result == RESULT_B_WINS, result == RESULT_TIE, at),
     Side(kb, r.b, kb in records, result == RESULT_B_WINS, result == RESULT_A_WINS, result == RESULT_TIE, at)]
  }

  /** Applies the first `n` sides in order. */
  function ApplySides(records: map<MetricKey, ModelMetric>, sides: seq<Side>, n: nat): (r: map<MetricKey, ModelMetric>)
    requires n <= |sides|
    requires forall i :: 0 <= i < n && sides[i].existed ==> sides[i].key in records
    ensures forall k :: k in records ==> k in r
  {
    if n == 0 then records
    else ApplySide(ApplySides(records, sides, n - 1), sides[n - 1])
  }

  /** The records after update_model_ratings(a, b, result, category). */
  function AfterUpdate(e: ExpectedScore, records: map<MetricKey, ModelMetric>, a: Id, b: Id, result: string,
                       category: string, at: int): map<MetricKey, ModelMetric>
  {
    var sides := Sides(e, records, a, b, result, category, at);
    ApplySides(records, sides, |sides|)
  }

  /** The record a side leaves behind: one more comparison, the rating, and one counter per outcome flag. */
  lemma {:induction false} ApplySideEffect(records: map<MetricKey, ModelMetric>, s: Side)
    requires s.existed ==> s.key in records
    ensures var r := ApplySide(records, s);
      var m := r[s.key];
      && m.eloRating == s.rating
      && (s.existed ==>
            (&& m.totalComparisons == records[s.key].totalComparisons + 1
             && m.wins == records[s.key].wins + Inc(s.won)
             && m.losses == records[s.key].losses + Inc(s.lost)
             && m.ties == records[s.key].ties + Inc(s.tied)
             && m.averageRating == records[s.key].averageRating))
      && (!s.existed ==>
            (&& m.totalComparisons == 1 && m.wins == Inc(s.won)
             && m.losses == Inc(s.lost) && m.ties == Inc(s.tied)))
      && (forall k :: k in records && k != s.key ==> k in r && r[k] == records[k])
  {
  }

  /** A known result moves exactly one of wins, losses and ties on each side, and they mirror each other. */
  lemma OutcomeFlags(e: ExpectedScore, records: map<MetricKey, ModelMetric>, a: Id, b: Id, result: string,
                     category: string, at: int)
    requires result in {RESULT_A_WINS, RESULT_B_WINS, RESULT_TIE}
    ensures var s := Sides(e, records, a, b, result, category, at);
      && Inc(s[0].won) + Inc(s[0].lost) + Inc(s[0].tied) == 1
      && Inc(s[1].won) + Inc(s[1].lost) + Inc(s[1].tied) == 1
      && s[0].won == s[1].lost && s[0].lost == s[1].won && s[0].tied == s[1].tied
  {
  }

  /**
   * For two different models, update_model_ratings gives each side one more comparison,
   * its new rating and its counter, and leaves every other record as it was.
   */
  lemma {:induction false} UpdateEffect(e: ExpectedScore, records: map<MetricKey, ModelMetric>, a: Id, b: Id,
                                        result: string, category: string, at: int)
    requires a != b
    ensures var r := AfterUpdate(e, records, a, b, result, category, at);
      var ka := AllTimeKey(a, category);
      var kb := AllTimeKey(b, category);
      var scores := OutcomeScores(result);
      var rt := NewRatings(e, CurrentRating(records, a, category), CurrentRating(records, b, category),
                           scores.0, Some(scores.1));
      && ka in r && kb in r
      && r[ka].eloRating == rt.a && r[kb].eloRating == rt.b
      && r[ka].totalComparisons == (if ka in records then records[ka].totalComparisons else 0) + 1
      && r[kb].totalComparisons == (if kb in records then records[kb].totalComparisons else 0) + 1
      && r[ka].wins == (if ka in records then records[ka].wins else 0) + Inc(result == RESULT_A_WINS)
      && r[kb].losses == (if kb in records then records[kb].losses else 0) + Inc(result == RESULT_A_WINS)
      && r[kb].wins == (if kb in records then records[kb].wins else 0) + Inc(result == RESULT_B_WINS)
      && r[ka].losses == (if ka in records then records[ka].losses else 0) + Inc(result == RESULT_B_WINS)
      && r[ka].ties == (if ka in records then records[ka].ties else 0) + Inc(result == RESULT_TIE)
      && r[kb].ties == (if kb in records then records[kb].ties else 0) + Inc(result == RESULT_TIE)
      && (forall k :: k in records && k != ka && k != kb ==> k in r && r[k] == records[k])
  {
    var sides := Sides(e, records, a, b, result, category, at);
    var mid := ApplySide(records, sides[0]);
    assert ApplySides(records, sides, 1) == mid;
    assert AfterUpdate(e, records, a, b, result, category, at) == ApplySide(mid, sides[1]);
    ApplySideEffect(records, sides[0]);
    ApplySideEffect(mid, sides[1]);
  }

  /**
   * A model matched against itself: both sides write the same record and the second write
   * wins. An existing record counts two more comparisons; a missing one is created twice, and
   * the one record kept here counts one. Either way it holds the second side's rating,
   * computed from the rating read before the writes.
   */
  lemma SelfMatchSecondWriteWins(e: ExpectedScore, records: map<MetricKey, ModelMetric>, a: Id,
                                 result: string, category: string, at: int)
    ensures var r := AfterUpdate(e, records, a, a, result, category, at);
      var k := AllTimeKey(a, category);
      var scores := OutcomeScores(result);
      var rt := NewRatings(e, CurrentRating(records, a, category), CurrentRating(records, a, category),
                           scores.0, Some(scores.1));
      && k in r && r[k].eloRating == rt.b
      && r[k].totalComparisons == (if k in records then records[k].totalComparisons + 2 else 1)
      && (forall k' :: k' in records && k' != k ==> k' in r && r[k'] == records[k'])
  {
    var sides := Sides(e, records, a, a, result, category, at);
    var mid := ApplySide(records, sides[0]);
    assert ApplySides(records, sides, 1) == mid;
    assert AfterUpdate(e, records, a, a, result, category, at) == ApplySide(mid, sides[1]);
    ApplySideEffect(records, sides[0]);
    ApplySideEffect(mid, sides[1]);
  }

  /** Sums of the two ratings are kept by an a_wins/b_wins/tie update away from a half-way change. */
  lemma UpdateZeroSum(e: ExpectedScore, records: map<MetricKey, ModelMetric>, a: Id, b: Id, result: string,
                      category: string, at: int)
    requires ExpectedLaws(e) && a != b
    requires var ra := CurrentRating(records, a, category);
      var rb := CurrentRating(records, b, category);
      !IsHalfway(K_FACTOR as real * (OutcomeScores(result).0 - e(ra, rb))) || (ra + rb) % 2 == 0
    ensures var r := AfterUpdate(e, records, a, b, result, category, at);
      && AllTimeKey(a, category) in r && AllTimeKey(b, category) in r
      && r[AllTimeKey(a, category)].eloRating + r[AllTimeKey(b, category)].eloRating
        == CurrentRating(records, a, category) + CurrentRating(records, b, category)
  {
    UpdateEffect(e, records, a, b, result, category, at);
    var scores := OutcomeScores(result);
    assert scores.1 == 1.0 - scores.0;
    ZeroSum(e, CurrentRating(records, a, category), CurrentRating(records, b, category), scores.0);
  }

  /** Updates keep every record under its own key. */
  lemma {:induction false} ApplySidesKeepsKeys(records: map<MetricKey, ModelMetric>, sides: seq<Side>, n: nat)
    requires KeysConsistent(records)
    requires n <= |sides|
    requires forall i :: 0 <= i < n && sides[i].existed ==> sides[i].key in records
    ensures KeysConsistent(ApplySides(records, sides, n))
  {
    if n > 0 {
      ApplySidesKeepsKeys(records, sides, n - 1);
    }
  }

  /** Which result a preference stands for: A preferred, else B preferred, else a tie. */
  function PreferenceResult(preferred: Option<Id>, modelA: Option<Id>, modelB: Option<Id>): (result: string)
    ensures result == RESULT_A_WINS <==> preferred == modelA
    ensures result == RESULT_B_WINS <==> preferred != modelA && preferred == modelB
    ensures result == RESULT_TIE <==> preferred != modelA && preferred != modelB
  {
    if preferred == modelA then RESULT_A_WINS
    else if preferred == modelB then RESULT_B_WINS
    else RESULT_TIE
  }

  /** The categories _update_elo_ratings touches: 'overall' first, then each listed category. */
  function PreferenceCategories(categories: seq<string>): (cs: seq<string>)
    ensures |cs| == 1 + |categories| && cs[0] == "overall" && cs[1..] == categories
  {
    ["overall"] + categories
  }

  /** The records after a run of updates with the same pair and result, one per category in order. */
  function AfterUpdates(e: ExpectedScore, records: map<MetricKey, ModelMetric>, a: Id, b: Id, result: string,
                        categories: seq<string>, at: int): map<MetricKey, ModelMetric>
    decreases |categories|
  {
    if categories == [] then records
    else
      var before := AfterUpdates(e, records, a, b, result, categories[..|categories| - 1], at);
      AfterUpdate(e, before, a, b, result, categories[|categories| - 1], at)
  }

  /** Feedback the batch job may process: compare-mode preference feedback with its session's models. */
  datatype EloItem = EloItem(feedback: Feedback, modelA: Id, modelB: Id, compareMode: bool)

  function CreatedKey(x: EloItem): int { -x.feedback.createdAt }

  /** update_model_elo_ratings' query: unprocessed compare-mode preferences, oldest first, at most 100. */
  function EloBatch(items: seq<EloItem>, processed: set<Id>): (batch: seq<EloItem>)
    ensures |batch| == Ordering.Min(100, |Eligible(items, processed)|)
    ensures forall x :: x in batch ==> x in items
    ensures forall x :: x in batch ==> x.feedback.feedbackType == FEEDBACK_PREFERENCE && x.compareMode
                                       && x.feedback.id !in processed
    ensures Ordering.SortedBy(batch, CreatedKey)
  {
    var eligible := Eligible(items, processed);
    var sorted := Ordering.SortDesc(eligible, CreatedKey);
    var batch := Ordering.Take(sorted, 100);
    assert forall x :: x in batch ==> x in sorted;
    assert forall x :: x in sorted ==> x in multiset(eligible);
    Ordering.TakeKeepsOrder(sorted, 100, CreatedKey);
    batch
  }

  function Eligible(items: seq<EloItem>, processed: set<Id>): (r: seq<EloItem>)
    ensures forall x :: x in r <==> x in items && x.feedback.feedbackType == FEEDBACK_PREFERENCE
                                     && x.compareMode && x.feedback.id !in processed
  {
    if items == [] then []
    else
      var x := items[|items| - 1];
      var rest := Eligible(items[..|items| - 1], processed);
      assert items == items[..|items| - 1] + [x];
      if x.feedback.feedbackType == FEEDBACK_PREFERENCE && x.compareMode && x.feedback.id !in processed
      then rest + [x] else rest
  }

  /** No feedback left out of a full batch is older than one taken into it. */
  lemma OldestFirst(items: seq<EloItem>, processed: set<Id>, x: EloItem, y: EloItem)
    requires x in EloBatch(items, processed)
    requires y in Eligible(items, processed) && y !in EloBatch(items, processed)
    ensures x.feedback.createdAt <= y.feedback.createdAt
  {
    var eligible := Eligible(items, processed);
    var sorted := Ordering.SortDesc(eligible, CreatedKey);
    var batch := Ordering.Take(sorted, 100);
    assert y in multiset(eligible);
    assert y in multiset(sorted);
    var j :| 0 <= j < |sorted| && sorted[j] == y;
    var i :| 0 <= i < |batch| && batch[i] == x;
    assert batch[i] == sorted[i];
    assert i < j;
  }

  /** The effect of the first `n` batch entries on the records: one overall update per feedback with a preferred model. */
  function AfterBatch(e: ExpectedScore, records: map<MetricKey, ModelMetric>, batch: seq<EloItem>, n: nat, at: int)
    : map<MetricKey, ModelMetric>
    requires n <= |batch|
  {
    if n == 0 then records
    else AfterItem(e, AfterBatch(e, records, batch, n - 1, at), batch[n - 1], at)
  }

  /** One batch entry: a feedback without a preferred model changes nothing. */
  function AfterItem(e: ExpectedScore, records: map<MetricKey, ModelMetric>, x: EloItem, at: int): map<MetricKey, ModelMetric>
  {
    if x.feedback.preferred.None? then records
    else AfterUpdate(e, records, x.modelA, x.modelB,
                     PreferenceResult(x.feedback.preferred, Some(x.modelA), Some(x.modelB)), "overall", at)
  }

  /** The ids the first `n` batch entries mark as processed: exactly those with a preferred model. */
  function MarkedIds(batch: seq<EloItem>, n: nat): (ids: set<Id>)
    requires n <= |batch|
    ensures forall i :: 0 <= i < n && batch[i].feedback.preferred.Some? ==> batch[i].feedback.id in ids
    ensures forall id :: id in ids ==> exists i :: 0 <= i < n && batch[i].feedback.preferred.Some? && batch[i].feedback.id == id
  {
    if n == 0 then {}
    else
      var x := batch[n - 1];
      MarkedIds(batch, n - 1) + (if x.feedback.preferred.Some? then {x.feedback.id} else {})
  }

  /** A single update keeps every record under its own key. */
  lemma AfterUpdateKeepsKeys(e: ExpectedScore, records: map<MetricKey, ModelMetric>, a: Id, b: Id, result: string,
                             category: string, at: int)
    requires KeysConsistent(records)
    ensures KeysConsistent(AfterUpdate(e, records, a, b, result, category, at))
  {
    var sides := Sides(e, records, a, b, result, category, at);
    ApplySidesKeepsKeys(records, sides, |sides|);
  }

  lemma {:induction false} AfterBatchKeepsKeys(e: ExpectedScore, records: map<MetricKey, ModelMetric>,
                                               batch: seq<EloItem>, n: nat, at: int)
    requires KeysConsistent(records) && n <= |batch|
    ensures KeysConsistent(AfterBatch(e, records, batch, n, at))
  {
    if n > 0 {
      AfterBatchKeepsKeys(e, records, batch, n - 1, at);
      var x := batch[n - 1];
      if x.feedback.preferred.Some? {
        AfterUpdateKeepsKeys(e, AfterBatch(e, records, batch, n - 1, at), x.modelA, x.modelB,
                             PreferenceResult(x.feedback.preferred, Some(x.modelA), Some(x.modelB)), "overall", at);
      }
    }
  }

  lemma {:induction false} AfterUpdatesKeepsKeys(e: ExpectedScore, records: map<MetricKey, ModelMetric>, a: Id, b: Id,
                                                 result: string, categories: seq<string>, at: int)
    requires KeysConsistent(records)
    ensures KeysConsistent(AfterUpdates(e, records, a, b, result, categories, at))
    decreases |categories|
  {
    if categories != [] {
      AfterUpdatesKeepsKeys(e, records, a, b, result, categories[..|categories| - 1], at);
      AfterUpdateKeepsKeys(e, AfterUpdates(e, records, a, b, result, categories[..|categories| - 1], at),
                           a, b, result, categories[|categories| - 1], at);
    }
  }

  /** Feedback marked by one run is never offered to a later run. */
  lemma MarkedNotRepeated(items: seq<EloItem>, processed: set<Id>)
    ensures var batch := EloBatch(items, processed);
      forall x :: x in EloBatch(items, processed + MarkedIds(batch, |batch|)) ==> x.feedback.id !in MarkedIds(batch, |batch|)
  {
  }

  // ---------------------------------------------------------------- the batch query as written

  /** One keyword of a `filter(...)` call: the field it starts with, then the rest of its `__` path. */
  datatype Lookup = Lookup(field: string, rest: seq<string>)

  /** The fields of a feedback row (backend/feedback/models.py:16-39); there is no `metadata`. */
  const FEEDBACK_FIELDS: seq<string> := ["id", "user", "session", "message", "feedback_type", "preferred_model",
                                         "rating", "categories", "comment", "created_at"]

  /** update_model_elo_ratings' filter keywords, in the sorted order Django builds its `Q` from them. */
  const ELO_FILTER: seq<Lookup> := [Lookup("feedback_type", []), Lookup("metadata", ["elo_processed", "isnull"]),
                                    Lookup("session", ["mode"])]

  /** The first keyword whose leading name is not a field: the one Django's FieldError names. */
  function FirstUnresolved(fields: seq<string>, lookups: seq<Lookup>): (r: Option<string>)
    ensures r.None? <==> forall k :: k in lookups ==> k.field in fields
    ensures r.Some? ==> r.value !in fields && exists k :: k in lookups && k.field == r.value
  {
    if lookups == [] then None
    else if lookups[0].field !in fields then Some(lookups[0].field)
    else
      var r := FirstUnresolved(fields, lookups[1..]);
      assert forall k :: k in lookups[1..] ==> k in lookups;
      assert forall k :: k in lookups ==> k == lookups[0] || k in lookups[1..];
      r
  }

  /** The text of Django's FieldError for a keyword that names no field (the list of choices left out). */
  function FieldErrorText(name: string): string
  {
    "Cannot resolve keyword '" + name + "' into field."
  }

  /** The batch query names `metadata`, which feedback does not have, while its other keywords resolve. */
  lemma MetadataUnresolved()
    ensures FirstUnresolved(FEEDBACK_FIELDS, ELO_FILTER) == Some("metadata")
    ensures forall k :: k in ELO_FILTER && k.field != "metadata" ==> k.field in FEEDBACK_FIELDS
  {
    assert forall f :: f in FEEDBACK_FIELDS ==> |f| != |"metadata"|;
    assert ELO_FILTER[0].field == FEEDBACK_FIELDS[4] && ELO_FILTER[2].field == FEEDBACK_FIELDS[2];
  }

  /**
   * The discrepancy: a batch entry with a preferred model is marked by the intended job, while
   * the job as written raises at its query and marks nothing.
   */
  lemma EloJobAsWrittenMarksNothing(items: seq<EloItem>, processed: set<Id>, x: EloItem)
    requires x in EloBatch(items, processed) && x.feedback.preferred.Some?
    ensures FirstUnresolved(FEEDBACK_FIELDS, ELO_FILTER) == Some("metadata")
    ensures var batch := EloBatch(items, processed);
      x.feedback.id in MarkedIds(batch, |batch|) && x.feedback.id !in processed
  {
    MetadataUnresolved();
    var batch := EloBatch(items, processed);
    var i :| 0 <= i < |batch| && batch[i] == x;
  }

  /** Taking one id off the to-do set adds it to the visited ones when it names a model. */
  lemma VisitOne(ids: set<Id>, todo: set<Id>, known: set<Id>, id: Id)
    requires id in todo
    ensures id !in (ids - todo) * known
    ensures (ids - (todo - {id})) * known == (ids - todo) * known + (if id in known && id in ids then {id} else {})
  {
  }

  class RatingBook {
    var records: map<MetricKey, ModelMetric>

    ghost predicate Valid()
      reads this
    {
      KeysConsistent(records)
    }

    constructor ()
      ensures Valid() && records == map[]
    {
      records := map[];
    }

    /** update_model_ratings: reads both ratings, computes the new pair, then writes each side in turn. */
    method UpdateModelRatings(e: ExpectedScore, a: Id, b: Id, result: string, category: string, at: int)
      returns (newA: int, newB: int)
      modifies this
      ensures old(Valid()) ==> Valid()
      ensures var scores := OutcomeScores(result);
        Ratings(newA, newB) == NewRatings(e, CurrentRating(old(records), a, category),
                                          CurrentRating(old(records), b, category), scores.0, Some(scores.1))
      ensures records == AfterUpdate(e, old(records), a, b, result, category, at)
    {
      var ka := AllTimeKey(a, category);
      var kb := AllTimeKey(b, category);
      var ratingA := if ka in records then records[ka].eloRating else DEFAULT_ELO;
      var ratingB := if kb in records then records[kb].eloRating else DEFAULT_ELO;
      var scores := OutcomeScores(result);
      var ratings := NewRatings(e, ratingA, ratingB, scores.0, Some(scores.1));
      newA, newB := ratings.a, ratings.b;
      var sides := [Side(ka, newA, ka in records, result == RESULT_A_WINS, result == RESULT_B_WINS, result == RESULT_TIE, at),
                    Side(kb, newB, kb in records, result == RESULT_B_WINS, result == RESULT_A_WINS, result == RESULT_TIE, at)];
      assert sides == Sides(e, records, a, b, result, category, at);
      if Valid() {
        ApplySidesKeepsKeys(records, sides, 2);
      }
      WriteSides(sides);
    }

    /** The loop of update_model_ratings: one write per side, in order, each on the current record. */
    method WriteSides(sides: seq<Side>)
      requires forall i :: 0 <= i < |sides| && sides[i].existed ==> sides[i].key in records
      modifies this
      ensures records == ApplySides(old(records), sides, |sides|)
    {
      ghost var start := records;
      for i := 0 to |sides|
        invariant records == ApplySides(start, sides, i)
      {
        var s := sides[i];
        if s.existed {
          var m := records[s.key];
          records := records[s.key := m.(eloRating := s.rating,
                                         totalComparisons := m.totalComparisons + 1,
                                         wins := m.wins + Inc(s.won),
                                         losses := m.losses + Inc(s.lost),
                                         ties := m.ties + Inc(s.tied))];
        } else {
          records := records[s.key := ModelMetric(s.key.model, s.key.category, s.key.period,
                                                  1, Inc(s.won), Inc(s.lost), Inc(s.tied), None, s.rating, s.at)];
        }
      }
    }

    /** _update_elo_ratings: the session pair's result applied to 'overall' and then to each listed category. */
    method UpdateFromPreference(e: ExpectedScore, preferred: Option<Id>, a: Id, b: Id, categories: seq<string>, at: int)
      modifies this
      ensures old(Valid()) ==> Valid()
      ensures records == AfterUpdates(e, old(records), a, b, PreferenceResult(preferred, Some(a), Some(b)),
                                      PreferenceCategories(categories), at)
    {
      var result := PreferenceResult(preferred, Some(a), Some(b));
      var cats := PreferenceCategories(categories);
      ghost var start := records;
      for i := 0 to |cats|
        invariant records == AfterUpdates(e, start, a, b, result, cats[..i], at)
      {
        assert cats[..i + 1][..i] == cats[..i];
        var _, _ := UpdateModelRatings(e, a, b, result, cats[i], at);
      }
      assert cats[..|cats|] == cats;
      if old(Valid()) {
        AfterUpdatesKeepsKeys(e, start, a, b, result, cats, at);
      }
    }

    /**
     * update_model_elo_ratings: takes the batch, updates the overall ratings for each feedback
     * that names a preferred model, and returns the ids it marks as processed.
     */
    method ProcessEloBatch(e: ExpectedScore, items: seq<EloItem>, processed: set<Id>, at: int)
      returns (marked: set<Id>)
      modifies this
      ensures old(Valid()) ==> Valid()
      ensures var batch := EloBatch(items, processed);
        records == AfterBatch(e, old(records), batch, |batch|, at)
      ensures var batch := EloBatch(items, processed);
        marked == processed + MarkedIds(batch, |batch|)
    {
      var batch := EloBatch(items, processed);
      marked := ApplyEloBatch(e, batch, processed, at);
    }

    /**
     * update_model_elo_ratings as written: Django resolves the filter before reading a row,
     * and `metadata` is no field of feedback, so the call raises FieldError; no rating moves
     * and no feedback is marked (the method modifies nothing).
     */
    method ProcessEloBatchAsWritten(e: ExpectedScore, items: seq<EloItem>, processed: set<Id>, at: int)
      returns (r: Result<set<Id>>)
      ensures r == Err(FieldErrorText("metadata"))
    {
      var unresolved := FirstUnresolved(FEEDBACK_FIELDS, ELO_FILTER);
      MetadataUnresolved();
      r := Err(FieldErrorText(unresolved.value));
    }

    /** The loop of update_model_elo_ratings over its batch. */
    method ApplyEloBatch(e: ExpectedScore, batch: seq<EloItem>, processed: set<Id>, at: int) returns (marked: set<Id>)
      modifies this
      ensures old(Valid()) ==> Valid()
      ensures records == AfterBatch(e, old(records), batch, |batch|, at)
      ensures marked == processed + MarkedIds(batch, |batch|)
    {
      marked := processed;
      ghost var start := records;
      for i := 0 to |batch|
        invariant records == AfterBatch(e, start, batch, i, at)
        invariant marked == processed + MarkedIds(batch, i)
      {
        ApplyEloItem(e, batch[i], at);
        if batch[i].feedback.preferred.Some? {
          marked := marked + {batch[i].feedback.id};
        }
      }
      if old(Valid()) {
        AfterBatchKeepsKeys(e, start, batch, |batch|, at);
      }
    }

    /** One entry of update_model_elo_ratings' batch. */
    method ApplyEloItem(e: ExpectedScore, x: EloItem, at: int)
      modifies this
      ensures records == AfterItem(e, old(records), x, at)
    {
      if x.feedback.preferred.Some? {
        var result := PreferenceResult(x.feedback.preferred, Some(x.modelA), Some(x.modelB));
        var _, _ := UpdateModelRatings(e, x.modelA, x.modelB, result, "overall", at);
      }
    }

    // ------------------------------------------------------------ metric jobs

    /**
     * calculate_category_metrics, with the all-time lookup corrected: counters from the
     * comparisons in the window, the average only when ratings exist, and the rating of a
     * reused record left alone.
     */
    method CalculateCategoryMetrics(rows: seq<FeedbackRow>, model: Id, category: string, period: string, now: int)
      returns (m: ModelMetric)
      modifies this
      ensures var key := MetricKey(model, category, period);
        && m == Recalculated(BaseCorrected(old(records), key, now), rows, now)
        && records == old(records)[key := m]
      ensures old(Valid()) ==> Valid() && HasCounters(m, Counters(MetricKey(model, category, period), rows, now))
      ensures var key := MetricKey(model, category, period);
        if key in old(records) && Reused(key, old(records)[key], now)
        then m.eloRating == old(records)[key].eloRating && m.calculatedAt == old(records)[key].calculatedAt
        else m.eloRating == DEFAULT_ELO && m.calculatedAt == now
    {
      var key := MetricKey(model, category, period);
      var base := BaseCorrected(records, key, now);
      RecalculatedKeepsRating(base, rows, now);
      m := Recalculated(base, rows, now);
      records := records[key := m];
    }

    /** The inner loop of calculate_daily_metrics: every category of one model; a failing one is logged and skipped. */
    method CalculateModelCategories(rows: seq<FeedbackRow>, model: Id, categories: seq<string>, period: string,
                                    fails: Failure, now: int)
      modifies this
      ensures records == RecalculateCategories(old(records), rows, model, categories, period, fails, |categories|, now)
    {
      ghost var start := records;
      for j := 0 to |categories|
        invariant records == RecalculateCategories(start, rows, model, categories, period, fails, j, now)
      {
        if !fails(model, categories[j]) {
          var _ := CalculateCategoryMetrics(rows, model, categories[j], period, now);
        }
      }
    }

    /**
     * calculate_daily_metrics: the five categories of every active model; a failure is isolated
     * to its own (model, category) pair. Returns the number of active models.
     */
    method CalculateDailyMetrics(rows: seq<FeedbackRow>, models: seq<AIModel>, fails: Failure, now: int)
      returns (count: nat)
      modifies this
      ensures count == |ActiveModels(models)|
      ensures var ids := ModelIds(ActiveModels(models));
        records == RecalculateModels(old(records), rows, ids, DAILY_CATEGORIES, PERIOD_DAILY, fails, |ids|, now)
      ensures old(Valid()) ==>
        RecalculationOutcome(old(records), records,
                             ScheduledKeys(ModelIds(ActiveModels(models)), DAILY_CATEGORIES, PERIOD_DAILY, fails), rows, now)
    {
      var ids := ModelIds(ActiveModels(models));
      ghost var start := records;
      for i := 0 to |ids|
        invariant records == RecalculateModels(start, rows, ids, DAILY_CATEGORIES, PERIOD_DAILY, fails, i, now)
      {
        CalculateModelCategories(rows, ids[i], DAILY_CATEGORIES, PERIOD_DAILY, fails, now);
      }
      count := |ids|;
      if old(Valid()) {
        RecalculateModelsEffect(start, rows, ids, DAILY_CATEGORIES, PERIOD_DAILY, fails, |ids|, now);
        assert ids[..|ids|] == ids;
      }
    }

    /** calculate_weekly_metrics: the overall weekly record of every active model; nothing is caught. */
    method CalculateWeeklyMetrics(rows: seq<FeedbackRow>, models: seq<AIModel>, now: int)
      returns (count: nat)
      modifies this
      ensures count == |ActiveModels(models)|
      ensures old(Valid()) ==>
        RecalculationOutcome(old(records), records,
                             ScheduledKeys(ModelIds(ActiveModels(models)), ["overall"], PERIOD_WEEKLY, NEVER_FAILS), rows, now)
      ensures var ids := ModelIds(ActiveModels(models));
        records == RecalculateModels(old(records), rows, ids, ["overall"], PERIOD_WEEKLY, NEVER_FAILS, |ids|, now)
    {
      var ids := ModelIds(ActiveModels(models));
      ghost var start := records;
      for i := 0 to |ids|
        invariant records == RecalculateModels(start, rows, ids, ["overall"], PERIOD_WEEKLY, NEVER_FAILS, i, now)
      {
        CalculateModelCategories(rows, ids[i], ["overall"], PERIOD_WEEKLY, NEVER_FAILS, now);
      }
      count := |ids|;
      if old(Valid()) {
        RecalculateModelsEffect(start, rows, ids, ["overall"], PERIOD_WEEKLY, NEVER_FAILS, |ids|, now);
        assert ids[..|ids|] == ids;
      }
    }

    /** calculate_model_metrics: a new overall record per active model for the period; returns the model count. */
    method CalculateModelMetrics(rows: seq<FeedbackRow>, models: seq<AIModel>, period: string, now: int)
      returns (count: nat)
      modifies this
      ensures count == |ActiveModels(models)|
      ensures var ids := ModelIds(ActiveModels(models));
        records == AfterTaskRecords(old(records), rows, ids, period, |ids|, now)
      ensures old(Valid()) ==> Valid()
    {
      var ids := ModelIds(ActiveModels(models));
      ghost var start := records;
      for i := 0 to |ids|
        invariant records == AfterTaskRecords(start, rows, ids, period, i, now)
        invariant old(Valid()) ==> Valid()
      {
        records := records[MetricKey(ids[i], "overall", period) := TaskRecord(rows, ids[i], period, now)];
      }
      count := |ids|;
    }

    /** One target of _update_model_metrics: today's record, or a fresh one, with the day's average on a rating. */
    static method DailyRecord(records: map<MetricKey, ModelMetric>, model: Id, row: FeedbackRow, rows: seq<FeedbackRow>, now: int)
      returns (metric: ModelMetric)
      ensures metric == DailyAfterFeedback(records, model, row, rows, now)
      ensures KeysConsistent(records) ==> metric.Key() == DailyKey(model)
    {
      var key := DailyKey(model);
      metric := if key in records && Day(records[key].calculatedAt) == Day(now) then records[key]
                else NewMetric(model, "overall", PERIOD_DAILY, now);
      if HasTruthyRating(row.fb) {
        var today := Ordering.Filter(rows, (r: FeedbackRow) => IsTodayRating(r, model, now));
        metric := metric.(averageRating := Average(RatingValues(today)));
      }
    }

    /** _update_model_metrics: today's daily overall record of each target, its average refreshed on a rating. */
    method UpdateModelMetrics(row: FeedbackRow, rows: seq<FeedbackRow>, now: int)
      modifies this
      ensures var targets := MetricTargets(row);
        records == AfterTargets(old(records), targets, row, rows, |targets|, now)
      ensures old(Valid()) ==> Valid()
    {
      var targets := MetricTargets(row);
      ghost var start := records;
      for i := 0 to |targets|
        invariant records == AfterTargets(start, targets, row, rows, i, now)
        invariant old(Valid()) ==> Valid()
      {
        var key := DailyKey(targets[i]);
        var metric := DailyRecord(records, targets[i], row, rows, now);
        assert Valid() ==> metric.Key() == key;
        records := records[key := metric];
      }
    }

    /**
     * process_new_feedback: compare-mode preferences move the ratings first; every feedback then
     * refreshes today's metrics of its targets.
     */
    method ProcessNewFeedback(e: ExpectedScore, row: FeedbackRow, rows: seq<FeedbackRow>, now: int)
      requires row.sessionMode == MODE_COMPARE ==> row.sessionA.Some? && row.sessionB.Some?
      modifies this
      ensures var mid := if MovesRatings(row)
          then AfterUpdates(e, old(records), row.sessionA.value, row.sessionB.value,
                            PreferenceResult(row.fb.preferred, row.sessionA, row.sessionB),
                            PreferenceCategories(row.fb.categories), now)
          else old(records);
        records == AfterTargets(mid, MetricTargets(row), row, rows, |MetricTargets(row)|, now)
      ensures !MovesRatings(row) ==> forall k: MetricKey :: k.period == PERIOD_ALL_TIME ==>
        (k in records <==> k in old(records)) && (k in records ==> records[k] == old(records)[k])
      ensures old(Valid()) ==> Valid()
    {
      if MovesRatings(row) {
        UpdateFromPreference(e, row.fb.preferred, row.sessionA.value, row.sessionB.value, row.fb.categories, now);
      }
      ghost var mid := records;
      UpdateModelMetrics(row, rows, now);
      AfterTargetsEffect(mid, MetricTargets(row), row, rows, |MetricTargets(row)|, now);
    }

    /**
     * update_model_metrics_from_feedback: today's daily overall record of every model named by
     * the last hour's feedback; an id with no model is skipped. Returns how many ids were collected.
     */
    method UpdateMetricsFromRecentFeedback(rows: seq<FeedbackRow>, known: set<Id>, now: int)
      returns (count: nat)
      modifies this
      ensures count == |RecentModelIds(rows, now)|
      ensures HourlyDone(old(records), records, RecentModelIds(rows, now) * known, Hourly(old(records), rows, now))
    {
      var ids := RecentModelIds(rows, now);
      var todo := ids;
      ghost var start := records;
      while todo != {}
        invariant todo <= ids
        invariant HourlyDone(start, records, (ids - todo) * known, Hourly(start, rows, now))
        decreases |todo|
      {
        var id :| id in todo;
        ghost var done := (ids - todo) * known;
        VisitOne(ids, todo, known, id);
        if id in known {
          HourlyUnvisited(start, records, done, id, rows, now);
          HourlyStep(start, records, done, id, Hourly(start, rows, now));
          records := records[DailyKey(id) := HourlyFor(records, id, rows, now)];
        }
        todo := todo - {id};
      }
      count := |ids|;
    }

    /** cleanup_old_metrics: applies each retention rule in turn; returns how many records were deleted. */
    method CleanupOldMetrics(rules: seq<Retention>, now: int) returns (deleted: nat)
      modifies this
      ensures records == Pruned(old(records), rules, |rules|, now)
      ensures deleted == |old(records)| - |records|
      ensures old(Valid()) ==> Valid()
    {
      deleted := 0;
      ghost var start := records;
      for i := 0 to |rules|
        invariant records == Pruned(start, rules, i, now)
        invariant deleted == |start| - |records|
      {
        PruneRuleCount(records, rules[i], now);
        deleted := deleted + |ExpiredKeys(records, rules[i], now)|;
        records := PruneRule(records, rules[i], now);
      }
    }
  }
}
