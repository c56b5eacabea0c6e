# Arena core in Dafny

A verified model of the core of the arena backend. The arena is a Django service where users
chat with one AI model, or with two at once, say which answer they prefer, and watch the models
ranked by an ELO rating per category and per period. The model covers the parts of the backend
that hold the logic:

- **Rating engine and rating records**: the expected score, the rating update of the two sides of a
  match, the win/loss/tie counters, the metric records keyed by (model, category, period), the batch
  job that applies unprocessed preferences, and the periodic recalculation and cleanup of records
  (`Elo`, `RatingStore`, `MetricCounters`, `MetricHistory`, `MetricJobs`).
- **Leaderboard and statistics**: ranking and rank change, head-to-head records, strengths and
  weaknesses, provider aggregates and dominance, the formatted leaderboard, anomaly detection and the
  metric report (`Leaderboard`, `Comparison`, `MetricReports`).
- **Feedback**: the feedback validators and permissions, the feedback statistics of a session and of a
  model, and the consistency, anomaly and spam checks with their periodic tasks (`FeedbackRules`,
  `FeedbackStats`, `FeedbackChecks`).
- **Conversation tree**: the message table with its parent and child links, user messages, branches
  and regeneration, the success-only history, the tree, path finding, the root walk, the per-message
  cache and the analysis tasks (`MessageRules`, `MessageStore`, `MessagePaths`, `MessageCache`,
  `MessageAnalysis`).
- **Streaming**: the chunk escaping and the `a0:`/`b0:`/`ad:`/`bd:` framing, per-branch
  accumulation and status writes, the merge loops that read two branches until both end markers
  arrive, the server-sent-event framing with its retry loop, the provider request bodies and line
  filters, and the model service (`StreamFrames`, `StreamMerge`, `Sse`, `Providers`, `AIService`).
- **Sessions, users and the catalog**: session validation, saving, sharing and ownership transfer,
  random sessions, duplication with id remapping, export, conversation-flow analysis, the session
  cache and tasks; user defaults, sign-up validation, permissions and activity statistics; the model
  catalog's filters, capability listing, trend, per-model statistics, request validation, random
  pairing, recommendation and periodic validation (`SessionRules`, `SessionRow`, `SessionServices`,
  `SessionAnalysis`, `SessionExport`, `SessionTasks`, `Users`, `CatalogViews`, `ModelCatalog`,
  `ModelValidation`).

`Entities`, `Text`, `Ordering` and `Wrappers` hold the shared records, string helpers (lower-casing,
word splitting, `str(n)`, the 50-character title), counting, filtering and stable sorting, and the
`Option`/`Result` types.

The database tables become maps and sequences. A row whose fields a method updates in place
(`RatingStore.RatingBook`, `MessageStore.MessageTable`, `SessionRow.ChatSessionRow`,
`Users.UserRow`) is a class with `modifies` clauses. Loops over query results are methods with
loop invariants, proved against specification functions. Several inputs the source takes from its
environment become parameters:

- the current time, as an integer number of seconds;
- the random choices (`random.sample`, `secrets.token_urlsafe`, `uuid4`), as a given sample or a
  given fresh value;
- the thread and queue scheduling of the streaming code, as a given interleaving of queue items;
- the provider's HTTP responses, as given lines, with JSON decoding as a given function;
- `strftime` and `isoformat`, as given functions.

The ELO expected score `1/(1+10^((Rb-Ra)/400))` is a parameter with the laws it satisfies: it lies
strictly between 0 and 1, and the two sides' scores sum to 1. `round` is half-to-even.

## Model

| member | source | states |
|---|---|---|
| Elo.ExpectedEven | backend/ai_model/utils.py:21-23 | under the expected-score laws, two equal ratings each expect exactly one half |
| Elo.RoundHalfEven | backend/ai_model/utils.py:45 | Python's `round`: the result is within one half of the value, and a value exactly half-way goes to the even neighbour |
| Elo.RoundUnique | backend/ai_model/utils.py:45 | any integer within one half of the value that is even at a half-way point is the rounded value, so the rounding is fully determined |
| Elo.RoundOdd | backend/ai_model/utils.py:45 | rounding commutes with negation: round(-x) = -round(x) |
| Elo.RoundShift | backend/ai_model/utils.py:42-45 | adding an integer before rounding adds it after rounding, except at a half-way value shifted by an odd integer |
| Elo.CalculatorsAgree | backend/model_metrics/calculators.py:198-211 | EloCalculator (expected_b = 1 - expected_a, score_b = 1 - score_a) returns the same pair as EloRatingCalculator.calculate_new_ratings called without score_b (`AdvancedNewRatings` against `NewRatings`) |
| Elo.OutcomeScores | backend/ai_model/utils.py:70-76 | the two scores sum to 1 and lie in [0, 1]; A scores 1 exactly for 'a_wins', B scores 1 exactly for 'b_wins', anything else is a tie |
| Elo.UpdateBounded | backend/ai_model/utils.py:18-45 | with scores in [0, 1], each new rating differs from the old one by at most K = 32 (of `NewRatings`, the update both calculators share) |
| Elo.WinnerNeverLoses | backend/ai_model/utils.py:39-45 | a win never lowers the winner's rating and never raises the loser's |
| Elo.SwapSymmetric | backend/ai_model/utils.py:26-45 | exchanging the two ratings and the two scores exchanges the two new ratings |
| Elo.EvenMatch | backend/ai_model/utils.py:39-45 | 1500 against 1500: 'a_wins' gives (1516, 1484) and a tie gives (1500, 1500) |
| Elo.TieBetweenEqualsKeepsRatings | backend/ai_model/utils.py:39-45 | a tie between equal ratings leaves both unchanged |
| Elo.ZeroSum | backend/ai_model/utils.py:36-45 | with score_b = 1 - score_a the two new ratings keep the old total, unless the shared change lands exactly half-way and the total is odd |
| Elo.ZeroSumNeedsEvenTotalAtHalfway | backend/ai_model/utils.py:36-45 | the exception is real: an expected score giving a half-way change between ratings of odd total breaks the zero sum |
| RatingStore.CurrentRating | backend/ai_model/utils.py:54-68 | a model with no all-time record in the category reads as 1500; otherwise the stored record's rating is returned |
| RatingStore.Sides | backend/ai_model/utils.py:84-87 | update_model_ratings makes exactly two writes, one per side, decided from the records read before either write |
| RatingStore.ApplySideEffect | backend/ai_model/utils.py:88-107 | an existing record gets the new rating, one more comparison and one more of each flagged counter, its average untouched; a missing one is created with total 1 and the single flagged counter 1; no other record changes |
| RatingStore.OutcomeFlags | backend/ai_model/utils.py:84-87 | for a known result exactly one of wins/losses/ties moves on each side, and A's wins move exactly when B's losses move (and the other way round) |
| RatingStore.UpdateEffect | backend/ai_model/utils.py:48-109 | for two different models each side ends with one more comparison, its new rating and its counter, and every other record is unchanged |
| RatingStore.SelfMatchSecondWriteWins | backend/ai_model/utils.py:84-99 | a model matched against itself keeps the second side's rating; an existing record counts two more comparisons, and nothing else changes |
| RatingStore.UpdateZeroSum | backend/ai_model/utils.py:79-95 | an 'a_wins'/'b_wins'/'tie' update keeps the sum of the two all-time ratings, away from a half-way change |
| RatingStore.ApplySidesKeepsKeys | backend/ai_model/utils.py:88-107 | the writes keep every record filed under its own (model, category, period) |
| RatingStore.AfterUpdateKeepsKeys | backend/ai_model/utils.py:84-107 | a whole update keeps every record filed under its own key |
| RatingStore.PreferenceResult | backend/feedback/services.py:249-254 | 'a_wins' exactly when the preferred model is model A, 'b_wins' exactly when it is B and not A, 'tie' otherwise |
| RatingStore.PreferenceCategories | backend/feedback/services.py:256-271 | the updates run for 'overall' first and then for each listed category, in order |
| RatingStore.EloBatch | backend/ai_model/tasks.py:83-87 | the batch holds the first min(100, eligible) unprocessed compare-mode preference feedbacks from the input, oldest first |
| RatingStore.Eligible | backend/ai_model/tasks.py:83-86 | a feedback is eligible exactly when it is a compare-mode preference not yet processed |
| RatingStore.OldestFirst | backend/ai_model/tasks.py:83-87 | no eligible feedback left out of the batch is older than one taken into it |
| RatingStore.MarkedIds | backend/ai_model/tasks.py:89-110 | exactly the batch entries with a preferred model are marked processed |
| RatingStore.MarkedNotRepeated | backend/ai_model/tasks.py:83-110 | a feedback marked by one run is never offered to a later run |
| RatingStore.FirstUnresolved | backend/ai_model/tasks.py:83-87 | the keyword Django's FieldError names: none exactly when every keyword starts with a field of the model, otherwise a keyword's leading name that is no field |
| RatingStore.MetadataUnresolved | backend/ai_model/tasks.py:83-87 | the batch query's `metadata` keyword names no field of feedback (backend/feedback/models.py:16-39), while its other keywords resolve |
| RatingStore.EloJobAsWrittenMarksNothing | backend/ai_model/tasks.py:83-110 | a batch entry with a preferred model, which the intended job marks processed, is left unmarked by the job as written, whose query raises first |
| RatingStore.AfterBatchKeepsKeys | backend/ai_model/tasks.py:89-106 | the batch keeps every record filed under its own key |
| RatingStore.AfterUpdatesKeepsKeys | backend/feedback/services.py:256-271 | the per-category updates keep every record filed under its own key |
| RatingStore.RatingBook.UpdateModelRatings | backend/ai_model/utils.py:48-109 | the new records are those of the two-side update computed from the ratings read first; the returned pair is the calculator's |
| RatingStore.RatingBook.WriteSides | backend/ai_model/utils.py:84-107 | the loop applies the two writes in order, each to the record as the previous write left it |
| RatingStore.RatingBook.UpdateFromPreference | backend/feedback/services.py:245-271 | one update for 'overall' and then one per listed category, all with the result the preference stands for; keys stay consistent |
| RatingStore.RatingBook.ProcessEloBatchAsWritten | backend/ai_model/tasks.py:79-87 | as written: every run raises FieldError "Cannot resolve keyword 'metadata' into field." at the batch query; no rating moves and nothing is marked |
| RatingStore.RatingBook.ProcessEloBatch | backend/ai_model/tasks.py:79-112 | as intended, with the processed mark kept outside the feedback row: the records after applying every batch entry with a preferred model as an overall update, and the processed set grown by exactly those entries |
| RatingStore.RatingBook.ApplyEloBatch | backend/ai_model/tasks.py:89-110 | the loop over the batch reaches the batch's specified effect and marks exactly the entries with a preferred model |
| RatingStore.RatingBook.ApplyEloItem | backend/ai_model/tasks.py:90-106 | a feedback without a preferred model changes nothing; otherwise one overall update with its result |
| RatingStore.RatingBook.CalculateCategoryMetrics | backend/model_metrics/calculators.py:18-110 | only the (model, category, period) record changes; its counters are those of the window's comparisons, and a reused record keeps its rating while a new one starts at 1500 |
| RatingStore.RatingBook.CalculateModelCategories | backend/model_metrics/tasks.py:26-35 | each category of the model is recalculated in turn, and one that fails is skipped without stopping the others |
| RatingStore.RatingBook.CalculateDailyMetrics | backend/model_metrics/tasks.py:17-37 | every (active model, category) pair that does not fail is recalculated, a failure touches only its own pair, and the count is the number of active models |
| RatingStore.RatingBook.CalculateWeeklyMetrics | backend/model_metrics/tasks.py:40-53 | every active model's overall weekly record is recalculated; the count is the number of active models |
| RatingStore.RatingBook.CalculateModelMetrics | backend/ai_model/tasks.py:12-75 | every active model gets a new overall record for the period with the window's counters; the count is the number of active models |
| RatingStore.RatingBook.DailyRecord | backend/feedback/services.py:292-315 | today's daily overall record of the model (or a fresh one), its average refreshed only for a rating feedback |
| RatingStore.RatingBook.UpdateModelMetrics | backend/feedback/services.py:273-315 | each target's daily record is refreshed in turn; keys stay consistent |
| RatingStore.RatingBook.ProcessNewFeedback | backend/feedback/services.py:226-234 | only compare-mode preferences move ratings, before the metric refresh; any other feedback leaves every all-time record as it was |
| RatingStore.RatingBook.UpdateMetricsFromRecentFeedback | backend/feedback/tasks.py:15-86 | every model id named by the last hour's feedback that has a model gets today's daily record refreshed; the count is the number of ids collected |
| RatingStore.RatingBook.CleanupOldMetrics | backend/ai_model/tasks.py:143-165 | each retention rule deletes its period's records older than its cutoff, and the returned count is the number of records deleted |
| MetricCounters.WindowDays | backend/model_metrics/calculators.py:25-32 | daily counts 1 day, weekly 7, monthly 30; any other period has no window |
| MetricCounters.WindowStart | backend/model_metrics/calculators.py:25-32 | the earliest creation time a period counts is `now` minus its window, and no bound for all-time |
| MetricCounters.WindowsNest | backend/model_metrics/calculators.py:25-32 | a longer period's window starts no later than a shorter one's, so it never counts less |
| MetricCounters.Outcomes | backend/model_metrics/calculators.py:87-94 | wins + losses + ties = total, none negative, and the ties are exactly the comparisons with no preferred model |
| MetricCounters.Average | backend/model_metrics/calculators.py:67-68 | Django's Avg: none for no values, otherwise the value whose product with the count is the sum |
| MetricCounters.AverageBounds | backend/model_metrics/calculators.py:67-68 | an average of ratings between lo and hi lies between lo and hi |
| MetricCounters.LowerKeys | backend/model_metrics/calculators.py:178-181 | the records rated strictly lower are all-time records of the same category |
| MetricCounters.PercentileRank | backend/model_metrics/calculators.py:151-184 | with the latest-per-model query corrected to order by `model_id` first (`MetricHistory.LatestPerModelRuns`): 0.0 for a model without an all-time record; 100.0 when it is the category's only rated model; otherwise the share, in percent, of the other models rated below it; always within [0, 100] |
| MetricCounters.PercentileRankAsWritten | backend/model_metrics/calculators.py:151-175 | as written: 0.0 for a model without an all-time record, before the second query runs; otherwise `.count()` runs `order_by('model', '-calculated_at').distinct('model')` and the call fails with PostgreSQL's DISTINCT ON error |
| MetricCounters.LowerBound | backend/model_metrics/calculators.py:174-183 | at most the other models are rated lower, so the share never exceeds 100 |
| MetricCounters.PercentileExtremes | backend/model_metrics/calculators.py:174-184 | among several models, one rated no higher than any other is at 0 |
| MetricHistory.LatestWhere | backend/model_metrics/calculators.py:157-161 | `order_by('-calculated_at').first()`: a matching row no older than any other matching row, and none exactly when no row matches |
| MetricHistory.LatestOf | backend/ai_model/view.py:248-252 | the row of the series no older than any other of the series; none exactly when the series is empty |
| MetricHistory.PreviousOf | backend/ai_model/view.py:238-242 | the newest row of the same series calculated strictly before the given one; none exactly when there is no older row |
| MetricHistory.SeriesModels | backend/model_metrics/calculators.py:169-172 | each model with a row of the (category, period) series appears exactly once |
| MetricHistory.ModelIdOrder | backend/ai_model/view.py:205-210 | the order of the corrected query `order_by('model_id', '-calculated_at')`: the models of the series, each once, in strictly increasing id order, as many as have a row of the series |
| MetricHistory.LatestMetrics | backend/ai_model/view.py:205-210 | the corrected query `order_by('model_id', '-calculated_at').distinct('model')`, which PostgreSQL accepts (`MetricHistory.LatestPerModelAccepted`): one row per model of the series, each its model's latest, in increasing model-id order |
| MetricHistory.LatestRow | backend/model_metrics/calculators.py:157-161 | the latest row of a series known to have one, belonging to that model |
| MetricHistory.LatestMetricsComplete | backend/ai_model/view.py:205-210 | for the corrected query: a model has a row in the list exactly when it has a row of the series, and it is that series' latest |
| MetricHistory.OrderByModelRefused | backend/ai_model/view.py:205-210 | `order_by('model', '-calculated_at').distinct('model')`, as written here and at backend/model_metrics/services.py:55-60, backend/model_metrics/calculators.py:169-172 and backend/model_metrics/aggregators.py:120-123, is refused: ordering by `model` sorts on the catalog's provider and model name (backend/ai_model/models.py:35), not on `model_id` |
| MetricHistory.LatestPerModelAccepted | backend/ai_model/view.py:205-210 | ordered by `model_id` first, the latest-row-per-model query is accepted |
| MetricHistory.LatestPerModelRuns | backend/ai_model/view.py:205-210 | as written the query fails with the DISTINCT ON error on every table, even an empty one; corrected, it returns LatestMetrics |
| MetricHistory.LatestMetricsAsWritten | backend/ai_model/view.py:205-210 | as written: the leaderboard view's query fails with PostgreSQL's DISTINCT ON error, whatever the series holds |
| MetricJobs.GetOrCreateToday | backend/feedback/services.py:292-300 | the record keyed on today's date is reused when it was written today, otherwise a fresh record for the key is created |
| MetricJobs.Counters | backend/model_metrics/calculators.py:70-94 | the counters of a key count compare-mode preferences of its category within its window |
| MetricJobs.RecalculatedKeepsRating | backend/model_metrics/calculators.py:67-110 | recalculation writes counters and the average and never assigns the rating, the key or the date |
| MetricJobs.AllTimeRecalculationResetsRating | backend/model_metrics/calculators.py:35-44 | as written, an all-time recalculation looks the record up with `calculated_at__date=None`, misses it, and the rating restarts at 1500 |
| MetricJobs.CorrectedRecalculationKeepsRating | backend/model_metrics/calculators.py:35-44 | with the lookup corrected, an existing record keeps its rating in every period |
| MetricJobs.RecalculateEffect | backend/model_metrics/calculators.py:35-108 | one recalculation writes exactly its own key, with its counters, keeping a reused record's rating and date (the effect of `Recalculate`) |
| MetricJobs.WriteOutcome | backend/model_metrics/calculators.py:87-108 | writing one record that holds its key's counters accounts for that key |
| MetricJobs.RecalculationsCompose | backend/model_metrics/tasks.py:25-35 | two recalculation passes in a row account for the union of their keys |
| MetricJobs.RecalculateCategoriesEffect | backend/model_metrics/tasks.py:26-35 | a failing (model, category) pair leaves its record as it was, every other pair is calculated, and no reused rating is touched |
| MetricJobs.RecalculateModelsEffect | backend/model_metrics/tasks.py:25-35 | the pass over all models accounts for exactly the scheduled pairs that do not fail |
| MetricJobs.TaskRecord | backend/ai_model/tasks.py:29-71 | calculate_model_metrics' record is an overall record of the period with consistent counters (wins + losses + ties = total, ties not negative) and the rating 1500 |
| MetricJobs.ActiveModels | backend/ai_model/tasks.py:27 | exactly the active models of the store |
| MetricJobs.TaskRecordsEffect | backend/ai_model/tasks.py:27-71 | a fresh overall record for every listed model and no other key touched; run for all-time it puts every rating back at 1500 |
| MetricJobs.MetricTargets | backend/feedback/services.py:277-290 | the message's model when it has one; otherwise both session models in compare mode; otherwise model A; a missing model is skipped |
| MetricJobs.RecentModelIds | backend/feedback/tasks.py:19-34 | exactly the models named by the last hour's feedback, through its message or its session |
| MetricJobs.RecentModelIdsCover | backend/feedback/tasks.py:28-34 | every model a recent feedback names is visited |
| MetricJobs.ModelsOf | backend/feedback/tasks.py:29-34 | the models one feedback names: its message's model and its session's two models |
| MetricJobs.HourlyRecord | backend/feedback/tasks.py:42-80 | the day's record for one model holds today's rating average and today's comparison counters |
| MetricJobs.AfterTargetsEffect | backend/feedback/services.py:288-315 | a feedback only ever writes today's daily overall records of its targets |
| MetricJobs.PruneRule | backend/ai_model/tasks.py:156-162 | a retention rule deletes exactly its period's records older than its cutoff |
| MetricJobs.PruneRuleCount | backend/ai_model/tasks.py:156-162 | the records kept and the records deleted add up to the records there were |
| MetricJobs.Pruned | backend/ai_model/tasks.py:154-162 | the rules apply in turn; nothing is added |
| MetricJobs.CleanupKeepsAllTime | backend/ai_model/tasks.py:143-165 | all-time records, and records of periods without a rule, survive both cleanup jobs |
| MetricJobs.CleanupCutoffsDiffer | backend/model_metrics/tasks.py:215-230 | the two cleanup jobs disagree: one deletes a daily record at 30 days, the other waits 90 |
| Comparison.GetHeadToHeadStats | backend/model_metrics/services.py:378-425 | the total counts the preferences of compare sessions pairing the two models either way round; A's and B's wins count the preferences naming each, ties are the rest (A wins + B wins + ties = total); each percentage is its share of the total, 0 without comparisons |
| Comparison.Percent | backend/model_metrics/services.py:417-423 | 0 for a zero total; otherwise the value that times the total is part·100, within [0, 100] when the part does not exceed the total |
| Comparison.HeadToHeadSymmetric | backend/model_metrics/services.py:383-415 | for two different models, asking about (B, A) finds the same comparisons as (A, B), and A's wins are the second model's wins of the swapped query |
| Comparison.CategoryBreakdown | backend/model_metrics/services.py:280-312 | a requested category has an entry exactly when both models have an all-time record in it, and the entry holds both latest records and their differences (missing averages counting as 0) |
| Comparison.PerformanceComparison | backend/model_metrics/services.py:354-374 | present exactly when both models have an overall all-time record; `model_a_better` holds exactly when A's latest rating is higher, with the rating, win-rate and average differences |
| Comparison.DailySince | backend/model_metrics/services.py:315-333 | exactly the model's daily overall records calculated since 30 days ago, oldest first |
| Comparison.ByDay | backend/model_metrics/services.py:336-337 | every day maps to a record of that day from the list |
| Comparison.ByDayKeepsLatest | backend/model_metrics/services.py:336-337 | with the rows oldest first, the row kept for a day is no older than any other row of that day |
| Comparison.SortedDays | backend/model_metrics/services.py:339 | `sorted(set(...))`: exactly the given days, strictly increasing |
| Comparison.PointOf | backend/model_metrics/services.py:344-351 | a side is shown exactly when the model has a record that day |
| Comparison.HistoricalComparison | backend/model_metrics/services.py:314-352 | one entry per day on which either model has a daily record in the window, days strictly increasing; a side is None exactly when its model has no record that day |
| Comparison.MergeDays | backend/model_metrics/services.py:339-352 | the merge loop yields each day of either side once, in increasing order, with each side's point of that day |
| Comparison.HistoricalPointIsLatest | backend/model_metrics/services.py:317-351 | a side shown for a day carries the rating of the model's latest daily record of that day in the window |
| Leaderboard.Ranked | backend/model_metrics/services.py:54-67 | with the latest-per-model query corrected to order by `model_id` first (`MetricHistory.LatestPerModelRuns`): the leaderboard's rows are ordered highest rating first and hold at most one row per model with a record |
| Leaderboard.SortedPrefix | backend/model_metrics/services.py:63-67 | cutting a sorted list with `[:limit]` keeps it sorted |
| Leaderboard.RankedBoard | backend/model_metrics/services.py:54-67 | for the corrected query: each model appears at most once with its latest row; a non-negative limit gives min(limit, models) rows; a model left off rates no higher than every model on the board |
| Leaderboard.PrefixOfPermutation | backend/model_metrics/services.py:63-67 | a prefix of the sorted latest rows keeps their models distinct, and every row it leaves off rates no higher than the rows it keeps |
| Leaderboard.PreviousRank | backend/model_metrics/services.py:72-87 | a previous rank exists exactly when the model has an older row, and it is at least 1 |
| Leaderboard.PreviousRankOfBest | backend/model_metrics/services.py:82-87 | a model whose previous row had no higher-rated row that day held rank 1 |
| Leaderboard.RankChange | backend/model_metrics/services.py:89-91 | no previous rank gives 0; otherwise the change is positive exactly when the model climbed and 0 exactly when it kept its rank |
| Leaderboard.GetLeaderboard | backend/model_metrics/services.py:41-126 | with the latest-per-model query corrected: a non-empty cached board is returned unchanged; otherwise entry i holds rank i+1, the i-th ranked row, its rank change and its model's last-week stats, ordered by rating |
| Leaderboard.GetLeaderboardAsWritten | backend/model_metrics/services.py:41-67 | as written: a non-empty cached board is returned; otherwise the latest-per-model query is refused and the call fails with PostgreSQL's DISTINCT ON error |
| Leaderboard.BuildBoard | backend/model_metrics/services.py:71-121 | one entry per ranked row, in order |
| Leaderboard.RecentStats | backend/model_metrics/services.py:93-112 | an entry's stats: the model's rated and compared feedback of the last seven days together are at most its recent feedback, and its message count is at most the messages |
| Leaderboard.QuietModelStats | backend/model_metrics/services.py:93-112 | a model with no feedback and no message in the last seven days has all three counts at zero |
| Leaderboard.BoardOrdered | backend/model_metrics/services.py:63-121 | down the board ratings never increase |
| Leaderboard.Breakdown | backend/model_metrics/services.py:158-175 | exactly the listed categories with an all-time record appear, each with the rating of its latest record |
| Leaderboard.StrengthIsNearTop | backend/model_metrics/services.py:193-206 | a strength is one of the model's categories, rated above 1500 and outranked by at most one other category |
| Leaderboard.WeaknessIsNearBottom | backend/model_metrics/services.py:208-213 | a weakness is one of the model's categories, rated below 1500, with at most one category rated lower |
| Leaderboard.CommonFeedbackCategories | backend/model_metrics/services.py:236-255 | at most five distinct categories, most mentioned first, each with its true number of mentions; a category left out is mentioned no more often than any listed one |
| Leaderboard.Mentions | backend/model_metrics/services.py:241-244 | a category is mentioned exactly when some feedback lists it |
| Leaderboard.GetChangeIndicator | backend/model_metrics/utils.py:110-139 | 'new' with value 0 without a previous rank; otherwise up, down or stable exactly as the previous rank is above, below or equal to the current one, with the absolute difference as the value |
| Leaderboard.IndicatorMatchesRankChange | backend/model_metrics/utils.py:110-139 | the indicator agrees with get_leaderboard's `change`: up for a positive change and down for a negative one, by the same amount |
| Leaderboard.FormatLeaderboardEntry | backend/model_metrics/utils.py:82-108 | rank, model, rating, battles and average are the record's; the win rate is 0 without comparisons and within [0, 100]; the indicator is 'new' exactly when there is no previous rank |
| Leaderboard.FormatComparisonResult | backend/model_metrics/utils.py:141-162 | a missing rating counts as 0; the winner is the higher rating (or a tie), the difference is its absolute value, and the two win probabilities are the expected scores in percent, summing to 100 |
| Leaderboard.ComparisonSwaps | backend/model_metrics/utils.py:141-162 | swapping the two sides swaps the winner and the two probabilities and keeps the difference |
| Leaderboard.ExportLeaderboard | backend/model_metrics/utils.py:203-222 | one export entry per board entry, in board order, with its rank, model, rating and battles; the win rate is always 0 because a board entry has no `win_rate` key; `total_models` is the number of entries |
| MetricReports.Mean | backend/model_metrics/aggregators.py:53-54 | the average rating stays 0 when the provider has no active model |
| MetricReports.Present | backend/model_metrics/aggregators.py:31-38 | at most one latest overall all-time record per active model, and one for each when every model has one |
| MetricReports.Entries | backend/model_metrics/aggregators.py:46-51 | one model entry per present record, in order, with its rating and win rate |
| MetricReports.Ratings | backend/model_metrics/aggregators.py:43-44 | only truthy average ratings are collected, at most one per record |
| MetricReports.RealMean | backend/model_metrics/aggregators.py:56-57 | the average of averages is absent exactly when no record has a truthy average |
| MetricReports.AggregateProviderMetrics | backend/model_metrics/aggregators.py:13-62 | the model count is the provider's active models; totals sum the present records; the average rating divides by all active models, recorded or not; the entries are the present records, highest rating first |
| MetricReports.AccumulateProvider | backend/model_metrics/aggregators.py:31-51 | the loop's totals, ratings and entries are exactly those of the present records |
| MetricReports.MeanBetween | backend/model_metrics/aggregators.py:53-54 | a mean of a total between count·lo and count·hi lies between lo and hi |
| MetricReports.AverageEloBounds | backend/model_metrics/aggregators.py:28-54 | when every active model has a record rated within [lo, hi], the provider's average rating is within [lo, hi] |
| MetricReports.MissingRecordCountsAsZero | backend/model_metrics/aggregators.py:38-54 | an active model without a record drags the average down as a zero: with ratings at most hi > 0 the average is strictly below hi |
| MetricReports.MissingShortens | backend/model_metrics/aggregators.py:31-38 | a model without a record leaves fewer present records than active models |
| MetricReports.Clamp100 | backend/model_metrics/aggregators.py:167 | `min(100, max(0, x))` lies in [0, 100] and keeps a value already in that range |
| MetricReports.DominanceScore | backend/model_metrics/aggregators.py:149-169 | always within [0, 100]; 100 with fewer than two metrics or no other metric |
| MetricReports.DominanceScale | backend/model_metrics/aggregators.py:155-167 | against the others' average: no lead gives 0, a lead of 200 points or more gives 100, and a lead in between scales linearly (lead / 2) |
| MetricReports.OthersSum | backend/model_metrics/aggregators.py:156 | among distinct models, the others of a member are all the rest and their ratings sum to the total without it |
| MetricReports.DominanceOfMember | backend/model_metrics/aggregators.py:156-167 | among distinct models, a member's score is the scaled lead over the total without it |
| MetricReports.LeadMonotone | backend/model_metrics/aggregators.py:160-163 | a higher rating has a larger lead over the others |
| MetricReports.LeadScoreMonotone | backend/model_metrics/aggregators.py:165-167 | the clamped scale never reverses order |
| MetricReports.DominanceMonotone | backend/model_metrics/aggregators.py:149-169 | among distinct models, a higher rating never gets a lower dominance score |
| MetricReports.CalculateCategoryDominance | backend/model_metrics/aggregators.py:108-147 | with the latest-per-model query corrected to order by `model_id` first (`MetricHistory.LatestPerModelRuns`): exactly the seven listed categories get a list, each the dominance entries of that category's five best-rated latest all-time records |
| MetricReports.CalculateCategoryDominanceAsWritten | backend/model_metrics/aggregators.py:108-123 | as written: the first category's latest-per-model query is refused, so every call fails with PostgreSQL's DISTINCT ON error before any list is built |
| MetricReports.DominanceList | backend/model_metrics/aggregators.py:134-145 | the entry loop yields the entries ranked from 1, in order |
| MetricReports.DominanceFollowsRank | backend/model_metrics/aggregators.py:118-145 | for the corrected query: a category's list has at most five entries ranked 1..n, and down the list neither the rating nor the dominance score increases |
| MetricReports.AnomalyOf | backend/model_metrics/tasks.py:96-106 | the change is the absolute gap to the previous record of the series, and the direction is 'increase' exactly when the rating rose |
| MetricReports.AnomaliesIn | backend/model_metrics/tasks.py:81-106 | exactly one anomaly per recent row that moved more than 100 points from its series' previous record, and every anomaly's change exceeds 100 |
| MetricReports.DetectAnomalousMetrics | backend/model_metrics/tasks.py:76-111 | the job returns the anomalies of the whole table, in table order |
| MetricReports.FirstRecordNotAnomalous | backend/model_metrics/tasks.py:89-100 | the first record of a series is never flagged, however far it is from 1500 |
| MetricReports.MoverOf | backend/model_metrics/tasks.py:146-167 | a model is a mover exactly when it has a current and a week-old overall all-time record more than 50 points apart; the change is current minus week-old |
| MetricReports.Candidates | backend/model_metrics/tasks.py:146-167 | the candidates are exactly the movers among the active models, each moving more than 50 points |
| MetricReports.BiggestMovers | backend/model_metrics/tasks.py:143-171 | at most ten candidates, largest absolute change first; a candidate left out means the list is full of movers at least as large |
| MetricReports.LargestFirst | backend/model_metrics/tasks.py:169-171 | sorting by absolute change and taking k keeps candidates only, in order, none smaller than one left out |
| MetricReports.CollectCandidates | backend/model_metrics/tasks.py:146-167 | the loop over the active models collects exactly the candidates |
| MetricReports.TopModels | backend/model_metrics/tasks.py:127-141 | at most five top models per category |
| MetricReports.TopModelsRanked | backend/model_metrics/tasks.py:127-141 | the top models are listed best first, each with the rating of its latest all-time record |
| MetricReports.ActiveProviders | backend/model_metrics/tasks.py:174 | each provider of an active model appears exactly once (the intended half of the provider query) |
| MetricReports.GenerateMetricReport | backend/model_metrics/tasks.py:113-182 | the report holds the top models of exactly the four report categories, at most ten movers, and one summary per provider of an active model with that provider's average rating and model count |
| MetricReports.ActivePairs | backend/model_metrics/tasks.py:174 | with the catalog's default ordering the distinct rows are (provider, model name) pairs: each pair of an active model exactly once |
| MetricReports.ActiveProviderRows | backend/model_metrics/tasks.py:174 | the provider query as written: one provider per distinct pair, so exactly the providers of active models, with repeats |
| MetricReports.ProviderRowRepeats | backend/model_metrics/tasks.py:174 | two active models of one provider with different names put that provider twice in the rows, while ActiveProviders lists it once |
| MetricReports.GenerateMetricReportWithProviderRows | backend/model_metrics/tasks.py:113-182 | with the top-models query corrected and the provider query as written: the same top models and movers, and one summary line per provider row, so a provider with several models is summarised several times |
| MetricReports.TopModelsQueryRefused | backend/model_metrics/tasks.py:128-131 | the last `order_by` replaces the ordering, leaving DISTINCT ON `model_id` against ORDER BY `elo_rating`, which PostgreSQL refuses; without it the query is still refused (`MetricHistory.OrderByModelRefused`) |
| MetricReports.GenerateMetricReportAsWritten | backend/model_metrics/tasks.py:126-131 | as written: the first category's top-models query is refused, so the task fails with PostgreSQL's DISTINCT ON error before any report is built |
| MetricReports.TopModelsByCategory | backend/model_metrics/tasks.py:126-141 | exactly the four report categories, each with its top models |
| MetricReports.ProviderSummaries | backend/model_metrics/tasks.py:173-182 | one summary per provider, in order |
| MetricReports.ProviderLine | backend/model_metrics/tasks.py:176-182 | a provider's line carries its aggregate's average rating and model count |
| FeedbackRules.ValidateRating | backend/feedback/serializers.py:56-61 | a rating is accepted exactly when absent, or within the model field's 1..5 and on rating feedback; an accepted value is passed through |
| FeedbackRules.ValidatePreferredModel | backend/feedback/serializers.py:63-73 | a preferred model is accepted exactly when absent, or on preference feedback and naming an existing model |
| FeedbackRules.ValidateCategories | backend/feedback/serializers.py:75-89 | the categories are accepted exactly when each is one of the eleven allowed names |
| FeedbackRules.ValidateFields | backend/feedback/serializers.py:43-89 | the field checks pass exactly when the type is one of the three choices and the preferred model, rating and categories each pass |
| FeedbackRules.Validate | backend/feedback/serializers.py:91-141 | an unknown session is "Session not found"; an accepted submission has an accessible session, a message of that session if one is named, a compare session and one of its two models for a preference, and a truthy rating for a rating |
| FeedbackRules.CreateFeedback | backend/feedback/serializers.py:143-162 | a feedback is created exactly when the field checks and validate pass; it belongs to the requester and carries the submitted session and message, the comment trimmed, a fresh id and the current time |
| FeedbackRules.CreatedIffWellFormed | backend/feedback/serializers.py:43-162 | whatever is created is well formed, and every well-formed feedback is accepted as submitted |
| FeedbackRules.BulkFeedback | backend/feedback/serializers.py:165-187 | as intended: between 1 and 50 items are required; an accepted batch holds one created feedback per item, each as a single submission creates it |
| FeedbackRules.CreateAll | backend/feedback/serializers.py:177-181 | the batch is created exactly when every item is, one feedback per item in order |
| FeedbackRules.BulkFeedbackAsWritten | backend/feedback/serializers.py:165-171 | as written: the batch fails with the AttributeError on `initial_data` exactly when some item carries a preferred model or an in-bounds rating; an accepted batch holds only reports |
| FeedbackRules.BatchWithoutInitialData | backend/feedback/serializers.py:56-73 | a batch whose items never reach `initial_data` is accepted only when all items are reports, and otherwise fails with a validation message |
| FeedbackRules.OnlyReportsPass | backend/feedback/serializers.py:56-73 | an accepted item with neither a preferred model nor a rating is a report |
| FeedbackRules.BulkErrorNotAttribute | backend/feedback/serializers.py:165-187 | the intended batch never fails with the AttributeError message |
| FeedbackRules.PreferenceBatchRefused | backend/feedback/serializers.py:165-171 | a preference item accepted on its own is accepted in an intended batch of one and refused as written |
| FeedbackRules.FeedbackOwnerRule | backend/feedback/permissions.py:5-15 | the author may always act on their feedback, and a write is allowed exactly to the author |
| FeedbackRules.PermissionAgreesWithValidation | backend/feedback/permissions.py:18-34 | a request CanProvideFeedback refuses for a named session is refused by validate too, and one validate accepts is let through |
| FeedbackStats.RatingsOf | backend/feedback/services.py:34-37 | one value per rating feedback, in order |
| FeedbackStats.RatingDistribution | backend/feedback/services.py:44-47 | empty without ratings; otherwise exactly the keys 1..5, each with the number of ratings of that value |
| FeedbackStats.DistributionCoversRatings | backend/feedback/services.py:44-47 | with every rating in 1..5 the five counts add up to the number of ratings |
| FeedbackStats.SessionPreferences | backend/feedback/services.py:49-62 | empty unless the session is in compare mode; then one entry per present session model |
| FeedbackStats.PreferenceSharesSplit | backend/feedback/services.py:50-62 | when every preference names one of two distinct session models, the two counts add up to the number of preferences and the shares to 100 |
| FeedbackStats.CategoriesMentioned | backend/feedback/services.py:64-71 | exactly the categories some feedback names, each with its number of mentions |
| FeedbackStats.RecentComments | backend/feedback/services.py:73-89 | at most five feedbacks with a non-empty comment, newest first, as many as exist up to five |
| FeedbackStats.GetSessionFeedbackSummary | backend/feedback/services.py:18-91 | the count, average, preferences, categories and comments of the session's feedback; the distribution is filled, with keys 1..5, exactly when there is an average |
| FeedbackStats.RowRatings | backend/feedback/services.py:111-115 | one value per rating row, in order |
| FeedbackStats.CategoryRatingsNonEmpty | backend/feedback/services.py:163-169 | a category collects ratings exactly when some rating feedback names it |
| FeedbackStats.CategoryRatingsFrom | backend/feedback/services.py:163-169 | every collected rating is bounded as the feedback ratings are |
| FeedbackStats.PerformanceOf | backend/feedback/services.py:171-175 | the count is the number of collected ratings, and the average times the count is their sum |
| FeedbackStats.CategoriesPerformance | backend/feedback/services.py:162-175 | exactly the categories named by the model's rating feedback, each with its performance |
| FeedbackStats.MentionedCategoryHasRatings | backend/feedback/services.py:163-174 | every listed category has at least one rating, so `statistics.mean` never sees an empty list |
| FeedbackStats.CategoryAverageInRange | backend/feedback/services.py:171-175 | with ratings in 1..5 every category average lies in 1..5 |
| FeedbackStats.GetModelFeedbackStats | backend/feedback/services.py:93-177 | ratings count the model's own rated messages in the period; a loss is a preference for another model and a preference naming no model is neither; win rate is the win share, 0 without preferences, within [0, 100] |
| FeedbackStats.ModelComparisonStats | backend/feedback/services.py:179-220 | ties are the total less both win counts; for two different models they are exactly the preferences naming neither, so never negative; rates are 0 without comparisons |
| FeedbackStats.NeitherCount | backend/feedback/services.py:202-205 | for two different models, A's wins, B's wins and the rest partition the comparisons |
| FeedbackStats.ComparisonStatsSwap | backend/feedback/services.py:186-205 | asking in the other order swaps the two win counts and keeps the total and the ties |
| FeedbackStats.TrendingFeedbackCategories | backend/feedback/services.py:317-338 | at most ten distinct categories of the recent feedback, most mentioned first, each with its true count; one left out is mentioned no more often than any listed one |
| FeedbackChecks.WeightedRating | backend/feedback/utils.py:36-51 | no ratings, or weights whose total is not positive, give 0 |
| FeedbackChecks.DefaultWeightsGiveMean | backend/feedback/utils.py:36-51 | with no weights given the weighted rating of a non-empty list is its arithmetic mean |
| FeedbackChecks.UnpairedRatingsIgnored | backend/feedback/utils.py:48-51 | ratings beyond the last weight take no part in the weighted rating, since `zip` stops at the shorter list |
| FeedbackChecks.WeightedRatingBounds | backend/feedback/utils.py:36-51 | with one non-negative weight per rating and a positive total, the weighted rating lies between the smallest and the largest rating |
| FeedbackChecks.Chronological | backend/feedback/utils.py:63-64 | the ratings reordered (same multiset) oldest first |
| FeedbackChecks.ScanRapidChanges | backend/feedback/utils.py:66-77 | the rapid changes of the consecutive pairs, in order |
| FeedbackChecks.AllRatingsSame | backend/feedback/utils.py:80-81 | true exactly when every rating has the same value |
| FeedbackChecks.DetectRatingAnomalies | backend/feedback/utils.py:54-88 | the anomalies of the ratings: none below 5, rapid changes of the time-ordered pairs, then the no-variation entry |
| FeedbackChecks.RapidChangesSound | backend/feedback/utils.py:66-77 | each reported change comes from a consecutive time-ordered pair less than 300 seconds apart (never negatively) and at least 3 points apart |
| FeedbackChecks.RapidChangesComplete | backend/feedback/utils.py:66-77 | every rapid consecutive pair is reported |
| FeedbackChecks.NoVariationIff | backend/feedback/utils.py:60-86 | fewer than 5 ratings give no anomaly; the no-variation anomaly appears exactly when there are more than 10 ratings all equal, in whatever order they came |
| FeedbackChecks.SortedPairSymmetric | backend/feedback/utils.py:105-108 | the model-pair key is the same whichever model sat in seat A |
| FeedbackChecks.MaxCount | backend/feedback/utils.py:123-124 | the largest count of a non-empty tally: attained and not exceeded |
| FeedbackChecks.ShareOfVaried | backend/feedback/utils.py:119-124 | when choices vary, each chosen model is chosen at least once but not every time |
| FeedbackChecks.InconsistencyOf | backend/feedback/utils.py:119-129 | an entry for a varied pair tallies every choice with its count and has a consistency rate, the share of one choice, strictly between 0 and 1 |
| FeedbackChecks.UserInconsistencies | backend/feedback/utils.py:118-129 | exactly one entry per pair of the user whose choices vary |
| FeedbackChecks.CollectInconsistencies | backend/feedback/utils.py:117-129 | exactly one entry per user and varied pair, each (user, pair) once |
| FeedbackChecks.ValidatePreferenceConsistency | backend/feedback/utils.py:95-137 | the entries are those of the compared preferences, and the inconsistent users are the distinct users among them, never more than the users checked |
| FeedbackChecks.InconsistentUsersBounded | backend/feedback/utils.py:131-135 | counted per distinct user, the inconsistent users never outnumber the users checked |
| FeedbackChecks.TwoChoicesVary | backend/feedback/utils.py:101-119 | two compared preferences of one user for the same pair that name different models make that pair inconsistent |
| FeedbackChecks.EntryCountExceedsUsersChecked | backend/feedback/utils.py:131-135 | as written, one user who changed their choice on two pairs is two "inconsistent users" out of one user checked |
| FeedbackChecks.SpamReasons | backend/feedback/utils.py:159-197 | each reason is recorded exactly when its rule fires, with the feedback count, and at most four are recorded |
| FeedbackChecks.ValidateSpamFeedback | backend/feedback/utils.py:140-199 | the window's count and reasons are those of the user's feedback inside it, and the spam flag is set exactly when some reason is recorded |
| FeedbackChecks.EqualRatingsAlsoRepeat | backend/feedback/utils.py:182-197 | ten or more equal ratings are also a repeating pattern, so they are reported twice |
| FeedbackChecks.Spammers | backend/feedback/tasks.py:100-111 | exactly the given users the spam check flags |
| FeedbackChecks.Anomalous | backend/feedback/tasks.py:119-131 | exactly the given users whose ratings show an anomaly |
| FeedbackChecks.SpamUsers | backend/feedback/tasks.py:97-111 | the spam entries are exactly those of the flagged recent users, each with the reasons the spam check gives |
| FeedbackChecks.AnomalousUsers | backend/feedback/tasks.py:116-131 | the anomaly entries are exactly those of the flagged users, each with the anomalies of all their ratings |
| FeedbackChecks.DetectFeedbackAnomalies | backend/feedback/tasks.py:90-139 | as intended, over distinct recent users: every recent user is checked for spam, only the first 100 for rating anomalies, and only flagged users are listed |
| FeedbackChecks.RecentUserRows | backend/feedback/tasks.py:93-95 | the recent-user query as written: with the feedback's default ordering the distinct rows are (user, time) pairs, so exactly the recent users, with repeats |
| FeedbackChecks.RecentUserRepeats | backend/feedback/tasks.py:93-95 | a user with two recent feedbacks at different times appears at two positions of the rows, while RecentUsers lists each user once |
| FeedbackChecks.SpammersKeepRepeats | backend/feedback/tasks.py:100-109 | a flagged user at two positions of the user list gets two spam entries |
| FeedbackChecks.DetectFeedbackAnomaliesAsWritten | backend/feedback/tasks.py:90-139 | the task as written: spam and anomaly checks over the rows, and the 100-limit counting rows rather than users |
| FeedbackChecks.SpammerListedTwice | backend/feedback/tasks.py:93-109 | a spammer with two recent feedback times is listed twice by the task as written |
| FeedbackChecks.CleanupOldFeedback | backend/feedback/tasks.py:192-208 | exactly the feedback of anonymous users older than 90 days is deleted; kept plus deleted is everything |
| FeedbackChecks.RegisteredFeedbackKept | backend/feedback/tasks.py:196-200 | feedback of a registered user survives the cleanup however old |
| MessageRules.ValidateModelId | backend/message/serializers.py:35-55 | an absent model id passes; "" fails the UUID parse with "Must be a valid UUID."; any other must name an active model, else "Model not found or inactive" |
| MessageRules.ValidateParents | backend/message/serializers.py:57-69 | the parent list passes exactly when every listed parent is a stored message |
| MessageRules.ValidateCreate | backend/message/serializers.py:71-90 | a compare-mode assistant message must be participant a or b; an accepted assistant message carries the session's model for its side, other messages keep what was sent |
| Fields.CharField | backend/message/serializers.py:182 | a missing value passes exactly when it is optional; a present one exactly when, trimmed, it is non-blank (unless blank is allowed) and within the maximum length; the accepted value is trimmed |
| Fields.CharFieldStable | backend/message/serializers.py:182 | a value the field accepted passes it again unchanged |
| Fields.ChoiceField | backend/message/serializers.py:183-186 | a missing value passes exactly when it is optional, a present one exactly when it is one of the choices, and it is kept as given |
| MessageRules.StreamFields | backend/message/serializers.py:123-157 | the field checks of the stream request: a required non-blank role, optional non-blank model id and participant, a status among the four, and temperature and max_tokens (defaults 0.7 and 2000) within bounds; every text trimmed |
| MessageRules.ValidateCreateRequest | backend/message/serializers.py:33-90 | a create request is accepted exactly when its role is one of the choices and its trimmed content is non-blank and the model id (absent, or a non-empty id of an active model), the parents and the cross-field rule all pass; the content is validated trimmed |
| MessageRules.ValidatedCreateSaves | backend/message/models.py:74-85 | a request the serializer accepts is never refused by the participant rule of `save`, and in compare mode an assistant message gets its own side's model |
| MessageRules.ValidateStream | backend/message/serializers.py:124-157 | accepted exactly when the field checks pass and an assistant names an active model while any other role has non-blank trimmed content; the result is the checked fields |
| MessageRules.ValidateBranch | backend/message/serializers.py:180-187 | accepted exactly with a parent id, content that is non-blank once trimmed, and a branch type of alternative (the default) or continuation; the content is kept trimmed |
| MessageRules.ValidateRegenerate | backend/message/serializers.py:190-194 | accepted exactly when the stream bounds hold; the defaults are 0.7, 2000 and no model change |
| MessageRules.RegenerateKeepsModelByDefault | backend/message/services.py:222-226 | the regenerated message keeps the original's model unless the flag is set and a model is named |
| MessageRules.ChildrenCount | backend/message/serializers.py:26-27 | the number of listed children, 0 when there are none |
| MessageRules.MessageAccessRules | backend/message/permissions.py:4-22 | the owner may always access a message; in a private session only the owner may |
| MessageStore.AppendOnce | backend/message/services.py:272-277 | the child is listed afterwards, the old list is a prefix, and nothing is added when it was already there |
| MessageStore.AppendOnceIdempotent | backend/message/services.py:275-276 | adding an already listed child changes nothing |
| MessageStore.LinkOnceStep | backend/message/services.py:193-197 | linking to one more parent is one more step of the parent loop |
| MessageStore.LinkOnceAfterSave | backend/message/services.py:179-197 | saving a message that is not a parent commutes with linking the parents |
| MessageStore.LinkAllAfterSave | backend/message/services.py:35-51 | saving a message that is not a parent commutes with the bulk child update |
| MessageStore.UpdateTwice | backend/message/services.py:143-162 | a second save of the same row replaces the first |
| MessageStore.RelationsFor | backend/message/services.py:54-58 | one relation of the given type per listed parent, to the child, in order |
| MessageStore.MaxPosition | backend/message/models.py:76-78 | a position some message of the session has, and no message of the session has a larger one |
| MessageStore.NextPositionOf | backend/message/models.py:74-78 | 0 in an empty session, otherwise one past every stored position of the session |
| MessageStore.HistoryFrame | backend/message/services.py:255-269 | changing child lists, or adding messages outside the session's successful ones, leaves the history unchanged, so a reply's placeholder is not part of its own context |
| MessageStore.HistoryAfterLink | backend/message/services.py:89-113 | storing a placeholder and linking it to its user message leaves the history the stream is given unchanged |
| MessageStore.AccumulateChunks | backend/message/services.py:117-140 | after the k-th chunk the content is the first k chunks joined; each event carries its chunk and that content; a progress update goes out exactly at every tenth chunk |
| MessageStore.ChooseModel | backend/message/services.py:79-87 | a given model is used as is; otherwise direct mode takes model A, compare mode takes model A for participant a and model B for anyone else, and any other mode has none |
| MessageStore.RegeneratedModel | backend/message/services.py:222-226 | the named model (which must exist) when the flag and an id are both given, otherwise the original's |
| MessageStore.ChildrenByAge | backend/message/services.py:312-313 | exactly the stored children, each once, oldest first |
| MessageStore.OldestFirst | backend/message/services.py:313 | a descending sort on negated creation time orders the oldest first |
| MessageStore.LowestFirst | backend/message/serializers.py:175 | a descending sort on negated position orders the lowest position first |
| MessageStore.ChildLists | backend/message/services.py:312-315 | each stored message maps to its stored children, oldest first |
| MessageStore.BuildTree | backend/message/services.py:300-317 | the node shows the message's id, role, content, model id, participant and time, with at most the depth bound of levels below |
| MessageStore.Subtrees | backend/message/services.py:314-315 | one subtree per given message, in order |
| MessageStore.SubtreesAt | backend/message/services.py:314-315 | the i-th subtree is built from the i-th message |
| MessageStore.BuildTreeSound | backend/message/services.py:300-317 | every node of a built tree shows a stored message, and its children are that message's stored children in age order |
| MessageStore.ChildSound | backend/message/services.py:312-315 | every child of a built node is a stored child and soundly built itself |
| MessageStore.GetMessageTree | backend/message/services.py:294-297 | a stored root gives its tree; a missing root is an error |
| MessageStore.Placeholder | backend/message/services.py:89-103 | a streaming, empty assistant reply with the chosen model, the user message as only parent and the next position below it |
| MessageStore.HistoryIds | backend/message/services.py:257-260 | the successful messages of the session, each once, in ascending position |
| MessageStore.InSession | backend/message/services.py:257-259 | exactly the successful messages of the session, each once |
| MessageStore.FinishedReply | backend/message/services.py:142-162 | the reply keeps the content received; it succeeds with the content's word count as completion tokens, or fails with the error text |
| MessageStore.ReplyAsWritten | backend/message/services.py:142-162 | as written, every reply ends failed: a finished stream keeps the success's completion tokens but fails with the un-awaited serializer's `'coroutine' object has no attribute 'data'`; a stream that raised fails with its error |
| MessageStore.LinkAllLinked | backend/message/services.py:35-51 | storing a new message and listing it as a child of each parent keeps every parent link mirrored by a child link |
| MessageStore.LinkOnceAllLinked | backend/message/services.py:179-197 | the same for the variant that lists the child only where it is missing |
| MessageStore.MessageTable.constructor | backend/message/models.py:8-72 | an empty table, valid and linked |
| MessageStore.MessageTable.NextPosition | backend/message/models.py:76-78 | the position the next saved message of the session gets |
| MessageStore.MessageTable.Save | backend/message/models.py:74-85 | a compare-mode assistant reply that is not participant a or b is refused and nothing is written; otherwise the message is stored at its position or the next one |
| MessageStore.MessageTable.AddRelations | backend/message/models.py:91-109 | the relations are created, one per parent, exactly when every parent exists and none repeats; otherwise none is |
| MessageStore.MessageTable.AddChild | backend/message/services.py:272-277 | fails only for a missing parent; otherwise the child is listed once |
| MessageStore.MessageTable.LinkParentsOnce | backend/message/services.py:193-197 | succeeds exactly when every parent exists, listing the child once on each; a missing parent changes nothing |
| MessageStore.MessageTable.CreateUserMessageAsWritten | backend/message/services.py:19-67 | as written, every call fails and the transaction leaves messages and relations unchanged; with valid parents the error is the missing `now` of `datetime.timezone` |
| MessageStore.MessageTable.CreateUserMessage | backend/message/services.py:19-67 | with the session's clock as intended: a missing or repeated parent leaves the table unchanged; otherwise a successful user message at the session's next position, listed as child of each parent, with one reply relation each; the links stay mirrored |
| MessageStore.MessageTable.ConversationHistory | backend/message/services.py:255-269 | the role and content of the session's successful messages in position order |
| MessageStore.MessageTable.StartReply | backend/message/services.py:79-109 | with a model to use and a stored user message, the placeholder is saved and listed as the user message's child; without a model nothing is written |
| MessageStore.MessageTable.FinishReplyAsWritten | backend/message/services.py:111-168 | as written: one event per chunk, and the last event is always an error; the reply is saved failed, with the serializer error when the stream ended |
| MessageStore.MessageTable.StreamAssistantMessageAsWritten | backend/message/services.py:70-168 | as written, a reply that starts always ends failed, with an error as its last event |
| MessageStore.MessageTable.FinishReply | backend/message/services.py:111-168 | with the serializer awaited before `.data` is read: one event per chunk and a final complete or error event; the reply is saved finished; the history given to the provider is the one read before the chunks |
| MessageStore.MessageTable.StreamAssistantMessage | backend/message/services.py:70-168 | the reply is the finished placeholder and the context sent is the history from before the call, without the placeholder |
| MessageStore.MessageTable.CreateBranch | backend/message/services.py:171-207 | a successful user message with the source's parents and position, recording its branch type and source, listed once on each parent with one branch relation each; a failure leaves the table unchanged |
| MessageStore.MessageTable.RegenerateMessage | backend/message/services.py:210-252 | succeeds exactly for an assistant message whose new model exists, whose participant save accepts and whose parents exist: a pending, empty reply with the source's parents, position and participant, listed once on each parent; the source is otherwise unchanged |
| MessageStore.MessageTable.CreateFromRequest | backend/message/serializers.py:92-121 | accepted exactly when save accepts the participant and the parents exist without repeats; the message is stored pending at the next position, an empty model id dropped, listed on each parent with a reply relation; a failure changes nothing |
| MessagePaths.Existing | backend/message/utlis.py:153-161 | exactly the listed ids that name stored messages, each once, lowest position first |
| MessagePaths.Neighbours | backend/message/utlis.py:152-164 | exactly the stored messages linked to the current one as child or parent: the children each once by position, then the parents likewise |
| MessagePaths.SortedStored | backend/message/models.py:65 | ordering stored, distinct ids by position keeps them stored and distinct, with positions non-decreasing |
| MessagePaths.Frontier | backend/message/utlis.py:141-164 | any walk from the start either ends at a message already expanded no deeper than the walk, or the queue holds an entry no longer than it |
| MessagePaths.Enqueue | backend/message/utlis.py:155-164 | the queue keeps its entries and gains one for every listed neighbour not yet expanded, each one step longer than the current path |
| MessagePaths.FoundIsShortest | backend/message/utlis.py:144-145 | when the end message reaches the front of the queue no walk to it is shorter than its path |
| MessagePaths.ExhaustedUnreachable | backend/message/utlis.py:141-166 | when the queue runs dry without the end message no walk reaches it |
| MessagePaths.Expand | backend/message/utlis.py:142-164 | the front is popped and its unexpanded children, then unexpanded parents, are queued behind the rest |
| MessagePaths.ShortestPath | backend/message/utlis.py:131-166 | nothing across sessions; otherwise a returned path is a walk from start to end no longer than any other, and an empty result means no walk exists |
| MessagePaths.AllPathsFrom | backend/message/utlis.py:177-199 | every reported path extends the current one by a simple walk to the target within the depth bound |
| MessagePaths.TryNeighbours | backend/message/utlis.py:187-199 | every path reported by the child and parent loops is such an extension |
| MessagePaths.TryNeighbour | backend/message/utlis.py:191-192 | every path reported through one neighbour is such an extension |
| MessagePaths.FindAllPaths | backend/message/utlis.py:169-202 | nothing across sessions; every reported path is a simple walk from start to end of at most max_depth + 1 messages |
| MessagePaths.TryNeighboursIncludes | backend/message/utlis.py:190-199 | the paths found through a neighbour are among those its loop reports |
| MessagePaths.AllPathsComplete | backend/message/utlis.py:177-199 | every simple walk that extends the current path, ends at the target and respects the bound is reported |
| MessagePaths.FindAllPathsExact | backend/message/utlis.py:169-202 | within a session, a path is reported exactly when it is a simple walk from start to end of at most max_depth + 1 messages |
| MessagePaths.Climb | backend/message/views.py:265-270 | the first-parent walk stays among stored messages |
| MessagePaths.StoppedStays | backend/message/views.py:265-270 | once the walk reaches a message without a stored first parent it stays there |
| MessagePaths.FindRoot | backend/message/views.py:257-275 | a root found is where the first-parent walk stops; no root is reported exactly when the walk never stops (a cycle of first parents) |
| MessagePaths.NeverStops | backend/message/views.py:265-270 | a walk that has not stopped within as many steps as there are messages never stops |
| MessagePaths.Repeats | backend/message/views.py:265-270 | among the first n + 1 positions of a walk over n messages two coincide |
| MessagePaths.Periodic | backend/message/views.py:265-270 | once a position repeats, every later one is one already reached, so a walk that has not stopped by then never stops |
| MessageAnalysis.JaccardSizes | backend/message/utlis.py:40-43 | the union of two non-empty word sets is non-empty and at least as large as the intersection, equal exactly for equal sets |
| MessageAnalysis.RatioBounds | backend/message/utlis.py:43 | the ratio lies in [0, 1] and is 1 only for equal counts |
| MessageAnalysis.Similarity | backend/message/utlis.py:29-43 | within [0, 1]; 0 when either text has no words; 1 exactly when both have the same non-empty set of words |
| MessageAnalysis.SimilaritySymmetric | backend/message/utlis.py:29-43 | the similarity of two texts does not depend on their order |
| MessageAnalysis.SimilarityIgnoresCase | backend/message/utlis.py:34-35 | lowering either text leaves the similarity unchanged |
| MessageAnalysis.DetectLanguage | backend/message/utlis.py:46-60 | one of the five languages; a CJK ideograph means chinese; english exactly when no script of the four occurs |
| MessageAnalysis.AsciiIsEnglish | backend/message/utlis.py:46-60 | a text of ASCII characters only is english |
| MessageAnalysis.TrailingUsers | backend/message/utlis.py:113-118 | the running depth never exceeds the number of messages |
| MessageAnalysis.LongestUserRun | backend/message/utlis.py:113-121 | the depth is at least the current run and at most the number of messages |
| MessageAnalysis.Languages | backend/message/utlis.py:96-98 | the language of every message is among those collected |
| MessageAnalysis.TrailingRun | backend/message/utlis.py:113-118 | the running depth counts an all-user suffix, and no longer all-user suffix exists |
| MessageAnalysis.RunsBounded | backend/message/utlis.py:113-121 | no stretch of consecutive user messages is longer than the depth |
| MessageAnalysis.RunAttained | backend/message/utlis.py:113-121 | some stretch of consecutive user messages is as long as the depth |
| MessageAnalysis.AnalyzeConversationQuality | backend/message/utlis.py:63-124 | the total, the mean length, the depth as the longest user run, and the counts of questions, languages, detailed and short replies, examples and references, each as a count over the messages |
| MessageAnalysis.QualityIndicators | backend/message/utlis.py:100-111 | detailed and short replies together, and replies with examples or references, never outnumber the assistant replies |
| MessageAnalysis.ResolvedPlusMissing | backend/message/tasks.py:20-24 | every parent reference either resolves or is counted as orphaned |
| MessageAnalysis.ValidParents | backend/message/tasks.py:19-24 | the resolving parent ids in order, and the count of the rest; together they are all the references |
| MessageAnalysis.RepairAll | backend/message/tasks.py:18-28 | one repaired row per row, in order |
| MessageAnalysis.RepairKeepsSound | backend/message/tasks.py:26-28 | a message whose references all resolve is left as it is |
| MessageAnalysis.CleanupOrphanedMessages | backend/message/tasks.py:12-31 | every message keeps exactly its resolving parents in order; the count is the number of dropped references; a message is saved only when it lost one |
| MessageAnalysis.SoundRowsUnchanged | backend/message/tasks.py:26-28 | the cleanup leaves every message whose references resolve as it is |
| MessageAnalysis.RepairKeepsIds | backend/message/tasks.py:18-28 | the cleanup keeps every message id |
| MessageAnalysis.RepairedIsSound | backend/message/tasks.py:26-28 | a repaired message has no dangling reference |
| MessageAnalysis.CleanupIdempotent | backend/message/tasks.py:12-31 | a second cleanup finds nothing to drop and changes nothing |
| MessageAnalysis.Category | backend/message/tasks.py:51-63 | one of the five categories; any mention of timeout is a timeout; unknown and model error only when the earlier status codes are absent |
| MessageAnalysis.CountCategory | backend/message/tasks.py:51-63 | a category count never exceeds the number of failures |
| MessageAnalysis.CategoriesPartition | backend/message/tasks.py:51-63 | the five counts add up to the number of failures |
| MessageAnalysis.CountCategoryStep | backend/message/tasks.py:51-63 | classifying one more failure raises its own category and no other |
| MessageAnalysis.AnalyzeFailedMessages | backend/message/tasks.py:35-67 | exactly the five categories, each counting the failures of the last day that fall in it, together all of them |
| MessageAnalysis.PairsBounded | backend/message/tasks.py:94-104 | each response time uses up one user message and one assistant reply (of `ResponsePairs`) |
| MessageAnalysis.SecondReplyUnpaired | backend/message/tasks.py:98-104 | a second reply in a row adds no response time |
| MessageAnalysis.ResponseTimes | backend/message/tasks.py:94-107 | the response times of the user/reply pairs, and their mean, absent without pairs |
| MessageAnalysis.CalculateSessionMetrics | backend/message/tasks.py:79-107 | the counts of all, user, assistant and failed messages (users plus assistants at most all), the conversation analysis, and an average response time exactly when some pair exists |
| MessageAnalysis.AboveThreshold | backend/message/tasks.py:141 | a ratio exceeds 0.8 exactly when five times its numerator exceeds four times its denominator |
| MessageAnalysis.RepeatsIffAbove | backend/message/tasks.py:136-141 | two user messages repeat exactly when their similarity exceeds 0.8 (`Repeats` is this threshold test) |
| MessageAnalysis.FirstFrom | backend/message/tasks.py:135-148 | a found index lies at or after the start and within the list |
| MessageAnalysis.FirstFromIsFirst | backend/message/tasks.py:135-148 | the index found satisfies the test and none before it does; none found means no later index does |
| MessageAnalysis.RecordFor | backend/message/tasks.py:135-148 | at most one record per user message |
| MessageAnalysis.LoopsUpTo | backend/message/tasks.py:134-148 | at most one record per message scanned |
| MessageAnalysis.NoRecordIffNoRepeat | backend/message/tasks.py:135-148 | no record is made for a message exactly when no later message repeats it |
| MessageAnalysis.RecordIsFirstRepeat | backend/message/tasks.py:135-148 | the record names the first later message that repeats it |
| MessageAnalysis.RecordAboveThreshold | backend/message/tasks.py:141-147 | every record is for its own message and carries a similarity above 0.8 |
| MessageAnalysis.ScanLater | backend/message/tasks.py:135-148 | the inner loop yields the record for its message |
| MessageAnalysis.DetectConversationLoops | backend/message/tasks.py:127-148 | the records of one session are, message by message, the first later repeat of each |
| MessageCache.TreeKey | backend/message/utlis.py:213 | the key is the tree prefix followed by the root id |
| MessageCache.TreeKeyInjective | backend/message/utlis.py:213 | different roots have different keys |
| MessageCache.CacheMessageTree | backend/message/utlis.py:211-214 | the cache gains the root's key and keeps every other key |
| MessageCache.GetCachedTree | backend/message/utlis.py:217-220 | a tree is found exactly when its key is cached |
| MessageCache.CacheRoundTrip | backend/message/utlis.py:211-220 | a cached tree is read back as stored, and every other root's entry is unchanged |
| MessageCache.Invalidate | backend/message/utlis.py:223-238 | only tree entries are deleted; a missing message changes nothing; an existing one loses its own entry |
| MessageCache.InvalidateParents | backend/message/utlis.py:234-236 | only tree entries are deleted |
| MessageCache.AncestorsInvalidated | backend/message/utlis.py:223-238 | invalidating a message removes the tree entry of every ancestor reached through stored parents within the depth bound, the message itself included |
| MessageCache.ParentsAncestorCleared | backend/message/utlis.py:234-236 | the parent loop removes the tree entry of every ancestor reached through one of the listed parents |
| MessageCache.OnlyAncestorsInvalidated | backend/message/utlis.py:223-238 | every entry invalidation deletes is the tree entry of such an ancestor, so the deleted entries are exactly the ancestors' trees |
| MessageCache.ParentsOnlyAncestors | backend/message/utlis.py:234-236 | an entry the parent loop deletes is the tree of an ancestor of one of the listed parents |
| StreamFrames.ReplaceAppend | backend/message/views.py:163 | replacing one character distributes over concatenation |
| StreamFrames.EscapeIsEach | backend/message/views.py:163 | the three chained replacements act as one character-wise escape (`Escape`) |
| StreamFrames.UnescapeEscape | backend/message/views.py:163-164 | decoding an escaped chunk gives back the chunk without its carriage returns (`Unescape` inverts `Escape`) |
| StreamFrames.UnescapeEach | backend/message/views.py:163 | the same for the character-wise escape |
| StreamFrames.EscapeShape | backend/message/views.py:163-164 | an escaped chunk holds no raw line break, so a frame stays on one line; a double quote passes through unescaped |
| StreamFrames.QuoteKept | backend/message/views.py:163 | a double quote survives the escape |
| StreamFrames.NonEmpty | backend/message/views.py:161-162 | exactly the non-empty chunks |
| StreamFrames.ChunkFrames | backend/message/views.py:161-164 | one content frame per chunk, in order, each the `ChunkFrame` of its chunk |
| StreamFrames.ErrorStatusUndeclared | backend/message/views.py:172 | the status stored on a failed stream, 'error', is not one of the four message statuses |
| StreamFrames.BranchStep | backend/message/views.py:155-164 | one more chunk adds one frame and its text when non-empty, nothing when empty |
| StreamFrames.RunBranch | backend/message/views.py:151-230 | a content frame per non-empty chunk, then a stop or error frame; the reply is saved with the joined content and success, or with status error (the closing frame is `DoneFrame`) |
| StreamFrames.FramesRebuildContent | backend/message/views.py:161-164 | a client stripping the frames and decoding each payload rebuilds the content without carriage returns |
| StreamFrames.LastWhere | backend/message/views.py:98-108 | something exactly when some request qualifies, and then a qualifying request |
| StreamFrames.Route | backend/message/views.py:98-108 | the last user request is the prompt; in direct mode the last assistant request is the reply; otherwise the last assistant request with participant a is branch A and the last with another participant branch B; a compare-mode assistant request without participant raises |
| StreamFrames.StreamSession | backend/message/views.py:85-96 | the session is found exactly when the requests validate and a given session id names a session of the requester; a missing id is "session_id is required" |
| StreamMerge.Values | backend/message/views.py:240-246 | no more values than queue items |
| StreamMerge.SideItems | backend/message/views.py:176-230 | only items of the queue put by that producer |
| StreamMerge.Ends | backend/message/views.py:243-244 | no more end markers than queue items |
| StreamMerge.Puts | backend/message/views.py:190 | one queue item per value |
| StreamMerge.Worker | backend/message/views.py:202-203 | the values and one end marker |
| StreamMerge.Merge | backend/message/views.py:176-246 | the queue holds every item of both producers |
| StreamMerge.ValuesAppend | backend/message/views.py:240-246 | the values of a joined queue are the values of its parts |
| StreamMerge.EndsAppend | backend/message/views.py:243-244 | the markers of a joined queue are those of its parts |
| StreamMerge.BothMarkersCount | backend/message/views.py:238-244 | two different producers' markers count twice |
| StreamMerge.ValuesCount | backend/message/views.py:240-246 | every queue item is a value or an end marker |
| StreamMerge.MergeSide | backend/message/views.py:176-246 | scheduling never reorders the first producer's items |
| StreamMerge.MergeSideSwap | backend/message/views.py:176-246 | scheduling never reorders the second producer's items |
| StreamMerge.MergeEnds | backend/message/views.py:240-246 | scheduling neither loses nor duplicates a marker |
| StreamMerge.MergeStep | backend/message/views.py:176-246 | a schedule takes the picked producer's first item, then merges the rest |
| StreamMerge.MergeLast | backend/message/views.py:176-246 | the last queue item is the last item of one of the producers |
| StreamMerge.WorkerShape | backend/message/views.py:178-203 | a worker's items are all its own, its values are what it produced, and it ends with exactly one marker |
| StreamMerge.ConsumeUntilBoth | backend/message/views.py:238-248 | the consumer yields the values it read and stops exactly at the item that completes both flags; if the queue runs dry first it has read everything |
| StreamMerge.ConsumeUntilTwo | backend/message/services.py:376-383 | the consumer yields the values it read and stops exactly at the second end marker; otherwise it has read everything and seen fewer than two |
| StreamMerge.MergedWorkers | backend/message/views.py:176-246 | whatever the schedule, the queue of two complete producers holds both markers, only its last item completes the pair, and each side's values are that producer's in order |
| StreamMerge.MergedProjections | backend/message/views.py:176-246 | restricted to one side, the queue is that producer's values, and both markers are present |
| StreamMerge.MergedMarkers | backend/message/views.py:240-246 | exactly two markers, the second being the last item |
| StreamMerge.ConsumersDrain | backend/message/views.py:238-248 | both consumers read the whole queue of two complete producers |
| StreamMerge.CompareStream | backend/message/views.py:175-251 | each branch frames its own stream; the client receives both branches' frames interleaved, each side in its own order |
| StreamMerge.Tag | backend/message/services.py:354-356 | each event is labelled with its participant, in order |
| StreamMerge.DualResponses | backend/message/services.py:324-383 | outside compare mode it raises; otherwise each side's labelled events arrive in that side's order and the stream ends at the second end marker |
| Sse.PayloadOfEvent | backend/message/streaming.py:17 | the payload of an event is what was framed (by `Event`) |
| Sse.StreamingResponse | backend/message/streaming.py:41-46 | an event-stream response with no-cache and no proxy buffering, and no other headers |
| Sse.EventStream | backend/message/streaming.py:13-24 | one `data:` event per item with its JSON, then a done event, or an error event with the error text when the generator raised (the error event is `ErrorPayload` of the text) |
| Sse.Iterated | backend/message/streaming.py:15 | a plain generator is iterated as it runs; an async generator cannot be, and the loop raises before any item |
| Sse.RegenerateStreamAsWritten | backend/message/views.py:311-327 | as written, the regenerate response is exactly one error event, whatever the reply stream does |
| Sse.RegenerateStream | backend/message/views.py:311-327 | as intended, each reply event relabelled with the new message's id, then done, or the reply stream's error |
| Sse.Items | backend/message/streaming.py:61-62 | one item per value, in order |
| Sse.StreamWithRetry | backend/message/streaming.py:51-80 | the output of the retry loop over the given passes; one sleep per retry notice, the n-th lasting n times the delay |
| Sse.Delays | backend/message/streaming.py:80 | one delay per failure so far |
| Sse.DelaysSnoc | backend/message/streaming.py:80 | the k-th sleep lasts k times the delay |
| Sse.RetryStep | backend/message/streaming.py:59-63 | a pass yields its items and adds no retry notice before its end |
| Sse.RetryNotice | backend/message/streaming.py:65-78 | a failed pass that is not the last allowed one adds exactly one retry notice |
| Sse.ItemsNoRetry | backend/message/streaming.py:61-62 | plain items are never retry notices |
| Sse.RetryNoticesCount | backend/message/streaming.py:65-78 | the notices carry attempts 1, 2, … in order, and none reaches max_retries |
| Sse.GiveUpIff | backend/message/streaming.py:65-72 | one final error item exactly when every allowed pass fails, otherwise none |
| Sse.GiveUpLast | backend/message/streaming.py:67-72 | a final error is the last item and names max_retries and the last failure |
| Sse.FirstPassCompletes | backend/message/streaming.py:59-63 | a first pass that completes is passed through untouched |
| Sse.FailuresBounded | backend/message/streaming.py:59-78 | notices and the final error together count the failed passes, never more than max_retries |
| Sse.RetryReusesGenerator | backend/message/streaming.py:59-63 | as written the exhausted generator is iterated again: after one failure the wrapper yields one notice and ends quietly, never retrying and never reporting the failure |
| Providers.GetModelInfo | backend/ai_model/providers/openai_provider.py:85-89 | the model's entry exactly when the provider knows the code, nothing otherwise |
| Providers.ModelTables | backend/ai_model/providers/openai_provider.py:12-18 | each provider's table holds its own models with their limits, and only those |
| Providers.Strip | backend/ai_model/providers/openai_provider.py:48 | stripping never lengthens a line |
| Providers.OpenAIBody | backend/ai_model/providers/openai_provider.py:31-37 | the model and conversation as given, streaming on, and the settings or the defaults 0.7 and 2000 |
| Providers.OpenAIChunks | backend/ai_model/providers/openai_provider.py:46-56 | only non-empty deltas reach the caller |
| Providers.OpenAIStream | backend/ai_model/providers/openai_provider.py:46-56 | the line loop yields the chunks of the data lines up to the first `[DONE]` (`OpenAIText` of each line) |
| Providers.OpenAIStopsAtDone | backend/ai_model/providers/openai_provider.py:47-49 | nothing after the first `data: [DONE]` line reaches the caller |
| Providers.OpenAIIgnoresOtherLines | backend/ai_model/providers/openai_provider.py:47 | lines that are not data lines yield nothing |
| Providers.LastSystem | backend/ai_model/providers/anthropic_provider.py:31-37 | absent exactly when no message is a system message, else the content of one (the last) |
| Providers.SplitSystem | backend/ai_model/providers/anthropic_provider.py:30-37 | the last system content, and the other messages in order |
| Providers.AnthropicBody | backend/ai_model/providers/anthropic_provider.py:30-48 | the non-system messages in order; a system field exactly when the last system content is non-empty; streaming on; settings or defaults |
| Providers.AnthropicStream | backend/ai_model/providers/anthropic_provider.py:57-64 | the line loop yields the texts of the decoded content_block_delta lines (`AnthropicText` of each line) |
| Providers.AnthropicChunksFromDeltas | backend/ai_model/providers/anthropic_provider.py:58-62 | every chunk is the text of some decoded content_block_delta data line |
| Providers.GoogleBody | backend/ai_model/providers/google_provider.py:28-42 | one content per message with role user or model and its text as only part, and the settings or defaults (the role by `GeminiRole`) |
| Providers.GoogleStream | backend/ai_model/providers/google_provider.py:51-59 | the line loop yields the first candidate's text of each decoded line (`GoogleText` of each line) |
| Providers.GoogleSkipsLine | backend/ai_model/providers/google_provider.py:52-59 | empty, undecodable and candidate-less lines add nothing |
| AIService.ApiKeySetting | backend/ai_model/services.py:34 | the provider name upper-cased followed by `_API_KEY` |
| AIService.Registry | backend/ai_model/services.py:33-36 | exactly the names that have a configured key |
| AIService.RegistryEntries | backend/ai_model/services.py:34-36 | every registered provider is of its name's kind and holds the configured key |
| AIService.InitializeProviders | backend/ai_model/services.py:31-36 | the registry holds exactly the providers whose key is configured |
| AIService.InitializeAsWritten | backend/ai_model/services.py:31-36 | a construction that succeeds yields the registry |
| AIService.ConfiguredGoogleKeyBreaksService | backend/ai_model/providers/base.py:34-42 | with a Google key configured, constructing the service fails although the registry would include google |
| AIService.AIModelService.constructor | backend/ai_model/services.py:27-29 | the registry built from the settings |
| AIService.AIModelService.GetProvider | backend/ai_model/services.py:38-42 | the registered provider, or "Provider <name> not initialized" exactly when it is not registered |
| AIService.AIModelService.StreamCompletion | backend/ai_model/services.py:44-63 | an unregistered provider raises; otherwise the provider's chunks pass through, followed by one `Error:` chunk when it failed |
| AIService.AIModelService.GetCompletion | backend/ai_model/services.py:65-83 | only an unregistered provider raises; otherwise the reply, or its failure as `Error:` text |
| AIService.AIModelService.ValidateModelConfiguration | backend/ai_model/services.py:85-96 | raises exactly for an unregistered provider; otherwise valid exactly when the provider knows the code, with its information then, and the provider always available |
| AIService.ErrorText | backend/ai_model/services.py:63 | `Error: ` followed by the message |
| AIService.Produced | backend/ai_model/services.py:125-144 | a producer labels every chunk with its side and model, in order; a raised stream becomes one error item |
| AIService.CompareModels | backend/ai_model/services.py:116-161 | the consumer yields the values of both labelled producers, merged by the schedule, up to the second end marker |
| AIService.CompareModelsOrder | backend/ai_model/services.py:134-157 | whatever the schedule, each label's items keep their order, the stream ends at the second marker, and nothing else is in it |
| SessionRules.ModeModels | backend/chat_session/serializers.py:53-76 | Fails exactly for an unknown mode, a direct request without model A, or a compare request without two different models; on success direct mode needs model A and loses model B, compare mode needs two different models, random mode drops both |
| SessionRules.ValidateCreate | backend/chat_session/serializers.py:53-97 | Runs the mode checks first, then refuses a referenced model that is missing or inactive |
| SessionRules.TitleField | backend/chat_session/serializers.py:53-97 | the title passes exactly when, trimmed, it has at most 255 characters, and it is kept trimmed |
| SessionRules.ValidateCreateAccepts | backend/chat_session/serializers.py:53-97 | Validation succeeds if and only if the request is acceptable: a trimmed title of at most 255 characters and a valid mode combination whose remaining models all exist and are active |
| SessionRules.FirstUserContent | backend/chat_session/models.py:51-62 | None exactly when the session has no user message; otherwise the content of the user message that comes first in position order |
| SessionRules.Saved | backend/chat_session/models.py:51-62 | An empty title becomes the abbreviated first user message; a session without an expiry takes the anonymous owner's expiry; every other field is unchanged |
| SessionRules.SavedIdempotent | backend/chat_session/models.py:51-62 | Saving an already saved session changes nothing |
| SessionRules.CreatedSession | backend/chat_session/serializers.py:99-111 | The new session belongs to the requester, is private and has no share token; it expires with an anonymous requester and never for a registered one |
| SessionRules.Shared | backend/chat_session/serializers.py:136-143 | A session made public keeps its existing token or receives the fresh one; a session made private loses its token |
| SessionRules.Unshared | backend/chat_session/views.py:122-129 | The session becomes private and loses its token; nothing else changes |
| SessionRules.WithToken | backend/chat_session/models.py:64-68 | Stores the given token and leaves the visibility and every other field alone |
| SessionRules.ShareKeepsTokenAndVisibility | backend/chat_session/serializers.py:136-143 | After a share update a session holds a token if and only if it is public, and sharing it again keeps the token it already had |
| SessionRules.ShareUrl | backend/chat_session/serializers.py:36-41 | A link exists if and only if the session has a token and there is a request; the link starts with the request's scheme and host and ends with the token |
| SessionRules.ShareUrlsDistinguishTokens | backend/chat_session/serializers.py:36-41 | Two sessions rendered for the same request get the same link only when their tokens are equal |
| SessionRules.Transferred | backend/chat_session/views.py:207-235 | As intended, with the session found whoever owns it: fails exactly when the owner is registered or the requester is anonymous, with the two messages of the view; otherwise the requester owns the session, it never expires, and the metadata gains the previous owner and the transfer time, with nothing else changed |
| SessionRules.TransferredIsKept | backend/chat_session/views.py:207-235 | A transferred and saved session is never removed by the expiry cleanup and cannot be transferred a second time |
| SessionRules.TransferAsWritten | backend/chat_session/views.py:25-35 | as written, with the lookup among the requester's own sessions: always an error; "Not found." for someone else's session, one of the two transfer errors for one's own |
| SessionRules.TransferAsWrittenNeverClaims | backend/chat_session/views.py:207-235 | an anonymous user's session claimed by a registered user: the intended rule transfers it, the view as written answers "Not found." |
| SessionRules.IsSessionOwner | backend/chatSession/permissions.py:4-14 | Reading a public session is allowed to anyone; every other access only to the owner |
| SessionRules.CanAccessShared | backend/chatSession/permissions.py:17-28 | A public session is always readable; a private session without a token never is; a private session whose token the URL presents always is |
| SessionRules.UrlTokenWins | backend/chatSession/permissions.py:17-28 | When the URL carries a token, the query parameter never changes the answer |
| SessionRules.SessionKey | backend/chat_session/utils.py:172-176 | The key starts with `session:<id>` and is longer than that exactly when the suffix is non-empty |
| SessionRules.ShorterIdDiffers | backend/chat_session/utils.py:172-176 | A colon-free id is never a proper prefix of another id followed by a colon |
| SessionRules.SessionKeyInjective | backend/chat_session/utils.py:172-176 | Different (colon-free id, suffix) pairs never share a cache key |
| SessionRules.CacheSessionData | backend/chat_session/utils.py:179-183 | Stores the data under the session key and leaves every other entry alone; a positive timeout is kept and any other is replaced by a positive default |
| SessionRules.GetCachedSessionData | backend/chat_session/utils.py:186-189 | Some exactly when the cache holds an entry under the session key |
| SessionRules.InvalidateSessionCache | backend/chat_session/utils.py:192-199 | Removes the base, stats, analysis and export entries of the session and keeps every other entry |
| SessionRules.SessionCacheRoundTrip | backend/chat_session/utils.py:165-199 | Cached data reads back until invalidation; invalidation empties the session's four entries and keeps the entries of other sessions and suffixes |
| SessionRow.ChatSessionRow.constructor | backend/chat_session/models.py:8-40 | The row holds the given session |
| SessionRow.ChatSessionRow.Save | backend/chat_session/models.py:51-62 | The row afterwards holds the saved form of its previous value |
| SessionRow.ChatSessionRow.GenerateShareToken | backend/chat_session/models.py:64-68 | Returns the token; the row holds the saved session carrying it, with its visibility unchanged |
| SessionRow.ChatSessionRow.ShareUpdate | backend/chat_session/serializers.py:136-143 | The row holds the saved result of the share rule applied to its previous value |
| SessionRow.ChatSessionRow.Unshare | backend/chat_session/views.py:122-129 | The row holds the saved private session without a token |
| SessionRow.ChatSessionRow.TransferOwnership | backend/chat_session/views.py:207-235 | As intended: a refused transfer returns the view's error and leaves the row unchanged; an accepted one saves the transferred session and returns its id |
| SessionRow.ChatSessionRow.TransferOwnershipAsWritten | backend/chat_session/views.py:25-35 | As written: always an error, the one TransferAsWritten gives, and "Not found." when the requester does not own the row |
| SessionServices.RandomSession | backend/chat_session/services.py:21-44 | Fails exactly when the random selection fails, with the service's message; otherwise a random-mode session of the requester between the two selected models, with the random title and the selection recorded in the metadata (the title is `RandomTitle` of the pair) |
| SessionServices.CreateSession | backend/chat_session/views.py:85-102 | Succeeds only for an acceptable request, owned by the requester in the requested mode; a random request succeeds exactly when the selection does, and any other acceptable request always succeeds |
| SessionServices.RandomCreateSucceeds | backend/chat_session/views.py:85-102 | With at least two active models of distinct ids, a random request succeeds with two different models |
| SessionServices.DuplicateTitle | backend/chat_session/services.py:58 | A non-empty given title is used as it is; otherwise "Copy of " followed by the original title, or "Untitled" when that is empty |
| SessionServices.DuplicateRecord | backend/chat_session/services.py:55-66 | The copy keeps the original's mode and models, belongs to the new user, and its metadata adds the source session id and the time |
| SessionServices.Remap | backend/chat_session/services.py:95-99 | Same length as the parent list; each parent already copied becomes its copy, and every other parent id is kept |
| SessionServices.IdMappingKeys | backend/chat_session/services.py:73-102 | After k copies the mapping knows exactly the ids of the first k originals |
| SessionServices.IdMappingAt | backend/chat_session/services.py:73-102 | With distinct original ids, the mapping sends each copied original to its own fresh id |
| SessionServices.LinkOnceSkip | backend/chat_session/services.py:104-109 | A parent id that is not stored is skipped and the table is unchanged |
| SessionServices.LinkParents | backend/chat_session/services.py:104-109 | Each stored parent's child list gains the new id once, unless it already holds it; nothing else changes |
| SessionServices.DuplicateMessages | backend/chat_session/services.py:69-109 | Succeeds if and only if no copy is refused by the message save rule; the result is the table after copying every original in position order (`Duplicated`) |
| SessionServices.DuplicateSession | backend/chat_session/services.py:47-111 | Returns the new session record; the message table gains the copies only when messages are included and is unchanged otherwise |
| SessionServices.LinkOnceAt | backend/chat_session/services.py:104-109 | Linking changes only the child lists of the parents, each by at most one append |
| SessionServices.DuplicatedKeys | backend/chat_session/services.py:69-109 | After n copies the table holds the original ids and the first n fresh ids, and nothing more |
| SessionServices.NextIdFresh | backend/chat_session/services.py:101 | The id of the next copy is not in the table when it is saved |
| SessionServices.StepAt | backend/chat_session/services.py:75-109 | One more copy keeps each stored message except its child list, which grows by at most one appended id |
| SessionServices.KeptAt | backend/chat_session/services.py:75-109 | Later copies keep each stored message except its child list, which only grows by appending |
| SessionServices.DuplicatedGrows | backend/chat_session/services.py:69-109 | Duplicating keeps every existing message except its child list, which only grows by appending |
| SessionServices.CopiesStored | backend/chat_session/services.py:79-101 | Copy k is stored under its fresh id with the original's role, content, model, position and participant, status success, in the new session, and with the remapped parents |
| SessionServices.ParentsRemapped | backend/chat_session/services.py:95-99 | A parent of an original that was copied earlier is replaced by its copy; any other parent id is kept (in `CopyOf`) |
| SessionServices.CopyLinked | backend/chat_session/services.py:104-109 | Each copy's id ends up in the child list of every parent that was stored when the copy was saved |
| SessionServices.DuplicatedDistinctChildren | backend/chat_session/services.py:104-109 | Child lists without repeats stay without repeats, so a copy is listed at most once under each parent |
| SessionServices.TokensSplit | backend/chat_session/services.py:263-268 | Every message is counted once, on exactly one side, so input plus output is the total |
| SessionServices.NoUserNoInput | backend/chat_session/services.py:263-268 | Without user messages the input total is 0 and the output total is everything |
| SessionServices.TokenUsage | backend/chat_session/services.py:263-268 | The input total is the sum over user messages, the output total the sum over all others, and together they are the sum over all messages |
| SessionAnalysis.UserTurns | backend/chat_session/utils.py:91-95 | The number of turns never exceeds the number of messages |
| SessionAnalysis.LastUserTime | backend/chat_session/utils.py:89-94 | None exactly when there is no user turn |
| SessionAnalysis.ResponseTimesCount | backend/chat_session/utils.py:91-102 | In a conversation that opens with a user message, every message is either a turn or has a response time, so turns plus response times is the message count |
| SessionAnalysis.TurnsAtLeastFirst | backend/chat_session/utils.py:91-95 | A conversation that starts with a user message has at least one turn |
| SessionAnalysis.ResponseTimesBound | backend/chat_session/utils.py:96-102 | Response times never outnumber the non-user messages |
| SessionAnalysis.BranchingPointsExact | backend/chat_session/utils.py:104-110 | The branching points are exactly the messages with more than one parent, in order and with their parent counts |
| SessionAnalysis.AnalyzeConversationFlow | backend/chat_session/utils.py:72-126 | The turn count, the response times, the branching points and the longest-chain depth; each side's average length is the mean of its message lengths, and 0 for a side without messages |
| SessionAnalysis.Height | backend/chat_session/utils.py:148-156 | Every message counts itself, so the height is at least 1 |
| SessionAnalysis.ChainBound | backend/chat_session/utils.py:148-156 | No chain of children starting at a message is longer than its height |
| SessionAnalysis.ChainAttained | backend/chat_session/utils.py:148-156 | Some chain of children starting at a message is exactly as long as its height |
| SessionAnalysis.RootsAreParentless | backend/chat_session/utils.py:138-140 | A message is a root if and only if it has no parents |
| SessionAnalysis.MaxDepthIsLongestChain | backend/chat_session/utils.py:129-162 | The depth is 0 exactly when no message is parentless; otherwise it is the length of the longest chain of children starting at a parentless message |
| SessionAnalysis.Dfs | backend/chat_session/utils.py:148-156 | Returns the given depth plus the height of the message, less one |
| SessionAnalysis.AppendChildren | backend/chat_session/utils.py:142-145 | The message's child list gains its child ids in order, created first when absent; every other list is unchanged |
| SessionAnalysis.CalculateMaxDepth | backend/chat_session/utils.py:129-162 | Returns the longest-chain depth of the conversation |
| SessionAnalysis.ModelUsesCount | backend/chat_session/utils.py:35-39 | Each session counts once for each of its models |
| SessionAnalysis.FavoriteModels | backend/chat_session/utils.py:35-45 | At most five distinct names with their true usage counts, most used first; any name left out is used no more often than every name kept |
| SessionExport.Rule | backend/chat_session/services.py:196 | A line of exactly 50 '=' characters |
| SessionExport.JoinOccurs | backend/chat_session/services.py:190 | Every line occurs in the newline-joined text |
| SessionExport.SpeakerSuffix | backend/chat_session/services.py:204-206 | The (A) or (B) suffix is added exactly in compare mode to a message with a participant |
| SessionExport.TxtBodyHas | backend/chat_session/services.py:200-212 | Each message's first line is among the lines of the text body (of `TxtBody`) |
| SessionExport.ExportTxt | backend/chat_session/services.py:192-214 | The plain-text content: the header lines, then each message's lines, joined by newlines |
| SessionExport.TxtHasUserLines | backend/chat_session/services.py:200-202 | The text export holds a `USER: <content>` line for every user message |
| SessionExport.ExportMarkdown | backend/chat_session/services.py:160-190 | The markdown content: the header, then each message's lines, joined by newlines (`MarkdownBody`) |
| SessionExport.MarkdownBodyHas | backend/chat_session/services.py:176-187 | Each message's heading line is among the lines of the Markdown body (of `MarkdownBody`) |
| SessionExport.MarkdownHasHeadings | backend/chat_session/services.py:176-182 | The Markdown export holds `### User` followed by the content for every user message, and `### <speaker>` followed by the content for every reply |
| SessionExport.ExportJson | backend/chat_session/services.py:126-158 | One entry per message, in order, keeping its role, content and participant (the session part is `JsonSessionOf`) |
| SessionExport.ExportSession | backend/chat_session/services.py:114-218 | json, markdown and txt each give their branch's content and content type; any other format fails with "Unsupported format: " and the format |
| SessionTasks.TitleSessions | backend/chat_session/tasks.py:26-51 | Each selected session with a user message is titled after it and saved, all others are unchanged, and the report counts the selected sessions |
| SessionTasks.AsWrittenSelectsNothing | backend/chat_session/tasks.py:30-33 | With the NULL-title filter as written, no session is ever selected |
| SessionTasks.AsWrittenMissesUntitledSession | backend/chat_session/tasks.py:26-51 | A recent untitled session whose first user message is "Hello" stays untitled as written, and is titled "Hello" with the empty-title filter |
| SessionTasks.TitledRules | backend/chat_session/tasks.py:35-49 | A titled, older or user-message-free session is never changed; a selected session gets the first 50 characters of its first user message, plus "..." when the message is longer |
| SessionTasks.FileNamesDistinct | backend/chat_session/tasks.py:91 | Sessions with different ids of the same length get different file names |
| SessionTasks.ExportFiles | backend/chat_session/tasks.py:83-92 | For a non-empty batch, fails exactly on an unsupported format; otherwise one file per session, named after it, and text exports hold the text content |
| SessionTasks.ExportSessionBatch | backend/chat_session/tasks.py:73-112 | No matching session reports "No sessions found"; an unsupported format fails; otherwise every chosen session is exported and the report counts them and names the recipient |
| ModelValidation.Check | backend/ai_model/tasks.py:115-140 | Validation raises exactly when the model's provider is not initialized |
| ModelValidation.ValidationRules | backend/ai_model/tasks.py:115-140 | A row stays active if and only if it was active and not found invalid; a deactivated row records the failure; a raised check records its message and stays active; valid and inactive rows are untouched; a second run changes nothing |
| ModelValidation.ValidateAllModels | backend/ai_model/tasks.py:115-140 | Every row becomes its validated form, and the report counts the active models validated and the ones deactivated |
| Users.LocalPart | backend/user/models.py:40 | The part of the e-mail before its first '@': a prefix of the address, free of '@', and followed by '@' when shorter than the address |
| Users.AnonymousName | backend/user/models.py:42 | The generated name `Anonymous_` plus the first 8 characters of the uuid is never empty |
| Users.SavedUserRules | backend/user/models.py:33-43 | An anonymous user without an expiry gets one 30 days ahead; an existing expiry and a registered user's expiry are kept; a non-empty name is kept; an empty one becomes the e-mail's local part or `Anonymous_` and the first 8 characters of the id; no other field changes |
| Users.SavedUserIdempotent | backend/user/models.py:33-43 | Saving a saved user again, at any later time, changes nothing |
| Users.UserRow.constructor | backend/user/models.py:6-24 | The row holds the given user |
| Users.UserRow.Save | backend/user/models.py:33-43 | The row afterwards holds the saved form of its previous value |
| Users.SignUpFields | backend/user/serializers.py:38-53 | the model field checks of a sign-up: an optional e-mail of at most 254 that, when not blank, is a valid address no stored user has; a required non-blank display name of at most 255; a required provider that is google or anonymous; an optional Firebase uid of at most 255 that no stored user has; every text trimmed |
| Users.Validate | backend/user/serializers.py:38-53 | Google sign-up fails exactly when the e-mail or the Firebase uid is missing, with the serializer's message; anonymous sign-up always succeeds, forced anonymous without e-mail or uid and with a non-empty name (the given one, or a generated one); any other provider passes unchanged |
| Users.ValidateSignUp | backend/user/serializers.py:38-53 | accepted exactly when the model field checks pass and a Google sign-up has both an e-mail and a Firebase uid; the provider is google or anonymous, the display name is the given one, trimmed and non-blank, and a Google account gets a valid, unused e-mail and an unused uid |
| Users.ValidateSignUpStable | backend/user/serializers.py:38-53 | Validating already validated attributes accepts them unchanged, whatever uuid is drawn |
| Users.IsEmail | backend/user/models.py:13 | a dot-atom local part, '@', then `localhost` or dot-separated labels ending in a top label of 2 to 63 letters, digits and hyphens, not ending with a hyphen |
| Users.NoAtIsNoEmail | backend/user/models.py:13 | a text without '@', such as "abc", is not an e-mail address |
| Users.PlainAddressIsEmail | backend/user/models.py:13 | "ann@example.com" is an e-mail address |
| Users.ValidateTheme | backend/user/serializers.py:64-70 | Accepts exactly light, dark and system, returning the value; anything else fails with the serializer's message |
| Users.CreateAnonymous | backend/user/serializers.py:77-88 | A new active anonymous account without e-mail or uid, with the given name or a generated one (never empty) and an expiry 30 days ahead |
| Users.OwnerOrReadOnlyRules | backend/user/permissions.py:4-14 | Safe methods are open to everyone; any other method is allowed if and only if the requester is the user object itself |
| Users.AsWrittenAdmitsEveryone | backend/user/permissions.py:17-25 | As written, the check admits every request, including one that carries no credentials |
| Users.WithTokenRefusesNobody | backend/user/permissions.py:17-25 | The corrected check admits a request if and only if it resolved to an account, anonymous ones included, and refuses a request without credentials |
| Users.ActivityStreak | backend/user/views.py:182-203 | 0 exactly when there are no active days; otherwise the length of the run of consecutive calendar days that starts at the most recent day, stopping at the first gap, and never more than the number of days |
| Users.StreakDetermined | backend/user/views.py:190-201 | The streak's contract allows exactly one value for each list of days |
| Users.UserModes | backend/user/views.py:205-212 | The modes of exactly the user's sessions, never more entries than sessions |
| Users.SessionBreakdown | backend/user/views.py:205-212 | Maps exactly the modes the user has sessions in, each to its positive session count |
| CatalogViews.ListModelsAsWritten | backend/ai_model/view.py:39-45 | as written, a request resolved to an account fails because the user model has no `is_staff`; Django's anonymous user sees only active catalog models |
| CatalogViews.ListModelsAsWrittenRefusesAccount | backend/ai_model/view.py:42-44 | an account is refused the listing even when the catalog has an active model that the listing would show |
| CatalogViews.ListModelsRules | backend/ai_model/view.py:39-66 | Only catalog models are listed; a non-staff user sees active models only; every listed model has every requested capability and the requested provider; a staff user without parameters sees the whole catalog (of `ListModels`) |
| CatalogViews.Names | backend/ai_model/view.py:95-106 | The listing's capability names, one per entry and in order |
| CatalogViews.CapabilityListing | backend/ai_model/view.py:88-108 | Exactly the capabilities of active models, each once and in sorted order, with its display name and the positive number of active models offering it |
| CatalogViews.CapabilityDisplayName | backend/ai_model/view.py:104 | same length as the name; underscores become spaces and other non-letters stay; a letter is upper-cased when no letter precedes it and lower-cased otherwise |
| CatalogViews.CountIfPositive | backend/ai_model/view.py:97-100 | A capability that some active model offers is counted at least once |
| CatalogViews.TrendMeaning | backend/ai_model/view.py:235-258 | The trend is up, down or stable; a series with one row or none is stable; it is up (down) exactly when the latest row rates higher (lower) than the row calculated just before it (of `Trend`) |
| CatalogViews.PerformanceMetrics | backend/ai_model/view.py:296-316 | Exactly the categories of the model's all-time rows, each mapped to the first such row in query order |
| CatalogViews.PerformanceIsLatest | backend/ai_model/view.py:298-305 | With the rows newest first, the row kept for a category is that category's latest |
| CatalogViews.VersusOf | backend/ai_model/view.py:331-351 | Wins and losses against an opponent never exceed the comparisons with it |
| CatalogViews.VersusCounts | backend/ai_model/view.py:331-351 | The record's total counts the compare-mode preferences between the model and that opponent, and its wins those where the model was preferred |
| CatalogViews.ComparisonStats | backend/ai_model/view.py:318-351 | Fails exactly when a counted comparison has no opponent model, with the AttributeError message; otherwise one entry per opponent met, holding the record against it |
| CatalogViews.TrackedStep | backend/ai_model/view.py:339-351 | One more feedback row updates only the entry of its opponent, by counting that row |
| CatalogViews.VersusWinRate | backend/ai_model/view.py:353-358 | 0 without comparisons; otherwise wins as a percentage of the total, between 0 and 100 |
| CatalogViews.SerializedWinRate | backend/ai_model/serializers.py:21-30 | 0 without an overall all-time metric or without comparisons in the latest one; otherwise a percentage between 0 and 100 |
| CatalogViews.ValidateMessages | backend/ai_model/serializers.py:76-87 | Succeeds, unchanged, if and only if every message has a role and content with an allowed role; otherwise the first malformed message's complaint |
| CatalogViews.ActiveModel | backend/ai_model/serializers.py:91-95 | Finds an active catalog model with the id, and None exactly when there is none |
| CatalogViews.ValidateComparison | backend/ai_model/serializers.py:65-102 | Succeeds if and only if the bounds hold (with defaults 0.7 and 2000), every message is well formed, and both models are active and different; a missing model gives the serializer's message |
| CatalogViews.ValidateTest | backend/ai_model/serializers.py:105-110 | Succeeds if and only if the prompt is present and non-blank and the bounds hold, with max_tokens defaulting to 500 and streaming on by default |
| ModelCatalog.CountTokens | backend/ai_model/utils.py:212-218 | Four times the estimate is at most the length, and the length is less than four more than that |
| ModelCatalog.CountTokensAppend | backend/ai_model/utils.py:212-218 | Estimating a concatenation gives the sum of the parts' estimates, or one more |
| ModelCatalog.PickPair | backend/ai_model/utils.py:166 | Two different positions below the number of candidates |
| ModelCatalog.PickPairCovers | backend/ai_model/utils.py:166 | Every ordered pair of different positions can be drawn |
| ModelCatalog.RandomModels | backend/ai_model/utils.py:146-166 | Fails exactly when fewer than two active, capable and non-excluded models exist, with the ValueError message; otherwise two such catalog models taken from two different positions |
| ModelCatalog.RandomModelsDistinct | backend/ai_model/utils.py:146-166 | Over a catalog with distinct ids, the two chosen models have different ids |
| ModelCatalog.RecommendedModel | backend/ai_model/utils.py:168-209 | With a scored candidate, the first candidate with the highest score; otherwise the first candidate, or None without one |
| ModelCatalog.FirstBest | backend/ai_model/utils.py:204-207 | The position a stable descending sort puts first: a highest score, with no equal score before it, and None exactly when nothing is scored |
| Entities.NewMessage | backend/message/models.py:27-60 | A new message carries the given identity, session, role and content, no parents or children, no model or participant, empty metadata and the pending status |
| Entities.ModelMetric.WinRate | backend/model_metrics/models.py:47-51 | 0 without comparisons; otherwise wins as a percentage of the comparisons, between 0 and 100 when the counters are consistent |
| Entities.NewMetric | backend/model_metrics/models.py:25-35 | A new record of the series has zero counters, the default rating 1500 and no average rating |
| Text.Abbreviate | backend/chat_session/models.py:56 | A text of at most 50 characters is kept whole; a longer one becomes its first 50 characters followed by "..." |
| Text.TitleCaseRules | backend/ai_model/view.py:104 | `str.title()`: a letter with no letter before it becomes upper case, every other letter lower case, and any other character is unchanged |
| Text.TitleCase | backend/ai_model/view.py:104 | Same length as the input; which letters change case is stated by `Text.TitleCaseRules` (`Title` starts it at the beginning of a word) |
| Text.SortedSet | backend/ai_model/view.py:96 | Every element of the set exactly once, in strictly increasing order |
| Text.Words | backend/message/utlis.py:34-35 | The words are non-empty and contain no whitespace |
| Text.NoWordsIffBlank | backend/message/utlis.py:34-35 | A text has no words exactly when it is all whitespace |
| Text.Strip | backend/ai_model/providers/openai_provider.py:48 | no longer than the text, empty exactly when the text is blank, and otherwise starting and ending with a non-space |
| Text.StripIsInfix | backend/ai_model/providers/openai_provider.py:48 | the stripped text is the part of the text between a blank prefix and a blank suffix |
| Text.StripIdempotent | backend/ai_model/providers/openai_provider.py:48 | stripping twice is stripping once |
| Text.Lower | backend/message/utlis.py:34-35 | the same length, each character lower-cased |
| Text.LowerIdempotent | backend/message/utlis.py:34-35 | lower-casing twice is lower-casing once |
| Text.WordSet | backend/message/utlis.py:34-35 | the set of words is empty exactly when the text has no words |
| Text.ReplaceCharAt | backend/ai_model/view.py:104 | replacing a character by one other character keeps the length and changes exactly the positions holding it |
| Ordering.SortDescStable | backend/model_metrics/tasks.py:170 | the descending sort is stable, as Python's is: elements of equal key keep the order they came in |
| Text.SortedStrings | backend/ai_model/view.py:205-210 | the strings once each, in strictly increasing order, as many as there were when they were distinct |

## Left out

- Persistence: ORM queries, `transaction.atomic`, F-expressions, the Django cache's expiry and Celery scheduling. Tables are maps and sequences, and query results are sequences. Where a query's order or its `distinct` matters, the member states the order the database gives for the query it models; the queries that the database refuses as written, and the members that model them corrected, are listed below by member and under "## Findings". The rating update of the two sides is two independent writes, and no atomicity is claimed for it.
- Concurrency: threads, asyncio tasks, `queue.get(timeout=0.1)`, sleeps and cancellation. The two-branch merges consume a given interleaving of queue items. The retry loop's sleeps are listed, not waited for.
- Floating point and statistics libraries: the Wilson score and confidence interval, the numpy trend, volatility and outliers, the pandas time series, cost estimation, and `round(x, 2)` presentation rounding. Averages and rates are exact reals. The ELO power function is a parameter with its laws.
- Vendor HTTP: the aiohttp sessions and the API calls of the providers. Only the request bodies, the line filters and the model tables are modelled, with JSON decoding as a given function.
- Authentication and identity: JWT, Firebase and Google token checks (user/authentication.py, user/middleware.py, user/services.py, user/utils.py are not part of this model). A request's principal is an input.
- The user model has no `is_authenticated` attribute of its own. A resolved account counts as authenticated, and Django's `AnonymousUser` as the only unauthenticated principal. It has no `is_staff` either: `CatalogViews.ListModelsAsWritten` states the result, and `CatalogViews.ListModels` takes the staff flag as an input, as intended.
- UI and push transport: admin panels, the WebSocket consumer, the signal handlers and the URL routing.
- Request-parsing views: the feedback, metrics and user views, apart from the activity streak and the session breakdown. The user stats view's favourite models, total counts and provider listing are not part of this model.
- Regular expressions, hashing and time formatting: `extract_code_blocks`, `format_model_response`, SHA-256 session hashing and similar-session search, `strftime` and `isoformat`. The formatting functions are parameters, and times are integer seconds.
- Random choices: `random.sample`, `secrets.token_urlsafe` and `uuid4` are given values, constrained only by what the source relies on (two different positions, a non-empty token, fresh ids).
- E-mail and archives: the zip file and the e-mail of `export_session_batch` and of the metric report. Only the files' names and contents and the job's report are modelled.
- `calculate_session_analytics` only caches `analyze_conversation_flow` for recent sessions. The analysis is modelled (`SessionAnalysis.AnalyzeConversationFlow`), but the caching loop is not.
- `cleanup_expired_sessions` is modelled only as the expiry predicate that `SessionRules.TransferredIsKept` uses.
- Text operations are restricted to ASCII: lower-casing, `icontains`, `str.title()` and `str.split()`. Unicode case mapping and Unicode whitespace are not modelled.
- Validation messages generated by Django REST framework's field checks (bounds, choices, blank fields) are paraphrased. Messages the source writes out are modelled exactly, apart from the one below.
- FeedbackRules.ValidateCategories: the error text is "Invalid categories"; the source appends the Python rendering of the set of invalid names, whose order depends on string hashing.
- MessageStore.BuildTree: the node holds the message's model id; the source shows that model's `display_name`, a catalog lookup that is not modelled.
- CalculateModelMetrics: `RatingStore.RatingBook` keeps one record per (model, category, period) and a run overwrites it; the source's `ModelMetric.objects.create` adds a new row per run, keyed by its time, so the earlier rows stay.
- CleanupOldMetrics: with one record per key, the deleted count is that of the kept records; the per-run history rows the source also deletes are not modelled.
- Tree walks carry a step bound so that they terminate on any input, even a cyclic one:
  - `MessageStore.BuildTree` and `MessageStore.GetMessageTree` take a fuel bound;
  - `MessageCache.Invalidate` takes one;
  - `SessionAnalysis.Height` and `SessionAnalysis.Dfs` take one;
  - the root walk stops after as many steps as there are messages.
  With a bound at least the number of messages these walks are complete on acyclic graphs. The source's unbounded recursion on a cyclic graph is not modelled.
- ExportLeaderboard: an entry names its model by id; the source writes the model's `display_name`, a catalog lookup that is not modelled.
- CalculateCategoryDominance: is calculate_category_dominance with the query corrected; as written every call raises the DISTINCT ON error (`MetricReports.CalculateCategoryDominanceAsWritten`, see "## Findings"). An entry names its model by id where the source writes `display_name`.
- SessionPreferences: entries are keyed by model id where the source keys them by `display_name`, so two models sharing a display name, which the source merges into one entry, stay two entries here.
- Existing: messages at the same position are kept in list order; the database breaks that tie by session id. Parents and children normally share their session, so the tie arises only for links across sessions.
- Neighbours: inherits the tie order of Existing.
- LatestMetrics: models the corrected query, ordered by `model_id` first (`MetricHistory.LatestPerModelAccepted`). The source's `order_by('model', '-calculated_at').distinct('model')` is refused by PostgreSQL (`MetricHistory.LatestMetricsAsWritten`, see "## Findings"). Model ids are compared as strings, character by character.
- ModelIdOrder: is the order of the corrected query's `model_id` column; the query as written gives no order, since PostgreSQL refuses it (`MetricHistory.OrderByModelRefused`).
- LatestMetricsComplete: is about the rows of the corrected query; as written the view's query returns no rows (`MetricHistory.LatestMetricsAsWritten`).
- Ranked: ranks the rows of the corrected query; as written get_leaderboard raises when it iterates the query (`Leaderboard.GetLeaderboardAsWritten`).
- RankedBoard: states the board of the corrected query; as written no board is built from the database (`Leaderboard.GetLeaderboardAsWritten`).
- GetLeaderboard: is get_leaderboard with the query corrected; as written, without a non-empty cached board it raises the DISTINCT ON error (`Leaderboard.GetLeaderboardAsWritten`, see "## Findings").
- PercentileRank: is calculate_percentile_rank with the query corrected; as written, a model with an all-time record gets the DISTINCT ON error (`MetricCounters.PercentileRankAsWritten`, see "## Findings").
- DominanceFollowsRank: states the order of the lists the corrected query gives; as written no list is built (`MetricReports.CalculateCategoryDominanceAsWritten`).
- ValidateModelId: a non-empty id that is not a UUID gets "Model not found or inactive" rather than the parse message "Must be a valid UUID."; ids are strings and their UUID syntax is not modelled.
- IsEmail: quoted local parts, IP-address domains and internationalised domain names, which Django's validator also handles, are not modelled; such addresses are refused.
- Fields.CharField: a missing key and an explicit `null` are both `None`. DRF refuses a `null` on a field without `allow_null` with "This field may not be null."; the members below treat it as missing instead.
- Fields.ChoiceField: as CharField, an explicit `null` counts as missing.
- MessageRules.ValidateStream: an explicit `null` temperature or max_tokens gets the default rather than the not-null error (backend/message/serializers.py:137-138); a `null` role or status is refused as missing, with the required-field message.
- MessageRules.ValidateRegenerate: an explicit `null` temperature or max_tokens gets the default rather than the not-null error (backend/message/serializers.py:192-193).
- MessageRules.ValidateBranch: a `null` content or branch type is refused with the required-field message rather than the not-null one.
- CatalogViews.ValidateComparison: an explicit `null` temperature or max_tokens gets the default rather than the not-null error.
- CatalogViews.ValidateTest: an explicit `null` temperature or max_tokens gets the default, and a `null` prompt the required-field message, rather than the not-null error.
- Users.SignUpFields: a `null` display name or provider is refused with the required-field message rather than the not-null one.
- SessionAnalysis.FavoriteModels: the order among names used equally often is not stated; `Counter.most_common` keeps them in the order they were first counted.
- Providers.OpenAIStream, Providers.AnthropicStream, Providers.GoogleStream: a decoded line is given by a total `parse` function, so a line whose JSON lacks a key the source indexes, which raises KeyError there, is not modelled.
- RatingStore.RatingBook.ProcessEloBatch: is the job as intended. As written it always raises at its query (`RatingStore.RatingBook.ProcessEloBatchAsWritten`, see "## Findings"). The task's summary string "Processed N feedback items" (backend/ai_model/tasks.py:112) is not returned; the batch it counts is `RatingStore.EloBatch`.
- RatingStore.EloBatch: is the batch the query at backend/ai_model/tasks.py:83-87 asks for. As written that query raises FieldError, because feedback has no `metadata` field, so no batch is ever formed.
- RatingStore.RatingBook.ApplyEloBatch: marks feedback processed by adding its id to a set. As written the loop is never reached. Past the query, `feedback.metadata[...]` (backend/ai_model/tasks.py:109) would raise AttributeError right after the first rating update.
- Default orderings are taken to be the intended ones: `messages.filter(role='user').first()` in `ChatSession.save` is the first user message by position, and the catalog is in (provider, model name) order.
- MetricReports.GenerateMetricReport: only bounds the number of movers. Which movers are chosen is stated by `MetricReports.BiggestMovers`. It is the report as intended: the top-models query, which PostgreSQL refuses as written (`MetricReports.GenerateMetricReportAsWritten`, see "## Findings"), is taken as the latest record per model, ranked by rating.
- backend/message/views.py:112 calls `MessageService.create_message`, which backend/message/services.py does not define. The stream model starts from the user and assistant messages already created, and the creation step at the head of the stream action is not modelled.
- backend/message/tasks.py imports `message.utils`, but the module file is `message/utlis.py`. The periodic jobs of that file are modelled as if the import resolved.
- The two metric cleanup jobs use different cutoffs (backend/ai_model/tasks.py:148-152 against backend/model_metrics/tasks.py:219-227). Both are modelled as written, and `MetricJobs.CleanupCutoffsDiffer` states the difference.
- The stream action writes the status `error`, which is not one of the message's four declared statuses. It is modelled as written (`StreamFrames.ErrorStatusUndeclared`).

## Findings

| source | as written | input that shows it | evidently intended | confidence | as-written member | corrected member |
|---|---|---|---|---|---|---|
| backend/model_metrics/calculators.py:35-44 | the all-time lookup filters on `calculated_at__date=None`, which never matches a stored record, so a new record with rating 1500 is created | an all-time record of the model rated 1600, then any recalculation: the written record is rated 1500 | recalculation keeps the rating of the existing all-time record | not executed | MetricJobs.AllTimeRecalculationResetsRating | MetricJobs.CorrectedRecalculationKeepsRating |
| backend/feedback/utils.py:131-135 | `inconsistent_users` is the number of (user, model pair) entries | one user who changed their choice on two different model pairs: 1 user checked, 2 inconsistent users | the number of distinct inconsistent users, at most the users checked | not executed | FeedbackChecks.EntryCountExceedsUsersChecked | FeedbackChecks.InconsistentUsersBounded |
| backend/message/streaming.py:59-63 | each retry iterates the same, already exhausted generator | a stream that yields items and then fails, with `max_retries` 3: one retry notice, then a silent end, with no retry and no final error | a retry restarts the stream, and the final error is reported when every pass fails | not executed | Sse.RetryReusesGenerator | Sse.GiveUpIff |
| backend/ai_model/services.py:31-36 | the Google and Anthropic providers are instantiated, but they do not implement the abstract `get_completion` of backend/ai_model/providers/base.py:34-42, so construction raises `TypeError` | settings with a non-empty `GOOGLE_API_KEY`: the service cannot be constructed | the service registers every provider whose key is configured | not executed | AIService.ConfiguredGoogleKeyBreaksService | AIService.InitializeProviders |
| backend/chat_session/tasks.py:30-33 | `generate_session_titles` selects sessions whose title is NULL, but the title column is not nullable (backend/chat_session/models.py:18) | a session created an hour ago with an empty title whose first user message is "Hello": it stays untitled | sessions with an empty title are selected and named after their first user message | not executed | SessionTasks.AsWrittenMissesUntitledSession | SessionTasks.TitledRules |
| backend/user/permissions.py:17-25 | `request.user` is always truthy and Django's `AnonymousUser` has `is_anonymous` set, so the check admits every request | a request without any credentials is admitted | only an authenticated account or an anonymous account resolved from its token is admitted | not executed | Users.AsWrittenAdmitsEveryone | Users.WithTokenRefusesNobody |
| backend/message/services.py:61 | `timezone` is `datetime.timezone` (imported at line 1), which has no `now`, so the session update raises after the message, child lists and relations are written, and `transaction.atomic()` rolls them back | any user message with existing, distinct parents: no message is created and the call fails | `django.utils.timezone.now()`: the message is created and the session's update time set | not executed | MessageStore.MessageTable.CreateUserMessageAsWritten | MessageStore.MessageTable.CreateUserMessage |
| backend/message/services.py:155 | `await sync_to_async(MessageSerializer)(assistant_message).data` reads `.data` from the un-awaited coroutine, which raises after the success is saved and the 'completed' update is sent; the except branch saves the reply failed | a provider stream that yields "Hi" and ends: the reply ends failed with "'coroutine' object has no attribute 'data'" and the last event is an error | the serializer is awaited first, the reply stays successful and the last event is `complete` | not executed | MessageStore.MessageTable.FinishReplyAsWritten | MessageStore.MessageTable.FinishReply |
| backend/message/views.py:321-327 | the regenerate action hands the async generator `update_generator()` to `create_streaming_response`, whose plain `for` loop (backend/message/streaming.py:15) cannot iterate it | any regeneration: the response is the single event `data: {"type": "error", "error": "'async_generator' object is not iterable"}` | the events of the regenerated reply, relabelled with the new message's id, then `done` | not executed | Sse.RegenerateStreamAsWritten | Sse.RegenerateStream |
| backend/ai_model/view.py:43 | `get_queryset` reads `request.user.is_staff`, which the project's user model (backend/user/models.py:6-23) does not define | any model listing by a signed-in user: AttributeError instead of the active models | staff see the whole catalog and everyone else the active models | not executed | CatalogViews.ListModelsAsWritten | CatalogViews.ListModelsRules |
| backend/chat_session/views.py:25-35 | `get_queryset` keeps only the requester's own sessions for every action but `shared`, and `transfer_ownership` (lines 207-235) finds the session through it, so the owner is always the requester and one of the two transfer checks always refuses | a registered user claiming an anonymous user's session: "Not found." | the session is found whoever owns it, and an anonymous user's session passes to the registered requester | not executed | SessionRules.TransferAsWrittenNeverClaims | SessionRules.Transferred |
| backend/feedback/serializers.py:165-171 | the bulk list's child serializer is built without data, and its `validate_rating` and `validate_preferred_model_id` (lines 57, 64) read `self.initial_data`, so any item with a preferred model or a rating raises AttributeError | a batch of one preference item that a single submission accepts: "'FeedbackCreateSerializer' object has no attribute 'initial_data'" | every item is validated as a single submission is, and an accepted batch creates one feedback per item | not executed | FeedbackRules.PreferenceBatchRefused | FeedbackRules.BulkFeedback |
| backend/ai_model/tasks.py:83-87 | the batch query filters on `metadata__elo_processed__isnull`, but feedback has no `metadata` field (backend/feedback/models.py:16-39), so `filter()` raises FieldError | any run, even over a compare-mode preference that names model A: "Cannot resolve keyword 'metadata' into field.", no rating moves and nothing is marked | up to 100 unprocessed compare-mode preferences, oldest first, each moving the overall ratings and then marked processed | not executed | RatingStore.RatingBook.ProcessEloBatchAsWritten | RatingStore.RatingBook.ProcessEloBatch |
| backend/model_metrics/tasks.py:128-131 | `.distinct('model')` followed by `.order_by('-elo_rating')`: the last `order_by` replaces the ordering, so DISTINCT ON `model_id` meets ORDER BY `elo_rating`, which PostgreSQL refuses; the first ordering, by `model`, would be refused too, since it sorts on the catalog's provider and name | any run, even with an empty metric table: the task raises "SELECT DISTINCT ON expressions must match initial ORDER BY expressions" at the first category and builds no report | the latest all-time record of each model, the five best-rated first | not executed | MetricReports.GenerateMetricReportAsWritten | MetricReports.GenerateMetricReport |
| backend/ai_model/view.py:205-210 | `order_by('model', '-calculated_at').distinct('model')`: ordering by the foreign key `model` sorts on the catalog's provider and model name (backend/ai_model/models.py:35), so DISTINCT ON `model_id` does not match the initial ORDER BY and PostgreSQL refuses the query | any leaderboard request, even with an empty metric table: "SELECT DISTINCT ON expressions must match initial ORDER BY expressions" | the latest row of each model of the series | not executed | MetricHistory.LatestMetricsAsWritten | MetricHistory.LatestMetrics |
| backend/model_metrics/services.py:55-60 | the same query in get_leaderboard | any call without a non-empty cached board, even with an empty metric table: the DISTINCT ON error | the latest row of each model, ranked by rating | not executed | Leaderboard.GetLeaderboardAsWritten | Leaderboard.GetLeaderboard |
| backend/model_metrics/calculators.py:169-175 | the same query in calculate_percentile_rank; `.count()` keeps its ordering, since it has DISTINCT ON fields | a model with one all-time record: the DISTINCT ON error instead of 100.0 | the share of the other models rated below it | not executed | MetricCounters.PercentileRankAsWritten | MetricCounters.PercentileRank |
| backend/model_metrics/aggregators.py:120-123 | the same query in calculate_category_dominance | any call, even with an empty metric table: the DISTINCT ON error at the first category | the five best-rated models of each category with their dominance | not executed | MetricReports.CalculateCategoryDominanceAsWritten | MetricReports.CalculateCategoryDominance |
| backend/model_metrics/tasks.py:174 | once the top-models query of lines 128-131 is corrected, `values_list('provider', flat=True).distinct()` on a catalog ordered by (provider, model name) (backend/ai_model/models.py:35) selects distinct (provider, model name) rows, so a provider repeats once per active model | two active models "a" and "b" of one provider: the report, with lines 128-131 corrected, has two summary lines for it | one summary line per provider | not executed | MetricReports.ProviderRowRepeats | MetricReports.ActiveProviders |
| backend/feedback/tasks.py:93-95 | `values_list('user', flat=True).distinct()` on feedback ordered by `-created_at` (backend/feedback/models.py:48) selects distinct (user, time) rows, so a user repeats once per recent feedback time, and `[:100]` counts rows | a spammer with two recent feedbacks at different times: two spam entries for the same user | each recent user checked once, and the first 100 users checked for anomalies | not executed | FeedbackChecks.SpammerListedTwice | FeedbackChecks.DetectFeedbackAnomalies |
