# Real Madrid match analytics: a Dafny model of the aggregation core

This project models the part of the sports-analysis backend that computes
something from stored matches. Each piece is stated and proved in Dafny 4.11.

- **The match store of the API server** (`MatchStore`). Each SQL query of
  `backend/api/services/database.ts` becomes a function over an in-memory
  table of `Match` records. The predictions table is a field of the class
  `DatabaseService`, and `InsertPrediction` updates it in place.
- **The Python analytics engine** (`AnalyticsEngine`). This covers the
  current-streak loop, the win-rate and streak entries of the recent form,
  and the analytics summary.
- **The fixture parser of the data collector** (`Collector`). It turns a
  JSON fixture into a match seen from Real Madrid's side.
- **The deterministic feature columns of the predictor** (`Predictor`):
  - the flags;
  - the rolling win rates;
  - the run-length streak computed through `groupby`/`cumsum`;
  - the month-to-quarter buckets;
  - the date ordering.
- **The WebSocket fan-out and subscribe handler** (`WebSocketHub`). These are
  classes over connection records `{readyState, subscriptions, outbox}`.
- **The three ML routes** (`MlRoutes`). They validate the request, call the
  prediction service, store the result and broadcast. This is a class whose
  `log` records every effect in order.

Shared pieces:

| module | contents |
|---|---|
| `Wrappers` | `Option` |
| `Text` | string order, decimal text, score text |
| `Types` | the records |
| `Aggregates` | filters, counts, sums, means, percentages |
| `DateOrder` | date ordering as insertion sorts |
| `Competitions` | the competition histogram |

Dates are `YYYY-MM-DD` strings compared character by character, which is
SQLite's BINARY collation. Possession and expected goals are `real`, and
every count is an unbounded `int`/`nat`.

Each kind of outside input becomes a parameter:

| outside input | parameter |
|---|---|
| `date('now', '-365 days')` | `cutoff` |
| `new Date()` | `now`, `today` |
| the ML service outcome | `Outcome` |
| a failing SQLite write | `fault` |
| the per-match statistics drawn at random | `SampledStats` |

Four behaviours of the code that are easy to misread:

- `SUM`/`AVG` over an empty season window are SQL `NULL`, not 0. So
  `SeasonStats` holds `Option`s, and `SeasonStatsOf` proves they are all
  absent or all present together.
- `Math.round` rounds halves up (`Floor(x + 0.5)`). It does not round them
  away from zero.
- `ORDER BY date DESC` and `sort_values('date')` leave the order of equal
  dates unspecified. The sort contracts promise sortedness and a
  permutation. The model itself is an insertion sort with one fixed tie
  order, and `FormStatsOf` and `DeriveFeatures` are stated in terms of that
  sort, so they inherit its tie order.
- pandas `head(n)` with a negative `n` drops the last `|n|` rows, and SQLite's
  `LIMIT n` with a negative `n` means no limit. Both are modelled as written.

## Model

| member | source | states |
|---|---|---|
| MatchStore.RecentMatches | backend/api/services/database.ts:65-76 | The result is date-descending and has length `min(limit, n)`, or all `n` rows when the limit is negative. It is a sub-multiset of the table, and no row left out is newer than a row kept. |
| MatchStore.MatchesByCompetition | backend/api/services/database.ts:78-89 | The result is date-descending. It holds every stored row whose competition equals `name` exactly (case-sensitive), as often as it is stored, and no other row. |
| MatchStore.LatestMatch | backend/api/services/database.ts:91-101 | It is absent iff the table is empty. Otherwise it is a stored row whose date is at least every stored date. |
| MatchStore.FormOfWindow | backend/api/services/database.ts:128-144 | The counts are the rows whose result is exactly W/D/L. Their sum is at most the window length, and equals it iff every result is one of the three codes. The goals are the exact column sums. The win percentage is `Percentage(wins, length)`, whose contract fixes it at `percentage * length == 100 * wins`; it lies in 0..100, is 0 iff there are no wins, and is 100 iff every row is a win. |
| MatchStore.AvgPossessionNearMean | backend/api/services/database.ts:133-142 | The average possession is a whole number of tenths within 0.05 of the exact mean, which is `Math.round(mean*10)/10`. It stays in 0..100 when every possession share does. |
| MatchStore.FormStatsOf | backend/api/services/database.ts:103-148 | The window is `RecentMatches(rows, n)`. It is empty iff the table is empty or `n == 0`, and then the result is the all-zero record with no matches. Otherwise the result is `FormOfWindow` of that window. |
| MatchStore.FormIgnoresWindowOrder | backend/api/services/database.ts:128-133 | Two windows with the same rows in any order give the same counts, goal sums, percentage and average; only `matches` differs. |
| MatchStore.SeasonStatsOf | backend/api/services/database.ts:177-200 | `total_matches` counts the rows dated on or after the cutoff. It is 0 iff every aggregate is NULL, and positive iff none is. Each present aggregate is its value over `Filter(rows, DatedFrom(cutoff))`: the W/D/L counts, the goal, shot and on-target sums, the exact possession and xG means, and the clean-sheet count. Wins+draws+losses ≤ total, clean sheets ≤ total, and the average possession is in 0..100 when all possessions are. |
| MatchStore.SeasonOfWindow | backend/api/services/database.ts:177-200 | Over a date window: `total_matches` is the window size. Every aggregate is NULL iff the window is empty and present iff it is not. Each present aggregate is its value over the window: the W/D/L counts, the goal, shot and on-target sums, the possession and xG means, and the clean-sheet count. W+D+L and clean sheets fit in the total. |
| MatchStore.NewestPrefix | backend/api/services/database.ts:65-76 | The first `limit` rows of the newest-first table are date-descending, a sub-multiset of the table, and no row left out is newer than a row kept. |
| MatchStore.SeasonIgnoresOlderMatch | backend/api/services/database.ts:193 | Adding a match dated before the cutoff leaves the season row unchanged. |
| MatchStore.SeasonCountsNewerMatch | backend/api/services/database.ts:181-193 | Adding a match dated on or after the cutoff raises `total_matches` by one. |
| MatchStore.CompetitionsOf | backend/api/services/database.ts:202-212 | Each competition of the table is listed once. The counts are the numbers of rows in that competition; they are positive, non-increasing, and sum to the table size. |
| MatchStore.DatabaseService.InsertPrediction | backend/api/services/database.ts:150-175 | A failed write returns the error and changes nothing. Otherwise exactly one row is appended, carrying the input under an id greater than every earlier id, and the id invariant `Valid` is kept. The matches table, the only state the queries read, is unchanged. |
| Aggregates.FilterMultiset | backend/api/services/database.ts:78-89 | `WHERE`: each row satisfying the test occurs in the result as often as in the table, and every other row occurs zero times. |
| Aggregates.FilterCount | backend/api/services/database.ts:181 | `COUNT(*)` over a `WHERE`: the filtered rows number exactly the rows that pass the test. |
| Aggregates.CountWhere | backend/api/services/database.ts:128-130 | A count fits in the row count. It is 0 iff no row passes the test, and equals the row count iff every row does. |
| Aggregates.ResultCountsPartition | backend/api/types/index.ts:11 | W+D+L ≤ row count, with equality iff every result is one of the three codes. |
| Aggregates.SumIntPermutation | backend/api/services/database.ts:131-132 | Integer column sums do not depend on row order. |
| Aggregates.SumRealPermutation | backend/api/services/database.ts:133 | Real column sums do not depend on row order. |
| Aggregates.CountWherePermutation | backend/api/services/database.ts:128-130 | Counts do not depend on row order. |
| Aggregates.FilterAppend | backend/api/services/database.ts:193 | A filter over a concatenation is the concatenation of the filters. |
| Aggregates.MeanWithin | backend/api/services/database.ts:133 | A mean of values in `[lo, hi]` lies in `[lo, hi]`. |
| Aggregates.RoundToTenth | backend/api/services/database.ts:142 | `Math.round(x*10)/10` is a whole number of tenths, within 0.05 of `x` (above `x - 0.05`, at most `x + 0.05`), and stays in 0..100 when `x` does. |
| Aggregates.Percentage | backend/api/services/database.ts:139 | The result is `part*100/whole`, in 0..100, 0 iff `part` is 0, and 100 iff `part == whole`. |
| Aggregates.WinRate | backend/python/analytics-engine.py:94-96 | The mean of `result == 'W'` lies in 0..1 and times the row count gives the wins. It is 1 iff every row is a win and 0 iff none is. |
| DateOrder.InsertByDateDesc | backend/api/services/database.ts:68 | Inserting a row into a date-descending table keeps it date-descending and adds exactly that row. |
| DateOrder.Limit | backend/api/services/database.ts:68 | `LIMIT n` keeps the first `n` rows, or every row when `n` is negative or exceeds the table. |
| DateOrder.SortByDateDesc | backend/api/services/database.ts:68 | `ORDER BY date DESC`: date-descending, and a permutation of the input. |
| DateOrder.PrefixIsNewest | backend/api/services/database.ts:68 | In a date-descending table, no row after a prefix is newer than a row in it. |
| DateOrder.SortByDateAsc | backend/python/services/predictor.py:30 | `sort_values('date')`: date-ascending, and a permutation of the input. |
| DateOrder.ReverseOfDescIsAsc | backend/python/services/predictor.py:30 | Reversing a date-descending table gives a date-ascending one. |
| Competitions.Tally | backend/api/services/database.ts:205 | `GROUP BY competition`: each name appears once with a positive count, each count is the number of rows of that competition, and the counts sum to the row count. |
| Competitions.Bump | backend/api/services/database.ts:205 | Counting one more row of competition `c` raises `c`'s count by one and no other, adds one to the total, keeps the names distinct and the counts positive, and introduces no name but `c`. |
| Competitions.InsertByCount | backend/api/services/database.ts:205 | Inserting a group into a count-descending list keeps it count-descending and adds exactly that group. |
| Competitions.SortByCount | backend/api/services/database.ts:205 | `ORDER BY matches DESC`: non-increasing counts, and a permutation of the groups. |
| Competitions.SortByCountTotal | backend/api/services/database.ts:205 | Sorting the groups keeps the total of their counts. |
| Competitions.SortByCountDistinct | backend/api/services/database.ts:205 | Sorting groups with distinct names keeps the names distinct. |
| Text.LexLeTransitive | backend/api/services/database.ts:68 | The date order is transitive. |
| Text.LexLeTotal | backend/api/services/database.ts:68 | Any two dates are comparable. |
| Text.LexLeAntisymmetric | backend/api/services/database.ts:68 | Two dates that are each ≤ the other are equal. |
| Text.NatToStringRoundTrip | backend/python/analytics-engine.py:162 | The decimal text of a count reads back as the count. |
| Text.ScoreStringRoundTrip | backend/python/analytics-engine.py:162 | `"<for>-<against>"` for non-negative goals is well-formed score text and reads back as the two goal counts. |
| AnalyticsEngine.LeadingWins | backend/python/analytics-engine.py:106-115 | The number of leading wins is at most the row count. The first `n` rows are wins, and row `n`, if present, is not. |
| AnalyticsEngine.LeadingWinsUnique | backend/python/analytics-engine.py:106-115 | Any maximal leading run of wins has exactly that length. |
| AnalyticsEngine.CalculateCurrentStreak | backend/python/analytics-engine.py:102-115 | The loop returns `LeadingWins(frame)`. That is 0 on an empty frame, and 0 when the first result is not a win. |
| AnalyticsEngine.Head | backend/python/analytics-engine.py:39 | `head(n)` is a prefix of length `min(n, len)`, or `len + n` (at least 0) when `n` is negative. |
| AnalyticsEngine.RecentFormOf | backend/python/analytics-engine.py:37-100 | An empty window gives the fixed defaults. Otherwise the three rates are `WinRate` of the first 3, the first 5 and all rows of the window, each in 0..1, and both streak entries equal the leading-win run. |
| AnalyticsEngine.ShotAccuracy | backend/python/analytics-engine.py:171 | The result is 0 when there are no shots, and `sot*100/shots` otherwise, in 0..100 when `0 ≤ sot ≤ shots`. |
| AnalyticsEngine.SummaryOf | backend/python/analytics-engine.py:124-173 | An empty history gives the fixed all-zero summary with no latest match, and the latest match is absent iff the history is empty. Otherwise `total_matches` is the row count; the parts are the recent record of the ten newest rows, the first row, and the whole-history season totals. |
| AnalyticsEngine.RecentRecordBounds | backend/python/analytics-engine.py:147-155 | `RecentRecordOf` the ten newest rows: the window has `min(10, n)` rows. W/D/L count it, with sum ≤ window length and equality iff all results are known codes. The win percentage is `Percentage(wins, window length)`, whose contract fixes it at `percentage * length == 100 * wins`; it lies in 0..100, is 100 iff all are wins, and is 0 iff none is. |
| AnalyticsEngine.LatestMatchScore | backend/python/analytics-engine.py:157-163 | `LatestOf` the first row copies its date, opponent, venue, result and competition, and its score text parses back to that row's goals. |
| AnalyticsEngine.LatestIsNewest | backend/python/analytics-engine.py:157-158 | On a newest-first frame the latest match's date is at least every date. |
| AnalyticsEngine.SeasonTotalsBounds | backend/python/analytics-engine.py:165-172 | `SeasonTotalsOf` the history: the goals and shots are whole-history sums, and the possession is the exact mean. Clean sheets count `goals_against == 0` rows and fit in the history. The shot accuracy is `ShotAccuracy(on-target sum, shot sum)`: 0 with no shots, and `accuracy * shots == 100 * on target` otherwise. It lies in 0..100 when no row has more shots on target than shots. |
| Collector.Member | backend/python/services/data-collector.py:44-45 | `j[key]` is present iff `j` is an object holding `key`, and is that field. |
| Collector.ResultOf | backend/python/services/data-collector.py:55-60 | The result is W iff goals for > against, D iff equal, and L iff fewer. |
| Collector.Prefix10 | backend/python/services/data-collector.py:63 | `s[:10]` is the prefix of length `min(10, len)`. |
| Collector.ResultMirrors | backend/python/services/data-collector.py:55-60 | Swapping the two goal counts turns a win into a loss and back, and keeps a draw a draw. |
| Collector.ParsedResultIsKnown | backend/python/services/data-collector.py:55-60 | A fixture that parses always yields one of the three result codes. |
| Collector.ParseMatchData | backend/python/services/data-collector.py:42-81 | The parse succeeds iff every field read is present with a usable type. The venue is Home iff the home name is exactly "Real Madrid CF". The opponent is the other side. The goals are (home, away) at home and (away, home) away, so their sum is preserved. The result agrees with the score, the date is the 10-character prefix, and the competition and sampled statistics are copied. |
| Predictor.MonthOf | backend/python/services/predictor.py:55 | The month of a valid date is in 1..12. |
| Predictor.PeriodOf | backend/python/services/predictor.py:57 | Months 1-3 map to Q1, 4-6 to Q2, 7-9 to Q3 and 10-12 to Q4, each as an iff. |
| Predictor.PeriodIsQuarter | backend/python/services/predictor.py:57 | The bin of month `m` is the calendar quarter `ceil(m/3)`. |
| Predictor.GroupIds | backend/python/services/predictor.py:59-61 | The group number starts at 1 and grows by one exactly where a row does not continue the previous row's run. |
| Predictor.GroupIdsMonotone | backend/python/services/predictor.py:61 | Group numbers never decrease along the frame. |
| Predictor.StreakRecurrence | backend/python/services/predictor.py:61 | `CurrentStreaks` (`cumcount()+1` within groups) is 1 at the first row and at each break, and one more than the previous row otherwise. |
| Predictor.StreakIsRunPosition | backend/python/services/predictor.py:61 | `current_streak` at row `i` is its 1-based position in the maximal run of equal known results ending at `i`. The run's rows continue one another and share the result, and the row before the run breaks it. |
| Predictor.TrailingWindow | backend/python/services/predictor.py:52 | A `rolling(k, min_periods=1)` window at row `i` is the last `min(k, i+1)` rows ending at `i`. |
| Predictor.FeatureAt | backend/python/services/predictor.py:32-62 | The flags are 0 or 1: `is_home` is 1 iff venue is exactly "Home", `clean_sheet` iff no goal conceded, `big_win` iff difference ≥ 3, `high_scoring` iff total ≥ 4. The difference and total are exact. Each `win_rate_k` is `WinRate` of the trailing window, in 0..1. The month is the row date's month and the season period its quarter bin. `current_streak` is the given streak, and `win_streak` is that streak on W rows and 0 otherwise. |
| Predictor.FeaturesOfSorted | backend/python/services/predictor.py:32-62 | On a date-ordered frame: one engineered row per input row, and row `i` is `FeatureAt` row `i` with the `CurrentStreaks` of the frame. |
| Predictor.FeaturesKeepRows | backend/python/services/predictor.py:28-30 | The frame `FeaturesOfSorted` engineers carries the input rows, one per row, in order. |
| Predictor.DeriveFeatures | backend/python/services/predictor.py:27-74 | It fails iff some date is not a calendar date. Otherwise it gives one engineered row per input row, in ascending date order, whose sources are a permutation of the input. |
| Predictor.AdvancedPredictor.EngineerFeatures | backend/python/services/predictor.py:27-74 | The method returns `DeriveFeatures(frame)`, leaving the frame as it was. On success it records the 32 training columns; on failure it leaves them unchanged. |
| WebSocketHub.Client.OnMessage | backend/api/services/websocket.ts:19-28 | A `subscribe` message sets the subscriptions to its channels, or to none when it lists none. Any other message, and an unparseable one, changes nothing. |
| WebSocketHub.Hub.Broadcast | backend/api/services/websocket.ts:8-14 | Every OPEN connection gets the event appended once, and the others get nothing. The connection list, each state and each subscription list are unchanged; with no connections nothing is sent. |
| MlRoutes.MlRouter.Train | backend/api/routes/ml.ts:13-36 | Success calls the service, then broadcasts `model_updated` once, then answers 200 with the service's output. Failure answers 500 with "Failed to train model" and the error details, and broadcasts nothing. The store and all connection states are untouched. |
| MlRoutes.MlRouter.Predict | backend/api/routes/ml.ts:38-83 | A missing or empty field gives 400 with no call, no insert and no broadcast. A service or store failure gives 500 with "Failed to generate prediction" and no broadcast. Success stores exactly one row copied from the prediction under a fresh id, and only then broadcasts `new_prediction` once, then answers 200. |
| MlRoutes.MlRouter.UpdateData | backend/api/routes/ml.ts:85-108 | Success calls the service, then broadcasts `data_updated` once, then answers 200. Failure answers 500 with "Failed to update data" and broadcasts nothing. |

## Left out

- SQLite itself is not modelled: the DDL, the driver callbacks, promise wrapping, `close()` and the Python `database.py` wrapper. Its `get_all_matches` has no visible return, so the analytics functions take the frame it would return (newest first) as a parameter.
- MatchStore.DatabaseService.InsertPrediction: the matches table is kept unchanged, so every query (each one reads only that table) gives the same answer. This is not restated query by query.
- The float averages are not modelled: the `avg_*` and `*_avg_k` entries of `get_recent_form` and their hard-coded defaults, `days_since_last_match`, and the goals, xG, possession and shots rolling averages of the predictor. Only the win-rate and streak entries of `get_recent_form` (with their defaults) and the `win_rate_k` rolling means of the predictor are modelled.
- Every fractional value that is modelled is an exact `real`, with no IEEE rounding: the possession and xG means (`getFormStats`, the season row, the summary), the win percentages, the win rates and the shot accuracy.
- The predictor's label encoders, `days_since_last_match` and `is_weekend` columns, and everything from `train_ensemble` on are not modelled. They are sklearn/numpy calls and weekday arithmetic on pandas timestamps.
- Predictor.DeriveFeatures: `pd.to_datetime` accepts many date formats. The model accepts only `YYYY-MM-DD` calendar dates and treats every other text as a failure.
- Predictor.DeriveFeatures: pandas timestamps cover only about the years 1677 to 2262, and `pd.to_datetime` raises outside them. The model accepts any four-digit year, so a date such as "0001-01-01" succeeds here.
- Predictor.DeriveFeatures: pandas `sort_values` uses an unstable quicksort, so the order of rows with equal dates is unspecified. The model sorts with one fixed tie order, and on tied dates the streak and rolling-rate columns depend on it.
- MatchStore.FormStatsOf: SQLite does not fix the order of rows with equal dates. The window is the model's sort with its fixed tie order, which fixes the order of the `matches` list and, when equal dates straddle the `LIMIT` cut, which of them the window keeps and counts.
- Collector.ParseMatchData: JSON numbers are integers, and team names, the competition name and `utcDate` must be strings. Python carries on in cases the model treats as a failed parse:
  - a float score, and a boolean or list score, which Python compares (`True > False`, `[1] > [0]`);
  - a non-string team name, which is compared with "Real Madrid CF";
  - a null, numeric, boolean, list or object competition name, which is copied as is (the match record does no validation);
  - a list `utcDate`, which `[:10]` slices;
  - string scores, which are compared as strings ("2" > "10" gives a win).
- `fetch_live_data` (HTTP, the 429 back-off, season loop) and `generate_realistic_data` (seeded randomness) are not modelled; the sampled statistics are a parameter.
- `update_data` and `train_models` of the analytics engine are not modelled. They loop over I/O and sklearn. So is the `is_trained` flag they set.
- The Python subprocess bridge (`backend/api/services/ml.ts`) becomes the `Outcome` parameter of each route. JSON serialisation of events and responses is not modelled, and neither is the `type` tag each event is sent with.
- Successive broadcasts are stated one `Broadcast` call at a time. The model has no single fact for a run of them.
- MlRoutes.MlRouter.Train and MlRoutes.MlRouter.UpdateData: the event timestamp is the `now` parameter, not a clock.
- WebSocket connection events, logging and the interleaving of concurrent requests are not modelled. Each handler runs to completion on its own, and the broadcast is one sequential pass over the connections.
- The Express wiring (`app.ts`, middleware, `health.ts`, `error.ts`, the pass-through routes) is not part of this model.
