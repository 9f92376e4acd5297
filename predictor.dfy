/**
 * The deterministic part of `AdvancedPredictor.engineer_features`
 * (backend/python/services/predictor.py): the frame is copied, ordered by
 * date, and every row gains the derived columns below. The rolling float
 * means, the label encoders, the weekday and day-gap columns are not part
 * of this model.
 */
module Predictor {
  import opened Wrappers
  import opened Text
  import opened Types
  import opened Aggregates
  import opened DateOrder

  /* ---------- dates ---------- */

  predicate IsLeapYear(y: nat) {
    (y % 4 == 0 && y % 100 != 0) || y % 400 == 0
  }

  function DaysInMonth(y: nat, m: nat): nat
    requires 1 <= m <= 12
  {
    if m == 2 then (if IsLeapYear(y) then 29 else 28)
    else if m == 4 || m == 6 || m == 9 || m == 11 then 30
    else 31
  }

  function YearOf(s: string): nat
    requires |s| == 10 && AllDigits(s[..4])
  {
    ParseDigits(s[..4])
  }

  function MonthNumber(s: string): nat
    requires |s| == 10 && AllDigits(s[5..7])
  {
    ParseDigits(s[5..7])
  }

  function DayNumber(s: string): nat
    requires |s| == 10 && AllDigits(s[8..])
  {
    ParseDigits(s[8..])
  }

  /** A calendar date written "YYYY-MM-DD", the text `pd.to_datetime` reads here. */
  predicate ValidDate(s: string) {
    && |s| == 10
    && s[4] == '-' && s[7] == '-'
    && AllDigits(s[..4]) && AllDigits(s[5..7]) && AllDigits(s[8..])
    && 1 <= MonthNumber(s) <= 12
    && 1 <= DayNumber(s) <= DaysInMonth(YearOf(s), MonthNumber(s))
  }

  /** `df['date'].dt.month`. */
  function MonthOf(s: string): (m: nat)
    requires ValidDate(s)
    ensures 1 <= m <= 12
  {
    MonthNumber(s)
  }

  /* ---------- season period ---------- */

  datatype SeasonPeriod = Q1 | Q2 | Q3 | Q4

  /** `pd.cut(month, bins=[0, 3, 6, 9, 12])`: right-closed bins (0,3], (3,6], (6,9], (9,12]. */
  function PeriodOf(month: nat): (p: SeasonPeriod)
    requires 1 <= month <= 12
    ensures p == Q1 <==> month <= 3
    ensures p == Q2 <==> 4 <= month <= 6
    ensures p == Q3 <==> 7 <= month <= 9
    ensures p == Q4 <==> 10 <= month
  {
    if month <= 3 then Q1
    else if month <= 6 then Q2
    else if month <= 9 then Q3
    else Q4
  }

  function QuarterNumber(p: SeasonPeriod): nat {
    match p
    case Q1 => 1
    case Q2 => 2
    case Q3 => 3
    case Q4 => 4
  }

  /** The bins are the calendar quarters: quarter = ceil(month / 3). */
  lemma PeriodIsQuarter(month: nat)
    requires 1 <= month <= 12
    ensures QuarterNumber(PeriodOf(month)) == (month + 2) / 3
  {
  }

  /* ---------- run-length streaks ---------- */

  /**
   * Whether `cur` continues the run of `prev`: `result_numeric` maps W, D and
   * L to 1, 0 and -1 and every other text to NaN, and NaN differs from
   * everything, itself included, so only equal known codes continue a run.
   */
  predicate Continues(prev: Match, cur: Match) {
    IsKnownResult(cur.result) && cur.result == prev.result
  }

  /**
   * `(result_numeric != result_numeric.shift()).cumsum()`: a group number per
   * row that grows by one wherever a new run starts.
   */
  function GroupIds(rows: seq<Match>): (ids: seq<nat>)
    ensures |ids| == |rows|
    ensures rows != [] ==> ids[0] == 1
    ensures forall i :: 0 < i < |rows| ==>
              ids[i] == ids[i - 1] + (if Continues(rows[i - 1], rows[i]) then 0 else 1)
    decreases |rows|
  {
    if rows == [] then []
    else
      var n := |rows|;
      var front := GroupIds(rows[..n - 1]);
      assert forall i :: 0 <= i < n - 1 ==> rows[..n - 1][i] == rows[i];
      var last := if n == 1 then 1 else front[n - 2] + (if Continues(rows[n - 2], rows[n - 1]) then 0 else 1);
      front + [last]
  }

  /** Group numbers never decrease along the frame. */
  lemma {:induction false} GroupIdsMonotone(rows: seq<Match>, j: nat, i: nat)
    requires j <= i < |rows|
    ensures GroupIds(rows)[j] <= GroupIds(rows)[i]
    decreases i - j
  {
    if j < i {
      GroupIdsMonotone(rows, j, i - 1);
    }
  }

  /** Occurrences of `x` in `s`. */
  function CountEq(s: seq<nat>, x: nat): (n: nat)
    ensures n <= |s|
  {
    if s == [] then 0 else (if s[|s| - 1] == x then 1 else 0) + CountEq(s[..|s| - 1], x)
  }

  lemma CountEqAbsent(s: seq<nat>, x: nat)
    requires forall k :: 0 <= k < |s| ==> s[k] < x
    ensures CountEq(s, x) == 0
  {
    if s != [] {
      assert forall k :: 0 <= k < |s| - 1 ==> s[..|s| - 1][k] == s[k];
      CountEqAbsent(s[..|s| - 1], x);
    }
  }

  /** `groupby(ids).cumcount() + 1`: the row's 1-based position within its group. */
  function CurrentStreaks(rows: seq<Match>): (r: seq<nat>)
    ensures |r| == |rows|
  {
    var ids := GroupIds(rows);
    seq(|rows|, i requires 0 <= i < |rows| => CountEq(ids[..i], ids[i]) + 1)
  }

  /**
   * The group-by formulation is the run-length recurrence: 1 at the first
   * row and wherever the run breaks, one more than the previous row otherwise.
   */
  lemma StreakRecurrence(rows: seq<Match>, i: nat)
    requires i < |rows|
    ensures i == 0 ==> CurrentStreaks(rows)[i] == 1
    ensures 0 < i ==> CurrentStreaks(rows)[i]
                      == if Continues(rows[i - 1], rows[i]) then CurrentStreaks(rows)[i - 1] + 1 else 1
  {
    var ids := GroupIds(rows);
    if 0 < i {
      assert ids[..i] == ids[..i - 1] + [ids[i - 1]];
      assert CountEq(ids[..i], ids[i]) == (if ids[i - 1] == ids[i] then 1 else 0) + CountEq(ids[..i - 1], ids[i]);
      if !Continues(rows[i - 1], rows[i]) {
        forall k | 0 <= k < i ensures ids[..i][k] < ids[i] {
          GroupIdsMonotone(rows, k, i - 1);
        }
        CountEqAbsent(ids[..i], ids[i]);
      }
    }
  }

  /**
   * `current_streak` is the row's position within the maximal run of equal
   * known results that ends at it: every row of that run continues the one
   * before it, each holds the same result, and the row before the run does
   * not continue into it.
   */
  lemma {:induction false} StreakIsRunPosition(rows: seq<Match>, i: nat)
    requires i < |rows|
    ensures var s := CurrentStreaks(rows)[i];
            var start := i + 1 - s;
            && 1 <= s <= i + 1
            && (forall j :: start < j <= i ==> Continues(rows[j - 1], rows[j]))
            && (forall j :: start <= j <= i ==> rows[j].result == rows[i].result)
            && (start == 0 || !Continues(rows[start - 1], rows[start]))
  {
    StreakRecurrence(rows, i);
    if 0 < i && Continues(rows[i - 1], rows[i]) {
      StreakIsRunPosition(rows, i - 1);
    }
  }

  /** `win_streak`: the streak on winning rows, 0 on the others. */
  function WinStreakOf(m: Match, streak: nat): nat
  {
    if m.result == Win then streak else 0
  }

  /* ---------- rolling win rate ---------- */

  /** The rows a `rolling(k, min_periods=1)` window covers at row `i`. */
  function TrailingWindow(rows: seq<Match>, i: nat, k: nat): (w: seq<Match>)
    requires i < |rows| && 0 < k
    ensures |w| == if k <= i + 1 then k else i + 1
    ensures w == rows[i + 1 - |w|..i + 1]
  {
    if k <= i + 1 then rows[i + 1 - k..i + 1] else rows[..i + 1]
  }

  /* ---------- one engineered row ---------- */

  datatype FeatureRow = FeatureRow(
    source: Match,
    isHome: int,
    goalDifference: int,
    totalGoals: int,
    cleanSheet: int,
    bigWin: int,
    highScoring: int,
    winRate3: real,
    winRate5: real,
    winRate10: real,
    month: nat,
    seasonPeriod: SeasonPeriod,
    currentStreak: nat,
    winStreak: nat)

  function Indicator(b: bool): int {
    if b then 1 else 0
  }

  /** The derived columns of row `i` of the date-ordered frame. */
  function FeatureAt(sorted: seq<Match>, streaks: seq<nat>, i: nat): (f: FeatureRow)
    requires i < |sorted| == |streaks|
    requires ValidDate(sorted[i].date)
    ensures f.source == sorted[i]
    ensures f.isHome == 1 <==> sorted[i].venue == "Home"
    ensures f.isHome == 0 || f.isHome == 1
    ensures f.goalDifference == sorted[i].goalsFor - sorted[i].goalsAgainst
    ensures f.totalGoals == sorted[i].goalsFor + sorted[i].goalsAgainst
    ensures f.cleanSheet == 1 <==> sorted[i].goalsAgainst == 0
    ensures f.bigWin == 1 <==> sorted[i].goalsFor - sorted[i].goalsAgainst >= 3
    ensures f.highScoring == 1 <==> sorted[i].goalsFor + sorted[i].goalsAgainst >= 4
    ensures 0.0 <= f.winRate3 <= 1.0 && 0.0 <= f.winRate5 <= 1.0 && 0.0 <= f.winRate10 <= 1.0
    ensures f.winRate3 == WinRate(TrailingWindow(sorted, i, 3))
    ensures f.winRate5 == WinRate(TrailingWindow(sorted, i, 5))
    ensures f.winRate10 == WinRate(TrailingWindow(sorted, i, 10))
    ensures f.cleanSheet == 0 || f.cleanSheet == 1
    ensures f.bigWin == 0 || f.bigWin == 1
    ensures f.highScoring == 0 || f.highScoring == 1
    ensures f.month == MonthOf(sorted[i].date) && f.seasonPeriod == PeriodOf(f.month)
    ensures 1 <= f.month <= 12
    ensures f.currentStreak == streaks[i]
    ensures f.winStreak == (if sorted[i].result == Win then streaks[i] else 0)
  {
    var m := sorted[i];
    var goalDifference := m.goalsFor - m.goalsAgainst;
    var totalGoals := m.goalsFor + m.goalsAgainst;
    var month := MonthOf(m.date);
    FeatureRow(
      m,
      Indicator(m.venue == "Home"),
      goalDifference,
      totalGoals,
      Indicator(m.goalsAgainst == 0),
      Indicator(goalDifference >= 3),
      Indicator(totalGoals >= 4),
      WinRate(TrailingWindow(sorted, i, 3)),
      WinRate(TrailingWindow(sorted, i, 5)),
      WinRate(TrailingWindow(sorted, i, 10)),
      month,
      PeriodOf(month),
      streaks[i],
      WinStreakOf(m, streaks[i]))
  }

  predicate AllDatesValid(rows: seq<Match>) {
    forall i :: 0 <= i < |rows| ==> ValidDate(rows[i].date)
  }

  /** The source rows of an engineered frame. */
  function Sources(fs: seq<FeatureRow>): (r: seq<Match>)
    ensures |r| == |fs|
    ensures forall i :: 0 <= i < |fs| ==> r[i] == fs[i].source
  {
    if fs == [] then [] else [fs[0].source] + Sources(fs[1..])
  }

  /** The engineered rows of a frame already ordered by date. */
  function FeaturesOfSorted(sorted: seq<Match>): (fs: seq<FeatureRow>)
    requires AllDatesValid(sorted)
    ensures |fs| == |sorted|
    ensures forall i :: 0 <= i < |sorted| ==> fs[i] == FeatureAt(sorted, CurrentStreaks(sorted), i)
  {
    var streaks := CurrentStreaks(sorted);
    seq(|sorted|, i requires 0 <= i < |sorted| => FeatureAt(sorted, streaks, i))
  }

  /** Each engineered row carries the row it was derived from, in order. */
  lemma FeaturesKeepRows(sorted: seq<Match>)
    requires AllDatesValid(sorted)
    ensures Sources(FeaturesOfSorted(sorted)) == sorted
  {
    var fs := FeaturesOfSorted(sorted);
    forall i | 0 <= i < |fs| ensures Sources(fs)[i] == sorted[i] {
      assert fs[i] == FeatureAt(sorted, CurrentStreaks(sorted), i);
    }
  }

  /** Reordering the rows keeps every date valid. */
  lemma ValidDatesPermute(a: seq<Match>, b: seq<Match>)
    requires AllDatesValid(a) && multiset(a) == multiset(b)
    ensures AllDatesValid(b)
  {
    forall i | 0 <= i < |b| ensures ValidDate(b[i].date) {
      assert b[i] in multiset(a);
    }
  }

  /**
   * `engineer_features` on a copy of the frame: `None` when some date is
   * not a calendar date (where `pd.to_datetime` raises); otherwise one
   * engineered row per input row, oldest first.
   */
  function DeriveFeatures(rows: seq<Match>): (r: Option<seq<FeatureRow>>)
    ensures r.None? <==> !AllDatesValid(rows)
    ensures r.Some? ==> |r.value| == |rows|
    ensures r.Some? ==> DateAsc(Sources(r.value)) && multiset(Sources(r.value)) == multiset(rows)
    ensures r.Some? ==> AllDatesValid(SortByDateAsc(rows)) && r.value == FeaturesOfSorted(SortByDateAsc(rows))
  {
    if !AllDatesValid(rows) then None
    else
      var sorted := SortByDateAsc(rows);
      ValidDatesPermute(rows, sorted);
      FeaturesKeepRows(sorted);
      Some(FeaturesOfSorted(sorted))
  }

  /** The column names `engineer_features` records for training. */
  const FeatureColumns: seq<string> := [
    "is_home", "opponent_encoded", "competition_encoded", "possession", "shots",
    "shots_on_target", "corners", "fouls", "cards", "xg", "opponent_xg",
    "goals_for_avg_3", "goals_against_avg_3", "goals_for_avg_5", "goals_against_avg_5",
    "goals_for_avg_10", "goals_against_avg_10", "xg_avg_3", "xg_avg_5", "xg_avg_10",
    "possession_avg_3", "possession_avg_5", "shots_avg_3", "shots_avg_5",
    "win_rate_3", "win_rate_5", "win_rate_10", "days_since_last_match",
    "month", "is_weekend", "win_streak", "current_streak"]

  /** The predictor object; only the field `engineer_features` writes is kept. */
  class AdvancedPredictor {
    var featureColumns: seq<string>

    constructor ()
      ensures featureColumns == []
    {
      featureColumns := [];
    }

    /**
     * Derives the features of `frame` (which it does not change) and, when
     * that succeeds, records the training column list.
     */
    method EngineerFeatures(frame: seq<Match>) returns (r: Option<seq<FeatureRow>>)
      modifies this`featureColumns
      ensures r == DeriveFeatures(frame)
      ensures r.Some? ==> featureColumns == FeatureColumns
      ensures r.None? ==> featureColumns == old(featureColumns)
    {
      r := DeriveFeatures(frame);
      if r.Some? {
        featureColumns := FeatureColumns;
      }
    }
  }
}
