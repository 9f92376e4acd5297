/**
 * The Python analytics engine (backend/python/analytics-engine.py): the
 * current win streak, the win-rate and streak entries of the recent-form
 * record, and the analytics summary. Each works on the frame the store
 * returns, which lists the matches newest first.
 */
module AnalyticsEngine {
  import opened Wrappers
  import opened Text
  import opened Types
  import opened Aggregates
  import opened DateOrder

  /** The number of consecutive wins at the front of `rows`. */
  function LeadingWins(rows: seq<Match>): (n: nat)
    ensures n <= |rows|
    ensures forall i :: 0 <= i < n ==> rows[i].result == Win
    ensures n < |rows| ==> rows[n].result != Win
  {
    if rows == [] || rows[0].result != Win then 0
    else
      var rest := LeadingWins(rows[1..]);
      assert forall i :: 1 <= i < |rows| ==> rows[i] == rows[1..][i - 1];
      1 + rest
  }

  /** A run of wins that ends at a non-win or at the end is the leading run. */
  lemma {:induction false} LeadingWinsUnique(rows: seq<Match>, n: nat)
    requires n <= |rows|
    requires forall i :: 0 <= i < n ==> rows[i].result == Win
    requires n < |rows| ==> rows[n].result != Win
    ensures n == LeadingWins(rows)
  {
    if rows != [] && n > 0 {
      assert forall i :: 0 <= i < n - 1 ==> rows[1..][i] == rows[i + 1];
      LeadingWinsUnique(rows[1..], n - 1);
    }
  }

  /**
   * `calculate_current_streak`: walks the frame from the newest row and
   * counts rows equal to the first result while that result is a win,
   * stopping at the first row that breaks the run.
   */
  method CalculateCurrentStreak(frame: seq<Match>) returns (streak: nat)
    ensures streak == LeadingWins(frame)
    ensures frame == [] ==> streak == 0
    ensures frame != [] && frame[0].result != Win ==> streak == 0
  {
    if |frame| == 0 {
      return 0;
    }
    streak := 0;
    var lastResult := frame[0].result;
    var i := 0;
    while i < |frame|
      invariant 0 <= i <= |frame|
      invariant streak == i
      invariant forall k :: 0 <= k < i ==> frame[k].result == Win
      invariant i > 0 ==> lastResult == Win
    {
      if frame[i].result == lastResult && lastResult == Win {
        streak := streak + 1;
        i := i + 1;
      } else {
        break;
      }
    }
    LeadingWinsUnique(frame, streak);
  }

  /**
   * pandas `head(n)`: the first `n` rows, every row when `n` exceeds the
   * length, and all but the last `-n` rows when `n` is negative.
   */
  function Head(rows: seq<Match>, n: int): (r: seq<Match>)
    ensures 0 <= n ==> |r| == if n <= |rows| then n else |rows|
    ensures n < 0 ==> |r| == if -n <= |rows| then |rows| + n else 0
    ensures r == rows[..|r|]
  {
    if 0 <= n then (if n <= |rows| then rows[..n] else rows)
    else if -n <= |rows| then rows[..|rows| + n]
    else []
  }

  /** The win-rate and streak entries of the recent-form record. */
  datatype RecentForm = RecentForm(
    winRate3: real,
    winRate5: real,
    winRate10: real,
    winStreak: nat,
    currentStreak: nat)

  /** The fixed entries `get_recent_form` answers with for an empty window. */
  const DefaultForm: RecentForm := RecentForm(0.8, 0.75, 0.7, 3, 3)

  /** `get_recent_form(n)`, restricted to its win-rate and streak entries. */
  function RecentFormOf(frame: seq<Match>, n: int): (f: RecentForm)
    ensures Head(frame, n) == [] ==> f == DefaultForm
    ensures 0.0 <= f.winRate3 <= 1.0 && 0.0 <= f.winRate5 <= 1.0 && 0.0 <= f.winRate10 <= 1.0
    ensures f.winStreak == f.currentStreak
    ensures var recent := Head(frame, n);
            recent != [] ==>
              && f.winRate3 == WinRate(Head(recent, 3))
              && f.winRate5 == WinRate(Head(recent, 5))
              && f.winRate10 == WinRate(recent)
              && f.currentStreak == LeadingWins(recent)
  {
    var recent := Head(frame, n);
    if recent == [] then DefaultForm
    else
      var streak := LeadingWins(recent);
      RecentForm(WinRate(Head(recent, 3)), WinRate(Head(recent, 5)), WinRate(recent), streak, streak)
  }

  /** The `recent_form` part of the summary. */
  datatype RecentRecord = RecentRecord(wins: nat, draws: nat, losses: nat, winPercentage: real)

  /** The `latest_match` part of the summary. */
  datatype LatestMatchInfo = LatestMatchInfo(
    date: string,
    opponent: string,
    venue: string,
    result: string,
    score: string,
    competition: string)

  /** The `season_stats` part of the summary. */
  datatype SeasonTotals = SeasonTotals(
    goalsScored: int,
    goalsConceded: int,
    cleanSheets: nat,
    avgPossession: real,
    totalShots: int,
    shotAccuracy: real)

  datatype Summary = Summary(
    totalMatches: nat,
    recentForm: RecentRecord,
    latestMatch: Option<LatestMatchInfo>,
    seasonStats: SeasonTotals)

  /** The fixed record `get_analytics_summary` answers with for an empty history. */
  const EmptySummary: Summary :=
    Summary(0, RecentRecord(0, 0, 0, 0.0), None, SeasonTotals(0, 0, 0, 0.0, 0, 0.0))

  /** Shots on target as a percentage of shots, 0 when no shot was taken. */
  function ShotAccuracy(onTarget: int, shots: int): (a: real)
    ensures shots <= 0 ==> a == 0.0
    ensures 0 <= onTarget <= shots ==> 0.0 <= a <= 100.0
    ensures 0 < shots ==> a * shots as real == 100.0 * onTarget as real
  {
    if shots > 0 then onTarget as real / shots as real * 100.0 else 0.0
  }

  function RecentRecordOf(recent: seq<Match>): RecentRecord
    requires recent != []
  {
    ResultCountsPartition(recent);
    RecentRecord(Wins(recent), Draws(recent), Losses(recent), Percentage(Wins(recent), |recent|))
  }

  function LatestOf(m: Match): LatestMatchInfo {
    LatestMatchInfo(m.date, m.opponent, m.venue, m.result, ScoreString(m.goalsFor, m.goalsAgainst), m.competition)
  }

  function SeasonTotalsOf(frame: seq<Match>): SeasonTotals
    requires frame != []
  {
    SeasonTotals(
      SumInt(frame, GoalsFor),
      SumInt(frame, GoalsAgainst),
      CountWhere(frame, CleanSheet),
      Mean(frame, Possession),
      SumInt(frame, Shots),
      ShotAccuracy(SumInt(frame, ShotsOnTarget), SumInt(frame, Shots)))
  }

  /** `get_analytics_summary()` over the frame of stored matches. */
  function SummaryOf(frame: seq<Match>): (s: Summary)
    ensures frame == [] <==> s.latestMatch.None?
    ensures frame == [] ==> s == EmptySummary
    ensures s.totalMatches == |frame|
    ensures frame != [] ==> && s.recentForm == RecentRecordOf(Head(frame, 10))
                            && s.latestMatch == Some(LatestOf(frame[0]))
                            && s.seasonStats == SeasonTotalsOf(frame)
  {
    if frame == [] then EmptySummary
    else Summary(|frame|, RecentRecordOf(Head(frame, 10)), Some(LatestOf(frame[0])), SeasonTotalsOf(frame))
  }

  /**
   * The recent record counts W/D/L over the ten newest rows: the counts fit
   * in the window, fill it exactly when every result is a known code, and
   * the win percentage is the wins' share of the window.
   */
  lemma RecentRecordBounds(frame: seq<Match>)
    requires frame != []
    ensures var r := RecentRecordOf(Head(frame, 10));
            var recent := Head(frame, 10);
            && |recent| == (if |frame| < 10 then |frame| else 10)
            && r.wins == Wins(recent) && r.draws == Draws(recent) && r.losses == Losses(recent)
            && r.wins + r.draws + r.losses <= |recent|
            && (r.wins + r.draws + r.losses == |recent|
                <==> forall i :: 0 <= i < |recent| ==> IsKnownResult(recent[i].result))
            && r.winPercentage == Percentage(r.wins, |recent|)
            && 0.0 <= r.winPercentage <= 100.0
            && (r.winPercentage == 100.0 <==> r.wins == |recent|)
            && (r.winPercentage == 0.0 <==> r.wins == 0)
  {
    var recent := Head(frame, 10);
    ResultCountsPartition(recent);
  }

  /**
   * The latest match copies the first row, and its score text reads back
   * as that row's goals.
   */
  lemma LatestMatchScore(m: Match)
    requires m.goalsFor >= 0 && m.goalsAgainst >= 0
    ensures var l := LatestOf(m);
            && l.date == m.date && l.opponent == m.opponent && l.venue == m.venue
            && l.result == m.result && l.competition == m.competition
            && IsScoreText(l.score)
            && ParseScore(l.score) == (m.goalsFor as nat, m.goalsAgainst as nat)
  {
    var g: nat, a: nat := m.goalsFor, m.goalsAgainst;
    ScoreStringRoundTrip(g, a);
    assert LatestOf(m).score == ScoreString(g, a);
  }

  /** On a newest-first frame the latest match is dated no earlier than any row. */
  lemma LatestIsNewest(frame: seq<Match>)
    requires frame != [] && DateDesc(frame)
    ensures forall m :: m in frame ==> LexLe(m.date, SummaryOf(frame).latestMatch.value.date)
  {
    forall m | m in frame ensures LexLe(m.date, frame[0].date) {
      var k :| 0 <= k < |frame| && frame[k] == m;
      if k == 0 {
        LexLeReflexive(m.date);
      }
    }
  }

  /**
   * The season totals run over the whole history, with no date window: the
   * clean sheets are the rows without a goal conceded, the possession is
   * the exact mean, and the shot accuracy is the on-target share of all
   * shots as a percentage, in 0..100 when no row has more shots on target
   * than shots.
   */
  lemma SeasonTotalsBounds(frame: seq<Match>)
    requires frame != []
    ensures var t := SeasonTotalsOf(frame);
            && t.goalsScored == SumInt(frame, GoalsFor)
            && t.goalsConceded == SumInt(frame, GoalsAgainst)
            && t.cleanSheets == CountWhere(frame, CleanSheet) <= |frame|
            && t.avgPossession == Mean(frame, Possession)
            && t.totalShots == SumInt(frame, Shots)
            && t.shotAccuracy == ShotAccuracy(SumInt(frame, ShotsOnTarget), t.totalShots)
            && (t.totalShots <= 0 ==> t.shotAccuracy == 0.0)
    ensures (forall i :: 0 <= i < |frame| ==> 0 <= frame[i].shotsOnTarget <= frame[i].shots)
            ==> 0.0 <= SeasonTotalsOf(frame).shotAccuracy <= 100.0
  {
    var sot, shots := SumInt(frame, ShotsOnTarget), SumInt(frame, Shots);
    assert SeasonTotalsOf(frame).shotAccuracy == ShotAccuracy(sot, shots);
    if forall i :: 0 <= i < |frame| ==> 0 <= frame[i].shotsOnTarget <= frame[i].shots {
      ShotTotalsOrdered(frame);
    }
  }

  /** Row by row `0 <= shotsOnTarget <= shots` carries over to the totals. */
  lemma ShotTotalsOrdered(frame: seq<Match>)
    requires forall i :: 0 <= i < |frame| ==> 0 <= frame[i].shotsOnTarget <= frame[i].shots
    ensures 0 <= SumInt(frame, ShotsOnTarget) <= SumInt(frame, Shots)
  {
    assert forall i :: 0 <= i < |frame| ==> 0 <= IntField(frame[i], ShotsOnTarget) <= IntField(frame[i], Shots);
    SumIntNonNegative(frame, ShotsOnTarget);
    SumIntMonotone(frame, ShotsOnTarget, Shots);
  }
}
