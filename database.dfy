/**
 * The match store of the API server (backend/api/services/database.ts):
 * each SQL statement as a function over the matches table, and the
 * predictions table with its one mutation, the insertion that allocates an
 * autoincrement id. `date('now', '-365 days')` is the `cutoff` parameter.
 */
module MatchStore {
  import opened Wrappers
  import opened Text
  import opened Types
  import opened Aggregates
  import opened DateOrder
  import opened Competitions

  /**
   * `SELECT * FROM matches ORDER BY date DESC LIMIT ?`: the newest `limit`
   * rows (all rows for a negative limit), newest first.
   */
  function RecentMatches(rows: seq<Match>, limit: int): (r: seq<Match>)
    ensures DateDesc(r)
    ensures |r| == if 0 <= limit <= |rows| then limit else |rows|
    ensures multiset(r) <= multiset(rows)
    ensures forall x, y :: x in r && y in multiset(rows) - multiset(r) ==> LexLe(y.date, x.date)
  {
    NewestPrefix(rows, limit);
    Limit(SortByDateDesc(rows), limit)
  }

  lemma NewestPrefix(rows: seq<Match>, limit: int)
    ensures var r := Limit(SortByDateDesc(rows), limit);
            && DateDesc(r)
            && multiset(r) <= multiset(rows)
            && forall x, y :: x in r && y in multiset(rows) - multiset(r) ==> LexLe(y.date, x.date)
  {
    var sorted := SortByDateDesc(rows);
    var k := |Limit(sorted, limit)|;
    PrefixIsNewest(sorted, k);
    assert Limit(sorted, limit) == sorted[..k];
  }

  /**
   * `SELECT * FROM matches WHERE competition = ? ORDER BY date DESC`: every
   * row whose competition is exactly `name`, as often as it is stored, and
   * no other row.
   */
  function MatchesByCompetition(rows: seq<Match>, name: string): (r: seq<Match>)
    ensures DateDesc(r)
    ensures forall m :: multiset(r)[m] == if m.competition == name then multiset(rows)[m] else 0
  {
    FilterMultiset(rows, InCompetition(name));
    SortByDateDesc(Filter(rows, InCompetition(name)))
  }

  /** `SELECT * FROM matches ORDER BY date DESC LIMIT 1`: absent only on an empty table. */
  function LatestMatch(rows: seq<Match>): (r: Option<Match>)
    ensures r.None? <==> rows == []
    ensures r.Some? ==> r.value in rows && forall m :: m in rows ==> LexLe(m.date, r.value.date)
  {
    if rows == [] then None
    else
      var sorted := SortByDateDesc(rows);
      assert forall m :: m in rows ==> m in multiset(sorted);
      assert sorted[0] in multiset(rows);
      assert forall k :: 0 <= k < |sorted| ==> LexLe(sorted[k].date, sorted[0].date) by {
        forall k | 0 <= k < |sorted| ensures LexLe(sorted[k].date, sorted[0].date) {
          if k == 0 {
            LexLeReflexive(sorted[0].date);
          }
        }
      }
      Some(sorted[0])
  }

  /** The fixed record `getFormStats` answers with when the window is empty. */
  const ZeroForm: FormStats := FormStats(0, 0, 0, 0.0, 0, 0, 0.0, [])

  /** Possession shares between 0 and 100 average to a value between 0 and 100. */
  lemma PossessionMeanBounded(window: seq<Match>)
    requires window != []
    ensures (forall i :: 0 <= i < |window| ==> 0.0 <= window[i].possession <= 100.0)
            ==> 0.0 <= Mean(window, Possession) <= 100.0
  {
    if forall i :: 0 <= i < |window| ==> 0.0 <= window[i].possession <= 100.0 {
      assert forall i :: 0 <= i < |window| ==> RealField(window[i], Possession) == window[i].possession;
      MeanWithin(window, Possession, 0.0, 100.0);
    }
  }

  /** `Math.round(avg * 10) / 10` over the window's possession shares. */
  function AvgPossession(window: seq<Match>): real
    requires window != []
  {
    RoundToTenth(Mean(window, Possession))
  }

  /** The statistics `getFormStats` derives from a non-empty window. */
  function FormOfWindow(window: seq<Match>): (f: FormStats)
    requires window != []
    ensures f.matches == window
    ensures f.wins == Wins(window) && f.draws == Draws(window) && f.losses == Losses(window)
    ensures f.wins + f.draws + f.losses <= |window|
    ensures f.wins + f.draws + f.losses == |window|
            <==> forall i :: 0 <= i < |window| ==> IsKnownResult(window[i].result)
    ensures f.goalsFor == SumInt(window, GoalsFor) && f.goalsAgainst == SumInt(window, GoalsAgainst)
    ensures f.winPercentage == Percentage(f.wins, |window|)
    ensures 0.0 <= f.winPercentage <= 100.0
    ensures f.winPercentage == 0.0 <==> f.wins == 0
    ensures f.winPercentage == 100.0 <==> f.wins == |window|
  {
    ResultCountsPartition(window);
    var n: nat := |window|;
    var wins: nat := Wins(window);
    var pct := Percentage(wins, n);
    var f := FormStats(
      wins,
      Draws(window),
      Losses(window),
      pct,
      SumInt(window, GoalsFor),
      SumInt(window, GoalsAgainst),
      AvgPossession(window),
      window);
    f
  }

  /**
   * The average possession is the window's mean rounded to one decimal: a
   * whole number of tenths within half a tenth of the mean, and in 0..100
   * when every possession share is.
   */
  lemma AvgPossessionNearMean(window: seq<Match>)
    requires window != []
    ensures var avg := FormOfWindow(window).avgPossession;
            && Mean(window, Possession) - 0.05 < avg <= Mean(window, Possession) + 0.05
            && (avg * 10.0).Floor as real == avg * 10.0
    ensures (forall i :: 0 <= i < |window| ==> 0.0 <= window[i].possession <= 100.0)
            ==> 0.0 <= FormOfWindow(window).avgPossession <= 100.0
  {
    var r := RoundToTenth(Mean(window, Possession));
    assert FormOfWindow(window).avgPossession == r;
    PossessionMeanBounded(window);
  }

  /**
   * `getFormStats(n)`: form statistics over the `n` newest matches (all of
   * them for a negative `n`), or the zero record when that window is empty.
   */
  function FormStatsOf(rows: seq<Match>, n: int): (f: FormStats)
    ensures f.matches == RecentMatches(rows, n)
    ensures f.matches == [] <==> rows == [] || n == 0
    ensures f.matches == [] ==> f == ZeroForm
    ensures f.matches != [] ==> f == FormOfWindow(f.matches)
  {
    var window := RecentMatches(rows, n);
    if window == [] then ZeroForm else FormOfWindow(window)
  }

  /**
   * Two windows holding the same rows in any order give the same counts,
   * sums and averages: only the order of the `matches` list differs.
   */
  lemma FormIgnoresWindowOrder(w1: seq<Match>, w2: seq<Match>)
    requires w1 != [] && multiset(w1) == multiset(w2)
    ensures w2 != []
    ensures FormOfWindow(w1).(matches := w2) == FormOfWindow(w2)
  {
    assert |w2| == |multiset(w2)| == |w1|;
    SumIntPermutation(w1, w2, GoalsFor);
    SumIntPermutation(w1, w2, GoalsAgainst);
    SumRealPermutation(w1, w2, Possession);
    CountWherePermutation(w1, w2, ResultIs(Win));
    CountWherePermutation(w1, w2, ResultIs(Draw));
    CountWherePermutation(w1, w2, ResultIs(Loss));
  }

  /** The season row over the rows of the window. */
  function SeasonOfWindow(window: seq<Match>): (s: SeasonStats)
    ensures s.totalMatches == |window|
    ensures window == [] <==> AllNull(s)
    ensures window != [] <==> NoneNull(s)
    ensures NoneNull(s) ==> s.wins.value + s.draws.value + s.losses.value <= s.totalMatches
    ensures NoneNull(s) ==> s.cleanSheets.value <= s.totalMatches
    ensures NoneNull(s) ==> && s.wins == Some(Wins(window)) && s.draws == Some(Draws(window)) && s.losses == Some(Losses(window))
                            && s.totalGoalsFor == Some(SumInt(window, GoalsFor))
                            && s.totalGoalsAgainst == Some(SumInt(window, GoalsAgainst))
                            && s.totalShots == Some(SumInt(window, Shots))
                            && s.totalShotsOnTarget == Some(SumInt(window, ShotsOnTarget))
                            && s.avgPossession == Some(Mean(window, Possession))
                            && s.avgXg == Some(Mean(window, Xg))
                            && s.cleanSheets == Some(CountWhere(window, CleanSheet))
  {
    if window == [] then SeasonStats(0, None, None, None, None, None, None, None, None, None, None)
    else
      ResultCountsPartition(window);
      SeasonStats(
        |window|,
        Some(Wins(window)),
        Some(Draws(window)),
        Some(Losses(window)),
        Some(SumInt(window, GoalsFor)),
        Some(SumInt(window, GoalsAgainst)),
        Some(Mean(window, Possession)),
        Some(SumInt(window, Shots)),
        Some(SumInt(window, ShotsOnTarget)),
        Some(Mean(window, Xg)),
        Some(CountWhere(window, CleanSheet)))
  }

  /** The aggregates of the season query are all NULL, or all present, together. */
  predicate AllNull(s: SeasonStats) {
    && s.wins.None? && s.draws.None? && s.losses.None?
    && s.totalGoalsFor.None? && s.totalGoalsAgainst.None? && s.avgPossession.None?
    && s.totalShots.None? && s.totalShotsOnTarget.None? && s.avgXg.None? && s.cleanSheets.None?
  }

  predicate NoneNull(s: SeasonStats) {
    && s.wins.Some? && s.draws.Some? && s.losses.Some?
    && s.totalGoalsFor.Some? && s.totalGoalsAgainst.Some? && s.avgPossession.Some?
    && s.totalShots.Some? && s.totalShotsOnTarget.Some? && s.avgXg.Some? && s.cleanSheets.Some?
  }

  /** `getSeasonStats()`: aggregates over the matches dated on or after `cutoff`. */
  function SeasonStatsOf(rows: seq<Match>, cutoff: string): (s: SeasonStats)
    ensures s.totalMatches == CountWhere(rows, DatedFrom(cutoff))
    ensures s.totalMatches == 0 <==> AllNull(s)
    ensures s.totalMatches > 0 <==> NoneNull(s)
    ensures NoneNull(s) ==> s.wins.value + s.draws.value + s.losses.value <= s.totalMatches
    ensures NoneNull(s) ==> s.cleanSheets.value <= s.totalMatches
    ensures var w := Filter(rows, DatedFrom(cutoff));
            NoneNull(s) ==> && w != [] && s.wins == Some(Wins(w)) && s.draws == Some(Draws(w)) && s.losses == Some(Losses(w))
                            && s.totalGoalsFor == Some(SumInt(w, GoalsFor))
                            && s.totalGoalsAgainst == Some(SumInt(w, GoalsAgainst))
                            && s.totalShots == Some(SumInt(w, Shots))
                            && s.totalShotsOnTarget == Some(SumInt(w, ShotsOnTarget))
                            && s.avgPossession == Some(Mean(w, Possession))
                            && s.avgXg == Some(Mean(w, Xg))
                            && s.cleanSheets == Some(CountWhere(w, CleanSheet))
    ensures (forall i :: 0 <= i < |rows| ==> 0.0 <= rows[i].possession <= 100.0) && NoneNull(s)
            ==> 0.0 <= s.avgPossession.value <= 100.0
  {
    FilterCount(rows, DatedFrom(cutoff));
    WindowPossessionBounded(rows, cutoff);
    SeasonOfWindow(Filter(rows, DatedFrom(cutoff)))
  }

  /** Possession shares between 0 and 100 average to a value between 0 and 100 over any season window. */
  lemma WindowPossessionBounded(rows: seq<Match>, cutoff: string)
    ensures var window := Filter(rows, DatedFrom(cutoff));
            window != [] && (forall i :: 0 <= i < |rows| ==> 0.0 <= rows[i].possession <= 100.0)
            ==> 0.0 <= Mean(window, Possession) <= 100.0
  {
    var window := Filter(rows, DatedFrom(cutoff));
    if window != [] && forall i :: 0 <= i < |rows| ==> 0.0 <= rows[i].possession <= 100.0 {
      FilterMultiset(rows, DatedFrom(cutoff));
      forall i | 0 <= i < |window| ensures 0.0 <= RealField(window[i], Possession) <= 100.0 {
        assert window[i] in multiset(window);
        assert window[i] in multiset(rows);
      }
      MeanWithin(window, Possession, 0.0, 100.0);
    }
  }

  /** A match dated before the cutoff does not affect the season row. */
  lemma SeasonIgnoresOlderMatch(rows: seq<Match>, m: Match, cutoff: string)
    requires !LexLe(cutoff, m.date)
    ensures SeasonStatsOf(rows + [m], cutoff) == SeasonStatsOf(rows, cutoff)
  {
    FilterAppend(rows, [m], DatedFrom(cutoff));
    assert Filter([m], DatedFrom(cutoff)) == [];
    assert Filter(rows + [m], DatedFrom(cutoff)) == Filter(rows, DatedFrom(cutoff));
  }

  /** A match dated on or after the cutoff is counted once more. */
  lemma SeasonCountsNewerMatch(rows: seq<Match>, m: Match, cutoff: string)
    requires LexLe(cutoff, m.date)
    ensures SeasonStatsOf(rows + [m], cutoff).totalMatches == SeasonStatsOf(rows, cutoff).totalMatches + 1
  {
    CountWhereAppend(rows, [m], DatedFrom(cutoff));
  }

  /**
   * `SELECT DISTINCT competition, COUNT(*) AS matches ... GROUP BY competition
   * ORDER BY matches DESC`.
   */
  function CompetitionsOf(rows: seq<Match>): (r: seq<Competition>)
    ensures CountsDesc(r)
    ensures NamesDistinct(r)
    ensures forall i :: 0 <= i < |r| ==> r[i].matches == CountWhere(rows, InCompetition(r[i].name)) > 0
    ensures forall k :: 0 <= k < |rows| ==> HasName(r, rows[k].competition)
    ensures Total(r) == |rows|
  {
    var h := Tally(rows);
    SortByCountTotal(h);
    SortByCountDistinct(h);
    SortedTallyCounts(rows);
    SortedTallyCovers(rows);
    SortByCount(h)
  }

  lemma SortedTallyCounts(rows: seq<Match>)
    ensures forall i :: 0 <= i < |SortByCount(Tally(rows))| ==>
              SortByCount(Tally(rows))[i].matches == CountWhere(rows, InCompetition(SortByCount(Tally(rows))[i].name)) > 0
  {
    var h := Tally(rows);
    var r := SortByCount(h);
    forall i | 0 <= i < |r| ensures r[i].matches == CountWhere(rows, InCompetition(r[i].name)) > 0 {
      assert r[i] in multiset(r);
      var j :| 0 <= j < |h| && h[j] == r[i];
      CountOfEntry(h, j);
    }
  }

  lemma SortedTallyCovers(rows: seq<Match>)
    ensures forall k :: 0 <= k < |rows| ==> HasName(SortByCount(Tally(rows)), rows[k].competition)
  {
    var h := Tally(rows);
    forall k | 0 <= k < |rows| ensures HasName(SortByCount(h), rows[k].competition) {
      var c := rows[k].competition;
      assert Holds(InCompetition(c), rows[k]);
      assert CountOf(h, c) > 0;
      CountOfPositive(h, c);
      HasNameKept(h, SortByCount(h), c);
    }
  }

  /** Outcome of writing one row to the predictions table. */
  datatype InsertOutcome = Inserted(id: nat) | StorageFailure(reason: string)

  /**
   * The API server's handle on the database. The queries read only the
   * matches table; `InsertPrediction` writes only the predictions table and
   * its autoincrement counter (`lastId`, SQLite's sqlite_sequence entry).
   */
  class DatabaseService {
    var matches: seq<Match>
    var predictions: seq<Prediction>
    var lastId: nat

    /** Ids increase along the table and never exceed the autoincrement counter. */
    ghost predicate Valid()
      reads this`predictions, this`lastId
    {
      && (forall i, j :: 0 <= i < j < |predictions| ==> predictions[i].id < predictions[j].id)
      && (forall i :: 0 <= i < |predictions| ==> predictions[i].id <= lastId)
    }

    constructor (matches: seq<Match>, predictions: seq<Prediction>, lastId: nat)
      requires forall i, j :: 0 <= i < j < |predictions| ==> predictions[i].id < predictions[j].id
      requires forall i :: 0 <= i < |predictions| ==> predictions[i].id <= lastId
      ensures Valid()
      ensures this.matches == matches && this.predictions == predictions && this.lastId == lastId
    {
      this.matches := matches;
      this.predictions := predictions;
      this.lastId := lastId;
    }

    function GetMatches(limit: int): seq<Match>
      reads this`matches
    {
      RecentMatches(matches, limit)
    }

    function GetMatchesByCompetition(name: string): seq<Match>
      reads this`matches
    {
      MatchesByCompetition(matches, name)
    }

    function GetLatestMatch(): Option<Match>
      reads this`matches
    {
      LatestMatch(matches)
    }

    function GetFormStats(n: int): FormStats
      reads this`matches
    {
      FormStatsOf(matches, n)
    }

    function GetSeasonStats(cutoff: string): SeasonStats
      reads this`matches
    {
      SeasonStatsOf(matches, cutoff)
    }

    function GetCompetitions(): seq<Competition>
      reads this`matches
    {
      CompetitionsOf(matches)
    }

    /**
     * `insertPrediction`: appends one row under a fresh id, or, when the
     * write fails (`fault`), reports the failure and changes nothing. The
     * matches table, the only state the queries read, is left as it was.
     */
    method InsertPrediction(input: PredictionInput, fault: Option<string>) returns (r: InsertOutcome)
      requires Valid()
      modifies this`predictions, this`lastId
      ensures Valid()
      ensures fault.Some? ==> r == StorageFailure(fault.value)
      ensures fault.Some? ==> predictions == old(predictions) && lastId == old(lastId)
      ensures fault.None? ==> r.Inserted? && predictions == old(predictions) + [Prediction(r.id, input)]
      ensures fault.None? ==> forall i :: 0 <= i < |old(predictions)| ==> old(predictions)[i].id < r.id
      ensures matches == old(matches)
    {
      if fault.Some? {
        return StorageFailure(fault.value);
      }
      lastId := lastId + 1;
      predictions := predictions + [Prediction(lastId, input)];
      r := Inserted(lastId);
    }
  }
}
