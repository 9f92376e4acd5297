/**
 * `parse_match_data` of backend/python/services/data-collector.py: turns one
 * fixture record of the football-data.org feed into a match seen from Real
 * Madrid's side. The record is a JSON value; the per-match statistics the
 * collector draws at random are handed in as `SampledStats`.
 */
module Collector {
  import opened Wrappers
  import opened Types

  /** A JSON value as the feed delivers it (numbers restricted to integers). */
  datatype Json =
    | JNull
    | JBool(b: bool)
    | JNumber(n: int)
    | JString(s: string)
    | JArray(items: seq<Json>)
    | JObject(fields: map<string, Json>)

  /** The home-side name that marks a home fixture. */
  const ClubName: string := "Real Madrid CF"

  const Home: string := "Home"
  const Away: string := "Away"

  /** The statistics the collector samples for each parsed match. */
  datatype SampledStats = SampledStats(
    possession: real,
    shots: int,
    shotsOnTarget: int,
    corners: int,
    fouls: int,
    cards: int,
    xg: real,
    opponentXg: real)

  /** `j[key]`: present only when `j` is an object holding `key`. */
  function Member(j: Json, key: string): (r: Option<Json>)
    ensures r.Some? <==> j.JObject? && key in j.fields
    ensures r.Some? ==> r.value == j.fields[key]
  {
    match j
    case JObject(fields) => if key in fields then Some(fields[key]) else None
    case _ => None
  }

  /** `j[k0][k1]...`: the value reached by a chain of subscripts, if every step succeeds. */
  function At(j: Json, path: seq<string>): Option<Json>
    decreases |path|
  {
    if path == [] then Some(j)
    else
      match Member(j, path[0])
      case None => None
      case Some(v) => At(v, path[1..])
  }

  function StringAt(j: Json, path: seq<string>): Option<string> {
    match At(j, path)
    case Some(JString(s)) => Some(s)
    case _ => None
  }

  function NumberAt(j: Json, path: seq<string>): Option<int> {
    match At(j, path)
    case Some(JNumber(n)) => Some(n)
    case _ => None
  }

  /** The record carries every field the parser reads, each of the type it uses. */
  predicate Parsable(j: Json) {
    && StringAt(j, ["homeTeam", "name"]).Some?
    && StringAt(j, ["awayTeam", "name"]).Some?
    && NumberAt(j, ["score", "fullTime", "homeTeam"]).Some?
    && NumberAt(j, ["score", "fullTime", "awayTeam"]).Some?
    && StringAt(j, ["utcDate"]).Some?
    && StringAt(j, ["competition", "name"]).Some?
  }

  /** W, D or L by comparing the club's goals with the opponent's. */
  function ResultOf(goalsFor: int, goalsAgainst: int): (r: string)
    ensures r == Win <==> goalsFor > goalsAgainst
    ensures r == Draw <==> goalsFor == goalsAgainst
    ensures r == Loss <==> goalsFor < goalsAgainst
  {
    if goalsFor > goalsAgainst then Win
    else if goalsFor == goalsAgainst then Draw
    else Loss
  }

  /** Python's `s[:10]`. */
  function Prefix10(s: string): (r: string)
    ensures |r| == if |s| < 10 then |s| else 10
    ensures r == s[..|r|]
  {
    if |s| < 10 then s else s[..10]
  }

  /**
   * Reads the fields in the order the collector does; any missing key or
   * any value of an unusable type ends the parse with `None`, as the
   * collector's `except` clause does.
   */
  function ParseMatchData(j: Json, sampled: SampledStats): (r: Option<Match>)
    ensures r.Some? <==> Parsable(j)
    ensures r.Some? ==>
              var m := r.value;
              var home := StringAt(j, ["homeTeam", "name"]).value;
              var away := StringAt(j, ["awayTeam", "name"]).value;
              var homeGoals := NumberAt(j, ["score", "fullTime", "homeTeam"]).value;
              var awayGoals := NumberAt(j, ["score", "fullTime", "awayTeam"]).value;
              && (m.venue == Home <==> home == ClubName)
              && (m.venue == Home || m.venue == Away)
              && m.opponent == (if home == ClubName then away else home)
              && (m.venue == Home ==> m.goalsFor == homeGoals && m.goalsAgainst == awayGoals)
              && (m.venue == Away ==> m.goalsFor == awayGoals && m.goalsAgainst == homeGoals)
              && m.goalsFor + m.goalsAgainst == homeGoals + awayGoals
              && (m.result == Win <==> m.goalsFor > m.goalsAgainst)
              && (m.result == Draw <==> m.goalsFor == m.goalsAgainst)
              && (m.result == Loss <==> m.goalsFor < m.goalsAgainst)
    ensures r.Some? ==>
              var m := r.value;
              var utcDate := StringAt(j, ["utcDate"]).value;
              && |m.date| == (if |utcDate| < 10 then |utcDate| else 10)
              && m.date == utcDate[..|m.date|]
              && m.competition == StringAt(j, ["competition", "name"]).value
              && m.possession == sampled.possession && m.shots == sampled.shots
              && m.shotsOnTarget == sampled.shotsOnTarget && m.corners == sampled.corners
              && m.fouls == sampled.fouls && m.cards == sampled.cards
              && m.xg == sampled.xg && m.opponentXg == sampled.opponentXg
  {
    var homeTeam := StringAt(j, ["homeTeam", "name"]);
    var awayTeam := StringAt(j, ["awayTeam", "name"]);
    if homeTeam.None? || awayTeam.None? then None
    else
      var isHome := homeTeam.value == ClubName;
      var opponent := if isHome then awayTeam.value else homeTeam.value;
      var venue := if isHome then Home else Away;
      var homeGoals := NumberAt(j, ["score", "fullTime", "homeTeam"]);
      var awayGoals := NumberAt(j, ["score", "fullTime", "awayTeam"]);
      if homeGoals.None? || awayGoals.None? then None
      else
        var goalsFor := if isHome then homeGoals.value else awayGoals.value;
        var goalsAgainst := if isHome then awayGoals.value else homeGoals.value;
        var result := ResultOf(goalsFor, goalsAgainst);
        var utcDate := StringAt(j, ["utcDate"]);
        var competition := StringAt(j, ["competition", "name"]);
        if utcDate.None? || competition.None? then None
        else
          Some(Match(
            Prefix10(utcDate.value), opponent, venue, competition.value, goalsFor, goalsAgainst, result,
            sampled.possession, sampled.shots, sampled.shotsOnTarget, sampled.corners,
            sampled.fouls, sampled.cards, sampled.xg, sampled.opponentXg))
  }

  /** The parsed result is always one of the three codes. */
  lemma ParsedResultIsKnown(j: Json, sampled: SampledStats)
    requires Parsable(j)
    ensures ParseMatchData(j, sampled).Some?
    ensures IsKnownResult(ParseMatchData(j, sampled).value.result)
  {
  }

  /**
   * Both views of one fixture agree: when the club is at home the opponent
   * sees the mirrored score, so a win for one side is a loss for the other.
   */
  lemma ResultMirrors(goalsFor: int, goalsAgainst: int)
    ensures ResultOf(goalsFor, goalsAgainst) == Win <==> ResultOf(goalsAgainst, goalsFor) == Loss
    ensures ResultOf(goalsFor, goalsAgainst) == Draw <==> ResultOf(goalsAgainst, goalsFor) == Draw
  {
  }
}
