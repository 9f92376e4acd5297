/**
 * The records the backend passes around: a stored match, a stored
 * prediction and its insertion input, the derived form and season
 * statistics, and the competition histogram entry.
 */
module Types {
  import opened Wrappers

  /** The three result codes the `result` column is meant to hold. */
  const Win: string := "W"
  const Draw: string := "D"
  const Loss: string := "L"

  predicate IsKnownResult(r: string) {
    r == Win || r == Draw || r == Loss
  }

  /**
   * One historical fixture, seen from the club's side. `result` is free text,
   * as the column is: nothing forces it to be one of W/D/L or to agree with
   * the score. Dates are "YYYY-MM-DD" text.
   */
  datatype Match = Match(
    date: string,
    opponent: string,
    venue: string,
    competition: string,
    goalsFor: int,
    goalsAgainst: int,
    result: string,
    possession: real,
    shots: int,
    shotsOnTarget: int,
    corners: int,
    fouls: int,
    cards: int,
    xg: real,
    opponentXg: real)

  /** What the prediction route hands to the store. */
  datatype PredictionInput = PredictionInput(
    matchDate: string,
    opponent: string,
    venue: string,
    competition: string,
    predictedResult: string,
    winProbability: real,
    drawProbability: real,
    lossProbability: real,
    confidence: real,
    modelVersion: string)

  /** A row of the predictions table: the input under its assigned id. */
  datatype Prediction = Prediction(id: nat, input: PredictionInput)

  /** Statistics over the most recent matches. */
  datatype FormStats = FormStats(
    wins: nat,
    draws: nat,
    losses: nat,
    winPercentage: real,
    goalsFor: int,
    goalsAgainst: int,
    avgPossession: real,
    matches: seq<Match>)

  /**
   * The single row of the season query. `COUNT(*)` is never NULL; every
   * `SUM` and `AVG` is NULL (here `None`) over an empty window.
   */
  datatype SeasonStats = SeasonStats(
    totalMatches: nat,
    wins: Option<nat>,
    draws: Option<nat>,
    losses: Option<nat>,
    totalGoalsFor: Option<int>,
    totalGoalsAgainst: Option<int>,
    avgPossession: Option<real>,
    totalShots: Option<int>,
    totalShotsOnTarget: Option<int>,
    avgXg: Option<real>,
    cleanSheets: Option<nat>)

  /** What the prediction service answers: the predicted code, its probabilities and the model tag. */
  datatype MlPrediction = MlPrediction(
    prediction: string,
    win: real,
    draw: real,
    loss: real,
    confidence: real,
    modelVersion: string)

  /** One row of the competition histogram. */
  datatype Competition = Competition(name: string, matches: nat)
}
