/** The analyzer's entities: matches read from spreadsheets, the factors and predictions
    derived from them, archive entries, and the learning model with its weights and
    patterns. Timestamps (`processedAt`, `analyzedAt`, `addedAt`, `verifiedAt`, the history
    `timestamp`) are not part of the model. */
module Types {
  import opened Common

  /** One row of an uploaded sheet, after cleaning (app.js:405-416). */
  datatype Match = Match(
    id: string,               // `${fileName}_${row number}`
    date: Option<string>,     // the YYYY-MM-DD text of parseDate, or null
    home: string,
    away: string,
    league: Option<string>,   // null when the league column exists but the cell is empty
    odds1: Option<real>,
    oddsX: Option<real>,
    odds2: Option<real>,
    fileName: string,
    rowIndex: nat)

  /** '1' (home win), 'X' (draw), '2' (away win). */
  datatype BetType = Home | Draw | Away

  datatype HeadToHead = StrongHome | HomeSlight | Balanced | AwaySlight | StrongAway

  datatype Recommendation = ExcellentValue | GoodValue | Normal | PoorValue

  /** `analyzeOddsValue`'s result; the margin is a percentage (the source renders it with
      two decimals). */
  datatype OddsAnalysis = OddsAnalysis(hasValue: bool, recommendation: Recommendation, margin: real)

  /** The tags of `analyzeTeamMotivation`: 'top_league', 'derby', 'cup_match'. */
  datatype Motive = TopLeague | Derby | CupMatch

  datatype Factors = Factors(
    homeForm: real,
    awayForm: real,
    formDifference: real,
    headToHead: HeadToHead,
    homeAdvantage: real,
    oddsAnalysis: OddsAnalysis,
    motivation: seq<Motive>,
    leagueImportance: real,
    patternMatch: real)

  /** The reasoning lines of a prediction, one constructor per rule that writes one; the
      numbers they carry are the ones the source prints. */
  datatype Reason =
    | StrongHomeH2H | SlightHomeH2H | StrongAwayH2H | SlightAwayH2H | BalancedH2H
    | DerbyDrawRisk
    | TopLeagueQuality
    | ExcellentValueBet(margin: real)
    | GoodValueBet(margin: real)
    | HighBookmakerMargin(margin: real)
    | PatternFit(percent: real)
    | FormSummary(home: string, homeForm: real, away: string, awayForm: real)

  /** The object `analyzeMatchWithAI` returns. */
  datatype Prediction = Prediction(
    matchId: string,
    fixture: string,          // the `match` text `${home} vs ${away}`
    home: string,
    away: string,
    league: string,
    date: Option<string>,
    fileName: string,
    betType: BetType,
    confidence: int,
    value: int,
    reasoning: seq<Reason>,
    odds: Option<real>,
    factors: Factors)

  /** 'pending', 'verified', 'correct', 'incorrect'. */
  datatype Status = Pending | Verified | Correct | Incorrect

  /** A prediction once it is archived (app.js:887-894). */
  datatype ArchiveEntry = ArchiveEntry(
    id: string,
    prediction: Prediction,
    status: Status,
    verified: bool,
    actualResult: Option<BetType>)

  /** Recorded for each archived prediction that came true (app.js:928-937). */
  datatype SuccessPattern = SuccessPattern(
    fixture: string,
    betType: BetType,
    confidence: int,
    factors: Factors,
    league: string,
    home: string,
    odds1: Option<real>)

  /** Recorded for each archived prediction that failed (app.js:947-954). */
  datatype FailurePattern = FailurePattern(
    fixture: string,
    betType: BetType,
    actualResult: BetType,
    confidence: int,
    factors: Factors)

  datatype AccuracyPoint = AccuracyPoint(accuracy: real, totalPredictions: nat)

  /** The seven factor weights, in the source's key order. */
  datatype Weights = Weights(
    teamForm: real,
    headToHead: real,
    homeAdvantage: real,
    motivation: real,
    valueOdds: real,
    injuries: real,
    weather: real)

  datatype LearningModel = LearningModel(
    weights: Weights,
    successPatterns: seq<SuccessPattern>,
    failurePatterns: seq<FailurePattern>,
    accuracyHistory: seq<AccuracyPoint>,
    totalPredictions: nat,
    correctPredictions: nat,
    learningProgress: real)
}
