/** Turning the factors of a match into a tip (app.js:569-594, 780-882): a score built by
    fixed additive and multiplicative steps, rounded and clamped to a confidence in
    [50, 95]; a bet type chosen by head to head and the derby override; and the odds of
    that bet type when the match quotes all three. */
module Forecast {
  import opened Common
  import opened Types
  import opened MatchFactors

  /** `getModelWeights(factors)`: one plus the weighted home form and home advantage. */
  function ModelMultiplier(f: Factors, w: Weights): (r: real)
    ensures f.homeForm >= 0.0 && f.homeAdvantage >= 1.0 && w.teamForm >= 0.0 && w.homeAdvantage >= 0.0
      ==> r >= 1.0
  {
    var a := (f.homeForm / 10.0) * w.teamForm;
    var b := (f.homeAdvantage - 1.0) * w.homeAdvantage;
    assert f.homeForm >= 0.0 && w.teamForm >= 0.0 ==> a >= 0.0;
    assert f.homeAdvantage >= 1.0 && w.homeAdvantage >= 0.0 ==> b >= 0.0;
    1.0 + a + b
  }

  /** The points the head-to-head verdict adds, ordered from the strongest home verdict down. */
  function HeadToHeadPoints(v: HeadToHead): (r: real)
    ensures -15.0 <= r <= 15.0
    ensures r > 0.0 <==> v == StrongHome || v == HomeSlight
    ensures r == 0.0 <==> v == Balanced
  {
    match v
    case StrongHome => 15.0
    case HomeSlight => 8.0
    case Balanced => 0.0
    case AwaySlight => -8.0
    case StrongAway => -15.0
  }

  /** The head-to-head points are strictly ordered from the strongest home verdict to the
      strongest away verdict, and mirroring a verdict negates its points. */
  lemma HeadToHeadPointsOrder(v: HeadToHead)
    ensures HeadToHeadPoints(StrongHome) > HeadToHeadPoints(HomeSlight) > HeadToHeadPoints(Balanced)
            > HeadToHeadPoints(AwaySlight) > HeadToHeadPoints(StrongAway)
    ensures HeadToHeadPoints(Mirror(v)) == -HeadToHeadPoints(v)
  {
  }

  /** Swapping home and away negates the head-to-head points. */
  lemma SwapNegatesPoints(home: string, away: string)
    ensures HeadToHeadPoints(HeadToHeadFor(away, home)) == -HeadToHeadPoints(HeadToHeadFor(home, away))
  {
    HeadToHeadSwap(home, away);
    HeadToHeadPointsOrder(HeadToHeadFor(home, away));
  }

  /** The points and the value the odds analysis adds. */
  function OddsPoints(o: OddsAnalysis): real {
    if !o.hasValue then 0.0
    else match o.recommendation
      case ExcellentValue => 15.0
      case GoodValue => 8.0
      case PoorValue => -10.0
      case Normal => 0.0
  }

  /** The additive part of the score: form difference and home advantage, head to head,
      the derby cap at 75, then the top-league, odds and pattern bonuses. */
  function Points(f: Factors): real {
    var afterH2H := 50.0 + f.formDifference * 8.0 + (f.homeAdvantage - 1.0) * 25.0
                    + HeadToHeadPoints(f.headToHead);
    var capped := if Derby in f.motivation then MinReal(afterH2H, 75.0) else afterH2H;
    capped
    + (if TopLeague in f.motivation then 5.0 else 0.0)
    + OddsPoints(f.oddsAnalysis)
    + (if f.patternMatch > 0.7 then 12.0 else 0.0)
  }

  /** The factor the points are multiplied by: league importance, then the model
      multiplier. */
  function Scale(f: Factors, w: Weights): real {
    f.leagueImportance * ModelMultiplier(f, w)
  }

  /** The score before rounding: the points scaled by league importance and the model
      multiplier. */
  function RawScore(f: Factors, w: Weights): real {
    Points(f) * Scale(f, w)
  }

  /** `Math.round(x)`: the integer nearest to `x`, halves rounded up. */
  function Round(x: real): (r: int)
    ensures r as real - 0.5 <= x < r as real + 0.5
  {
    (x + 0.5).Floor
  }

  /** Rounding and clamping never reverse an order. */
  lemma RoundClampMonotone(x: real, y: real)
    requires x <= y
    ensures Clamp(Round(x)) <= Clamp(Round(y))
  {
  }

  /** `Math.max(50, Math.min(95, n))` */
  function Clamp(n: int): (r: int)
    ensures 50 <= r <= 95
    ensures 50 <= n <= 95 ==> r == n
    ensures n < 50 ==> r == 50
    ensures n > 95 ==> r == 95
  {
    Max(50, Min(95, n))
  }

  function Confidence(f: Factors, w: Weights): (r: int)
    ensures 50 <= r <= 95
  {
    Clamp(Round(RawScore(f, w)))
  }

  /** The bet type: a derby is tipped as a draw, an away-leaning head to head as an away
      win, everything else as a home win. */
  function BetTypeFor(f: Factors): BetType {
    if Derby in f.motivation then Draw
    else if f.headToHead == StrongAway || f.headToHead == AwaySlight then Away
    else Home
  }

  /** The odds quoted for a bet type. */
  function OddsFor(m: Match, bet: BetType): Option<real> {
    match bet
    case Home => m.odds1
    case Draw => m.oddsX
    case Away => m.odds2
  }

  function HeadToHeadReason(v: HeadToHead): Reason {
    match v
    case StrongHome => StrongHomeH2H
    case HomeSlight => SlightHomeH2H
    case StrongAway => StrongAwayH2H
    case AwaySlight => SlightAwayH2H
    case Balanced => BalancedH2H
  }

  function OddsReasons(o: OddsAnalysis): seq<Reason> {
    if !o.hasValue then []
    else match o.recommendation
      case ExcellentValue => [ExcellentValueBet(o.margin)]
      case GoodValue => [GoodValueBet(o.margin)]
      case PoorValue => [HighBookmakerMargin(o.margin)]
      case Normal => []
  }

  /** The result object of `generateAIPrediction`. */
  datatype Tip = Tip(betType: BetType, confidence: int, value: int, reasoning: seq<Reason>, odds: Option<real>)

  /** `generateAIPrediction(factors, match)` with the learning model's weights. */
  function GeneratePrediction(f: Factors, m: Match, w: Weights): (r: Tip)
    ensures 50 <= r.confidence <= 95
    ensures r.betType == Draw <==> Derby in f.motivation
    ensures r.betType == Away <==> Derby !in f.motivation && (f.headToHead == StrongAway || f.headToHead == AwaySlight)
    ensures r.odds.Some? <==> Given(m.odds1) && Given(m.oddsX) && Given(m.odds2)
    ensures r.odds.Some? ==> r.odds == OddsFor(m, r.betType)
    ensures r.value == 20 <==> f.oddsAnalysis.hasValue && f.oddsAnalysis.recommendation == ExcellentValue
    ensures r.value == 10 <==> f.oddsAnalysis.hasValue && f.oddsAnalysis.recommendation == GoodValue
    ensures r.value in {0, 10, 20}
    ensures |r.reasoning| >= 2
    ensures r.reasoning[0] == HeadToHeadReason(f.headToHead)
    ensures r.reasoning[|r.reasoning| - 1] == FormSummary(m.home, f.homeForm, m.away, f.awayForm)
    ensures DerbyDrawRisk in r.reasoning <==> Derby in f.motivation
  {
    var betType := BetTypeFor(f);
    var value :=
      if !f.oddsAnalysis.hasValue then 0
      else if f.oddsAnalysis.recommendation == ExcellentValue then 20
      else if f.oddsAnalysis.recommendation == GoodValue then 10
      else 0;
    var reasoning :=
      [HeadToHeadReason(f.headToHead)]
      + (if Derby in f.motivation then [DerbyDrawRisk] else [])
      + (if TopLeague in f.motivation then [TopLeagueQuality] else [])
      + OddsReasons(f.oddsAnalysis)
      + (if f.patternMatch > 0.7 then [PatternFit(f.patternMatch * 100.0)] else [])
      + [FormSummary(m.home, f.homeForm, m.away, f.awayForm)];
    var odds := if Given(m.odds1) && Given(m.oddsX) && Given(m.odds2) then OddsFor(m, betType) else None;
    Tip(betType, Confidence(f, w), value, reasoning, odds)
  }

  /** A verdict more favourable to the home side never lowers the confidence, provided the
      league importance and the model multiplier do not turn the score's sign. */
  lemma ConfidenceMonotone(f: Factors, v: HeadToHead, w: Weights)
    requires HeadToHeadPoints(f.headToHead) <= HeadToHeadPoints(v)
    requires Scale(f, w) >= 0.0
    ensures Confidence(f, w) <= Confidence(f.(headToHead := v), w)
  {
    RawScoreMonotone(f, v, w);
    RoundClampMonotone(RawScore(f, w), RawScore(f.(headToHead := v), w));
  }

  lemma RawScoreMonotone(f: Factors, v: HeadToHead, w: Weights)
    requires HeadToHeadPoints(f.headToHead) <= HeadToHeadPoints(v)
    requires Scale(f, w) >= 0.0
    ensures RawScore(f, w) <= RawScore(f.(headToHead := v), w)
  {
    var g := f.(headToHead := v);
    var k := Scale(f, w);
    assert Scale(g, w) == k;
    calc {
      RawScore(f, w);
    ==
      Points(f) * k;
    <= { PointsMonotone(f, v); ScaleMonotone(Points(f), Points(g), k); }
      Points(g) * k;
    ==
      RawScore(g, w);
    }
  }

  lemma PointsMonotone(f: Factors, v: HeadToHead)
    requires HeadToHeadPoints(f.headToHead) <= HeadToHeadPoints(v)
    ensures Points(f) <= Points(f.(headToHead := v))
  {
  }

  lemma ScaleMonotone(x: real, y: real, s: real)
    requires x <= y && s >= 0.0
    ensures x * s <= y * s
  {
    assert (y - x) * s >= 0.0;
  }

  /** `analyzeMatchWithAI(match)`: the match's identity with the tip and its factors, or the
      failure of the factor computation. */
  function Analyze(m: Match, patterns: seq<SuccessPattern>, w: Weights): (r: Result<Prediction, AnalysisError>)
    ensures r.Failure? <==> m.league.None?
    ensures r.Success? ==>
      && r.value.matchId == m.id && r.value.home == m.home && r.value.away == m.away
      && Some(r.value.league) == m.league && r.value.date == m.date && r.value.fileName == m.fileName
      && r.value.fixture == m.home + " vs " + m.away
      && 50 <= r.value.confidence <= 95
      && (r.value.odds.Some? ==> r.value.odds == OddsFor(m, r.value.betType))
  {
    match FactorsOf(m, patterns)
    case Failure(e) => Failure(e)
    case Success(f) =>
      var tip := GeneratePrediction(f, m, w);
      Success(Prediction(m.id, m.home + " vs " + m.away, m.home, m.away, m.league.value, m.date,
                               m.fileName, tip.betType, tip.confidence, tip.value, tip.reasoning,
                               tip.odds, f))
  }
}
