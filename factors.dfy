/** The analysis factors of one match (app.js:629-778, 1599-1603): team form and head to
    head derived from the name hash, table lookups of home advantage and league importance,
    the bookmaker margin, motivation tags, and the similarity to remembered successes. */
module MatchFactors {
  import opened Common
  import opened Text
  import opened Hash
  import opened Types

  /** Why `calculateAnalysisFactors` throws: `league.toLowerCase()` on a null league. */
  datatype AnalysisError = NullLeague

  // ---------------------------------------------------------------- team form

  /** The bonuses of `calculateTeamForm` before the hash offset, for a lower-cased name. */
  function NameBonus(name: string): (r: real)
    ensures -0.5 <= r <= 3.1
  {
    (if Contains(name, "real") || Contains(name, "barcelona") || Contains(name, "manchester")
        || Contains(name, "bayern") || Contains(name, "juventus") || Contains(name, "liverpool")
     then 2.0 else 0.0)
    + (if Contains(name, "united") || Contains(name, "city") || Contains(name, "fc") then 0.5 else 0.0)
    + (if Contains(name, "athletic") || Contains(name, "sporting") then 0.3 else 0.0)
    + (if |name| > 15 then -0.5 else 0.0)
    + (if |name| < 8 then 0.3 else 0.0)
  }

  /** `((hash % 1000) / 1000 - 0.5) * 2`: the name's pseudo-random offset, in [-1, 0.998]. */
  function HashOffset(name: string): (r: real)
    ensures -1.0 <= r <= 0.998
  {
    ((HashOf(name) % 1000) as real / 1000.0 - 0.5) * 2.0
  }

  /** The form before the final clamp. */
  function RawForm(name: string): real {
    5.0 + NameBonus(name) + HashOffset(name)
  }

  /** `calculateTeamForm(teamName)`: the form lies in [3.5, 9.098], well inside the clamp
      to [1, 10]. */
  function TeamForm(team: string): (r: real)
    ensures 3.5 <= r <= 9.098
  {
    MaxReal(1.0, MinReal(10.0, RawForm(Lower(team))))
  }

  /** The clamp to [1, 10] never changes the form. */
  lemma FormClampInactive(team: string)
    ensures TeamForm(team) == RawForm(Lower(team))
  {
    var name := Lower(team);
    assert 3.5 <= RawForm(name) <= 9.098 by {
      assert -0.5 <= NameBonus(name) <= 3.1;
      assert -1.0 <= HashOffset(name) <= 0.998;
    }
  }

  // ---------------------------------------------------------------- head to head

  /** The verdict for the two name hashes. `diff / Math.max(...)` is NaN when both hashes
      are 0, and every comparison with NaN fails, which gives 'balanced'. */
  function HeadToHeadOf(h: nat, a: nat): (r: HeadToHead)
    ensures h == a ==> r == Balanced
    ensures r == StrongHome <==> h > a && 2 * (h - a) > h
    ensures r == HomeSlight <==> h > a && 2 * (h - a) <= h && 10 * (h - a) > 3 * h
    ensures r == StrongAway <==> a > h && 2 * (a - h) > a
    ensures r == AwaySlight <==> a > h && 2 * (a - h) <= a && 10 * (a - h) > 3 * a
  {
    var mx := Max(h, a);
    if mx == 0 then Balanced
    else
      var ratio := Abs(h - a) as real / mx as real;
      RatioAbove(Abs(h - a) as real, mx as real, 0.5);
      RatioAbove(Abs(h - a) as real, mx as real, 0.3);
      if ratio > 0.5 then (if h > a then StrongHome else StrongAway)
      else if ratio > 0.3 then (if h > a then HomeSlight else AwaySlight)
      else Balanced
  }

  /** Comparing a quotient with a constant is comparing the dividend with a multiple of
      the positive divisor. */
  lemma RatioAbove(d: real, m: real, c: real)
    requires m > 0.0
    ensures d / m > c <==> d > c * m
  {
    var q := d / m;
    assert q * m == d;
    assert (q - c) * m == d - c * m;
    if q > c {
      assert (q - c) * m > 0.0;
    } else {
      assert (c - q) * m >= 0.0;
    }
  }

  /** `analyzeHeadToHead(home, away)` */
  function HeadToHeadFor(home: string, away: string): HeadToHead {
    HeadToHeadOf(HashOf(Lower(home)), HashOf(Lower(away)))
  }

  function Mirror(v: HeadToHead): HeadToHead {
    match v
    case StrongHome => StrongAway
    case HomeSlight => AwaySlight
    case Balanced => Balanced
    case AwaySlight => HomeSlight
    case StrongAway => StrongHome
  }

  /** Swapping the teams mirrors the verdict, and a team against itself is balanced. */
  lemma HeadToHeadSwap(home: string, away: string)
    ensures HeadToHeadFor(away, home) == Mirror(HeadToHeadFor(home, away))
    ensures HeadToHeadFor(home, home) == Balanced
  {
    var h, a := HashOf(Lower(home)), HashOf(Lower(away));
    var v := HeadToHeadOf(h, a);
    match v
    case StrongHome =>
    case HomeSlight =>
    case Balanced =>
    case AwaySlight =>
    case StrongAway =>
  }

  // ---------------------------------------------------------------- league tables

  /** The position of the first table key that occurs in `text`, if any. */
  function FirstKey(table: seq<(string, real)>, text: string): (r: Option<nat>)
    ensures r.Some? ==> r.value < |table| && Contains(text, table[r.value].0)
    ensures r.Some? ==> forall k :: 0 <= k < r.value ==> !Contains(text, table[k].0)
    ensures r.None? ==> forall k :: 0 <= k < |table| ==> !Contains(text, table[k].0)
  {
    if table == [] then None
    else if Contains(text, table[0].0) then Some(0)
    else match FirstKey(table[1..], text)
      case Some(k) => Some(k + 1)
      case None => None
  }

  /** The loop over `Object.entries(table)`: the value of the first key contained in the
      text, or the default. */
  function TableValue(table: seq<(string, real)>, text: string, default: real): (r: real)
    ensures (forall k :: 0 <= k < |table| ==> !Contains(text, table[k].0)) ==> r == default
    ensures forall k :: (0 <= k < |table| && Contains(text, table[k].0)
                         && (forall j :: 0 <= j < k ==> !Contains(text, table[j].0))) ==> r == table[k].1
  {
    match FirstKey(table, text)
    case Some(k) => table[k].1
    case None => default
  }

  const AdvantageTable: seq<(string, real)> := [
    ("premier league", 1.3), ("laliga", 1.35), ("la liga", 1.35), ("bundesliga", 1.25),
    ("serie a", 1.32), ("ligue 1", 1.28), ("champions league", 1.20), ("europa league", 1.15)]

  const ImportanceTable: seq<(string, real)> := [
    ("premier league", 1.0), ("laliga", 1.0), ("la liga", 1.0), ("bundesliga", 0.95),
    ("serie a", 0.95), ("ligue 1", 0.85), ("champions league", 1.2), ("europa league", 0.9)]

  /** `calculateHomeAdvantage(league)`: between 1.15 and 1.35, 1.25 for an unlisted league. */
  function HomeAdvantage(league: string): (r: real)
    ensures 1.15 <= r <= 1.35
    ensures FirstKey(AdvantageTable, Lower(league)).None? ==> r == 1.25
  {
    var r := TableValue(AdvantageTable, Lower(league), 1.25);
    assert forall k :: 0 <= k < |AdvantageTable| ==> 1.15 <= AdvantageTable[k].1 <= 1.35;
    r
  }

  /** `calculateLeagueImportance(league)`: between 0.7 and 1.2, 0.7 for an unlisted league. */
  function LeagueImportance(league: string): (r: real)
    ensures 0.7 <= r <= 1.2
    ensures FirstKey(ImportanceTable, Lower(league)).None? ==> r == 0.7
  {
    var r := TableValue(ImportanceTable, Lower(league), 0.7);
    assert forall k :: 0 <= k < |ImportanceTable| ==> 0.7 <= ImportanceTable[k].1 <= 1.2;
    r
  }

  // ---------------------------------------------------------------- odds

  /** A truthy odds value: present and not zero. */
  predicate Given(o: Option<real>) {
    o.Some? && o.value != 0.0
  }

  /** `analyzeOddsValue(match)`: only with all three odds is the margin computed, as the sum
      of the implied probabilities minus one, in percent; the recommendation depends on the
      margin alone. */
  function AnalyzeOdds(odds1: Option<real>, oddsX: Option<real>, odds2: Option<real>): (r: OddsAnalysis)
    ensures r.hasValue <==> Given(odds1) && Given(oddsX) && Given(odds2)
    ensures !r.hasValue ==> r.recommendation == Normal && r.margin == 0.0
    ensures r.hasValue ==>
      && (r.recommendation == ExcellentValue <==> r.margin < 4.0)
      && (r.recommendation == GoodValue <==> 4.0 <= r.margin < 6.0)
      && (r.recommendation == PoorValue <==> r.margin > 12.0)
  {
    if Given(odds1) && Given(oddsX) && Given(odds2) then
      var implied := 1.0 / odds1.value + 1.0 / oddsX.value + 1.0 / odds2.value;
      var margin := (implied - 1.0) * 100.0;
      var recommendation :=
        if implied < 1.04 then ExcellentValue
        else if implied < 1.06 then GoodValue
        else if implied > 1.12 then PoorValue
        else Normal;
      OddsAnalysis(true, recommendation, margin)
    else OddsAnalysis(false, Normal, 0.0)
  }

  // ---------------------------------------------------------------- motivation

  /** The words of `name.toLowerCase().split(' ')`. */
  function Words(name: string): seq<string> {
    Split(Lower(name), ' ')
  }

  /** Some word of the home name is also a word of the away name. */
  predicate SharesWord(home: string, away: string) {
    exists w :: w in Words(home) && w in Words(away)
  }

  predicate IsTopLeague(league: string) {
    var l := Lower(league);
    Contains(l, "premier") || Contains(l, "laliga") || Contains(l, "bundesliga") || Contains(l, "serie")
  }

  predicate IsCupLeague(league: string) {
    var l := Lower(league);
    Contains(l, "final") || Contains(l, "cup")
  }

  /** `analyzeTeamMotivation(match)`: each tag at most once, in the order top league,
      derby, cup match. */
  function Motivation(league: string, home: string, away: string): (r: seq<Motive>)
    ensures TopLeague in r <==> IsTopLeague(league)
    ensures Derby in r <==> SharesWord(home, away)
    ensures CupMatch in r <==> IsCupLeague(league)
    ensures forall i, j :: 0 <= i < j < |r| ==> r[i] != r[j]
  {
    (if IsTopLeague(league) then [TopLeague] else [])
    + (if SharesWord(home, away) then [Derby] else [])
    + (if IsCupLeague(league) then [CupMatch] else [])
  }

  /** The derby tag does not depend on which team plays at home, and a team meeting a team
      of the same name always makes a derby. */
  lemma DerbySymmetric(league: string, home: string, away: string)
    ensures Derby in Motivation(league, home, away) <==> Derby in Motivation(league, away, home)
    ensures Derby in Motivation(league, home, home)
  {
    var w := Words(home)[0];
    assert w in Words(home);
  }

  // ---------------------------------------------------------------- learning patterns

  /** `similarString(a, b)`: both non-empty and one contains the other, ignoring case. */
  predicate SimilarString(a: string, b: string) {
    a != [] && b != [] && (Contains(Lower(a), Lower(b)) || Contains(Lower(b), Lower(a)))
  }

  predicate LeagueFits(p: SuccessPattern, league: string) {
    p.league != [] && SimilarString(p.league, league)
  }

  predicate HomeFits(p: SuccessPattern, home: string) {
    p.home != [] && SimilarString(p.home, home)
  }

  /** The pattern's odds lie within 20% of the match's home odds. */
  predicate OddsFit(p: SuccessPattern, odds1: Option<real>) {
    Given(p.odds1) && Given(odds1) && AbsReal(p.odds1.value - odds1.value) / p.odds1.value < 0.2
  }

  /** The similarity of one success pattern: 0.4 for the league, 0.3 for the home team and
      0.3 for the odds. Full similarity is the only score above 0.7. */
  function PatternScore(p: SuccessPattern, league: string, home: string, odds1: Option<real>): (r: real)
    ensures 0.0 <= r <= 1.0
    ensures r > 0.7 <==> r == 1.0
    ensures r == 1.0 <==> LeagueFits(p, league) && HomeFits(p, home) && OddsFit(p, odds1)
    ensures r == 0.0 <==> !LeagueFits(p, league) && !HomeFits(p, home) && !OddsFit(p, odds1)
  {
    (if LeagueFits(p, league) then 0.4 else 0.0)
    + (if HomeFits(p, home) then 0.3 else 0.0)
    + (if OddsFit(p, odds1) then 0.3 else 0.0)
  }

  /** What `findLearningPatterns` returns: the best score over the success patterns,
      0 when there are none. */
  function BestPattern(patterns: seq<SuccessPattern>, league: string, home: string, odds1: Option<real>): (r: real)
    ensures 0.0 <= r <= 1.0
    ensures forall k :: 0 <= k < |patterns| ==> PatternScore(patterns[k], league, home, odds1) <= r
    ensures r == 0.0 || exists k :: 0 <= k < |patterns| && r == PatternScore(patterns[k], league, home, odds1)
  {
    if patterns == [] then 0.0
    else
      var init := patterns[..|patterns| - 1];
      var best := BestPattern(init, league, home, odds1);
      assert forall k :: 0 <= k < |init| ==> patterns[k] == init[k];
      MaxReal(best, PatternScore(patterns[|patterns| - 1], league, home, odds1))
  }

  /** The best score passes the 0.7 bar exactly when some pattern fits in league, home team
      and odds at once. */
  lemma StrongPatternMatch(patterns: seq<SuccessPattern>, league: string, home: string, odds1: Option<real>)
    ensures BestPattern(patterns, league, home, odds1) > 0.7 <==>
      exists k :: 0 <= k < |patterns| &&
        LeagueFits(patterns[k], league) && HomeFits(patterns[k], home) && OddsFit(patterns[k], odds1)
  {
    var r := BestPattern(patterns, league, home, odds1);
    if r > 0.7 {
      var k :| 0 <= k < |patterns| && r == PatternScore(patterns[k], league, home, odds1);
      assert LeagueFits(patterns[k], league) && HomeFits(patterns[k], home) && OddsFit(patterns[k], odds1);
    }
  }

  /** `findLearningPatterns(match)`, with its loop over the success patterns. */
  method FindLearningPatterns(patterns: seq<SuccessPattern>, league: string, home: string, odds1: Option<real>)
    returns (best: real)
    ensures best == BestPattern(patterns, league, home, odds1)
  {
    if |patterns| == 0 {
      return 0.0;
    }
    best := 0.0;
    var i := 0;
    while i < |patterns|
      invariant 0 <= i <= |patterns|
      invariant best == BestPattern(patterns[..i], league, home, odds1)
    {
      assert patterns[..i + 1][..i] == patterns[..i];
      var similarity := PatternScore(patterns[i], league, home, odds1);
      best := MaxReal(best, similarity);
      i := i + 1;
    }
    assert patterns[..|patterns|] == patterns;
  }

  // ---------------------------------------------------------------- all factors

  /** `calculateAnalysisFactors(match)`: fails when the match has no league, because the
      home-advantage lookup lower-cases it. */
  function FactorsOf(m: Match, patterns: seq<SuccessPattern>): (r: Result<Factors, AnalysisError>)
    ensures r.Failure? <==> m.league.None?
    ensures r.Success? ==>
      && 3.5 <= r.value.homeForm <= 9.098 && 3.5 <= r.value.awayForm <= 9.098
      && r.value.formDifference == r.value.homeForm - r.value.awayForm
      && 1.15 <= r.value.homeAdvantage <= 1.35
      && 0.7 <= r.value.leagueImportance <= 1.2
      && 0.0 <= r.value.patternMatch <= 1.0
      && (r.value.oddsAnalysis.hasValue <==> Given(m.odds1) && Given(m.oddsX) && Given(m.odds2))
  {
    match m.league
    case None => Failure(NullLeague)
    case Some(league) =>
      var homeForm := TeamForm(m.home);
      var awayForm := TeamForm(m.away);
      Success(Factors(
        homeForm,
        awayForm,
        homeForm - awayForm,
        HeadToHeadFor(m.home, m.away),
        HomeAdvantage(league),
        AnalyzeOdds(m.odds1, m.oddsX, m.odds2),
        Motivation(league, m.home, m.away),
        LeagueImportance(league),
        BestPattern(patterns, league, m.home, m.odds1)))
  }
}
