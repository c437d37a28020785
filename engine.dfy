/** The prediction engine: composite score, outcome and confidence,
    win/draw/loss probabilities, justification reasons and the scoreline.
    The random draws of the original are parameters: each form value is a
    real in the range `random.uniform` draws it from, and each
    `random.choice` is driven by a unit draw `u` in [0, 1). */
module Engine {
  import opened Teams

  datatype Option<+T> = None | Some(value: T)

  /** The three prediction labels: "Home Win", "Draw" and "Away Win". */
  datatype Outcome = HomeWin | Draw | AwayWin

  /** A justification, in the order the engine records them. */
  datatype Reason =
    | SignificantlyStronger(team: string, rating: int, opponentRating: int)
    | HomeAdvantage
    | MissingPlayers(team: string, count: nat, named: seq<string>)

  /** A predicted final score, home goals first. */
  datatype Scoreline = Scoreline(home: nat, away: nat)

  /** An outcome label with the confidence the engine attaches to it. */
  datatype Verdict = Verdict(outcome: Outcome, confidence: real)

  /** Win/draw/loss percentages, seen from the home side. */
  datatype Chances = Chances(home: real, draw: real, away: real)

  /** What one prediction call returns (values before rounding). */
  datatype Prediction = Prediction(
    outcome: Outcome,
    confidence: real,
    reasons: seq<Reason>,
    scoreline: Scoreline,
    homeWinProb: real,
    drawProb: real,
    awayWinProb: real)

  /** Points the home side always receives. */
  const HomeAdvantagePoints: int := 10
  /** How many reasons a prediction keeps. */
  const MaxReasons: nat := 3
  /** How many injured players an injury reason names. */
  const NamedPlayers: nat := 2

  /** Python slicing `s[:n]`: the first n elements, or all of s when shorter. */
  function Take<T>(s: seq<T>, n: nat): (r: seq<T>)
    ensures |r| == if |s| <= n then |s| else n
    ensures r == s[..|r|]
  {
    if |s| <= n then s else s[..n]
  }

  function Abs(x: real): (r: real)
    ensures 0.0 <= r && (r == x || r == -x)
  {
    if x < 0.0 then -x else x
  }

  function AbsInt(x: int): (r: nat)
    ensures r == x || r == -x
  {
    if x < 0 then -x else x
  }

  function Min(a: real, b: real): (r: real)
    ensures r <= a && r <= b && (r == a || r == b)
  {
    if b < a then b else a
  }

  /** The range the form of a side with the given strength is drawn from:
      [6, 9] for a side rated above 80, [5, 7] otherwise. */
  predicate FormInRange(strength: int, form: real)
  {
    if strength > 80 then 6.0 <= form <= 9.0 else 5.0 <= form <= 7.0
  }

  /** The composite score: strength gap, home advantage, injury gap and form gap. */
  function CompositeScore(homeStrength: int, awayStrength: int, homeInjuries: nat, awayInjuries: nat,
                          homeForm: real, awayForm: real): real
  {
    (homeStrength - awayStrength) as real * 0.6
      + HomeAdvantagePoints as real
      + (awayInjuries - homeInjuries) as real * 8.0
      + (homeForm - awayForm) * 4.0
  }

  /** The form term moves the score by at most 16 either way. */
  lemma FormShiftAtMost16(homeStrength: int, awayStrength: int, homeInjuries: nat, awayInjuries: nat,
                          homeForm: real, awayForm: real)
    requires FormInRange(homeStrength, homeForm) && FormInRange(awayStrength, awayForm)
    ensures var fixed := CompositeScore(homeStrength, awayStrength, homeInjuries, awayInjuries, 0.0, 0.0);
            var score := CompositeScore(homeStrength, awayStrength, homeInjuries, awayInjuries, homeForm, awayForm);
            fixed - 16.0 <= score <= fixed + 16.0
  {
  }

  /** Turns a score into a label and a confidence. The thresholds are strict,
      so a score of exactly 12 or -12 is a draw. A decisive label carries a
      confidence above 79.4 and at most 92; a draw carries between 41 and 65,
      and below 45 exactly when the score is more than 10 away from zero. */
  function Classify(score: real): (v: Verdict)
    ensures v.outcome == HomeWin <==> score > 12.0
    ensures v.outcome == AwayWin <==> score < -12.0
    ensures v.outcome != Draw ==> 79.4 < v.confidence <= 92.0
    ensures v.outcome == Draw ==> 41.0 <= v.confidence <= 65.0
    ensures v.outcome == Draw ==> (v.confidence < 45.0 <==> Abs(score) > 10.0)
  {
    if score > 12.0 then
      Verdict(HomeWin, Min(65.0 + score * 1.2, 92.0))
    else if score < -12.0 then
      Verdict(AwayWin, Min(65.0 + Abs(score) * 1.2, 92.0))
    else
      Verdict(Draw, Min(45.0 + (10.0 - Abs(score)) * 2.0, 65.0))
  }

  /** The percentage a set of chances gives to one outcome. */
  function ChanceOf(c: Chances, o: Outcome): real
  {
    match o
    case HomeWin => c.home
    case Draw => c.draw
    case AwayWin => c.away
  }

  /** True when `o` has strictly the largest share of `c`. */
  predicate Favours(c: Chances, o: Outcome)
  {
    forall other: Outcome :: other != o ==> ChanceOf(c, other) < ChanceOf(c, o)
  }

  /** Win/draw/loss percentages derived from a verdict: the predicted outcome
      gets the confidence, and the remainder is split 40/60 (decisive label,
      the 40 going to the other side) or 50/50 (draw). They always sum to 100,
      and none is negative when the confidence is a percentage. */
  function WinChances(v: Verdict): (c: Chances)
    ensures c.home + c.draw + c.away == 100.0
    ensures ChanceOf(c, v.outcome) == v.confidence
    ensures 0.0 <= v.confidence <= 100.0 ==> 0.0 <= c.home && 0.0 <= c.draw && 0.0 <= c.away
    ensures v.outcome == HomeWin ==> c.away == (100.0 - v.confidence) * 0.4
    ensures v.outcome == AwayWin ==> c.home == (100.0 - v.confidence) * 0.4
    ensures v.outcome == Draw ==> c.home == c.away == (100.0 - v.confidence) / 2.0
  {
    match v.outcome
    case HomeWin =>
      var home := v.confidence;
      var away := (100.0 - v.confidence) * 0.4;
      Chances(home, 100.0 - home - away, away)
    case AwayWin =>
      var away := v.confidence;
      var home := (100.0 - v.confidence) * 0.4;
      Chances(home, 100.0 - home - away, away)
    case Draw =>
      var draw := v.confidence;
      var home := (100.0 - v.confidence) * 0.5;
      Chances(home, draw, 100.0 - draw - home)
  }

  /** Whatever the score, the chances derived from its verdict favour
      the predicted outcome strictly and are all non-negative. */
  lemma VerdictIsFavourite(score: real)
    ensures var v := Classify(score);
            var c := WinChances(v);
            Favours(c, v.outcome) && 0.0 <= c.home && 0.0 <= c.draw && 0.0 <= c.away
  {
    var v := Classify(score);
    var c := WinChances(v);
    forall other: Outcome | other != v.outcome
      ensures ChanceOf(c, other) < ChanceOf(c, v.outcome)
    {
    }
  }

  /** The strength-gap reason, naming the stronger side, when the ratings
      differ by more than 10. */
  function StrengthReasons(homeTeam: string, awayTeam: string, homeStrength: int, awayStrength: int): seq<Reason>
  {
    if homeStrength - awayStrength > 10 then [SignificantlyStronger(homeTeam, homeStrength, awayStrength)]
    else if homeStrength - awayStrength < -10 then [SignificantlyStronger(awayTeam, awayStrength, homeStrength)]
    else []
  }

  /** The reason a side is weakened, naming its first two injured players. */
  function InjuryReason(team: string, injured: seq<string>): Reason
  {
    MissingPlayers(team, |injured|, Take(injured, NamedPlayers))
  }

  function InjuryReasons(team: string, injured: seq<string>): seq<Reason>
  {
    if |injured| > 0 then [InjuryReason(team, injured)] else []
  }

  /** The reasons a prediction reports: strength gap, home advantage, home
      injuries, away injuries, in that order, cut to the first three. */
  function Reasons(homeTeam: string, awayTeam: string, homeStrength: int, awayStrength: int,
                   homeInjured: seq<string>, awayInjured: seq<string>): (r: seq<Reason>)
    ensures |r| <= MaxReasons
    ensures HomeAdvantage in r
    ensures forall x :: x in r && x.MissingPlayers? ==> 0 < x.count && |x.named| <= NamedPlayers
  {
    var all := StrengthReasons(homeTeam, awayTeam, homeStrength, awayStrength)
      + [HomeAdvantage]
      + InjuryReasons(homeTeam, homeInjured)
      + InjuryReasons(awayTeam, awayInjured);
    Take(all, MaxReasons)
  }

  /** Where each reason ends up after the cut: the strength-gap reason (if
      any) first, naming the stronger side; the home-advantage reason right
      after it, so it is never cut; then the home-injury reason; the
      away-injury reason is last, and is cut exactly when all four reasons
      are present. */
  lemma ReasonsLayout(homeTeam: string, awayTeam: string, homeStrength: int, awayStrength: int,
                      homeInjured: seq<string>, awayInjured: seq<string>)
    ensures var r := Reasons(homeTeam, awayTeam, homeStrength, awayStrength, homeInjured, awayInjured);
            var k := if AbsInt(homeStrength - awayStrength) > 10 then 1 else 0;
            var present := k + 1 + (if |homeInjured| > 0 then 1 else 0) + (if |awayInjured| > 0 then 1 else 0);
            && |r| == (if present <= MaxReasons then present else MaxReasons)
            && (homeStrength - awayStrength > 10 ==> r[0] == SignificantlyStronger(homeTeam, homeStrength, awayStrength))
            && (homeStrength - awayStrength < -10 ==> r[0] == SignificantlyStronger(awayTeam, awayStrength, homeStrength))
            && r[k] == HomeAdvantage
            && (|homeInjured| > 0 ==> r[k + 1] == InjuryReason(homeTeam, homeInjured))
            && (|awayInjured| > 0 && present <= MaxReasons ==> r[|r| - 1] == InjuryReason(awayTeam, awayInjured))
  {
  }

  /** The index `random.choice` takes in a list of n elements, for a unit draw u. */
  function PickIndex(n: nat, u: real): (i: nat)
    requires 0 < n && 0.0 <= u < 1.0
    ensures i < n
  {
    ScaledDrawBelow(u, n);
    (u * n as real).Floor
  }

  /** A unit draw scaled by n stays below n. */
  lemma {:induction false} ScaledDrawBelow(u: real, n: nat)
    requires 0 < n && 0.0 <= u < 1.0
    ensures 0.0 <= u * n as real < n as real
  {
    if n > 1 {
      ScaledDrawBelow(u, n - 1);
      assert u * n as real == u * (n - 1) as real + u;
    }
  }

  /** `random.choice(xs)` for a unit draw u. */
  function Choice<T>(xs: seq<T>, u: real): (x: T)
    requires 0 < |xs| && 0.0 <= u < 1.0
    ensures x in xs
  {
    xs[PickIndex(|xs|, u)]
  }

  /** True when the scoreline has the winner the outcome names. */
  predicate AgreesWith(s: Scoreline, o: Outcome)
  {
    match o
    case HomeWin => s.home > s.away
    case AwayWin => s.away > s.home
    case Draw => s.home == s.away
  }

  /** The same scoreline seen from the other side. */
  function Mirror(s: Scoreline): Scoreline
  {
    Scoreline(s.away, s.home)
  }

  /** A plausible scoreline for the outcome, chosen with the unit draw u from
      fixed candidates that depend on the strength gap and on the losing
      side's injuries. It always has the winner the outcome names; a draw is
      1-1 or 2-2 (never 0-0), and always 1-1 when the ratings differ by 10 or
      more; no side scores more than 4. */
  function PredictScore(homeStrength: int, awayStrength: int, outcome: Outcome,
                        homeInjuries: nat, awayInjuries: nat, u: real): (s: Scoreline)
    requires 0.0 <= u < 1.0
    ensures AgreesWith(s, outcome)
    ensures outcome == Draw ==> s == Scoreline(1, 1) || s == Scoreline(2, 2)
    ensures outcome == Draw && AbsInt(homeStrength - awayStrength) >= 10 ==> s == Scoreline(1, 1)
    ensures s.home <= 4 && s.away <= 4
  {
    var diff := AbsInt(homeStrength - awayStrength);
    match outcome
    case Draw =>
      var scores := [Scoreline(1, 1), Scoreline(2, 2), Scoreline(0, 0)];
      if diff < 10 then Choice(scores[..2], u) else Scoreline(1, 1)
    case HomeWin =>
      if diff > 20 || (diff > 10 && awayInjuries > 1) then
        Choice([Scoreline(3, 0), Scoreline(4, 1), Scoreline(3, 1)], u)
      else if diff > 10 then
        Choice([Scoreline(2, 0), Scoreline(3, 1), Scoreline(2, 1)], u)
      else
        Choice([Scoreline(2, 1), Scoreline(1, 0), Scoreline(2, 0)], u)
    case AwayWin =>
      if diff > 20 || (diff > 10 && homeInjuries > 1) then
        Choice([Scoreline(0, 3), Scoreline(1, 4), Scoreline(1, 3)], u)
      else if diff > 10 then
        Choice([Scoreline(0, 2), Scoreline(1, 3), Scoreline(1, 2)], u)
      else
        Choice([Scoreline(1, 2), Scoreline(0, 1), Scoreline(0, 2)], u)
  }

  /** An away win is scored as the mirror image of a home win with the sides
      (strengths and injuries) swapped, for the same draw. */
  lemma AwayWinMirrorsHomeWin(homeStrength: int, awayStrength: int, homeInjuries: nat, awayInjuries: nat, u: real)
    requires 0.0 <= u < 1.0
    ensures PredictScore(homeStrength, awayStrength, AwayWin, homeInjuries, awayInjuries, u)
         == Mirror(PredictScore(awayStrength, homeStrength, HomeWin, awayInjuries, homeInjuries, u))
  {
    assert AbsInt(homeStrength - awayStrength) == AbsInt(awayStrength - homeStrength);
  }

  function Digit(n: nat): (c: char)
    requires n <= 9
    ensures c as int - '0' as int == n
  {
    ('0' as int + n) as char
  }

  /** The "H-A" text of a scoreline whose goal counts are single digits. */
  function ScoreText(s: Scoreline): (t: string)
    requires s.home <= 9 && s.away <= 9
    ensures |t| == 3 && t[1] == '-'
    ensures t[0] as int - '0' as int == s.home && t[2] as int - '0' as int == s.away
  {
    [Digit(s.home), '-', Digit(s.away)]
  }

  /** The whole prediction for a fixture, given the strength and injury
      tables, the two form draws and the scoreline draw. */
  function Predict(strengths: map<string, int>, injuries: map<string, seq<string>>, homeTeam: string, awayTeam: string,
                   homeForm: real, awayForm: real, pick: real): (p: Prediction)
    requires 0.0 <= pick < 1.0
    ensures p.homeWinProb + p.drawProb + p.awayWinProb == 100.0
    ensures 0.0 <= p.homeWinProb && 0.0 <= p.drawProb && 0.0 <= p.awayWinProb
    ensures Favours(Chances(p.homeWinProb, p.drawProb, p.awayWinProb), p.outcome)
    ensures p.outcome != Draw ==> 79.4 < p.confidence <= 92.0
    ensures p.outcome == Draw ==> 41.0 <= p.confidence <= 65.0
    ensures AgreesWith(p.scoreline, p.outcome)
    ensures |p.reasons| <= MaxReasons && HomeAdvantage in p.reasons
  {
    var homeStrength := Strength(strengths, homeTeam);
    var awayStrength := Strength(strengths, awayTeam);
    var homeInjured := Injured(injuries, homeTeam);
    var awayInjured := Injured(injuries, awayTeam);
    var score := CompositeScore(homeStrength, awayStrength, |homeInjured|, |awayInjured|, homeForm, awayForm);
    var v := Classify(score);
    VerdictIsFavourite(score);
    var c := WinChances(v);
    Prediction(
      v.outcome, v.confidence,
      Reasons(homeTeam, awayTeam, homeStrength, awayStrength, homeInjured, awayInjured),
      PredictScore(homeStrength, awayStrength, v.outcome, |homeInjured|, |awayInjured|, pick),
      c.home, c.draw, c.away)
  }

  /** `Predict` in terms of its parts, for callers that build the
      prediction step by step. */
  lemma PredictParts(strengths: map<string, int>, injuries: map<string, seq<string>>, homeTeam: string, awayTeam: string,
                     homeForm: real, awayForm: real, pick: real)
    requires 0.0 <= pick < 1.0
    ensures var homeStrength := Strength(strengths, homeTeam);
            var awayStrength := Strength(strengths, awayTeam);
            var homeInjured := Injured(injuries, homeTeam);
            var awayInjured := Injured(injuries, awayTeam);
            var v := Classify(CompositeScore(homeStrength, awayStrength, |homeInjured|, |awayInjured|, homeForm, awayForm));
            var c := WinChances(v);
            Predict(strengths, injuries, homeTeam, awayTeam, homeForm, awayForm, pick)
              == Prediction(v.outcome, v.confidence,
                            Reasons(homeTeam, awayTeam, homeStrength, awayStrength, homeInjured, awayInjured),
                            PredictScore(homeStrength, awayStrength, v.outcome, |homeInjured|, |awayInjured|, pick),
                            c.home, c.draw, c.away)
  {
  }

  /** The predictor object. Its strength and injury tables are set when it
      is created and only read afterwards. */
  class FootballPredictor {
    const strengths: map<string, int>
    const injuries: map<string, seq<string>>

    constructor ()
      ensures strengths == StrengthTable() && injuries == InjuryTable()
    {
      strengths := StrengthTable();
      injuries := InjuryTable();
    }

    /** Predicts one fixture, accumulating the score term by term and
      collecting reasons as it goes. The team ids are accepted and unused.
      The form values stand for the two `random.uniform` draws; the
      contract holds for any values, so in particular for those within
      `FormInRange`. `pick` is the draw behind the scoreline choice. */
    method PredictMatch(homeTeam: string, awayTeam: string, homeTeamId: Option<int>, awayTeamId: Option<int>,
                        homeForm: real, awayForm: real, pick: real) returns (p: Prediction)
      requires 0.0 <= pick < 1.0
      ensures p == Predict(strengths, injuries, homeTeam, awayTeam, homeForm, awayForm, pick)
    {
      var homeStrength := Strength(strengths, homeTeam);
      var awayStrength := Strength(strengths, awayTeam);

      var score: real := 0.0;
      var reasons: seq<Reason> := [];

      // Team strength difference
      var strengthDiff := homeStrength - awayStrength;
      score := score + strengthDiff as real * 0.6;
      if strengthDiff > 10 {
        reasons := reasons + [SignificantlyStronger(homeTeam, homeStrength, awayStrength)];
      } else if strengthDiff < -10 {
        reasons := reasons + [SignificantlyStronger(awayTeam, awayStrength, homeStrength)];
      }
      assert reasons == StrengthReasons(homeTeam, awayTeam, homeStrength, awayStrength);

      // Home advantage
      score := score + HomeAdvantagePoints as real;
      reasons := reasons + [HomeAdvantage];

      // Injury impact
      ghost var beforeInjuries := reasons;
      var homeInjuries := |Injured(injuries, homeTeam)|;
      var awayInjuries := |Injured(injuries, awayTeam)|;
      score := score + (awayInjuries - homeInjuries) as real * 8.0;
      if homeInjuries > 0 {
        reasons := reasons + [MissingPlayers(homeTeam, homeInjuries, Take(injuries[homeTeam], NamedPlayers))];
      }
      assert reasons == beforeInjuries + InjuryReasons(homeTeam, Injured(injuries, homeTeam));
      ghost var beforeAway := reasons;
      if awayInjuries > 0 {
        reasons := reasons + [MissingPlayers(awayTeam, awayInjuries, Take(injuries[awayTeam], NamedPlayers))];
      }
      assert reasons == beforeAway + InjuryReasons(awayTeam, Injured(injuries, awayTeam));

      // Recent form
      score := score + (homeForm - awayForm) * 4.0;

      var prediction: Outcome;
      var confidence: real;
      if score > 12.0 {
        prediction := HomeWin;
        confidence := Min(65.0 + score * 1.2, 92.0);
      } else if score < -12.0 {
        prediction := AwayWin;
        confidence := Min(65.0 + Abs(score) * 1.2, 92.0);
      } else {
        prediction := Draw;
        confidence := Min(45.0 + (10.0 - Abs(score)) * 2.0, 65.0);
      }
      assert score == CompositeScore(homeStrength, awayStrength, homeInjuries, awayInjuries, homeForm, awayForm);
      assert Verdict(prediction, confidence) == Classify(score);

      var scorePrediction := PredictScore(homeStrength, awayStrength, prediction, homeInjuries, awayInjuries, pick);

      var homeProb: real, drawProb: real, awayProb: real;
      if prediction == HomeWin {
        homeProb := confidence;
        awayProb := (100.0 - confidence) * 0.4;
        drawProb := 100.0 - homeProb - awayProb;
      } else if prediction == AwayWin {
        awayProb := confidence;
        homeProb := (100.0 - confidence) * 0.4;
        drawProb := 100.0 - homeProb - awayProb;
      } else {
        drawProb := confidence;
        homeProb := (100.0 - confidence) * 0.5;
        awayProb := 100.0 - drawProb - homeProb;
      }
      assert Chances(homeProb, drawProb, awayProb) == WinChances(Verdict(prediction, confidence));
      assert reasons == StrengthReasons(homeTeam, awayTeam, homeStrength, awayStrength)
        + [HomeAdvantage]
        + InjuryReasons(homeTeam, Injured(injuries, homeTeam))
        + InjuryReasons(awayTeam, Injured(injuries, awayTeam));
      PredictParts(strengths, injuries, homeTeam, awayTeam, homeForm, awayForm, pick);
      p := Prediction(prediction, confidence, Take(reasons, MaxReasons), scorePrediction,
                      homeProb, drawProb, awayProb);
    }
  }
}
