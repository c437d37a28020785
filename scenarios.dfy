/** Whole-prediction facts about example fixtures. Each is stated for any
    strength and injury tables that give the two sides the ratings and
    absentees the named clubs have in the initial tables. */
module Scenarios {
  import opened Teams
  import opened Engine

  /** Real Madrid (96, nobody out) at home to an unlisted side (70, nobody
      out): a home win whatever the form draws, reported with the
      strength-gap and home-advantage reasons and a 3-0, 4-1 or 3-1
      scoreline. With level form the score is 25.6, the confidence hits its
      cap of 92 and the chances are 92 / 4.8 / 3.2. */
  lemma DominantHomeSide(strengths: map<string, int>, injuries: map<string, seq<string>>,
                         home: string, away: string, homeForm: real, awayForm: real, pick: real)
    requires Strength(strengths, home) == 96 && Strength(strengths, away) == 70
    requires Injured(injuries, home) == [] && Injured(injuries, away) == []
    requires FormInRange(96, homeForm) && FormInRange(70, awayForm)
    requires 0.0 <= pick < 1.0
    ensures var p := Predict(strengths, injuries, home, away, homeForm, awayForm, pick);
            && p.outcome == HomeWin
            && p.reasons == [SignificantlyStronger(home, 96, 70), HomeAdvantage]
            && p.scoreline in [Scoreline(3, 0), Scoreline(4, 1), Scoreline(3, 1)]
            && (homeForm == awayForm ==>
                  p.confidence == 92.0 && p.homeWinProb == 92.0 && p.drawProb == 4.8 && p.awayWinProb == 3.2)
  {
  }

  /** Liverpool (89) at home to Arsenal (90), nobody out, level form: the
      score is 9.4, a draw with confidence 46.2 and 26.9 for either win,
      scored 1-1 or 2-2, with only the home-advantage reason. */
  lemma NearNeighboursLevelForm(strengths: map<string, int>, injuries: map<string, seq<string>>,
                                home: string, away: string, form: real, pick: real)
    requires Strength(strengths, home) == 89 && Strength(strengths, away) == 90
    requires Injured(injuries, home) == [] && Injured(injuries, away) == []
    requires FormInRange(89, form)
    requires 0.0 <= pick < 1.0
    ensures var p := Predict(strengths, injuries, home, away, form, form, pick);
            && p.outcome == Draw
            && p.confidence == 46.2
            && p.homeWinProb == p.awayWinProb == 26.9
            && p.reasons == [HomeAdvantage]
            && (p.scoreline == Scoreline(1, 1) || p.scoreline == Scoreline(2, 2))
  {
  }

  /** Manchester United (80, two players out) at home to Roma (80, nobody
      out): the injury gap outweighs the home advantage, the score lies in
      [-14, 2], and a home win is impossible; the reasons are the home
      advantage and the home side's absentees. */
  lemma InjuriesOutweighHomeAdvantage(strengths: map<string, int>, injuries: map<string, seq<string>>,
                                      home: string, away: string, homeForm: real, awayForm: real, pick: real)
    requires Strength(strengths, home) == 80 && Strength(strengths, away) == 80
    requires |Injured(injuries, home)| == 2 && Injured(injuries, away) == []
    requires FormInRange(80, homeForm) && FormInRange(80, awayForm)
    requires 0.0 <= pick < 1.0
    ensures var p := Predict(strengths, injuries, home, away, homeForm, awayForm, pick);
            && p.outcome != HomeWin
            && p.reasons == [HomeAdvantage, MissingPlayers(home, 2, Injured(injuries, home))]
  {
  }

  /** In that fixture the form draws decide between a draw and an away win,
      and both happen. */
  lemma InjuryGapOutcomeDependsOnForm(strengths: map<string, int>, injuries: map<string, seq<string>>,
                                      home: string, away: string, pick: real)
    requires Strength(strengths, home) == 80 && Strength(strengths, away) == 80
    requires |Injured(injuries, home)| == 2 && Injured(injuries, away) == []
    requires 0.0 <= pick < 1.0
    ensures exists homeForm: real, awayForm: real ::
              && FormInRange(80, homeForm) && FormInRange(80, awayForm)
              && Predict(strengths, injuries, home, away, homeForm, awayForm, pick).outcome == AwayWin
    ensures exists homeForm: real, awayForm: real ::
              && FormInRange(80, homeForm) && FormInRange(80, awayForm)
              && Predict(strengths, injuries, home, away, homeForm, awayForm, pick).outcome == Draw
  {
    assert Predict(strengths, injuries, home, away, 5.0, 7.0, pick).outcome == AwayWin;
    assert Predict(strengths, injuries, home, away, 6.0, 6.0, pick).outcome == Draw;
  }

  /** A draw's confidence is not bounded below by 45: two unlisted sides
      (70, nobody out) with a form gap of one half score exactly 12, which is
      still a draw, and get the floor confidence of 41. */
  lemma DrawConfidenceReaches41(strengths: map<string, int>, injuries: map<string, seq<string>>,
                                home: string, away: string, pick: real)
    requires Strength(strengths, home) == 70 && Strength(strengths, away) == 70
    requires Injured(injuries, home) == [] && Injured(injuries, away) == []
    requires 0.0 <= pick < 1.0
    ensures exists homeForm: real, awayForm: real ::
              && FormInRange(70, homeForm) && FormInRange(70, awayForm)
              && var p := Predict(strengths, injuries, home, away, homeForm, awayForm, pick);
                 p.outcome == Draw && p.confidence == 41.0
  {
    assert Predict(strengths, injuries, home, away, 6.5, 6.0, pick).confidence == 41.0;
  }
}
