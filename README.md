# Football match predictor: the prediction engine

A Dafny model of the rule-based engine behind a football match predictor.
The predictor gets the names of a home side and an away side. It looks up
their strength ratings, which default to 70 for unknown names. It also looks
up their injured key players, which default to none. It adds up a composite
score from four terms:

- the strength gap times 0.6;
- a fixed home advantage of 10;
- the injury gap times 8;
- a random "form" gap times 4.

A score above 12 is a home win and a score below -12 is an away win. Anything
else, including exactly 12 and -12, is a draw. The engine attaches a capped
confidence to the label and derives win/draw/loss percentages from it. It
reports up to three reasons and picks a scoreline from fixed candidate lists.

Files:

- `teams.dfy` (module `Teams`): the strength table (split by competition,
  in the source's order) and the initial injury table, with the two
  lookups that default unknown names.
- `engine.dfy` (module `Engine`): the outcome, reason, scoreline and
  prediction datatypes. It also holds the specification functions for each
  step (`CompositeScore`, `Classify`, `WinChances`, `Reasons`,
  `PredictScore`, and `Predict` for the whole call). Last comes the class
  `FootballPredictor`, whose method `PredictMatch` works like the original:
  it adds to a local score term by term, appends reasons to a local list,
  classifies, derives probabilities and cuts the reasons to three. Its
  contract ties the result to `Predict`.
- `scenarios.dfy` (module `Scenarios`): whole-prediction facts about
  example fixtures.

Modelling choices:

- Randomness is passed in. The two form values are real parameters.
  `FormInRange` states the range `random.uniform` draws each from: [6, 9]
  for a side rated above 80, [5, 7] otherwise. The lemmas that depend on
  the range require it. `PredictMatch` and `Predict` hold for any form
  values, so they hold in particular for the drawn ones. Each `random.choice` over a
  list of n candidates is driven by a unit draw `u` in [0, 1), which selects
  index ⌊u·n⌋.
- Arithmetic is on `real`. The coefficients 0.6, 1.2, 0.4 and 0.5 are exact
  there, and every property is stated on the values before rounding.
- Reasons are structured values instead of formatted text:
  `SignificantlyStronger(team, rating, opponentRating)`, `HomeAdvantage`,
  and `MissingPlayers(team, count, named)`. A scoreline is
  `Scoreline(home, away)`, rendered as "H-A" by `ScoreText`.
- The strength table is a local literal in `predict_match`. In the model
  it is a constant of the predictor object, next to the injury table. The
  constructor sets both, and neither changes afterwards.
- The team ids are accepted (as `Option<int>`) and unused, as in the
  source.

The engine's documentation says the confidence always lies in [45, 92].
The code does not keep that bound, and the model follows the code. A draw's
confidence is `min(45 + (10 - |score|) * 2, 65)` on scores with
|score| ≤ 12. That drops below 45 whenever |score| > 10 and reaches 41 at
|score| = 12. `Classify` states the exact range, and
`DrawConfidenceReaches41` exhibits form values that produce 41.

## Model

| member | source | states |
|---|---|---|
| `Teams.StrengthTable` | predictor.py:225-268 | every rating in the strength table lies between 69 and 96 |
| `Teams.Strength` | predictor.py:270-271 | exact-key lookup: a listed name gets its rating, an unlisted one gets 70; the result stays within any rating band of the table that contains 70 |
| `Teams.Injured` | predictor.py:290-291 | the injured players of a listed team, and none for an unlisted team |
| `Teams.InitialInjuriesAtMostTwo` | predictor.py:25-36 | in the initial injury table no team misses more than two players, and only Manchester United misses two |
| `Engine.FormShiftAtMost16` | predictor.py:300-304 | with both forms drawn from their ranges, the form term moves the score by at most 16 either way |
| `Engine.Classify` | predictor.py:306-315 | strict thresholds: home win iff score > 12, away win iff score < -12, draw otherwise (including ±12); decisive confidence in (79.4, 92]; draw confidence in [41, 65], and below 45 exactly when abs(score) > 10 |
| `Engine.WinChances` | predictor.py:320-332 | the three percentages sum to exactly 100; the predicted outcome gets the confidence; none is negative for a confidence in [0, 100]; the loser's share is 40% of the rest for a decisive label; for a draw, home and away each get (100 - confidence) / 2 |
| `Engine.VerdictIsFavourite` | predictor.py:306-332 | for every score, the outcome picked has strictly the largest of the three percentages, and none is negative |
| `Engine.Reasons` | predictor.py:279-298 | at most three reasons; the home-advantage reason is always among them; each injury reason names at most two players and a positive count |
| `Engine.ReasonsLayout` | predictor.py:337 | after the cut to three: the strength-gap reason (only when the ratings differ by more than 10) comes first and names the stronger side; home advantage comes next, so it is never cut; the home-injury reason follows it; the away-injury reason is last and is cut exactly when all four reasons are present |
| `Engine.PickIndex` | predictor.py:351 | a unit draw selects a valid index of the candidate list |
| `Engine.Choice` | predictor.py:355 | the chosen scoreline is one of the candidates |
| `Engine.PredictScore` | predictor.py:344-367 | the scoreline has the winner the outcome names (home goals > away goals for a home win, the reverse for an away win, level for a draw); a draw is 1-1 or 2-2 and never 0-0; it is always 1-1 when the ratings differ by 10 or more; no side scores more than 4 |
| `Engine.AwayWinMirrorsHomeWin` | predictor.py:353-367 | an away-win scoreline is the mirror image of the home-win scoreline with the sides' strengths and injuries swapped, for the same draw |
| `Engine.ScoreText` | predictor.py:350-367 | a scoreline renders as three characters: home digit, '-', away digit |
| `Engine.Predict` | predictor.py:218-342 | the whole prediction: percentages non-negative, summing to 100, strictly largest for the predicted outcome; confidence within the bounds per label; scoreline agrees with the outcome; at most three reasons, always including home advantage |
| `Engine.FootballPredictor.constructor` | predictor.py:25-36 | a new predictor holds the initial strength and injury tables |
| `Engine.FootballPredictor.PredictMatch` | predictor.py:218-342 | accumulating the score with `+=` and appending reasons in place gives exactly the prediction `Predict` specifies |
| `Scenarios.DominantHomeSide` | predictor.py:277-355 | a side rated 96 (such as Real Madrid) with nobody out, at home to an unlisted side: always a home win, reasons [strength gap, home advantage], scoreline 3-0, 4-1 or 3-1; with level form, confidence 92 and percentages 92 / 4.8 / 3.2 |
| `Scenarios.NearNeighboursLevelForm` | predictor.py:277-332 | Liverpool (89) at home to Arsenal (90) with level form: a draw with confidence 46.2 and 26.9 for either win, only the home-advantage reason, 1-1 or 2-2 |
| `Scenarios.InjuriesOutweighHomeAdvantage` | predictor.py:289-315 | equal ratings of 80 with two home absentees (Manchester United against Roma): a home win is impossible whatever the form; reasons are home advantage and the home side's absentees |
| `Scenarios.InjuryGapOutcomeDependsOnForm` | predictor.py:289-315 | in that fixture, some form draws give an away win and others a draw |
| `Scenarios.DrawConfidenceReaches41` | predictor.py:306-315 | two unlisted sides with a form gap of 0.5 score exactly 12: a draw whose confidence is 41, below the documented 45 |

## Left out

- `get_upcoming_matches` is left out. It makes an HTTP request, reads the wall clock and prints.
- `_get_mock_matches` is left out. It is static fixture data stamped with the current time and has no logic.
- `test_predictor` is left out. It only prints to the console.
- api.py is not part of this model. It holds Flask routing, JSON shaping and the missing-field and error-to-HTTP-status handling around the engine.
- The constructor's `api_key`, `base_url` and `headers` fields are left out. Only the match fetching uses them.
- The `random` module itself is not modelled. Form values and choices are parameters, restricted by preconditions to what the draws can return.
- The `round(..., 1)` applied to the returned numbers is left out, and so is IEEE floating point. Properties hold of the exact real values.
- The text of the reasons (the f-strings and the `', '.join` of player names) is left out. Each reason is a structured value that carries the names and numbers the text would show.
- The outcome is a three-valued datatype, not a string. `_predict_score`'s final `else` branch catches any label other than "Draw" or "Home Win". It is modelled as the away-win branch, because only the three engine labels ever reach it.
- Scenarios.DominantHomeSide: stated for any tables that give the two sides these ratings and absentees. That Real Madrid is rated 96 is read off `StrengthTable`; it is not proved as a separate lemma. The same goes for the other scenario lemmas and the clubs they name. Looking up literal names in the 87-entry table costs too much proof effort.
- Scenarios.NearNeighboursLevelForm: stated for any tables that rate the two sides 89 and 90, as above.
- Scenarios.InjuriesOutweighHomeAdvantage: stated for any tables that give the sides these ratings and absentees, as above.
- Scenarios.InjuryGapOutcomeDependsOnForm: stated for any tables that give the sides these ratings and absentees, as above.
- Scenarios.DrawConfidenceReaches41: stated for any tables in which both sides are unlisted, as above.
