/** The two static tables the prediction engine reads: team strength ratings
    (looked up per call) and the key players each team is missing. */
module Teams {

  /** Rating assumed for any team the strength table does not name. */
  const DefaultStrength: int := 70

  /** True when every rating in `table` lies in [lo, hi]. */
  ghost predicate RatingsWithin(table: map<string, int>, lo: int, hi: int)
  {
    forall team :: team in table ==> lo <= table[team] <= hi
  }

  function PremierLeague(): (m: map<string, int>)
    ensures RatingsWithin(m, 69, 96)
  {
    map["Manchester City" := 95, "Arsenal" := 90, "Liverpool" := 89,
        "Aston Villa" := 82, "Tottenham" := 81, "Manchester United" := 80,
        "Chelsea" := 79, "Newcastle United" := 78, "Brighton" := 75,
        "West Ham" := 74, "Everton" := 70, "Fulham" := 69]
  }

  function LaLiga(): (m: map<string, int>)
    ensures RatingsWithin(m, 69, 96)
  {
    map["Real Madrid" := 96, "Barcelona" := 91, "Atletico Madrid" := 87,
        "Real Sociedad" := 79, "Athletic Bilbao" := 77, "Real Betis" := 76,
        "Villarreal" := 75, "Valencia" := 73, "Sevilla" := 72, "Girona" := 74]
  }

  function SerieA(): (m: map<string, int>)
    ensures RatingsWithin(m, 69, 96)
  {
    map["Inter Milan" := 92, "AC Milan" := 85, "Juventus" := 84,
        "Napoli" := 83, "Roma" := 80, "Lazio" := 79, "Atalanta" := 82,
        "Fiorentina" := 76, "Bologna" := 74]
  }

  function Bundesliga(): (m: map<string, int>)
    ensures RatingsWithin(m, 69, 96)
  {
    map["Bayern Munich" := 94, "Bayer Leverkusen" := 88, "RB Leipzig" := 84,
        "Borussia Dortmund" := 86, "Union Berlin" := 76, "Eintracht Frankfurt" := 75,
        "VfB Stuttgart" := 77, "Wolfsburg" := 73, "Freiburg" := 74]
  }

  function Ligue1(): (m: map<string, int>)
    ensures RatingsWithin(m, 69, 96)
  {
    map["Paris Saint-Germain" := 93, "Monaco" := 80, "Marseille" := 79,
        "Lyon" := 77, "Lille" := 78, "Nice" := 76]
  }

  function OtherChampionsLeague(): (m: map<string, int>)
    ensures RatingsWithin(m, 69, 96)
  {
    map["Porto" := 81, "Benfica" := 80, "Sporting CP" := 79,
        "Ajax" := 78, "PSV" := 80, "Celtic" := 74,
        "Red Bull Salzburg" := 76, "Shakhtar Donetsk" := 75]
  }

  function NationalTeams(): (m: map<string, int>)
    ensures RatingsWithin(m, 69, 96)
  {
    map["Brazil" := 94, "Argentina" := 93, "France" := 92,
        "England" := 90, "Spain" := 89, "Germany" := 88,
        "Portugal" := 87, "Belgium" := 86, "Netherlands" := 87,
        "Italy" := 85, "Uruguay" := 82, "Colombia" := 81,
        "Mexico" := 78, "USA" := 80, "Canada" := 76,
        "Japan" := 77, "South Korea" := 77, "Morocco" := 79,
        "Croatia" := 83, "Denmark" := 80, "Switzerland" := 79,
        "Poland" := 78, "Senegal" := 78, "Nigeria" := 76,
        "Egypt" := 76, "Ghana" := 75, "Cameroon" := 75,
        "Iran" := 74, "Saudi Arabia" := 73, "Australia" := 75,
        "Ecuador" := 77, "Peru" := 75, "Chile" := 76]
  }

  /** Team name to strength rating: the competitions' tables in the order
      they are listed (no name appears in two of them). Keys are exact,
      case-sensitive names; ratings run from 69 to 96. */
  function StrengthTable(): (m: map<string, int>)
    ensures RatingsWithin(m, 69, 96)
  {
    var clubs := PremierLeague() + LaLiga() + SerieA() + Bundesliga() + Ligue1() + OtherChampionsLeague();
    WithinUnion(PremierLeague(), LaLiga(), 69, 96);
    WithinUnion(PremierLeague() + LaLiga(), SerieA(), 69, 96);
    WithinUnion(PremierLeague() + LaLiga() + SerieA(), Bundesliga(), 69, 96);
    WithinUnion(PremierLeague() + LaLiga() + SerieA() + Bundesliga(), Ligue1(), 69, 96);
    WithinUnion(PremierLeague() + LaLiga() + SerieA() + Bundesliga() + Ligue1(), OtherChampionsLeague(), 69, 96);
    WithinUnion(clubs, NationalTeams(), 69, 96);
    clubs + NationalTeams()
  }

  /** Tables whose ratings lie in a band merge into a table that does too. */
  lemma WithinUnion(a: map<string, int>, b: map<string, int>, lo: int, hi: int)
    requires RatingsWithin(a, lo, hi) && RatingsWithin(b, lo, hi)
    ensures RatingsWithin(a + b, lo, hi)
  {
  }

  /** Strength of a team in `table`: its rating there, or the default for
      an unknown name (an exact-key lookup). When every rating of the table
      lies in a band that holds the default, so does the result. */
  function Strength(table: map<string, int>, team: string): (r: int)
    ensures team in table ==> r == table[team]
    ensures team !in table ==> r == DefaultStrength
    ensures forall lo, hi :: RatingsWithin(table, lo, hi) && lo <= DefaultStrength <= hi ==> lo <= r <= hi
  {
    if team in table then table[team] else DefaultStrength
  }

  /** The injury table a new predictor starts with: team name to the key
      players it is missing, in the order they are listed. */
  function InjuryTable(): map<string, seq<string>>
  {
    map[
      "Manchester United" := ["Casemiro", "Lisandro Martinez"],
      "Liverpool" := [],
      "Manchester City" := ["Kevin De Bruyne"],
      "Arsenal" := [],
      "Real Madrid" := [],
      "Barcelona" := ["Pedri"],
      "Inter Milan" := [],
      "Juventus" := ["Paul Pogba"],
      "Bayern Munich" := [],
      "Borussia Dortmund" := ["Marco Reus"]
    ]
  }

  /** The players a team is missing according to `injuries`, or none when the
      team is not listed. */
  function Injured(injuries: map<string, seq<string>>, team: string): (r: seq<string>)
    ensures team !in injuries ==> r == []
    ensures team in injuries ==> r == injuries[team]
  {
    if team in injuries then injuries[team] else []
  }

  /** Against the initial injury table, no team misses more than two players. */
  lemma InitialInjuriesAtMostTwo(team: string)
    ensures |Injured(InjuryTable(), team)| <= 2
    ensures |Injured(InjuryTable(), team)| == 2 <==> team == "Manchester United"
  {
  }
}
