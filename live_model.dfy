/**
 * The difficulty model of the live fixture table: a mutable league mean set
 * from the sum of each team's two ratings, per-fixture values squashed around
 * it from summed ratings, the complement-product rule for attack and a plain
 * product rule for defence, and three classes above 0.
 */
module LiveModel {
  import opened Domain
  import opened CanonicalDifficulty

  /** A team as the teams endpoint returns it; a rating may be null. */
  datatype TeamData = TeamData(team_id: string, name: string, short_name: string, off_rating: Option<real>, def_rating: Option<real>)

  /** One fixture seen from a team, as the fixtures endpoint lists it under that team's id. */
  datatype LiveFixture = LiveFixture(opponent_id: string, gameweek: int, home: bool)

  datatype AttackStats = AttackStats(gw_attack: real, difficulty: Difficulty)

  datatype DefenseStats = DefenseStats(gw_defense: real, difficulty: Difficulty)

  /** A null rating takes part in arithmetic as 0. */
  function Num(r: Option<real>): real
  {
    match r
    case Some(v) => v
    case None => 0.0
  }

  /** The score a team contributes to the league mean: offense plus defense. */
  function RatingSum(t: TeamData): real
  {
    Num(t.off_rating) + Num(t.def_rating)
  }

  function RatingSumTotal(teams: seq<TeamData>): real
  {
    if teams == [] then 0.0 else RatingSumTotal(teams[..|teams| - 1]) + RatingSum(teams[|teams| - 1])
  }

  lemma {:induction false} RatingSumTotalBetween(teams: seq<TeamData>, lo: real, hi: real)
    requires forall t :: t in teams ==> lo <= RatingSum(t) <= hi
    ensures |teams| as real * lo <= RatingSumTotal(teams) <= |teams| as real * hi
  {
    if teams != [] {
      var init := teams[..|teams| - 1];
      assert |init| as real * lo <= RatingSumTotal(init) <= |init| as real * hi by {
        assert forall t :: t in init ==> t in teams;
        RatingSumTotalBetween(init, lo, hi);
      }
      assert teams[|teams| - 1] in teams;
      CountScale(|init|, lo);
      CountScale(|init|, hi);
    }
  }

  /** The teams' fixtures of one gameweek, in order; an unknown team has none. */
  function FixtureForTeamInWeek(src: map<string, seq<LiveFixture>>, teamId: string, gameweek: int): (r: seq<LiveFixture>)
    ensures teamId !in src ==> r == []
    ensures forall f :: f in r <==> teamId in src && f in src[teamId] && f.gameweek == gameweek
  {
    if teamId in src then InWeek(src[teamId], gameweek) else []
  }

  function InWeek(fixtures: seq<LiveFixture>, gameweek: int): (r: seq<LiveFixture>)
    ensures forall f :: f in r <==> f in fixtures && f.gameweek == gameweek
  {
    if fixtures == [] then []
    else
      assert fixtures == [fixtures[0]] + fixtures[1..];
      (if fixtures[0].gameweek == gameweek then [fixtures[0]] else []) + InWeek(fixtures[1..], gameweek)
  }

  /** The attack rule, `1 - Π(1 - p_i)` and 0 for no fixtures: the canonical combination exactly. */
  function CombineWeightedOffense(scores: seq<real>): (r: real)
    ensures r == CombineWeighted(scores)
  {
    if |scores| == 0 then 0.0 else 1.0 - ComplementProduct(scores)
  }

  /** The running product of the values, folded from the left. */
  function Product(ps: seq<real>): real
  {
    if ps == [] then 1.0 else Product(ps[..|ps| - 1]) * ps[|ps| - 1]
  }

  function Complements(ps: seq<real>): (qs: seq<real>)
    ensures |qs| == |ps| && forall i :: 0 <= i < |ps| ==> qs[i] == 1.0 - ps[i]
    ensures Probabilities(ps) ==> Probabilities(qs)
  {
    seq(|ps|, i requires 0 <= i < |ps| => 1.0 - ps[i])
  }

  /** The plain product is the complement product of the complemented values. */
  lemma {:induction false} ProductOfComplements(ps: seq<real>)
    ensures Product(ps) == ComplementProduct(Complements(ps))
  {
    if ps != [] {
      var n := |ps| - 1;
      ProductOfComplements(ps[..n]);
      assert Complements(ps)[..n] == Complements(ps[..n]);
    }
  }

  /**
   * The defence rule, `1 - Π p_i` and 0 for no fixtures: the canonical
   * combination of the complements, so a single fixture scores `1 - p`, and
   * the result lies in (0, 1) and is at least each `1 - p_i`.
   */
  function CombineWeightedDefense(scores: seq<real>): (r: real)
    ensures r == CombineWeighted(Complements(scores))
    ensures |scores| == 1 ==> r == 1.0 - scores[0]
    ensures Probabilities(scores) && scores != [] ==> 0.0 < r < 1.0
    ensures Probabilities(scores) ==> forall i :: 0 <= i < |scores| ==> 1.0 - scores[i] <= r
  {
    if |scores| == 0 then 0.0
    else
      ProductOfComplements(scores);
      assert |scores| == 1 ==> Product(scores) == Product([]) * scores[0];
      1.0 - Product(scores)
  }

  /** `easy` above 0.66, `medium` above 0.33, `hard` otherwise: never `invalid`, and the canonical class away from 0. */
  function LiveClass(v: real): (d: Difficulty)
    ensures d != Invalid
    ensures d == Easy <==> v > 0.66
    ensures d == Medium <==> 0.33 < v <= 0.66
    ensures d == Hard <==> v <= 0.33
    ensures v != 0.0 ==> d == Rating(v)
  {
    if v > 0.66 then Easy else if v > 0.33 then Medium else Hard
  }

  /** Every fixture's opponent is in the team map (the source fails on an unknown opponent). */
  ghost predicate OpponentsKnown(fixtures: seq<LiveFixture>, teamById: map<string, TeamData>)
  {
    forall f :: f in fixtures ==> f.opponent_id in teamById
  }

  /** Holds the module-level `LEAGUE_MEAN` that the squash reads. */
  class DifficultyModel {
    var leagueMean: real

    constructor ()
      ensures leagueMean == 0.0
    {
      leagueMean := 0.0;
    }

    /** No teams leave the mean as it was; otherwise it becomes the mean of offense + defense. */
    method InitDifficultyModel(allTeams: seq<TeamData>)
      modifies this
      ensures allTeams == [] ==> leagueMean == old(leagueMean)
      ensures allTeams != [] ==> leagueMean * |allTeams| as real == RatingSumTotal(allTeams)
    {
      if |allTeams| == 0 {
        return;
      }
      var sum := RatingSumTotal(allTeams);
      var mean := sum / |allTeams| as real;
      leagueMean := mean;
    }

    /** The squashed value of each fixture: the team's offense plus the opponent's defense. */
    function AttackScores(sigma: Sigmoid, offenseA: Option<real>, fixtures: seq<LiveFixture>, teamById: map<string, TeamData>): (ps: seq<real>)
      requires OpponentsKnown(fixtures, teamById)
      reads this
      ensures |ps| == |fixtures| && Probabilities(ps)
    {
      seq(|fixtures|, i requires 0 <= i < |fixtures| reads this =>
        assert fixtures[i] in fixtures;
        Squash(sigma, Num(offenseA) + Num(teamById[fixtures[i].opponent_id].def_rating), leagueMean))
    }

    /** The squashed value of each fixture: the team's defense plus the opponent's offense. */
    function DefenseScores(sigma: Sigmoid, defenseA: Option<real>, fixtures: seq<LiveFixture>, teamById: map<string, TeamData>): (ps: seq<real>)
      requires OpponentsKnown(fixtures, teamById)
      reads this
      ensures |ps| == |fixtures| && Probabilities(ps)
    {
      seq(|fixtures|, i requires 0 <= i < |fixtures| reads this =>
        assert fixtures[i] in fixtures;
        Squash(sigma, Num(defenseA) + Num(teamById[fixtures[i].opponent_id].off_rating), leagueMean))
    }

    /** No fixtures: 0 / invalid; otherwise a value in (0, 1) with a class that is never invalid. */
    function GetAttack(sigma: Sigmoid, offenseA: Option<real>, fixtures: seq<LiveFixture>, teamById: map<string, TeamData>): (r: AttackStats)
      requires OpponentsKnown(fixtures, teamById)
      reads this
      ensures fixtures == [] ==> r == AttackStats(0.0, Invalid)
      ensures fixtures != [] ==>
        && r.gw_attack == CombineWeighted(AttackScores(sigma, offenseA, fixtures, teamById))
        && 0.0 < r.gw_attack < 1.0 && r.difficulty == LiveClass(r.gw_attack)
    {
      if |fixtures| == 0 then AttackStats(0.0, Invalid)
      else
        var gw_attack := CombineWeightedOffense(AttackScores(sigma, offenseA, fixtures, teamById));
        AttackStats(gw_attack, LiveClass(gw_attack))
    }

    function GetDefense(sigma: Sigmoid, defenseA: Option<real>, fixtures: seq<LiveFixture>, teamById: map<string, TeamData>): (r: DefenseStats)
      requires OpponentsKnown(fixtures, teamById)
      reads this
      ensures fixtures == [] ==> r == DefenseStats(0.0, Invalid)
      ensures fixtures != [] ==>
        && r.gw_defense == CombineWeighted(Complements(DefenseScores(sigma, defenseA, fixtures, teamById)))
        && 0.0 < r.gw_defense < 1.0 && r.difficulty == LiveClass(r.gw_defense)
    {
      if |fixtures| == 0 then DefenseStats(0.0, Invalid)
      else
        var gw_defense := CombineWeightedDefense(DefenseScores(sigma, defenseA, fixtures, teamById));
        DefenseStats(gw_defense, LiveClass(gw_defense))
    }

    /** A higher own offense never lowers the attack value. */
    lemma AttackMonotoneInOffense(sigma: Sigmoid, a1: real, a2: real, fixtures: seq<LiveFixture>, teamById: map<string, TeamData>)
      requires a1 <= a2 && OpponentsKnown(fixtures, teamById)
      ensures GetAttack(sigma, Some(a1), fixtures, teamById).gw_attack <= GetAttack(sigma, Some(a2), fixtures, teamById).gw_attack
    {
      var ps := AttackScores(sigma, Some(a1), fixtures, teamById);
      var qs := AttackScores(sigma, Some(a2), fixtures, teamById);
      forall i | 0 <= i < |ps| ensures ps[i] <= qs[i] {
        assert fixtures[i] in fixtures;
        var opp := Num(teamById[fixtures[i].opponent_id].def_rating);
        SquashMonotone(sigma, a1 + opp, a2 + opp, leagueMean);
      }
      CombineWeightedMonotone(ps, qs);
    }

    /**
     * Under the product rule a higher own defense never raises the defense
     * value: the opposite direction to the canonical engine's defense score.
     */
    lemma DefenseAntitoneInDefense(sigma: Sigmoid, d1: real, d2: real, fixtures: seq<LiveFixture>, teamById: map<string, TeamData>)
      requires d1 <= d2 && OpponentsKnown(fixtures, teamById)
      ensures GetDefense(sigma, Some(d2), fixtures, teamById).gw_defense <= GetDefense(sigma, Some(d1), fixtures, teamById).gw_defense
    {
      var ps := Complements(DefenseScores(sigma, Some(d2), fixtures, teamById));
      var qs := Complements(DefenseScores(sigma, Some(d1), fixtures, teamById));
      forall i | 0 <= i < |ps| ensures ps[i] <= qs[i] {
        assert fixtures[i] in fixtures;
        var opp := Num(teamById[fixtures[i].opponent_id].off_rating);
        SquashMonotone(sigma, d1 + opp, d2 + opp, leagueMean);
      }
      CombineWeightedMonotone(ps, qs);
    }
  }

  /** After initialisation with teams, the mean lies within the range of their rating sums. */
  method InitialisedMeanBetween(allTeams: seq<TeamData>, lo: real, hi: real) returns (mean: real)
    requires allTeams != []
    requires forall t :: t in allTeams ==> lo <= RatingSum(t) <= hi
    ensures lo <= mean <= hi
  {
    var model := new DifficultyModel();
    model.InitDifficultyModel(allTeams);
    mean := model.leagueMean;
    RatingSumTotalBetween(allTeams, lo, hi);
    var n := |allTeams| as real;
    assert mean == RatingSumTotal(allTeams) / n;
    QuotientBetween(RatingSumTotal(allTeams), n, lo, hi);
  }
}
