/**
 * The rank-based difficulty of the older fixture grid: a team's strength
 * from its league rank, the offensive and defensive difficulty of one
 * fixture, the combination of a gameweek's fixtures (the easiest divided by
 * their number, 1 for a blank week) and the three-way level with `invalid`
 * reserved for exactly 1.
 */
module LegacyDifficulty {
  import opened Domain

  const TotalTeams: int := 20

  /** A team with its offensive and defensive league ranks (1 is the best). */
  datatype Team = Team(code: int, id: int, name: string, short_name: string, off_rank: real, def_rank: real)

  datatype DifficultyMode = OffenseMode | DefenseMode

  /** Ranks within the league table, 1..20, as the rankings schema bounds them. */
  predicate RanksInLeague(t: Team)
  {
    1.0 <= t.off_rank <= 20.0 && 1.0 <= t.def_rank <= 20.0
  }

  /** `(N - rank + 1) / N`: the top rank has strength 1, the bottom rank 1/20. */
  function TeamStrength(rank: real): (s: real)
    ensures rank == 1.0 ==> s == 1.0
    ensures rank == 20.0 ==> s == 0.05
    ensures 1.0 <= rank <= 20.0 ==> 0.05 <= s <= 1.0
  {
    (TotalTeams as real - rank + 1.0) / TotalTeams as real
  }

  lemma StrengthDecreasing(better: real, worse: real)
    requires better < worse
    ensures TeamStrength(better) > TeamStrength(worse)
  {
  }

  /** Half of (opponent's defensive strength - team's offensive strength + 1). */
  function OffensiveDifficulty(team: Team, opponent: Team): (d: real)
    ensures RanksInLeague(team) && RanksInLeague(opponent) ==> 0.025 <= d <= 0.975
  {
    var teamOffStrength := TeamStrength(team.off_rank);
    var opponentDefStrength := TeamStrength(opponent.def_rank);
    (opponentDefStrength - teamOffStrength + 1.0) / 2.0
  }

  /** Half of (opponent's offensive strength - team's defensive strength + 1). */
  function DefensiveDifficulty(team: Team, opponent: Team): (d: real)
    ensures RanksInLeague(team) && RanksInLeague(opponent) ==> 0.025 <= d <= 0.975
  {
    var teamDefStrength := TeamStrength(team.def_rank);
    var opponentOffStrength := TeamStrength(opponent.off_rank);
    (opponentOffStrength - teamDefStrength + 1.0) / 2.0
  }

  /**
   * Offensive difficulty rises as the opponent's defence ranks higher (a
   * smaller rank) and falls as the team's own attack ranks higher.
   */
  lemma OffensiveDifficultyMonotone(team: Team, strongerAttack: Team, opponent: Team, strongerDefence: Team)
    requires strongerAttack.off_rank < team.off_rank
    requires strongerDefence.def_rank < opponent.def_rank
    ensures OffensiveDifficulty(team, strongerDefence) > OffensiveDifficulty(team, opponent)
    ensures OffensiveDifficulty(strongerAttack, opponent) < OffensiveDifficulty(team, opponent)
  {
    StrengthDecreasing(strongerDefence.def_rank, opponent.def_rank);
    StrengthDecreasing(strongerAttack.off_rank, team.off_rank);
  }

  /** The defensive counterpart: the opponent's attack raises it, the team's own defence lowers it. */
  lemma DefensiveDifficultyMonotone(team: Team, strongerDefence: Team, opponent: Team, strongerAttack: Team)
    requires strongerDefence.def_rank < team.def_rank
    requires strongerAttack.off_rank < opponent.off_rank
    ensures DefensiveDifficulty(team, strongerAttack) > DefensiveDifficulty(team, opponent)
    ensures DefensiveDifficulty(strongerDefence, opponent) < DefensiveDifficulty(team, opponent)
  {
    StrengthDecreasing(strongerAttack.off_rank, opponent.off_rank);
    StrengthDecreasing(strongerDefence.def_rank, team.def_rank);
  }

  function FixtureDifficulty(team: Team, opponent: Team, mode: DifficultyMode): (d: real)
    ensures mode == OffenseMode ==> d == OffensiveDifficulty(team, opponent)
    ensures mode == DefenseMode ==> d == DefensiveDifficulty(team, opponent)
    ensures RanksInLeague(team) && RanksInLeague(opponent) ==> 0.025 <= d <= 0.975
  {
    if mode == OffenseMode then OffensiveDifficulty(team, opponent) else DefensiveDifficulty(team, opponent)
  }

  /** The smallest value of a non-empty list (`Math.min(...ds)`). */
  function Easiest(ds: seq<real>): (m: real)
    requires ds != []
    ensures forall i :: 0 <= i < |ds| ==> m <= ds[i]
    ensures exists i :: 0 <= i < |ds| && ds[i] == m
  {
    if |ds| == 1 then ds[0]
    else
      var rest := Easiest(ds[1..]);
      assert forall i :: 1 <= i < |ds| ==> ds[i] == ds[1..][i - 1];
      if ds[0] <= rest then ds[0] else rest
  }

  /**
   * The combined difficulty of a gameweek: 1 for a blank week, the single
   * value for one fixture, and otherwise the easiest value divided by the
   * number of fixtures.
   */
  function MultiFixtureDifficulty(ds: seq<real>): (r: real)
    ensures ds == [] ==> r == 1.0
    ensures |ds| == 1 ==> r == ds[0]
    ensures |ds| >= 2 ==>
      && (forall i :: 0 <= i < |ds| ==> r * |ds| as real <= ds[i])
      && (exists i :: 0 <= i < |ds| && r * |ds| as real == ds[i])
  {
    if |ds| == 0 then 1.0
    else if |ds| == 1 then ds[0]
    else Easiest(ds) / |ds| as real
  }

  function DifficultyLevel(difficulty: real): (level: Difficulty)
    ensures level == Invalid <==> difficulty == 1.0
    ensures level == Hard <==> difficulty != 1.0 && difficulty >= 0.62
    ensures level == Easy <==> difficulty <= 0.38
    ensures level == Medium <==> 0.38 < difficulty < 0.62
  {
    if difficulty == 1.0 then Invalid
    else if difficulty >= 0.62 then Hard
    else if difficulty <= 0.38 then Easy
    else Medium
  }

  /** Every value lies in the range that fixtures between league teams produce. */
  ghost predicate LeagueRange(ds: seq<real>)
  {
    forall i :: 0 <= i < |ds| ==> 0.025 <= ds[i] <= 0.975
  }

  /**
   * For fixtures between league teams, the combined value stays in
   * (0, 0.975], so the level `invalid` comes from a blank week and from
   * nothing else.
   */
  lemma InvalidOnlyWhenBlank(ds: seq<real>)
    requires LeagueRange(ds)
    ensures ds != [] ==> 0.0 < MultiFixtureDifficulty(ds) <= 0.975
    ensures DifficultyLevel(MultiFixtureDifficulty(ds)) == Invalid <==> ds == []
  {
    if |ds| >= 2 {
      var e := Easiest(ds);
      var i :| 0 <= i < |ds| && ds[i] == e;
      assert 0.025 <= e <= 0.975;
      QuotientBelow(e, |ds| as real);
      assert MultiFixtureDifficulty(ds) == e / |ds| as real;
    }
  }

  /** Sharing a positive amount among at least one fixture leaves a positive share no larger than the whole. */
  lemma QuotientBelow(x: real, n: real)
    requires 0.0 < x && 1.0 <= n
    ensures 0.0 < x / n <= x
  {
    var q := x / n;
    assert q * n == x;
    assert x - q == q * (n - 1.0);
  }

  /**
   * A week with two or more fixtures between league teams is never `hard`:
   * dividing the easiest value by the count keeps it at or below 0.4875.
   */
  lemma DoubleWeekNeverHard(ds: seq<real>)
    requires LeagueRange(ds) && |ds| >= 2
    ensures MultiFixtureDifficulty(ds) <= 0.4875
    ensures DifficultyLevel(MultiFixtureDifficulty(ds)) != Hard
  {
    var n := |ds| as real;
    assert Easiest(ds) <= 0.975;
    assert Easiest(ds) / n <= Easiest(ds) / 2.0;
  }
}
