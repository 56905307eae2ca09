/**
 * The precomputed score table of the FDR table: for every team and every
 * gameweek that has fixtures, the attack and defense difficulty, and for every
 * such gameweek the teams ranked best attack first and easiest defense first.
 */
module DifficultyScores {
  import opened Domain
  import opened CanonicalDifficulty
  import opened Ranking
  import Lookup

  datatype GameweekScore = GameweekScore(attack: DifficultyScore, defense: DifficultyScore)

  datatype GameweekOrder = GameweekOrder(sortedByAttack: seq<int>, sortedByDefense: seq<int>)

  datatype ScoreTable = ScoreTable(
    byTeam: map<int, map<int, GameweekScore>>,
    byGameweek: map<int, GameweekOrder>)

  /** Every fixture either involves two teams of the lookup or none (the engine throws otherwise). */
  ghost predicate AllResolvable(fixtures: seq<Fixture>, teamById: map<int, EnrichedTeam>)
  {
    forall f :: f in fixtures ==> (f.team_h in teamById <==> f.team_a in teamById)
  }

  lemma AllResolvableInAnyRange(fixtures: seq<Fixture>, teamById: map<int, EnrichedTeam>, lo: int, hi: int)
    requires AllResolvable(fixtures, teamById)
    ensures OpponentsResolvable(fixtures, teamById, lo, hi)
  {
  }

  function Events(fixtures: seq<Fixture>): set<int>
  {
    set f | f in fixtures :: f.event
  }

  /** The attack and defense difficulty of one team for one gameweek. */
  function TeamGameweekScore(sigma: Sigmoid, team: EnrichedTeam, gameweek: int, fixtures: seq<Fixture>,
                             teamById: map<int, EnrichedTeam>, leagueMean: real): (s: GameweekScore)
    requires team.id in teamById && AllResolvable(fixtures, teamById)
    ensures OpponentsForGameweek(team.id, gameweek, fixtures) == [] ==>
      s.attack == DifficultyScore(0.0, Invalid, []) && s.defense == DifficultyScore(0.0, Invalid, [])
    ensures OpponentsForGameweek(team.id, gameweek, fixtures) != [] ==>
      && s.attack.difficulty != Invalid && s.defense.difficulty != Invalid
      && s.attack.opponents == s.defense.opponents == OpponentsForGameweek(team.id, gameweek, fixtures)
  {
    AllResolvableInAnyRange(fixtures, teamById, gameweek, gameweek);
    GameweekOpponentsKnown(team.id, gameweek, fixtures, teamById);
    var opponents := OpponentsForGameweek(team.id, gameweek, fixtures);
    GameweekScore(
      AttackDifficulty(sigma, team.off_rating, opponents, teamById, leagueMean),
      DefenseDifficulty(sigma, team.def_rating, opponents, teamById, leagueMean))
  }

  /** `updated` holds the gameweek's score for the ids in `seen` (using the team stored there) and is `byTeam` elsewhere. */
  ghost predicate WrittenFor(updated: map<int, map<int, GameweekScore>>, byTeam: map<int, map<int, GameweekScore>>,
                             seen: map<int, EnrichedTeam>, sigma: Sigmoid, gameweek: int, fixtures: seq<Fixture>,
                             teamById: map<int, EnrichedTeam>, leagueMean: real)
    requires AllResolvable(fixtures, teamById)
    requires forall id :: id in seen ==> id in teamById && seen[id].id == id
  {
    && updated.Keys == byTeam.Keys
    && (forall id :: id in seen ==> id in byTeam)
    && (forall id :: id in updated && id !in seen ==> updated[id] == byTeam[id])
    && (forall id :: id in seen ==>
          updated[id] == byTeam[id][gameweek := TeamGameweekScore(sigma, seen[id], gameweek, fixtures, teamById, leagueMean)])
  }

  /**
   * Writes one gameweek's scores for every team into the table, visiting the
   * teams in input order; a later team with a repeated id overwrites the
   * earlier one, so each id ends with the score of the team the lookup keeps.
   */
  method ScoreGameweek(sigma: Sigmoid, teams: seq<EnrichedTeam>, gameweek: int, fixtures: seq<Fixture>,
                       teamById: map<int, EnrichedTeam>, leagueMean: real,
                       byTeam: map<int, map<int, GameweekScore>>)
    returns (updated: map<int, map<int, GameweekScore>>)
    requires teamById == TeamLookup(teams) && byTeam.Keys == teamById.Keys
    requires AllResolvable(fixtures, teamById)
    ensures updated.Keys == byTeam.Keys
    ensures forall id :: id in updated ==>
      updated[id] == byTeam[id][gameweek := TeamGameweekScore(sigma, teamById[id], gameweek, fixtures, teamById, leagueMean)]
  {
    updated := byTeam;
    ghost var seen: map<int, EnrichedTeam> := map[];
    var j := 0;
    while j < |teams|
      invariant 0 <= j <= |teams|
      invariant seen == TeamLookup(teams[..j])
      invariant forall id :: id in seen ==> id in teamById && seen[id].id == id
      invariant WrittenFor(updated, byTeam, seen, sigma, gameweek, fixtures, teamById, leagueMean)
    {
      var team := teams[j];
      assert team.id in teamById;
      TeamLookupSnoc(teams, j);
      var score := TeamGameweekScore(sigma, team, gameweek, fixtures, teamById, leagueMean);
      WrittenStep(updated, byTeam, seen, sigma, gameweek, fixtures, teamById, leagueMean, team);
      updated := updated[team.id := updated[team.id][gameweek := score]];
      seen := seen[team.id := team];
      j := j + 1;
    }
    assert teams[..j] == teams;
  }

  lemma WrittenStep(updated: map<int, map<int, GameweekScore>>, byTeam: map<int, map<int, GameweekScore>>,
                    seen: map<int, EnrichedTeam>, sigma: Sigmoid, gameweek: int, fixtures: seq<Fixture>,
                    teamById: map<int, EnrichedTeam>, leagueMean: real, team: EnrichedTeam)
    requires AllResolvable(fixtures, teamById)
    requires forall id :: id in seen ==> id in teamById && seen[id].id == id
    requires WrittenFor(updated, byTeam, seen, sigma, gameweek, fixtures, teamById, leagueMean)
    requires team.id in teamById && team.id in byTeam
    ensures forall id :: id in seen[team.id := team] ==> id in teamById && seen[team.id := team][id].id == id
    ensures WrittenFor(updated[team.id := updated[team.id][gameweek := TeamGameweekScore(sigma, team, gameweek, fixtures, teamById, leagueMean)]],
                       byTeam, seen[team.id := team], sigma, gameweek, fixtures, teamById, leagueMean)
  {
    var score := TeamGameweekScore(sigma, team, gameweek, fixtures, teamById, leagueMean);
    assert updated[team.id][gameweek := score] == byTeam[team.id][gameweek := score];
  }

  /** `byTeam` after the gameweeks in `done`: one entry per team, holding exactly those gameweeks. */
  ghost predicate TeamTable(byTeam: map<int, map<int, GameweekScore>>, done: set<int>, sigma: Sigmoid,
                            fixtures: seq<Fixture>, teamById: map<int, EnrichedTeam>, leagueMean: real)
    requires AllResolvable(fixtures, teamById)
  {
    && byTeam.Keys == teamById.Keys
    && (forall id :: id in byTeam ==> byTeam[id].Keys == done)
    && (forall id, g :: id in byTeam && g in byTeam[id] ==>
          teamById[id].id == id &&
          byTeam[id][g] == TeamGameweekScore(sigma, teamById[id], g, fixtures, teamById, leagueMean))
  }

  /** `byGameweek` after the gameweeks in `done`: the two rankings of each. */
  ghost predicate OrderTable(byGameweek: map<int, GameweekOrder>, done: set<int>, sigma: Sigmoid,
                             fixtures: seq<Fixture>, teamById: map<int, EnrichedTeam>, leagueMean: real)
    requires AllResolvable(fixtures, teamById)
  {
    && byGameweek.Keys == done
    && (forall g :: g in byGameweek ==>
          && OpponentsResolvable(fixtures, teamById, g, g)
          && IsRanking(byGameweek[g].sortedByAttack, GameweekScores(sigma, Offense, fixtures, g, teamById, leagueMean), Desc)
          && IsRanking(byGameweek[g].sortedByDefense, GameweekScores(sigma, Defense, fixtures, g, teamById, leagueMean), Asc))
  }

  /** An empty row for every team id. */
  method EmptyRows(teams: seq<EnrichedTeam>) returns (byTeam: map<int, map<int, GameweekScore>>)
    ensures byTeam.Keys == TeamLookup(teams).Keys
    ensures forall id :: id in byTeam ==> byTeam[id] == map[]
  {
    byTeam := map[];
    var j := 0;
    while j < |teams|
      invariant 0 <= j <= |teams|
      invariant byTeam.Keys == TeamLookup(teams[..j]).Keys
      invariant forall id :: id in byTeam ==> byTeam[id] == map[]
    {
      TeamLookupSnoc(teams, j);
      byTeam := byTeam[teams[j].id := map[]];
      j := j + 1;
    }
    assert teams[..j] == teams;
  }

  lemma EventListIsEvents(fs: seq<Fixture>, gameweeks: seq<int>)
    requires forall v :: v in gameweeks <==> v in seq(|fs|, i requires 0 <= i < |fs| => fs[i].event)
    ensures (set g | g in gameweeks) == Events(fs)
  {
    var events := seq(|fs|, i requires 0 <= i < |fs| => fs[i].event);
    forall g ensures g in gameweeks <==> g in Events(fs) {
      if g in Events(fs) {
        var f :| f in fs && f.event == g;
        var i :| 0 <= i < |fs| && fs[i] == f;
        assert events[i] == g;
      }
    }
  }

  /** The gameweeks of a list, as a set. */
  ghost function Elements(gs: seq<int>): set<int>
  {
    set g | g in gs
  }

  /** The gameweeks processed so far gain exactly the next one. */
  lemma PrefixEventsGrow(gameweeks: seq<int>, k: int)
    requires 0 <= k < |gameweeks|
    ensures Elements(gameweeks[..k + 1]) == Elements(gameweeks[..k]) + {gameweeks[k]}
  {
    assert gameweeks[..k + 1] == gameweeks[..k] + [gameweeks[k]];
  }

  /** Adds one gameweek: its scores for every team and its two rankings. */
  method AddGameweek(sigma: Sigmoid, teams: seq<EnrichedTeam>, gameweek: int, fixtures: seq<Fixture>,
                     teamById: map<int, EnrichedTeam>, leagueMean: real, ghost done: set<int>,
                     byTeam: map<int, map<int, GameweekScore>>, byGameweek: map<int, GameweekOrder>)
    returns (byTeam': map<int, map<int, GameweekScore>>, byGameweek': map<int, GameweekOrder>)
    requires teamById == TeamLookup(teams) && AllResolvable(fixtures, teamById)
    requires TeamTable(byTeam, done, sigma, fixtures, teamById, leagueMean)
    requires OrderTable(byGameweek, done, sigma, fixtures, teamById, leagueMean)
    ensures TeamTable(byTeam', done + {gameweek}, sigma, fixtures, teamById, leagueMean)
    ensures OrderTable(byGameweek', done + {gameweek}, sigma, fixtures, teamById, leagueMean)
  {
    byTeam' := ScoreGameweek(sigma, teams, gameweek, fixtures, teamById, leagueMean, byTeam);
    TeamTableStep(byTeam, byTeam', done, sigma, gameweek, fixtures, teamById, leagueMean);
    AllResolvableInAnyRange(fixtures, teamById, gameweek, gameweek);
    var sortedByAttack := SortByGameweek(sigma, fixtures, gameweek, Desc, Offense, teamById, leagueMean);
    var sortedByDefense := SortByGameweek(sigma, fixtures, gameweek, Asc, Defense, teamById, leagueMean);
    OrderTableStep(byGameweek, done, sigma, gameweek, fixtures, teamById, leagueMean, GameweekOrder(sortedByAttack, sortedByDefense));
    byGameweek' := byGameweek[gameweek := GameweekOrder(sortedByAttack, sortedByDefense)];
  }

  lemma OrderTableStep(byGameweek: map<int, GameweekOrder>, done: set<int>, sigma: Sigmoid, gameweek: int,
                       fixtures: seq<Fixture>, teamById: map<int, EnrichedTeam>, leagueMean: real, order: GameweekOrder)
    requires AllResolvable(fixtures, teamById)
    requires OrderTable(byGameweek, done, sigma, fixtures, teamById, leagueMean)
    requires OpponentsResolvable(fixtures, teamById, gameweek, gameweek)
    requires IsRanking(order.sortedByAttack, GameweekScores(sigma, Offense, fixtures, gameweek, teamById, leagueMean), Desc)
    requires IsRanking(order.sortedByDefense, GameweekScores(sigma, Defense, fixtures, gameweek, teamById, leagueMean), Asc)
    ensures OrderTable(byGameweek[gameweek := order], done + {gameweek}, sigma, fixtures, teamById, leagueMean)
  {
  }

  lemma TeamTableStep(byTeam: map<int, map<int, GameweekScore>>, byTeam': map<int, map<int, GameweekScore>>,
                      done: set<int>, sigma: Sigmoid, gameweek: int, fixtures: seq<Fixture>,
                      teamById: map<int, EnrichedTeam>, leagueMean: real)
    requires AllResolvable(fixtures, teamById)
    requires TeamTable(byTeam, done, sigma, fixtures, teamById, leagueMean)
    requires forall id :: id in teamById ==> teamById[id].id == id
    requires byTeam'.Keys == byTeam.Keys
    requires forall id :: id in byTeam' ==>
      byTeam'[id] == byTeam[id][gameweek := TeamGameweekScore(sigma, teamById[id], gameweek, fixtures, teamById, leagueMean)]
    ensures TeamTable(byTeam', done + {gameweek}, sigma, fixtures, teamById, leagueMean)
  {
  }

  /**
   * None when either input is absent or empty. Otherwise every team id has
   * a row holding exactly the gameweeks that have fixtures, each entry the
   * team's attack and defense difficulty, and every such gameweek has its
   * attack ranking (descending) and defense ranking (ascending).
   */
  method ComputeDifficultyScores(sigma: Sigmoid, teams: Option<seq<EnrichedTeam>>, fixtures: Option<seq<Fixture>>)
    returns (r: Option<ScoreTable>)
    requires teams.Some? && fixtures.Some? ==> AllResolvable(fixtures.value, TeamLookup(teams.value))
    ensures r.None? <==> teams.None? || fixtures.None? || teams.value == [] || fixtures.value == []
    ensures r.Some? ==>
      && TeamTable(r.value.byTeam, Events(fixtures.value), sigma, fixtures.value, TeamLookup(teams.value), LeagueMean(teams.value))
      && OrderTable(r.value.byGameweek, Events(fixtures.value), sigma, fixtures.value, TeamLookup(teams.value), LeagueMean(teams.value))
  {
    if teams.None? || fixtures.None? || |teams.value| == 0 || |fixtures.value| == 0 {
      return None;
    }
    var ts, fs := teams.value, fixtures.value;
    var teamById := CreateTeamLookup(ts);
    var leagueMean := LeagueMean(ts);
    var gameweeks := Lookup.DistinctAscending(seq(|fs|, i requires 0 <= i < |fs| => fs[i].event));
    var byTeam := EmptyRows(ts);
    var byGameweek: map<int, GameweekOrder> := map[];
    ghost var done: set<int> := {};
    var k := 0;
    while k < |gameweeks|
      invariant 0 <= k <= |gameweeks|
      invariant done == Elements(gameweeks[..k])
      invariant TeamTable(byTeam, done, sigma, fs, teamById, leagueMean)
      invariant OrderTable(byGameweek, done, sigma, fs, teamById, leagueMean)
    {
      byTeam, byGameweek := AddGameweek(sigma, ts, gameweeks[k], fs, teamById, leagueMean, done, byTeam, byGameweek);
      PrefixEventsGrow(gameweeks, k);
      done := done + {gameweeks[k]};
      k := k + 1;
    }
    assert gameweeks[..k] == gameweeks;
    EventListIsEvents(fs, gameweeks);
    r := Some(ScoreTable(byTeam, byGameweek));
  }

  /** A team without a fixture in a processed gameweek scores 0 / invalid from both perspectives. */
  lemma BlankGameweekEntry(table: ScoreTable, sigma: Sigmoid, fixtures: seq<Fixture>, teams: seq<EnrichedTeam>,
                           id: int, g: int)
    requires AllResolvable(fixtures, TeamLookup(teams))
    requires TeamTable(table.byTeam, Events(fixtures), sigma, fixtures, TeamLookup(teams), LeagueMean(teams))
    requires id in table.byTeam && g in Events(fixtures)
    requires OpponentsForGameweek(id, g, fixtures) == []
    ensures g in table.byTeam[id]
    ensures table.byTeam[id][g].attack == DifficultyScore(0.0, Invalid, [])
    ensures table.byTeam[id][g].defense == DifficultyScore(0.0, Invalid, [])
  {
  }
}
