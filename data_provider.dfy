/**
 * The values the FDR data provider derives from the loaded setup and
 * fixtures: the first and last gameweek with fixtures, the team lookup and
 * the league mean, with their defaults while data is missing.
 */
module DataProvider {
  import opened Domain
  import opened CanonicalDifficulty

  /** The smallest event of a non-empty fixture list (`Math.min(...events)`). */
  function MinEvent(fixtures: seq<Fixture>): (m: int)
    requires fixtures != []
    ensures forall f :: f in fixtures ==> m <= f.event
    ensures exists f :: f in fixtures && f.event == m
  {
    if |fixtures| == 1 then fixtures[0].event
    else
      var rest := MinEvent(fixtures[1..]);
      assert forall f :: f in fixtures ==> f == fixtures[0] || f in fixtures[1..];
      Min(fixtures[0].event, rest)
  }

  /** The largest event of a non-empty fixture list (`Math.max(...events)`). */
  function MaxEvent(fixtures: seq<Fixture>): (m: int)
    requires fixtures != []
    ensures forall f :: f in fixtures ==> f.event <= m
    ensures exists f :: f in fixtures && f.event == m
  {
    if |fixtures| == 1 then fixtures[0].event
    else
      var rest := MaxEvent(fixtures[1..]);
      assert forall f :: f in fixtures ==> f == fixtures[0] || f in fixtures[1..];
      Max(fixtures[0].event, rest)
  }

  /**
   * {0, 0} for no fixtures; otherwise min <= max, every event lies in
   * [min, max] and both bounds are events of some fixture.
   */
  function GetGameweekStats(fixtures: seq<Fixture>): (stats: GameweekStats)
    ensures fixtures == [] ==> stats == GameweekStats(0, 0)
    ensures fixtures != [] ==>
      && stats.min <= stats.max
      && (forall f :: f in fixtures ==> stats.min <= f.event <= stats.max)
      && (exists f :: f in fixtures && f.event == stats.min)
      && (exists f :: f in fixtures && f.event == stats.max)
  {
    if |fixtures| == 0 then GameweekStats(0, 0)
    else GameweekStats(MinEvent(fixtures), MaxEvent(fixtures))
  }

  datatype Derived = Derived(teamById: map<int, EnrichedTeam>, leagueMean: real, gameweekStats: GameweekStats)

  /** The memoised derivations: lookup and mean from the setup teams, stats from the fixtures, each with its default. */
  function DeriveValues(setupTeams: Option<seq<EnrichedTeam>>, fixtures: Option<seq<Fixture>>): (d: Derived)
    ensures setupTeams.None? ==> d.teamById == map[] && d.leagueMean == 0.0
    ensures setupTeams.Some? ==> d.teamById == TeamLookup(setupTeams.value) && d.leagueMean == LeagueMean(setupTeams.value)
    ensures fixtures.None? ==> d.gameweekStats == GameweekStats(0, 0)
    ensures fixtures.Some? ==> d.gameweekStats == GetGameweekStats(fixtures.value)
  {
    Derived(
      if setupTeams.None? then map[] else TeamLookup(setupTeams.value),
      if setupTeams.None? then 0.0 else LeagueMean(setupTeams.value),
      if fixtures.None? then GameweekStats(0, 0) else GetGameweekStats(fixtures.value))
  }

  /**
   * The last gameweek is positive, which the window initialisation waits
   * for, exactly when some fixture has a positive event: never while the
   * fixtures are missing or empty.
   */
  lemma LastGameweekPositive(setupTeams: Option<seq<EnrichedTeam>>, fixtures: Option<seq<Fixture>>)
    ensures DeriveValues(setupTeams, fixtures).gameweekStats.max > 0 <==>
      fixtures.Some? && exists f :: f in fixtures.value && f.event > 0
  {
    if fixtures.Some? && fixtures.value != [] {
      var stats := GetGameweekStats(fixtures.value);
      if exists f :: f in fixtures.value && f.event > 0 {
        var f :| f in fixtures.value && f.event > 0;
        assert f.event <= stats.max;
      }
    }
  }
}
