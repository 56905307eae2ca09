/**
 * The rows of the older fixture grid: fixtures grouped per event, each
 * team's fixtures for an event, the per-event display data (a blank week is
 * 1 / invalid, an opponent missing from the team map is skipped), the sum over
 * five consecutive events and the stable sort of the rows.
 */
module LegacyFixtures {
  import opened Domain
  import opened LegacyDifficulty
  import StableSort
  import Lookup

  datatype FixtureDisplay = FixtureDisplay(fixture: Fixture, opponent: Team, isHome: bool, difficulty: real)

  /** One cell of the grid (its Tailwind colour is not modelled). */
  datatype EventData = EventData(event: int, fixtures: seq<FixtureDisplay>, combinedDifficulty: real, level: Difficulty)

  datatype TeamRowData = TeamRowData(team: Team, events: map<int, EventData>)

  // ---------------------------------------------------------------------------
  // Grouping

  /** The fixtures of `event`, in input order. */
  function EventFixtures(fixtures: seq<Fixture>, event: int): (r: seq<Fixture>)
    ensures |r| <= |fixtures|
    ensures forall f :: f in r <==> f in fixtures && f.event == event
  {
    if fixtures == [] then []
    else
      var init, last := fixtures[..|fixtures| - 1], fixtures[|fixtures| - 1];
      assert fixtures == init + [last];
      EventFixtures(init, event) + (if last.event == event then [last] else [])
  }

  lemma EventFixturesSnoc(fixtures: seq<Fixture>, f: Fixture, event: int)
    ensures EventFixtures(fixtures + [f], event) == EventFixtures(fixtures, event) + (if f.event == event then [f] else [])
  {
    assert (fixtures + [f])[..|fixtures|] == fixtures;
  }

  /**
   * Every event that occurs gets the list of its fixtures in input order, and
   * no other event gets an entry.
   */
  method GroupFixturesByEvent(fixtures: seq<Fixture>) returns (grouped: map<int, seq<Fixture>>)
    ensures forall e :: e in grouped <==> exists f :: f in fixtures && f.event == e
    ensures forall e :: e in grouped ==> grouped[e] == EventFixtures(fixtures, e)
  {
    grouped := map[];
    var i := 0;
    while i < |fixtures|
      invariant 0 <= i <= |fixtures|
      invariant GroupsOf(grouped, fixtures[..i])
    {
      GroupStep(grouped, fixtures, i);
      grouped := AppendToGroup(grouped, fixtures[i]);
      i := i + 1;
    }
    assert fixtures[..|fixtures|] == fixtures;
  }

  /** `grouped` holds, for exactly the events of `fixtures`, the fixtures of that event in order. */
  ghost predicate GroupsOf(grouped: map<int, seq<Fixture>>, fixtures: seq<Fixture>)
  {
    && (forall e :: e in grouped <==> exists f :: f in fixtures && f.event == e)
    && (forall e :: e in grouped ==> grouped[e] == EventFixtures(fixtures, e))
  }

  /** `grouped` with `fixture` appended to its event's group, a new group if the event is new. */
  function AppendToGroup(grouped: map<int, seq<Fixture>>, fixture: Fixture): (r: map<int, seq<Fixture>>)
    ensures r.Keys == grouped.Keys + {fixture.event}
    ensures forall e :: e in grouped && e != fixture.event ==> r[e] == grouped[e]
    ensures fixture.event in grouped ==> r[fixture.event] == grouped[fixture.event] + [fixture]
    ensures fixture.event !in grouped ==> r[fixture.event] == [fixture]
  {
    var existing := if fixture.event in grouped then grouped[fixture.event] else [];
    grouped[fixture.event := existing + [fixture]]
  }

  /** Appending the next fixture to its event's group keeps the grouping exact. */
  lemma GroupStep(grouped: map<int, seq<Fixture>>, fixtures: seq<Fixture>, i: int)
    requires 0 <= i < |fixtures| && GroupsOf(grouped, fixtures[..i])
    ensures GroupsOf(AppendToGroup(grouped, fixtures[i]), fixtures[..i + 1])
  {
    assert fixtures[..i + 1] == fixtures[..i] + [fixtures[i]];
    GroupKeysStep(grouped, fixtures[..i], fixtures[i]);
    GroupValuesStep(grouped, fixtures[..i], fixtures[i]);
  }

  lemma GroupKeysStep(grouped: map<int, seq<Fixture>>, prefix: seq<Fixture>, fixture: Fixture)
    requires forall e :: e in grouped <==> exists f :: f in prefix && f.event == e
    ensures forall e :: e in AppendToGroup(grouped, fixture) <==> exists f :: f in prefix + [fixture] && f.event == e
  {
    forall e ensures e in AppendToGroup(grouped, fixture) <==> exists f :: f in prefix + [fixture] && f.event == e {
      if e in grouped {
        var f :| f in prefix && f.event == e;
        assert f in prefix + [fixture];
      } else if e == fixture.event {
        assert fixture in prefix + [fixture];
      }
    }
  }

  lemma GroupValuesStep(grouped: map<int, seq<Fixture>>, prefix: seq<Fixture>, fixture: Fixture)
    requires GroupsOf(grouped, prefix)
    ensures forall e :: e in AppendToGroup(grouped, fixture) ==> AppendToGroup(grouped, fixture)[e] == EventFixtures(prefix + [fixture], e)
  {
    if fixture.event !in grouped {
      NoFixturesOfEvent(prefix, fixture.event);
    }
    forall e | e in AppendToGroup(grouped, fixture)
      ensures AppendToGroup(grouped, fixture)[e] == EventFixtures(prefix + [fixture], e)
    {
      EventFixturesSnoc(prefix, fixture, e);
    }
  }



  lemma {:induction false} NoFixturesOfEvent(fixtures: seq<Fixture>, event: int)
    requires forall f :: f in fixtures ==> f.event != event
    ensures EventFixtures(fixtures, event) == []
  {
    if fixtures != [] {
      NoFixturesOfEvent(fixtures[..|fixtures| - 1], event);
    }
  }

  /** Σ |EventFixtures(fixtures, e)| over the events `es`. */
  function GroupSizes(fixtures: seq<Fixture>, es: seq<int>): nat
  {
    if es == [] then 0 else |EventFixtures(fixtures, es[0])| + GroupSizes(fixtures, es[1..])
  }

  /** How often `e` occurs in `es`. */
  function Occurrences(es: seq<int>, e: int): nat
  {
    if es == [] then 0 else (if es[0] == e then 1 else 0) + Occurrences(es[1..], e)
  }

  lemma {:induction false} GroupSizesSnoc(fixtures: seq<Fixture>, f: Fixture, es: seq<int>)
    ensures GroupSizes(fixtures + [f], es) == GroupSizes(fixtures, es) + Occurrences(es, f.event)
  {
    if es != [] {
      EventFixturesSnoc(fixtures, f, es[0]);
      GroupSizesSnoc(fixtures, f, es[1..]);
    }
  }

  lemma {:induction false} GroupSizesEmpty(es: seq<int>)
    ensures GroupSizes([], es) == 0
  {
    if es != [] {
      GroupSizesEmpty(es[1..]);
    }
  }

  lemma {:induction false} OccursOnce(es: seq<int>, e: int)
    requires forall i, j :: 0 <= i < j < |es| ==> es[i] != es[j]
    requires e in es
    ensures Occurrences(es, e) == 1
  {
    if es[0] == e {
      OccursNever(es[1..], e);
    } else {
      OccursOnce(es[1..], e);
    }
  }

  lemma {:induction false} OccursNever(es: seq<int>, e: int)
    requires e !in es
    ensures Occurrences(es, e) == 0
  {
    if es != [] {
      OccursNever(es[1..], e);
    }
  }

  /**
   * Over any list of distinct events that covers every fixture's event, the
   * group sizes add up to the number of fixtures: each fixture is in exactly
   * one group.
   */
  lemma {:induction false} EveryFixtureGroupedOnce(fixtures: seq<Fixture>, es: seq<int>)
    requires forall i, j :: 0 <= i < j < |es| ==> es[i] != es[j]
    requires forall f :: f in fixtures ==> f.event in es
    ensures GroupSizes(fixtures, es) == |fixtures|
  {
    if fixtures == [] {
      GroupSizesEmpty(es);
    } else {
      var init, last := fixtures[..|fixtures| - 1], fixtures[|fixtures| - 1];
      assert fixtures == init + [last];
      EveryFixtureGroupedOnce(init, es);
      GroupSizesSnoc(init, last, es);
      OccursOnce(es, last.event);
    }
  }

  // ---------------------------------------------------------------------------
  // Per-team event data

  /** The fixtures of `event` in which the team plays home or away, in input order. */
  function TeamFixturesForEvent(teamId: int, event: int, fixtures: seq<Fixture>): (r: seq<Fixture>)
    ensures |r| <= |fixtures|
    ensures forall f :: f in r <==> f in fixtures && f.event == event && (f.team_h == teamId || f.team_a == teamId)
  {
    if fixtures == [] then []
    else
      var f := fixtures[0];
      assert fixtures == [f] + fixtures[1..];
      (if f.event == event && (f.team_h == teamId || f.team_a == teamId) then [f] else [])
        + TeamFixturesForEvent(teamId, event, fixtures[1..])
  }

  /** The display entry of `fixture` for `team`, absent when the opponent is not in the team map. */
  function Display(team: Team, fixture: Fixture, teamsMap: map<int, Team>, mode: DifficultyMode): Option<FixtureDisplay>
  {
    var isHome := fixture.team_h == team.id;
    var opponentId := if isHome then fixture.team_a else fixture.team_h;
    if opponentId in teamsMap then
      Some(FixtureDisplay(fixture, teamsMap[opponentId], isHome, FixtureDifficulty(team, teamsMap[opponentId], mode)))
    else None
  }

  /** The display entries of the team's fixtures, in order, skipping unknown opponents. */
  function Displays(team: Team, teamFixtures: seq<Fixture>, teamsMap: map<int, Team>, mode: DifficultyMode): seq<FixtureDisplay>
  {
    if teamFixtures == [] then []
    else
      var init, last := teamFixtures[..|teamFixtures| - 1], teamFixtures[|teamFixtures| - 1];
      Displays(team, init, teamsMap, mode) + (match Display(team, last, teamsMap, mode) case Some(d) => [d] case None => [])
  }

  function Difficulties(displays: seq<FixtureDisplay>): (ds: seq<real>)
    ensures |ds| == |displays| && forall i :: 0 <= i < |ds| ==> ds[i] == displays[i].difficulty
  {
    seq(|displays|, i requires 0 <= i < |displays| => displays[i].difficulty)
  }

  /**
   * Each entry is one of the team's fixtures against an opponent from the
   * map, with the perspective's difficulty; there are no more entries than
   * fixtures, and none at all exactly when every opponent is unknown.
   */
  lemma {:induction false} DisplaysSound(team: Team, teamFixtures: seq<Fixture>, teamsMap: map<int, Team>, mode: DifficultyMode)
    ensures |Displays(team, teamFixtures, teamsMap, mode)| <= |teamFixtures|
    ensures forall d :: d in Displays(team, teamFixtures, teamsMap, mode) ==>
      && d.fixture in teamFixtures
      && d.isHome == (d.fixture.team_h == team.id)
      && (if d.isHome then d.fixture.team_a else d.fixture.team_h) in teamsMap
      && d.opponent == teamsMap[if d.isHome then d.fixture.team_a else d.fixture.team_h]
      && d.difficulty == FixtureDifficulty(team, d.opponent, mode)
    ensures Displays(team, teamFixtures, teamsMap, mode) == [] <==>
      forall f :: f in teamFixtures ==> Display(team, f, teamsMap, mode).None?
    ensures forall f :: f in teamFixtures && Display(team, f, teamsMap, mode).Some? ==>
      Display(team, f, teamsMap, mode).value in Displays(team, teamFixtures, teamsMap, mode)
  {
    if teamFixtures != [] {
      var init, last := teamFixtures[..|teamFixtures| - 1], teamFixtures[|teamFixtures| - 1];
      assert teamFixtures == init + [last];
      DisplaysSound(team, init, teamsMap, mode);
    }
  }

  /**
   * The entries are exactly the display entries of the fixtures whose
   * opponent is known: only unknown opponents are skipped.
   */
  lemma DisplaysExactly(team: Team, teamFixtures: seq<Fixture>, teamsMap: map<int, Team>, mode: DifficultyMode)
    ensures forall x :: x in Displays(team, teamFixtures, teamsMap, mode) <==>
      exists f :: f in teamFixtures && Display(team, f, teamsMap, mode) == Some(x)
  {
    DisplaysSound(team, teamFixtures, teamsMap, mode);
    forall x | x in Displays(team, teamFixtures, teamsMap, mode)
      ensures exists f :: f in teamFixtures && Display(team, f, teamsMap, mode) == Some(x)
    {
      assert Display(team, x.fixture, teamsMap, mode) == Some(x);
    }
  }

  /** The entry of the grid for one team and one event. */
  function EventDataFor(team: Team, event: int, fixtures: seq<Fixture>, teamsMap: map<int, Team>, mode: DifficultyMode): (d: EventData)
    ensures d.event == event
    ensures TeamFixturesForEvent(team.id, event, fixtures) == [] ==> d == EventData(event, [], 1.0, Invalid)
    ensures TeamFixturesForEvent(team.id, event, fixtures) != [] ==>
      d.fixtures == Displays(team, TeamFixturesForEvent(team.id, event, fixtures), teamsMap, mode)
    ensures forall x :: x in d.fixtures <==>
      && x.fixture in fixtures && x.fixture.event == event
      && (x.fixture.team_h == team.id || x.fixture.team_a == team.id)
      && Display(team, x.fixture, teamsMap, mode) == Some(x)
    ensures d.combinedDifficulty == MultiFixtureDifficulty(Difficulties(d.fixtures))
    ensures d.level == DifficultyLevel(d.combinedDifficulty)
  {
    var teamFixtures := TeamFixturesForEvent(team.id, event, fixtures);
    if |teamFixtures| == 0 then EventData(event, [], 1.0, Invalid)
    else
      DisplaysExactly(team, teamFixtures, teamsMap, mode);
      var displays := Displays(team, teamFixtures, teamsMap, mode);
      var combined := MultiFixtureDifficulty(Difficulties(displays));
      EventData(event, displays, combined, DifficultyLevel(combined))
  }

  /** Every team of the map has its ranks within the league table. */
  ghost predicate LeagueTeams(teamsMap: map<int, Team>)
  {
    forall id :: id in teamsMap ==> RanksInLeague(teamsMap[id])
  }

  /**
   * With league ranks everywhere, an entry is `invalid` exactly when no
   * fixture of the team in that event has an opponent in the map: either a
   * blank week or one whose opponents were all skipped.
   */
  lemma InvalidIffNoKnownOpponent(team: Team, event: int, fixtures: seq<Fixture>, teamsMap: map<int, Team>, mode: DifficultyMode)
    requires RanksInLeague(team) && LeagueTeams(teamsMap)
    ensures EventDataFor(team, event, fixtures, teamsMap, mode).level == Invalid <==>
      forall f :: f in TeamFixturesForEvent(team.id, event, fixtures) ==> Display(team, f, teamsMap, mode).None?
  {
    var teamFixtures := TeamFixturesForEvent(team.id, event, fixtures);
    var displays := Displays(team, teamFixtures, teamsMap, mode);
    DisplaysSound(team, teamFixtures, teamsMap, mode);
    var ds := Difficulties(displays);
    forall i | 0 <= i < |ds|
      ensures 0.025 <= ds[i] <= 0.975
    {
      assert displays[i] in displays;
    }
    InvalidOnlyWhenBlank(ds);
  }

  /** The row of one team: an entry for each requested event and no other. */
  function RowFor(team: Team, fixtures: seq<Fixture>, teamsMap: map<int, Team>, mode: DifficultyMode, events: seq<int>): (row: TeamRowData)
    ensures row.team == team
    ensures forall e :: e in row.events <==> e in events
    ensures forall e :: e in row.events ==> row.events[e] == EventDataFor(team, e, fixtures, teamsMap, mode)
  {
    TeamRowData(team, map e | e in events :: EventDataFor(team, e, fixtures, teamsMap, mode))
  }

  /** The inner loop over one event's fixtures: display entries and their difficulties. */
  method BuildDisplays(team: Team, teamFixtures: seq<Fixture>, teamsMap: map<int, Team>, mode: DifficultyMode)
    returns (displays: seq<FixtureDisplay>, difficulties: seq<real>)
    ensures displays == Displays(team, teamFixtures, teamsMap, mode)
    ensures difficulties == Difficulties(displays)
  {
    displays, difficulties := [], [];
    var i := 0;
    while i < |teamFixtures|
      invariant 0 <= i <= |teamFixtures|
      invariant displays == Displays(team, teamFixtures[..i], teamsMap, mode)
      invariant difficulties == Difficulties(displays)
    {
      var fixture := teamFixtures[i];
      assert teamFixtures[..i + 1][..i] == teamFixtures[..i];
      var isHome := fixture.team_h == team.id;
      var opponentId := if isHome then fixture.team_a else fixture.team_h;
      if opponentId in teamsMap {
        var opponent := teamsMap[opponentId];
        var difficulty := FixtureDifficulty(team, opponent, mode);
        difficulties := difficulties + [difficulty];
        displays := displays + [FixtureDisplay(fixture, opponent, isHome, difficulty)];
      }
      i := i + 1;
    }
    assert teamFixtures[..|teamFixtures|] == teamFixtures;
  }

  method ProcessTeamFixtures(team: Team, fixtures: seq<Fixture>, teamsMap: map<int, Team>, mode: DifficultyMode, events: seq<int>)
    returns (row: TeamRowData)
    ensures row == RowFor(team, fixtures, teamsMap, mode, events)
  {
    var eventDataMap: map<int, EventData> := map[];
    var k := 0;
    while k < |events|
      invariant 0 <= k <= |events|
      invariant eventDataMap == RowFor(team, fixtures, teamsMap, mode, events[..k]).events
    {
      var event := events[k];
      var teamFixtures := TeamFixturesForEvent(team.id, event, fixtures);
      RowForSnoc(team, fixtures, teamsMap, mode, events[..k], event);
      if |teamFixtures| == 0 {
        eventDataMap := eventDataMap[event := EventData(event, [], 1.0, Invalid)];
      } else {
        var displays, difficulties := BuildDisplays(team, teamFixtures, teamsMap, mode);
        var combinedDifficulty := MultiFixtureDifficulty(difficulties);
        var difficultyLevel := DifficultyLevel(combinedDifficulty);
        eventDataMap := eventDataMap[event := EventData(event, displays, combinedDifficulty, difficultyLevel)];
      }
      assert events[..k + 1] == events[..k] + [event];
      k := k + 1;
    }
    assert events[..|events|] == events;
    row := TeamRowData(team, eventDataMap);
  }

  lemma RowForSnoc(team: Team, fixtures: seq<Fixture>, teamsMap: map<int, Team>, mode: DifficultyMode, es: seq<int>, e: int)
    ensures RowFor(team, fixtures, teamsMap, mode, es + [e]).events
         == RowFor(team, fixtures, teamsMap, mode, es).events[e := EventDataFor(team, e, fixtures, teamsMap, mode)]
  {
    var a := RowFor(team, fixtures, teamsMap, mode, es + [e]).events;
    var b := RowFor(team, fixtures, teamsMap, mode, es).events[e := EventDataFor(team, e, fixtures, teamsMap, mode)];
    assert a.Keys == b.Keys;
  }

  /** The team map of the row builder: id to team, a later team replacing an earlier one with the same id. */
  function TeamsMap(teams: seq<Team>): (m: map<int, Team>)
    ensures forall id :: id in m <==> exists i :: 0 <= i < |teams| && teams[i].id == id
    ensures forall i :: Lookup.LastWithKey(teams, (t: Team) => t.id, i) ==> m[teams[i].id] == teams[i]
  {
    Lookup.LastWinsSpec(teams, (t: Team) => t.id, (t: Team) => t);
    Lookup.LastWins(teams, (t: Team) => t.id, (t: Team) => t)
  }

  /** One row per team, in input order, all built against the same team map. */
  method ProcessAllTeams(teams: seq<Team>, fixtures: seq<Fixture>, mode: DifficultyMode, events: seq<int>)
    returns (rows: seq<TeamRowData>)
    ensures |rows| == |teams|
    ensures forall i :: 0 <= i < |teams| ==> rows[i] == RowFor(teams[i], fixtures, TeamsMap(teams), mode, events)
  {
    var teamsMap: map<int, Team> := map[];
    var i := 0;
    while i < |teams|
      invariant 0 <= i <= |teams|
      invariant teamsMap == Lookup.LastWins(teams[..i], (t: Team) => t.id, (t: Team) => t)
    {
      assert teams[..i + 1][..i] == teams[..i];
      teamsMap := teamsMap[teams[i].id := teams[i]];
      i := i + 1;
    }
    assert teams[..|teams|] == teams;
    rows := [];
    var j := 0;
    while j < |teams|
      invariant 0 <= j <= |teams| && |rows| == j
      invariant forall k :: 0 <= k < j ==> rows[k] == RowFor(teams[k], fixtures, teamsMap, mode, events)
    {
      var row := ProcessTeamFixtures(teams[j], fixtures, teamsMap, mode, events);
      rows := rows + [row];
      j := j + 1;
    }
  }

  // ---------------------------------------------------------------------------
  // Sorting

  /** The combined difficulty of `event` in a row, 1 when the row has no entry for it. */
  function EventValue(row: TeamRowData, event: int): (v: real)
    ensures event !in row.events ==> v == 1.0
  {
    if event in row.events then row.events[event].combinedDifficulty else 1.0
  }

  /** Σ EventValue(row, start + i) for i in 0 .. n - 1. */
  function WindowSum(row: TeamRowData, start: int, n: nat): real
  {
    if n == 0 then 0.0 else WindowSum(row, start, n - 1) + EventValue(row, start + n - 1)
  }

  /** Only the events `start .. start + n - 1` contribute to the sum. */
  lemma {:induction false} WindowSumOnlyReadsWindow(a: TeamRowData, b: TeamRowData, start: int, n: nat)
    requires forall e :: start <= e < start + n ==> EventValue(a, e) == EventValue(b, e)
    ensures WindowSum(a, start, n) == WindowSum(b, start, n)
  {
    if n > 0 {
      WindowSumOnlyReadsWindow(a, b, start, n - 1);
    }
  }

  /** A row with no entry in the window sums to one per event. */
  lemma {:induction false} WindowSumOfMissingEvents(row: TeamRowData, start: int, n: nat)
    requires forall e :: start <= e < start + n ==> e !in row.events
    ensures WindowSum(row, start, n) == n as real
  {
    if n > 0 {
      WindowSumOfMissingEvents(row, start, n - 1);
    }
  }

  /** The sum of the next five combined difficulties from `startEvent`, missing entries counting 1. */
  method Next5Difficulty(row: TeamRowData, startEvent: int) returns (sum: real)
    ensures sum == WindowSum(row, startEvent, 5)
  {
    sum := 0.0;
    var i := 0;
    while i < 5
      invariant 0 <= i <= 5
      invariant sum == WindowSum(row, startEvent, i)
    {
      var value := if startEvent + i in row.events then row.events[startEvent + i].combinedDifficulty else 1.0;
      sum := sum + value;
      i := i + 1;
    }
  }

  datatype SortType = NoSort | EventSort(event: int) | Next5Sort(startEvent: int)

  /** The value rows are compared by: one event's value, or the five-event sum. */
  function SortKey(row: TeamRowData, sortType: SortType): real
  {
    match sortType
    case NoSort => 0.0
    case EventSort(event) => EventValue(row, event)
    case Next5Sort(startEvent) => WindowSum(row, startEvent, 5)
  }

  function ByName(collate: (string, string) -> bool): (TeamRowData, TeamRowData) -> bool
  {
    (a: TeamRowData, b: TeamRowData) => collate(a.team.name, b.team.name)
  }

  function ByKey(sortType: SortType, direction: SortDirection): (TeamRowData, TeamRowData) -> bool
  {
    (a: TeamRowData, b: TeamRowData) =>
      if direction == Asc then SortKey(a, sortType) <= SortKey(b, sortType) else SortKey(a, sortType) >= SortKey(b, sortType)
  }

  lemma OrdersArePreorders(collate: (string, string) -> bool, sortType: SortType, direction: SortDirection)
    requires StableSort.TotalPreorder(collate)
    ensures StableSort.TotalPreorder(ByName(collate))
    ensures StableSort.TotalPreorder(ByKey(sortType, direction))
  {
    assert forall a: TeamRowData, b: TeamRowData :: ByName(collate)(a, b) == collate(a.team.name, b.team.name);
  }

  /**
   * The rows, always first ordered by team name under `collate` (standing for
   * `localeCompare`); for an event or five-event sort, then stably ordered by
   * the key in the chosen direction, so rows with equal keys stay in name order.
   */
  method SortTeamRows(rows: seq<TeamRowData>, sortType: SortType, direction: SortDirection, collate: (string, string) -> bool)
    returns (sorted: seq<TeamRowData>)
    requires StableSort.TotalPreorder(collate)
    ensures multiset(sorted) == multiset(rows) && |sorted| == |rows|
    ensures sortType == NoSort ==>
      forall i, j :: 0 <= i < j < |sorted| ==> collate(sorted[i].team.name, sorted[j].team.name)
    ensures sortType != NoSort && direction == Asc ==>
      forall i, j :: 0 <= i < j < |sorted| ==> SortKey(sorted[i], sortType) <= SortKey(sorted[j], sortType)
    ensures sortType != NoSort && direction == Desc ==>
      forall i, j :: 0 <= i < j < |sorted| ==> SortKey(sorted[i], sortType) >= SortKey(sorted[j], sortType)
    ensures sortType != NoSort ==>
      forall i, j :: 0 <= i < j < |sorted| && SortKey(sorted[i], sortType) == SortKey(sorted[j], sortType) ==>
        collate(sorted[i].team.name, sorted[j].team.name)
  {
    OrdersArePreorders(collate, sortType, direction);
    var byName := StableSort.Sort(rows, ByName(collate), (a: TeamRowData, b: TeamRowData) => true);
    if sortType == NoSort {
      sorted := byName;
      NameOrderMeaning(sorted, collate);
      return;
    }
    sorted := StableSort.Sort(byName, ByKey(sortType, direction), ByName(collate));
    KeyOrderMeaning(sorted, sortType, direction, collate);
  }

  /** Rows sorted by the name order have their names in collation order. */
  lemma NameOrderMeaning(rows: seq<TeamRowData>, collate: (string, string) -> bool)
    requires StableSort.SortedBy(rows, ByName(collate))
    ensures forall i, j :: 0 <= i < j < |rows| ==> collate(rows[i].team.name, rows[j].team.name)
  {
    forall i, j | 0 <= i < j < |rows| ensures collate(rows[i].team.name, rows[j].team.name) {
      assert ByName(collate)(rows[i], rows[j]);
    }
  }

  /** Rows stably sorted by the key have their keys in the direction's order, and equal keys in name order. */
  lemma KeyOrderMeaning(rows: seq<TeamRowData>, sortType: SortType, direction: SortDirection, collate: (string, string) -> bool)
    requires StableSort.SortedBy(rows, ByKey(sortType, direction))
    requires StableSort.TiesKept(rows, ByKey(sortType, direction), ByName(collate))
    ensures direction == Asc ==>
      forall i, j :: 0 <= i < j < |rows| ==> SortKey(rows[i], sortType) <= SortKey(rows[j], sortType)
    ensures direction == Desc ==>
      forall i, j :: 0 <= i < j < |rows| ==> SortKey(rows[i], sortType) >= SortKey(rows[j], sortType)
    ensures forall i, j :: 0 <= i < j < |rows| && SortKey(rows[i], sortType) == SortKey(rows[j], sortType) ==>
      collate(rows[i].team.name, rows[j].team.name)
  {
    forall i, j | 0 <= i < j < |rows|
      ensures direction == Asc ==> SortKey(rows[i], sortType) <= SortKey(rows[j], sortType)
      ensures direction == Desc ==> SortKey(rows[i], sortType) >= SortKey(rows[j], sortType)
      ensures SortKey(rows[i], sortType) == SortKey(rows[j], sortType) ==> collate(rows[i].team.name, rows[j].team.name)
    {
      assert ByKey(sortType, direction)(rows[i], rows[j]);
      if SortKey(rows[i], sortType) == SortKey(rows[j], sortType) {
        assert ByKey(sortType, direction)(rows[j], rows[i]);
        assert ByName(collate)(rows[i], rows[j]);
      }
    }
  }
}
