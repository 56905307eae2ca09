/**
 * The mobile card list: the alphabetical default order, the sort button that
 * ranks the teams for the current gameweek or for the selected range, and the
 * choice of which order is displayed.
 */
module CardList {
  import opened Domain
  import opened CanonicalDifficulty
  import opened Ranking
  import StableSort
  import WindowControls

  datatype MobileSortMode = Current | Range

  /** The last mobile sort: the order it produced (none before the first), its direction, perspective and mode. */
  datatype SortState = SortState(teamIds: Option<seq<int>>, direction: SortDirection, sortBy: SortBy, mode: MobileSortMode)

  /** A team paired with its position in the team list. */
  datatype Indexed = Indexed(position: int, team: EnrichedTeam)

  /**
   * The team ids ordered by short name under the string collation `collate`
   * (a total preorder, standing for `localeCompare`); no teams give no ids.
   * `order` names, for each id, the position of its team in the input: every
   * team appears once, names are in collation order, and teams whose names
   * collate alike keep their input order.
   */
  method DefaultTeamIds(teams: Option<seq<EnrichedTeam>>, collate: (string, string) -> bool)
    returns (ids: seq<int>, ghost order: seq<int>)
    requires StableSort.TotalPreorder(collate)
    ensures teams.None? ==> ids == [] && order == []
    ensures teams.Some? ==> |ids| == |order| == |teams.value|
    ensures forall k :: 0 <= k < |order| ==>
      teams.Some? && 0 <= order[k] < |teams.value| && ids[k] == teams.value[order[k]].id
    ensures forall k, l :: 0 <= k < l < |order| ==> order[k] != order[l]
    ensures forall k, l :: 0 <= k < l < |order| && teams.Some? ==>
      collate(teams.value[order[k]].short_name, teams.value[order[l]].short_name)
    ensures forall k, l :: 0 <= k < l < |order| && teams.Some? ==>
      (collate(teams.value[order[l]].short_name, teams.value[order[k]].short_name) ==> order[k] < order[l])
  {
    if teams.None? {
      return [], [];
    }
    var ts := teams.value;
    var indexed := seq(|ts|, i requires 0 <= i < |ts| => Indexed(i, ts[i]));
    ByNameIsPreorder(collate);
    var sorted := StableSort.Sort(indexed, ByName(collate), InputOrder());
    SortedPositions(indexed, sorted, ts, collate);
    ids := seq(|sorted|, k requires 0 <= k < |sorted| => sorted[k].team.id);
    order := seq(|sorted|, k requires 0 <= k < |sorted| => sorted[k].position);
  }

  /** Compares two indexed teams by short name. */
  function ByName(collate: (string, string) -> bool): (Indexed, Indexed) -> bool
  {
    (a: Indexed, b: Indexed) => collate(a.team.short_name, b.team.short_name)
  }

  /** Input order, the order the stable sort keeps among equal names. */
  function InputOrder(): (Indexed, Indexed) -> bool
  {
    (a: Indexed, b: Indexed) => a.position < b.position
  }

  lemma ByNameIsPreorder(collate: (string, string) -> bool)
    requires StableSort.TotalPreorder(collate)
    ensures StableSort.TotalPreorder(ByName(collate))
  {
    assert forall a: Indexed, b: Indexed :: ByName(collate)(a, b) == collate(a.team.short_name, b.team.short_name);
  }

  /** What the stable sort of the indexed teams says about the positions it lists. */
  lemma SortedPositions(indexed: seq<Indexed>, sorted: seq<Indexed>, ts: seq<EnrichedTeam>, collate: (string, string) -> bool)
    requires StableSort.TotalPreorder(collate)
    requires indexed == seq(|ts|, i requires 0 <= i < |ts| => Indexed(i, ts[i]))
    requires multiset(sorted) == multiset(indexed) && |sorted| == |indexed|
    requires StableSort.SortedBy(sorted, ByName(collate))
    requires StableSort.TiesKept(sorted, ByName(collate), InputOrder())
    ensures forall k :: 0 <= k < |sorted| ==> 0 <= sorted[k].position < |ts| && sorted[k].team == ts[sorted[k].position]
    ensures forall k, l :: 0 <= k < l < |sorted| ==> sorted[k].position != sorted[l].position
    ensures forall k, l :: 0 <= k < l < |sorted| ==> collate(sorted[k].team.short_name, sorted[l].team.short_name)
    ensures forall k, l :: 0 <= k < l < |sorted| ==>
      (collate(sorted[l].team.short_name, sorted[k].team.short_name) ==> sorted[k].position < sorted[l].position)
  {
    forall k | 0 <= k < |sorted|
      ensures 0 <= sorted[k].position < |ts| && sorted[k].team == ts[sorted[k].position]
    {
      assert sorted[k] in multiset(indexed);
    }
    forall k, l | 0 <= k < l < |sorted|
      ensures collate(sorted[k].team.short_name, sorted[l].team.short_name)
      ensures collate(sorted[l].team.short_name, sorted[k].team.short_name) ==> sorted[k].position < sorted[l].position
    {
      assert ByName(collate)(sorted[k], sorted[l]);
      assert ByName(collate)(sorted[l], sorted[k]) ==> InputOrder()(sorted[k], sorted[l]);
    }
    forall k, l | 0 <= k < l < |sorted|
      ensures sorted[k].position != sorted[l].position
    {
      SamePositionSameTeam(sorted, ts, k, l);
      assert collate(sorted[k].team.short_name, sorted[k].team.short_name);
    }
  }

  lemma SamePositionSameTeam(sorted: seq<Indexed>, ts: seq<EnrichedTeam>, k: int, l: int)
    requires forall m :: 0 <= m < |sorted| ==> 0 <= sorted[m].position < |ts| && sorted[m].team == ts[sorted[m].position]
    requires 0 <= k < |sorted| && 0 <= l < |sorted|
    ensures sorted[k].position == sorted[l].position ==> sorted[k] == sorted[l]
  {
  }

  /** The weeks the sort button ranks: the window's first gameweek, or the range starting there. */
  function SortWeeks(mode: MobileSortMode, windowMin: int, gameweekRange: int, stats: GameweekStats): (w: WindowControls.Window)
    ensures w.start == windowMin
    ensures mode == Current ==> w.end == windowMin
    ensures mode == Range ==> w.end == Domain.Min(windowMin + gameweekRange - 1, stats.max)
  {
    match mode
    case Current => WindowControls.Window(windowMin, windowMin)
    case Range => WindowControls.Resized(windowMin, gameweekRange, stats.max)
  }

  /** The cards shown: the last mobile sort, else the shared order, else the default order. */
  function DisplayedTeamIds(sorted: Option<seq<int>>, shared: Option<seq<int>>, defaults: seq<int>): (ids: seq<int>)
    ensures sorted.Some? ==> ids == sorted.value
    ensures sorted.None? && shared.Some? ==> ids == shared.value
    ensures sorted.None? && shared.None? ==> ids == defaults
  {
    match sorted
    case Some(s) => s
    case None => match shared
      case Some(s) => s
      case None => defaults
  }

  class CardListState {
    var mobileSortMode: MobileSortMode
    var sortState: SortState

    constructor ()
      ensures mobileSortMode == Range && sortState == SortState(None, Desc, Offense, Range)
    {
      mobileSortMode := Range;
      sortState := SortState(None, Desc, Offense, Range);
    }

    method SetMobileSortMode(mode: MobileSortMode)
      modifies this
      ensures mobileSortMode == mode && sortState == old(sortState)
    {
      mobileSortMode := mode;
    }

    /**
     * Without fixtures nothing happens. Otherwise the direction toggles when
     * the previous sort (if any) used the same perspective and mode and is the
     * perspective's default otherwise, and the teams are ranked for the weeks
     * of the current mode.
     */
    method HandleSort(sigma: Sigmoid, fixtures: Option<seq<Fixture>>, teamById: map<int, EnrichedTeam>,
                      leagueMean: real, windowMin: int, gameweekRange: int, stats: GameweekStats, sortBy: SortBy)
      requires fixtures.Some? ==>
        var w := SortWeeks(mobileSortMode, windowMin, gameweekRange, stats);
        OpponentsResolvable(fixtures.value, teamById, w.start, w.end)
      modifies this
      ensures mobileSortMode == old(mobileSortMode)
      ensures fixtures.None? ==> sortState == old(sortState)
      ensures fixtures.Some? ==>
        var repeat := old(sortState.teamIds.Some? && sortState.sortBy == sortBy && sortState.mode == mobileSortMode);
        var w := SortWeeks(mobileSortMode, windowMin, gameweekRange, stats);
        && sortState.direction == ToggleOrDefault(repeat, old(sortState.direction), sortBy)
        && sortState.sortBy == sortBy && sortState.mode == mobileSortMode
        && sortState.teamIds.Some?
        && IsRanking(sortState.teamIds.value, RangeScores(sigma, sortBy, fixtures.value, w.start, w.end, teamById, leagueMean), sortState.direction)
    {
      if fixtures.None? {
        return;
      }
      var shouldReverse := sortState.teamIds.Some? && sortState.sortBy == sortBy && sortState.mode == mobileSortMode;
      var newDirection: SortDirection;
      if shouldReverse {
        newDirection := if sortState.direction == Desc then Asc else Desc;
      } else {
        newDirection := if sortBy == Offense then Desc else Asc;
      }
      var sorted: seq<int>;
      if mobileSortMode == Current {
        sorted := SortByGameweek(sigma, fixtures.value, windowMin, newDirection, sortBy, teamById, leagueMean);
        OneWeekScoresAlike(sigma, sortBy, fixtures.value, windowMin, teamById, leagueMean);
      } else {
        var startWeek := windowMin;
        var endWeek := Domain.Min(windowMin + gameweekRange - 1, stats.max);
        sorted := SortByGameweekRange(sigma, fixtures.value, startWeek, endWeek, newDirection, sortBy, teamById, leagueMean);
      }
      sortState := SortState(Some(sorted), newDirection, sortBy, mobileSortMode);
    }
  }

  /**
   * Pressing the sort button twice with nothing else changed: the first press
   * uses the perspective's default direction, the second the opposite one,
   * and when no two teams score alike the second order is the first reversed.
   */
  method SortTwice(sigma: Sigmoid, fixtures: seq<Fixture>, teamById: map<int, EnrichedTeam>, leagueMean: real,
                   windowMin: int, gameweekRange: int, stats: GameweekStats, sortBy: SortBy)
    returns (first: seq<int>, second: seq<int>, firstDirection: SortDirection, secondDirection: SortDirection)
    requires var w := SortWeeks(Range, windowMin, gameweekRange, stats);
      OpponentsResolvable(fixtures, teamById, w.start, w.end)
    ensures firstDirection == DefaultDirection(sortBy) && secondDirection != firstDirection
    ensures var w := SortWeeks(Range, windowMin, gameweekRange, stats);
      NoTies(RangeScores(sigma, sortBy, fixtures, w.start, w.end, teamById, leagueMean)) <==> second == Reverse(first)
  {
    var cards := new CardListState();
    cards.HandleSort(sigma, Some(fixtures), teamById, leagueMean, windowMin, gameweekRange, stats, sortBy);
    first, firstDirection := cards.sortState.teamIds.value, cards.sortState.direction;
    cards.HandleSort(sigma, Some(fixtures), teamById, leagueMean, windowMin, gameweekRange, stats, sortBy);
    second, secondDirection := cards.sortState.teamIds.value, cards.sortState.direction;
    ghost var w := SortWeeks(Range, windowMin, gameweekRange, stats);
    ghost var scores := RangeScores(sigma, sortBy, fixtures, w.start, w.end, teamById, leagueMean);
    if firstDirection == Asc {
      DescendingReversesAscending(first, second, scores);
    } else {
      DescendingReversesAscending(second, first, scores);
      ReverseInvolutive(first);
      ReverseInvolutive(second);
    }
  }
}
