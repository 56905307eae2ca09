/**
 * The desktop table header: its gameweek columns, the highlighted range, and
 * the click handler that picks a sort direction, ranks the teams for the
 * clicked column (column 0 is the range column) and reports the new order.
 */
module TableHeader {
  import opened Domain
  import opened CanonicalDifficulty
  import opened Ranking
  import WindowControls

  /** The column headers `min..max` (none when max < min). */
  function HeaderGameweeks(min: int, max: int): (gameweeks: seq<int>)
    ensures |gameweeks| == if max < min then 0 else max - min + 1
    ensures forall g :: g in gameweeks <==> min <= g <= max
    ensures forall i, j :: 0 <= i < j < |gameweeks| ==> gameweeks[i] < gameweeks[j]
  {
    var length := if max < min then 0 else max - min + 1;
    var gameweeks := seq(length, i requires 0 <= i < length => min + i);
    forall g | min <= g <= max
      ensures g in gameweeks
    {
      assert gameweeks[g - min] == g;
    }
    gameweeks
  }

  /** The gameweeks shaded as part of the range: `min .. min + gameweekRange - 1`. */
  method HighlightedGameweeks(min: int, gameweekRange: int) returns (highlighted: set<int>)
    ensures forall g :: g in highlighted <==> min <= g < min + gameweekRange
  {
    highlighted := {};
    var i := 0;
    while i < gameweekRange
      invariant gameweekRange >= 0 ==> 0 <= i <= gameweekRange
      invariant gameweekRange < 0 ==> i == 0
      invariant forall g :: g in highlighted <==> min <= g < min + i
    {
      highlighted := highlighted + {min + i};
      i := i + 1;
    }
  }

  /** The weeks a click on `column` ranks: the range for column 0, that gameweek otherwise. */
  function ClickedWeeks(column: int, min: int, gameweekRange: int, stats: GameweekStats): (w: WindowControls.Window)
    ensures column == 0 ==> w.start == min && w.end == Domain.Min(min + gameweekRange - 1, stats.max)
    ensures column != 0 ==> w.start == w.end == column
  {
    if column == 0 then WindowControls.Resized(min, gameweekRange, stats.max)
    else WindowControls.Window(column, column)
  }

  datatype OrderChange = OrderChange(orderedTeamIds: seq<int>, column: int, direction: SortDirection)

  class HeaderState {
    var sortColumn: int
    var sortDirection: SortDirection
    var lastSortBy: SortBy

    constructor ()
      ensures sortColumn == -1 && sortDirection == Desc && lastSortBy == Offense
    {
      sortColumn := -1;
      sortDirection := Desc;
      lastSortBy := Offense;
    }

    /**
     * Without fixtures a click does nothing. Otherwise the direction toggles
     * when the same column is clicked again under the same perspective and
     * is the perspective's default otherwise; the teams are ranked for the
     * clicked weeks and column, direction and perspective are remembered.
     */
    method HandleHeaderClick(column: int, sigma: Sigmoid, fixtures: Option<seq<Fixture>>,
                             teamById: map<int, EnrichedTeam>, leagueMean: real,
                             min: int, gameweekRange: int, stats: GameweekStats, sortBy: SortBy)
      returns (emitted: Option<OrderChange>)
      requires fixtures.Some? ==>
        var w := ClickedWeeks(column, min, gameweekRange, stats);
        OpponentsResolvable(fixtures.value, teamById, w.start, w.end)
      modifies this
      ensures fixtures.None? ==>
        emitted == None && sortColumn == old(sortColumn) && sortDirection == old(sortDirection) && lastSortBy == old(lastSortBy)
      ensures fixtures.Some? ==>
        var direction := ToggleOrDefault(column == old(sortColumn) && old(lastSortBy) == sortBy, old(sortDirection), sortBy);
        var w := ClickedWeeks(column, min, gameweekRange, stats);
        && sortColumn == column && sortDirection == direction && lastSortBy == sortBy
        && emitted.Some? && emitted.value.column == column && emitted.value.direction == direction
        && IsRanking(emitted.value.orderedTeamIds, RangeScores(sigma, sortBy, fixtures.value, w.start, w.end, teamById, leagueMean), direction)
    {
      if fixtures.None? {
        return None;
      }
      var defaultDir := if sortBy == Offense then Desc else Asc;
      var nextDirection := if column == sortColumn && lastSortBy == sortBy then
        (if sortDirection == Asc then Desc else Asc) else defaultDir;
      var ordered: seq<int>;
      if column == 0 {
        var startWeek := min;
        var endWeek := Domain.Min(min + gameweekRange - 1, stats.max);
        ordered := SortByGameweekRange(sigma, fixtures.value, startWeek, endWeek, nextDirection, sortBy, teamById, leagueMean);
      } else {
        ordered := SortByGameweek(sigma, fixtures.value, column, nextDirection, sortBy, teamById, leagueMean);
        OneWeekScoresAlike(sigma, sortBy, fixtures.value, column, teamById, leagueMean);
      }
      sortColumn := column;
      sortDirection := nextDirection;
      lastSortBy := sortBy;
      emitted := Some(OrderChange(ordered, column, nextDirection));
    }
  }
}
