/**
 * The live fixture table page: the span of gameweeks the fixtures cover, a
 * ten-week window moved one week at a time, and the sort column, direction
 * and perspective it keeps.
 */
module LiveTable {
  import opened Domain
  import opened LiveModel
  import opened WindowControls

  const WindowSize: int := 10

  /** Every gameweek of every team's fixture list. */
  ghost function Gameweeks(fixtures: map<string, seq<LiveFixture>>): set<int>
  {
    set k, f | k in fixtures && f in fixtures[k] :: f.gameweek
  }

  /** The gameweeks of the lists under the given keys. */
  ghost function GameweeksOf(fixtures: map<string, seq<LiveFixture>>, keys: set<string>): set<int>
  {
    set k, f | k in keys && k in fixtures && f in fixtures[k] :: f.gameweek
  }

  /** The smallest of a non-empty list (`Math.min(...)`). */
  function Smallest(s: seq<int>): (m: int)
    requires s != []
    ensures m in s && forall x :: x in s ==> m <= x
  {
    if |s| == 1 then s[0]
    else
      var rest := Smallest(s[1..]);
      assert forall x :: x in s ==> x == s[0] || x in s[1..];
      if s[0] <= rest then s[0] else rest
  }

  /** The largest of a non-empty list (`Math.max(...)`). */
  function Largest(s: seq<int>): (m: int)
    requires s != []
    ensures m in s && forall x :: x in s ==> x <= m
  {
    if |s| == 1 then s[0]
    else
      var rest := Largest(s[1..]);
      assert forall x :: x in s ==> x == s[0] || x in s[1..];
      if s[0] >= rest then s[0] else rest
  }

  /**
   * The first and last gameweek of any fixture, whatever order the lists are
   * visited in; `(1, 1)` when there is no fixture at all.
   */
  method GetMinMax(fixtures: map<string, seq<LiveFixture>>) returns (minWeek: int, maxWeek: int)
    ensures Gameweeks(fixtures) == {} ==> minWeek == 1 && maxWeek == 1
    ensures Gameweeks(fixtures) != {} ==>
      && minWeek in Gameweeks(fixtures) && maxWeek in Gameweeks(fixtures)
      && forall g :: g in Gameweeks(fixtures) ==> minWeek <= g <= maxWeek
  {
    var allGameweeks: seq<int> := [];
    var remaining := fixtures.Keys;
    ghost var visited: set<string> := {};
    while remaining != {}
      invariant remaining + visited == fixtures.Keys && remaining !! visited
      invariant (set g | g in allGameweeks) == GameweeksOf(fixtures, visited)
      decreases remaining
    {
      var key :| key in remaining;
      var list := fixtures[key];
      var j := 0;
      while j < |list|
        invariant 0 <= j <= |list|
        invariant (set g | g in allGameweeks) == GameweeksOf(fixtures, visited) + (set i | 0 <= i < j :: list[i].gameweek)
      {
        ghost var before := allGameweeks;
        allGameweeks := allGameweeks + [list[j].gameweek];
        assert (set g | g in allGameweeks) == (set g | g in before) + {list[j].gameweek};
        assert (set i | 0 <= i < j + 1 :: list[i].gameweek) == (set i | 0 <= i < j :: list[i].gameweek) + {list[j].gameweek};
        j := j + 1;
      }
      VisitKey(fixtures, visited, key);
      remaining := remaining - {key};
      visited := visited + {key};
    }
    assert visited == fixtures.Keys;
    assert GameweeksOf(fixtures, visited) == Gameweeks(fixtures);
    assert forall g :: g in allGameweeks <==> g in Gameweeks(fixtures);
    if |allGameweeks| == 0 {
      return 1, 1;
    }
    assert allGameweeks[0] in Gameweeks(fixtures);
    minWeek := Smallest(allGameweeks);
    maxWeek := Largest(allGameweeks);
  }

  /** Visiting one more key adds exactly the gameweeks of its list. */
  lemma VisitKey(fixtures: map<string, seq<LiveFixture>>, visited: set<string>, key: string)
    requires key in fixtures
    ensures GameweeksOf(fixtures, visited + {key})
      == GameweeksOf(fixtures, visited) + (set i | 0 <= i < |fixtures[key]| :: fixtures[key][i].gameweek)
  {
    var list := fixtures[key];
    forall g | g in GameweeksOf(fixtures, visited + {key})
      ensures g in GameweeksOf(fixtures, visited) + (set i | 0 <= i < |list| :: list[i].gameweek)
    {
      var k, f :| k in visited + {key} && k in fixtures && f in fixtures[k] && f.gameweek == g;
      if k !in visited {
        var i :| 0 <= i < |list| && list[i] == f;
        assert list[i].gameweek == g;
      }
    }
    forall i | 0 <= i < |list|
      ensures list[i].gameweek in GameweeksOf(fixtures, visited + {key})
    {
      assert list[i] in fixtures[key];
    }
  }

  /**
   * The window one week on: the end advances but never past the last week,
   * and the start stays ten weeks before the end, so the window is at least
   * ten weeks wide and may start before the first gameweek in a short season.
   */
  function LiveNext(w: Window, maxWeek: int): (r: Window)
    ensures r.end <= maxWeek && Width(r) >= WindowSize
    ensures w.end < maxWeek && Width(w) == WindowSize ==> r == Window(w.start + 1, w.end + 1)
  {
    var nextMax := Min(maxWeek, w.end + 1);
    var nextMin := Min(w.start + 1, nextMax - WindowSize + 1);
    Window(nextMin, nextMax)
  }

  /**
   * The window one week back: the start retreats but never before the first
   * week, and the window stays at least ten weeks wide.
   */
  function LivePrev(w: Window, minWeek: int): (r: Window)
    ensures r.start >= minWeek && Width(r) >= WindowSize
    ensures w.start > minWeek && Width(w) == WindowSize ==> r == Window(w.start - 1, w.end - 1)
  {
    var nextMin := Max(minWeek, w.start - 1);
    var nextMax := Max(nextMin + WindowSize - 1, w.start - 1);
    Window(nextMin, nextMax)
  }

  /** On a ten-week window the live table moves exactly as the FDR table's controls do. */
  lemma MovesAgreeWithControls(w: Window, stats: GameweekStats)
    requires Width(w) == WindowSize
    ensures LiveNext(w, stats.max) == NextWindow(w, stats)
    ensures LivePrev(w, stats.min) == PrevWindow(w, stats)
  {
  }

  /** With fewer than ten gameweeks the first step forward starts the window before week 1. */
  lemma ShortSeasonWindowStartsEarly()
    ensures LiveNext(Window(1, WindowSize), 5) == Window(-4, 5)
  {
  }

  class LiveTableState {
    var window: Window
    var sortBy: SortBy
    var sortDirection: SortDirection
    var sortColumn: int

    /** Weeks 1 to 10, offense, descending, no sort column. */
    constructor ()
      ensures window == Window(1, WindowSize) && sortBy == Offense && sortDirection == Desc && sortColumn == -1
    {
      window := Window(1, 1 + WindowSize - 1);
      sortBy := Offense;
      sortDirection := Desc;
      sortColumn := -1;
    }

    method HandleWindowChange(move: Move, minWeek: int, maxWeek: int)
      modifies this
      ensures move == Next ==> window == LiveNext(old(window), maxWeek)
      ensures move == Prev ==> window == LivePrev(old(window), minWeek)
      ensures sortBy == old(sortBy) && sortDirection == old(sortDirection) && sortColumn == old(sortColumn)
    {
      var min, max := window.start, window.end;
      if move == Next {
        var nextMax := Min(maxWeek, max + 1);
        var nextMin := Min(min + 1, nextMax - WindowSize + 1);
        window := Window(nextMin, nextMax);
        return;
      }
      var nextMin := Max(minWeek, min - 1);
      var nextMax := Max(nextMin + WindowSize - 1, min - 1);
      window := Window(nextMin, nextMax);
    }

    method HandleSortByChange(newSortBy: SortBy)
      modifies this
      ensures sortBy == newSortBy
      ensures window == old(window) && sortDirection == old(sortDirection) && sortColumn == old(sortColumn)
    {
      sortBy := newSortBy;
    }

    /** The same column flips the direction; another column takes the perspective's default direction. */
    method HandleSort(column: int)
      modifies this
      ensures sortColumn == column
      ensures sortDirection == ToggleOrDefault(column == old(sortColumn), old(sortDirection), sortBy)
      ensures window == old(window) && sortBy == old(sortBy)
    {
      if column == sortColumn {
        sortDirection := if sortDirection == Asc then Desc else Asc;
      } else {
        sortColumn := column;
        if sortBy == Offense {
          sortDirection := Desc;
        } else {
          sortDirection := Asc;
        }
      }
    }
  }

  /**
   * On a fresh table, clicking a column twice: the first click gives the
   * offense default (descending) and the second flips it.
   */
  method SortSameColumnTwice(column: int) returns (first: SortDirection, second: SortDirection)
    requires column != -1
    ensures first == DefaultDirection(Offense) && second == Flip(first)
  {
    var table := new LiveTableState();
    table.HandleSort(column);
    first := table.sortDirection;
    table.HandleSort(column);
    second := table.sortDirection;
  }
}
