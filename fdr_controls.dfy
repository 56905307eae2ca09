/**
 * The FDR table controls: the visible gameweek window with its one-shot
 * initialisation, its resizing when the device class or the mobile range
 * changes, the next/prev moves, and the sort perspective and range setters.
 * Each effect body and handler is a method on the controls state.
 */
module WindowControls {
  import opened Domain

  /** Number of gameweeks shown at once on desktop. */
  const DesktopWindowSize: int := 10

  /** The inclusive window [start, end] of visible gameweeks. */
  datatype Window = Window(start: int, end: int)

  datatype Move = Next | Prev

  function Width(w: Window): int
  {
    w.end - w.start + 1
  }

  /**
   * One step forward: the end advances but never past the last gameweek, and
   * the start follows so that the width is kept.
   */
  function NextWindow(w: Window, stats: GameweekStats): (r: Window)
    ensures r.end <= stats.max
    ensures Width(r) == Width(w)
    ensures w.end == stats.max ==> r == w
    ensures w.end < stats.max ==> r == Window(w.start + 1, w.end + 1)
    ensures w.end > stats.max ==> r.end == stats.max
  {
    var nextMax := Min(stats.max, w.end + 1);
    var nextMin := Min(w.start + 1, nextMax - Width(w) + 1);
    Window(nextMin, nextMax)
  }

  /**
   * One step back: the start retreats but never before the first gameweek,
   * and the end follows (never ending before the old start - 1).
   */
  function PrevWindow(w: Window, stats: GameweekStats): (r: Window)
    ensures r.start >= stats.min
    ensures w.start <= w.end ==> Width(r) == Width(w)
    ensures w.start == stats.min && w.start <= w.end ==> r == w
    ensures w.start > stats.min && w.start <= w.end ==> r == Window(w.start - 1, w.end - 1)
    ensures w.start < stats.min && w.start <= w.end ==> r.start == stats.min
  {
    var nextMin := Max(stats.min, w.start - 1);
    var nextMax := Max(nextMin + Width(w) - 1, w.start - 1);
    Window(nextMin, nextMax)
  }

  /** A move and the opposite move cancel out for a proper window clear of both ends of the season. */
  lemma MovesCancel(w: Window, stats: GameweekStats)
    requires w.start <= w.end && stats.min < w.start && w.end < stats.max
    ensures PrevWindow(NextWindow(w, stats), stats) == w
    ensures NextWindow(PrevWindow(w, stats), stats) == w
  {
  }

  /** The window after `steps` forward moves. */
  function Advance(w: Window, stats: GameweekStats, steps: nat): Window
    decreases steps
  {
    if steps == 0 then w else Advance(NextWindow(w, stats), stats, steps - 1)
  }

  /**
   * Repeated forward moves reach the last gameweek and stay there, with the
   * width unchanged.
   */
  lemma {:induction false} AdvanceStops(w: Window, stats: GameweekStats, steps: nat)
    requires w.end <= stats.max
    ensures Width(Advance(w, stats, steps)) == Width(w)
    ensures Advance(w, stats, steps).end == Min(stats.max, w.end + steps)
    decreases steps
  {
    if steps > 0 {
      AdvanceStops(NextWindow(w, stats), stats, steps - 1);
    }
  }

  /**
   * The window `[start, min(start + size - 1, max)]` used by initialisation and
   * by every resize: it keeps its start, never ends past the last gameweek, and
   * has exactly `size` gameweeks unless that would run past it.
   */
  function Resized(start: int, size: int, max: int): (r: Window)
    ensures r.start == start && r.end <= max
    ensures start + size - 1 <= max ==> Width(r) == size
    ensures start + size - 1 > max ==> r.end == max
  {
    Window(start, Min(start + size - 1, max))
  }

  class FdrControls {
    var tableWindow: Window
    var sortBy: SortBy
    var orderedTeamIds: Option<seq<int>>
    var gameweekRange: int
    /** Whether the initial window has been set. */
    var initialized: bool
    /** The device class seen by the previous run of the device-switch effect. */
    var prevIsDesktop: bool

    constructor (isDesktop: bool)
      ensures tableWindow == Window(1, 1) && sortBy == Offense && orderedTeamIds == None
      ensures gameweekRange == 5 && !initialized && prevIsDesktop == isDesktop
    {
      tableWindow := Window(1, 1);
      sortBy := Offense;
      orderedTeamIds := None;
      gameweekRange := 5;
      initialized := false;
      prevIsDesktop := isDesktop;
    }

    /** Ten gameweeks on desktop, the chosen range on mobile. */
    function WindowSize(isDesktop: bool): (size: int)
      reads this
      ensures isDesktop ==> size == DesktopWindowSize
      ensures !isDesktop ==> size == gameweekRange
    {
      if isDesktop then DesktopWindowSize else gameweekRange
    }

    /**
     * Sets the window once, the first time a current gameweek (present and
     * non-zero) and a positive last gameweek are both known.
     */
    method InitialWindowEffect(currentGameweek: Option<int>, stats: GameweekStats, isDesktop: bool)
      modifies this
      ensures var fires := !old(initialized) && currentGameweek.Some? && currentGameweek.value != 0 && stats.max > 0;
        && (fires ==> tableWindow == Resized(currentGameweek.value, old(WindowSize(isDesktop)), stats.max) && initialized)
        && (!fires ==> tableWindow == old(tableWindow) && initialized == old(initialized))
      ensures sortBy == old(sortBy) && orderedTeamIds == old(orderedTeamIds)
      ensures gameweekRange == old(gameweekRange) && prevIsDesktop == old(prevIsDesktop)
    {
      if currentGameweek.Some? && currentGameweek.value != 0 && stats.max > 0 && !initialized {
        var endWeek := Min(currentGameweek.value + WindowSize(isDesktop) - 1, stats.max);
        tableWindow := Window(currentGameweek.value, endWeek);
        initialized := true;
      }
    }

    /** After initialisation, a switch between desktop and mobile resizes the window in place. */
    method DeviceSwitchEffect(isDesktop: bool, stats: GameweekStats)
      modifies this
      ensures old(initialized) && old(prevIsDesktop) != isDesktop ==>
        tableWindow == Resized(old(tableWindow.start), old(WindowSize(isDesktop)), stats.max)
      ensures !(old(initialized) && old(prevIsDesktop) != isDesktop) ==> tableWindow == old(tableWindow)
      ensures prevIsDesktop == isDesktop
      ensures sortBy == old(sortBy) && orderedTeamIds == old(orderedTeamIds)
      ensures gameweekRange == old(gameweekRange) && initialized == old(initialized)
    {
      if initialized && prevIsDesktop != isDesktop {
        var newWindowSize := if isDesktop then DesktopWindowSize else gameweekRange;
        var newMax := Min(tableWindow.start + newWindowSize - 1, stats.max);
        tableWindow := Window(tableWindow.start, newMax);
      }
      prevIsDesktop := isDesktop;
    }

    /** After initialisation on mobile, the window is resized in place to the chosen range. */
    method MobileRangeEffect(isDesktop: bool, stats: GameweekStats)
      modifies this
      ensures !isDesktop && old(initialized) ==>
        tableWindow == Resized(old(tableWindow.start), old(gameweekRange), stats.max)
      ensures !(!isDesktop && old(initialized)) ==> tableWindow == old(tableWindow)
      ensures sortBy == old(sortBy) && orderedTeamIds == old(orderedTeamIds)
      ensures gameweekRange == old(gameweekRange) && initialized == old(initialized)
      ensures prevIsDesktop == old(prevIsDesktop)
    {
      if !isDesktop && initialized {
        var newMax := Min(tableWindow.start + gameweekRange - 1, stats.max);
        tableWindow := Window(tableWindow.start, newMax);
      }
    }

    method HandleWindowChange(move: Move, stats: GameweekStats)
      modifies this
      ensures move == Next ==> tableWindow == NextWindow(old(tableWindow), stats)
      ensures move == Prev ==> tableWindow == PrevWindow(old(tableWindow), stats)
      ensures sortBy == old(sortBy) && orderedTeamIds == old(orderedTeamIds)
      ensures gameweekRange == old(gameweekRange) && initialized == old(initialized)
      ensures prevIsDesktop == old(prevIsDesktop)
    {
      var currentWindowSize := tableWindow.end - tableWindow.start + 1;
      if move == Next {
        var nextMax := Min(stats.max, tableWindow.end + 1);
        var nextMin := Min(tableWindow.start + 1, nextMax - currentWindowSize + 1);
        tableWindow := Window(nextMin, nextMax);
      } else {
        var nextMin := Max(stats.min, tableWindow.start - 1);
        var nextMax := Max(nextMin + currentWindowSize - 1, tableWindow.start - 1);
        tableWindow := Window(nextMin, nextMax);
      }
    }

    /** Also `setSortBy`, which the handler only forwards to. */
    method HandleSortByChange(newSortBy: SortBy)
      modifies this
      ensures sortBy == newSortBy
      ensures tableWindow == old(tableWindow) && orderedTeamIds == old(orderedTeamIds)
      ensures gameweekRange == old(gameweekRange) && initialized == old(initialized)
      ensures prevIsDesktop == old(prevIsDesktop)
    {
      sortBy := newSortBy;
    }

    /** Also `setGameweekRange`, which the handler only forwards to. */
    method HandleGameweekRangeChange(range: int)
      modifies this
      ensures gameweekRange == range
      ensures tableWindow == old(tableWindow) && orderedTeamIds == old(orderedTeamIds)
      ensures sortBy == old(sortBy) && initialized == old(initialized)
      ensures prevIsDesktop == old(prevIsDesktop)
    {
      gameweekRange := range;
    }

    method SetTableWindow(w: Window)
      modifies this
      ensures tableWindow == w
      ensures sortBy == old(sortBy) && orderedTeamIds == old(orderedTeamIds)
      ensures gameweekRange == old(gameweekRange) && initialized == old(initialized)
      ensures prevIsDesktop == old(prevIsDesktop)
    {
      tableWindow := w;
    }

    method SetOrderedTeamIds(teamIds: Option<seq<int>>)
      modifies this
      ensures orderedTeamIds == teamIds
      ensures tableWindow == old(tableWindow) && sortBy == old(sortBy)
      ensures gameweekRange == old(gameweekRange) && initialized == old(initialized)
      ensures prevIsDesktop == old(prevIsDesktop)
    {
      orderedTeamIds := teamIds;
    }
  }

  /**
   * The effects in their order on the first render with data: the initial
   * window opens at the current gameweek and the resize effects that follow
   * in the same commit leave it as set.
   */
  method FirstRenderWithData(currentGameweek: int, stats: GameweekStats, isDesktop: bool) returns (w: Window)
    requires currentGameweek != 0 && stats.max > 0
    ensures isDesktop ==> w == Resized(currentGameweek, DesktopWindowSize, stats.max)
    ensures !isDesktop ==> w == Resized(currentGameweek, 5, stats.max)
    ensures w.start == currentGameweek && w.end <= stats.max
  {
    var controls := new FdrControls(isDesktop);
    controls.InitialWindowEffect(Some(currentGameweek), stats, isDesktop);
    controls.DeviceSwitchEffect(isDesktop, stats);
    controls.MobileRangeEffect(isDesktop, stats);
    w := controls.tableWindow;
  }
}
