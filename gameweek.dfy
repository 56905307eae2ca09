/**
 * Gameweek helpers of the older fixture grid: the current gameweek (the first
 * event with a fixture still to kick off), the last gameweek and the list of
 * gameweeks visible from a starting one. The clock is the parameter `now`.
 */
module Gameweek {
  import opened Domain
  import Lookup
  import LegacyFixtures
  import DataProvider

  /** Some fixture of the list kicks off strictly after `now`. */
  predicate HasUpcoming(fixtures: seq<Fixture>, now: int)
  {
    exists f :: f in fixtures && f.kickoff > now
  }

  /**
   * The smallest event with a fixture kicking off after `now`; every earlier
   * event has kicked off entirely. When nothing is upcoming: the largest
   * event, or 1 when there are no fixtures or the largest event is 0.
   */
  method GetCurrentGameweek(fixtures: seq<Fixture>, now: int) returns (current: int)
    ensures HasUpcoming(fixtures, now) ==>
      && (exists f :: f in fixtures && f.event == current && f.kickoff > now)
      && (forall f :: f in fixtures && f.event < current ==> f.kickoff <= now)
    ensures !HasUpcoming(fixtures, now) && fixtures == [] ==> current == 1
    ensures !HasUpcoming(fixtures, now) && fixtures != [] ==>
      current == if DataProvider.MaxEvent(fixtures) == 0 then 1 else DataProvider.MaxEvent(fixtures)
  {
    var eventFixtures := LegacyFixtures.GroupFixturesByEvent(fixtures);
    var events := Lookup.AscendingKeys(eventFixtures);
    var k := 0;
    while k < |events|
      invariant 0 <= k <= |events|
      invariant forall f :: f in fixtures && f.event in events[..k] ==> f.kickoff <= now
    {
      var event := events[k];
      var eventFixtureList := eventFixtures[event];
      if HasUpcoming(eventFixtureList, now) {
        forall f | f in fixtures && f.event < event
          ensures f.kickoff <= now
        {
          assert f.event in eventFixtures;
          var p :| 0 <= p < |events| && events[p] == f.event;
          assert p < k;
          assert events[..k][p] == f.event;
        }
        return event;
      }
      forall f | f in fixtures && f.event in events[..k + 1]
        ensures f.kickoff <= now
      {
        if f.event == event {
          assert f in eventFixtureList;
        } else {
          assert f.event in events[..k];
        }
      }
      k := k + 1;
    }
    assert events[..k] == events;
    assert forall f :: f in fixtures ==> f.event in events;
    assert fixtures != [] ==> fixtures[0].event in eventFixtures;
    if |events| == 0 {
      return 1;
    }
    assert events[0] in events;
    LastKeyIsMaxEvent(fixtures, events);
    var last := events[|events| - 1];
    current := if last == 0 then 1 else last;
  }

  /** The last of the ascending event keys is the largest event. */
  lemma LastKeyIsMaxEvent(fixtures: seq<Fixture>, events: seq<int>)
    requires fixtures != [] && events != []
    requires Lookup.StrictlyAscending(events)
    requires forall e :: e in events <==> exists f :: f in fixtures && f.event == e
    ensures events[|events| - 1] == DataProvider.MaxEvent(fixtures)
  {
    var m := DataProvider.MaxEvent(fixtures);
    var last := events[|events| - 1];
    assert m in events;
    var p :| 0 <= p < |events| && events[p] == m;
    assert last in events;
  }

  /** 38 when there are no fixtures, otherwise the largest event. */
  function GetMaxGameweek(fixtures: seq<Fixture>): (max: int)
    ensures fixtures == [] ==> max == 38
    ensures fixtures != [] ==>
      && (forall f :: f in fixtures ==> f.event <= max)
      && (exists f :: f in fixtures && f.event == max)
  {
    if |fixtures| == 0 then 38 else DataProvider.MaxEvent(fixtures)
  }

  /**
   * The gameweeks `start, start + 1, ...`, at most `count` of them and none
   * past `maxGameweek`.
   */
  method GetVisibleGameweeks(startGameweek: int, count: int, maxGameweek: int) returns (gameweeks: seq<int>)
    ensures |gameweeks| == Max(0, Min(count, maxGameweek - startGameweek + 1))
    ensures forall k :: 0 <= k < |gameweeks| ==> gameweeks[k] == startGameweek + k && gameweeks[k] <= maxGameweek
  {
    gameweeks := [];
    var i := 0;
    while i < count
      invariant count >= 0 ==> 0 <= i <= count
      invariant count < 0 ==> i == 0
      invariant |gameweeks| == Max(0, Min(i, maxGameweek - startGameweek + 1))
      invariant forall k :: 0 <= k < |gameweeks| ==> gameweeks[k] == startGameweek + k && gameweeks[k] <= maxGameweek
    {
      var gw := startGameweek + i;
      if gw <= maxGameweek {
        gameweeks := gameweeks + [gw];
      }
      i := i + 1;
    }
  }
}
