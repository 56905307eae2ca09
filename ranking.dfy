/**
 * Ranking every team of the lookup by its attack or defense score for one
 * gameweek or a gameweek range: scores are pushed in `Object.keys` order
 * (ascending numeric id), sorted stably by score in the chosen direction and
 * reduced to their ids.
 */
module Ranking {
  import opened Domain
  import opened CanonicalDifficulty
  import StableSort
  import Lookup

  datatype TeamScore = TeamScore(teamId: int, score: real)

  /** The score a team takes for the chosen perspective: attack from off_rating, defense from def_rating. */
  function ScoreAgainst(sigma: Sigmoid, sortBy: SortBy, team: EnrichedTeam, opponents: seq<Opponent>,
                        teamById: map<int, EnrichedTeam>, leagueMean: real): (score: real)
    requires Known(opponents, teamById)
    ensures opponents == [] <==> score == 0.0
    ensures 0.0 <= score < 1.0
    ensures sortBy == Offense ==> score == AttackDifficulty(sigma, team.off_rating, opponents, teamById, leagueMean).score
    ensures sortBy == Defense ==> score == DefenseDifficulty(sigma, team.def_rating, opponents, teamById, leagueMean).score
  {
    if sortBy == Offense then AttackDifficulty(sigma, team.off_rating, opponents, teamById, leagueMean).score
    else DefenseDifficulty(sigma, team.def_rating, opponents, teamById, leagueMean).score
  }

  function GameweekScore(sigma: Sigmoid, sortBy: SortBy, fixtures: seq<Fixture>, gameweek: int, teamId: int,
                         teamById: map<int, EnrichedTeam>, leagueMean: real): real
    requires teamId in teamById && OpponentsResolvable(fixtures, teamById, gameweek, gameweek)
  {
    GameweekOpponentsKnown(teamId, gameweek, fixtures, teamById);
    ScoreAgainst(sigma, sortBy, teamById[teamId], OpponentsForGameweek(teamId, gameweek, fixtures), teamById, leagueMean)
  }

  function RangeScore(sigma: Sigmoid, sortBy: SortBy, fixtures: seq<Fixture>, startWeek: int, endWeek: int, teamId: int,
                      teamById: map<int, EnrichedTeam>, leagueMean: real): real
    requires teamId in teamById && OpponentsResolvable(fixtures, teamById, startWeek, endWeek)
  {
    RangeOpponentsKnown(teamId, startWeek, endWeek, fixtures, teamById);
    ScoreAgainst(sigma, sortBy, teamById[teamId], OpponentsForRange(teamId, startWeek, endWeek, fixtures), teamById, leagueMean)
  }

  /** The score of every team of the lookup for one gameweek. */
  function GameweekScores(sigma: Sigmoid, sortBy: SortBy, fixtures: seq<Fixture>, gameweek: int,
                          teamById: map<int, EnrichedTeam>, leagueMean: real): (scores: map<int, real>)
    requires OpponentsResolvable(fixtures, teamById, gameweek, gameweek)
    ensures scores.Keys == teamById.Keys
  {
    map id | id in teamById :: GameweekScore(sigma, sortBy, fixtures, gameweek, id, teamById, leagueMean)
  }

  /** The score of every team of the lookup over the range [startWeek, endWeek]. */
  function RangeScores(sigma: Sigmoid, sortBy: SortBy, fixtures: seq<Fixture>, startWeek: int, endWeek: int,
                       teamById: map<int, EnrichedTeam>, leagueMean: real): (scores: map<int, real>)
    requires OpponentsResolvable(fixtures, teamById, startWeek, endWeek)
    ensures scores.Keys == teamById.Keys
  {
    map id | id in teamById :: RangeScore(sigma, sortBy, fixtures, startWeek, endWeek, id, teamById, leagueMean)
  }

  // ---------------------------------------------------------------------------
  // What a ranking is

  /** `x` comes before `y`: a better score in the direction, or an equal score and a smaller id. */
  ghost predicate RankedBefore(x: int, y: int, scores: map<int, real>, direction: SortDirection)
  {
    && x in scores && y in scores
    && ((if direction == Asc then scores[x] < scores[y] else scores[x] > scores[y])
        || (scores[x] == scores[y] && x < y))
  }

  /** `ids` lists exactly the teams of `scores`, each before every team it ranks ahead of. */
  ghost predicate IsRanking(ids: seq<int>, scores: map<int, real>, direction: SortDirection)
  {
    && (forall id :: id in ids <==> id in scores)
    && (forall i, j :: 0 <= i < j < |ids| ==> RankedBefore(ids[i], ids[j], scores, direction))
  }

  lemma RankedPositions(ids: seq<int>, scores: map<int, real>, direction: SortDirection, i: int, j: int)
    requires IsRanking(ids, scores, direction) && 0 <= i < |ids| && 0 <= j < |ids|
    ensures RankedBefore(ids[i], ids[j], scores, direction) <==> i < j
    ensures ids[i] == ids[j] <==> i == j
  {
  }

  lemma {:induction false} DistinctCardinality(s: seq<int>)
    requires forall i, j :: 0 <= i < j < |s| ==> s[i] != s[j]
    ensures |set x | x in s| == |s|
  {
    if s != [] {
      var tail := s[1..];
      DistinctCardinality(tail);
      assert (set x | x in s) == (set x | x in tail) + {s[0]};
      assert s[0] !in tail;
    }
  }

  /** A ranking is a permutation of the scored teams: no team is dropped and none repeats. */
  lemma RankingIsPermutation(ids: seq<int>, scores: map<int, real>, direction: SortDirection)
    requires IsRanking(ids, scores, direction)
    ensures |ids| == |scores|
    ensures forall i, j :: 0 <= i < j < |ids| ==> ids[i] != ids[j]
  {
    DistinctCardinality(ids);
    assert forall x :: x in (set y | y in ids) <==> x in scores.Keys;
    assert (set y | y in ids) == scores.Keys;
  }

  /** Along a ranking scores never decrease for `Asc` and never increase for `Desc`. */
  lemma RankingOrdersScores(ids: seq<int>, scores: map<int, real>, direction: SortDirection)
    requires IsRanking(ids, scores, direction)
    ensures forall i :: 0 <= i < |ids| ==> ids[i] in scores
    ensures direction == Asc ==> forall i, j :: 0 <= i < j < |ids| ==> scores[ids[i]] <= scores[ids[j]]
    ensures direction == Desc ==> forall i, j :: 0 <= i < j < |ids| ==> scores[ids[i]] >= scores[ids[j]]
  {
    forall i | 0 <= i < |ids| ensures ids[i] in scores {
      assert ids[i] in ids;
    }
  }

  /** The first team of a ranking is the one ranked ahead of all others, so two rankings start alike. */
  lemma RankingHead(a: seq<int>, b: seq<int>, scores: map<int, real>, direction: SortDirection)
    requires IsRanking(a, scores, direction) && IsRanking(b, scores, direction) && a != []
    ensures b != [] && a[0] == b[0]
  {
    assert a[0] in a;
    assert a[0] in b;
    var k :| 0 <= k < |b| && b[k] == a[0];
    assert b[0] in a;
    var m :| 0 <= m < |a| && a[m] == b[0];
    RankedPositions(a, scores, direction, m, 0);
    RankedPositions(b, scores, direction, 0, k);
  }

  /** Removing the first team of a ranking leaves a ranking of the other teams. */
  lemma RankingTail(a: seq<int>, scores: map<int, real>, direction: SortDirection)
    requires IsRanking(a, scores, direction) && a != []
    ensures IsRanking(a[1..], scores - {a[0]}, direction)
  {
    var rest := scores - {a[0]};
    forall id ensures id in a[1..] <==> id in rest {
      if id in a[1..] {
        var p :| 0 <= p < |a[1..]| && a[1..][p] == id;
        RankedPositions(a, scores, direction, 0, p + 1);
      }
      if id in rest {
        assert id in a;
        var p :| 0 <= p < |a| && a[p] == id;
        assert a[1..][p - 1] == id;
      }
    }
    forall i, j | 0 <= i < j < |a| - 1 ensures RankedBefore(a[1..][i], a[1..][j], rest, direction) {
      assert RankedBefore(a[i + 1], a[j + 1], scores, direction);
      RankedPositions(a, scores, direction, 0, i + 1);
      RankedPositions(a, scores, direction, 0, j + 1);
    }
  }

  /** At most one sequence ranks a given score table: the result is determined by the scores. */
  lemma {:induction false} RankingUnique(a: seq<int>, b: seq<int>, scores: map<int, real>, direction: SortDirection)
    requires IsRanking(a, scores, direction) && IsRanking(b, scores, direction)
    ensures a == b
    decreases |a|
  {
    if a != [] {
      RankingHead(a, b, scores, direction);
      RankingTail(a, scores, direction);
      RankingTail(b, scores, direction);
      RankingUnique(a[1..], b[1..], scores - {a[0]}, direction);
      assert a == [a[0]] + a[1..] && b == [b[0]] + b[1..];
    } else if b != [] {
      RankingHead(b, a, scores, direction);
    }
  }

  ghost predicate NoTies(scores: map<int, real>)
  {
    forall x, y :: x in scores && y in scores && x != y ==> scores[x] != scores[y]
  }

  function Reverse(s: seq<int>): (r: seq<int>)
    ensures |r| == |s|
  {
    seq(|s|, i requires 0 <= i < |s| => s[|s| - 1 - i])
  }

  lemma ReverseInvolutive(s: seq<int>)
    ensures Reverse(Reverse(s)) == s
  {
    assert forall i :: 0 <= i < |s| ==> Reverse(Reverse(s))[i] == s[i];
  }

  /** Position `k` moves to position `|s| - 1 - k`. */
  lemma ReverseAt(s: seq<int>, k: int)
    requires 0 <= k < |s|
    ensures Reverse(s)[|s| - 1 - k] == s[k]
  {
  }

  /** Without ties, reversing the ascending ranking gives a descending ranking. */
  lemma ReverseOfAscending(asc: seq<int>, scores: map<int, real>)
    requires IsRanking(asc, scores, Asc) && NoTies(scores)
    ensures IsRanking(Reverse(asc), scores, Desc)
  {
    var r := Reverse(asc);
    var n := |asc|;
    forall id ensures id in r <==> id in scores {
      if id in r {
        var p :| 0 <= p < n && r[p] == id;
        assert asc[n - 1 - p] == id;
      }
      if id in scores {
        var p :| 0 <= p < n && asc[p] == id;
        assert r[n - 1 - p] == id;
      }
    }
    forall i, j | 0 <= i < j < n ensures RankedBefore(r[i], r[j], scores, Desc) {
      assert RankedBefore(asc[n - 1 - j], asc[n - 1 - i], scores, Asc);
      RankedPositions(asc, scores, Asc, n - 1 - j, n - 1 - i);
    }
  }

  /** Two teams with the same score appear in ascending id order in both directions. */
  lemma TiedTeamsKeepIdOrder(ids: seq<int>, scores: map<int, real>, direction: SortDirection, i: int, j: int)
    requires IsRanking(ids, scores, direction) && 0 <= i < |ids| && 0 <= j < |ids|
    requires ids[i] in scores && ids[j] in scores && scores[ids[i]] == scores[ids[j]] && ids[i] < ids[j]
    ensures i < j
  {
    RankedPositions(ids, scores, direction, i, j);
  }

  /**
   * The descending ranking is the exact reverse of the ascending one if and
   * only if no two teams share a score.
   */
  lemma DescendingReversesAscending(asc: seq<int>, desc: seq<int>, scores: map<int, real>)
    requires IsRanking(asc, scores, Asc) && IsRanking(desc, scores, Desc)
    ensures desc == Reverse(asc) <==> NoTies(scores)
  {
    if NoTies(scores) {
      ReverseOfAscending(asc, scores);
      RankingUnique(desc, Reverse(asc), scores, Desc);
    } else {
      var x, y :| x in scores && y in scores && x != y && scores[x] == scores[y];
      if y < x {
        x, y := y, x;
      }
      TieSurvivesReverse(asc, scores, x, y);
    }
  }

  /** Two tied teams keep their id order ascending, so the reversed list puts them out of order descending. */
  lemma TieSurvivesReverse(asc: seq<int>, scores: map<int, real>, x: int, y: int)
    requires IsRanking(asc, scores, Asc)
    requires x in scores && y in scores && x < y && scores[x] == scores[y]
    ensures !IsRanking(Reverse(asc), scores, Desc)
  {
    assert x in asc && y in asc;
    var n := |asc|;
    var i :| 0 <= i < n && asc[i] == x;
    var j :| 0 <= j < n && asc[j] == y;
    TiedTeamsKeepIdOrder(asc, scores, Asc, i, j);
    ReverseAt(asc, i);
    ReverseAt(asc, j);
    assert !RankedBefore(Reverse(asc)[n - 1 - j], Reverse(asc)[n - 1 - i], scores, Desc);
  }

  /**
   * A team with score 0 while every other team scores above 0 (a blank week
   * among playing teams) is ranked first ascending and last descending.
   */
  lemma BlankTeamPlacement(ids: seq<int>, scores: map<int, real>, direction: SortDirection, t: int)
    requires IsRanking(ids, scores, direction)
    requires t in scores && scores[t] == 0.0
    requires forall x :: x in scores && x != t ==> scores[x] > 0.0
    ensures ids != []
    ensures direction == Asc ==> ids[0] == t
    ensures direction == Desc ==> ids[|ids| - 1] == t
  {
    assert t in ids;
    var p :| 0 <= p < |ids| && ids[p] == t;
    RankedPositions(ids, scores, direction, 0, p);
    RankedPositions(ids, scores, direction, p, |ids| - 1);
    if direction == Asc && p != 0 {
      assert false;
    }
    if direction == Desc && p != |ids| - 1 {
      assert false;
    }
  }

  /** A team with no fixture in the week scores 0 from either perspective. */
  lemma BlankTeamScoresZero(sigma: Sigmoid, sortBy: SortBy, fixtures: seq<Fixture>, gameweek: int, t: int,
                            teamById: map<int, EnrichedTeam>, leagueMean: real)
    requires OpponentsResolvable(fixtures, teamById, gameweek, gameweek) && t in teamById
    ensures OpponentsForGameweek(t, gameweek, fixtures) == [] <==>
      GameweekScores(sigma, sortBy, fixtures, gameweek, teamById, leagueMean)[t] == 0.0
  {
  }

  /** For a single week the gameweek scores and the one-week range scores coincide. */
  lemma OneWeekScoresAlike(sigma: Sigmoid, sortBy: SortBy, fixtures: seq<Fixture>, w: int,
                           teamById: map<int, EnrichedTeam>, leagueMean: real)
    requires OpponentsResolvable(fixtures, teamById, w, w)
    ensures GameweekScores(sigma, sortBy, fixtures, w, teamById, leagueMean)
         == RangeScores(sigma, sortBy, fixtures, w, w, teamById, leagueMean)
  {
    forall id | id in teamById
      ensures GameweekScores(sigma, sortBy, fixtures, w, teamById, leagueMean)[id]
           == RangeScores(sigma, sortBy, fixtures, w, w, teamById, leagueMean)[id]
    {
      RangeOfOneWeek(id, w, fixtures);
    }
  }

  /** A one-week range scores, and therefore ranks, exactly as that gameweek does. */
  lemma RangeOfOneWeekRanksAlike(sigma: Sigmoid, sortBy: SortBy, fixtures: seq<Fixture>, w: int,
                                 teamById: map<int, EnrichedTeam>, leagueMean: real,
                                 direction: SortDirection, byWeek: seq<int>, byRange: seq<int>)
    requires OpponentsResolvable(fixtures, teamById, w, w)
    requires IsRanking(byWeek, GameweekScores(sigma, sortBy, fixtures, w, teamById, leagueMean), direction)
    requires IsRanking(byRange, RangeScores(sigma, sortBy, fixtures, w, w, teamById, leagueMean), direction)
    ensures byWeek == byRange
  {
    OneWeekScoresAlike(sigma, sortBy, fixtures, w, teamById, leagueMean);
    RankingUnique(byWeek, byRange, GameweekScores(sigma, sortBy, fixtures, w, teamById, leagueMean), direction);
  }

  // ---------------------------------------------------------------------------
  // The sorting methods

  function ScoreOrder(direction: SortDirection): (TeamScore, TeamScore) -> bool
  {
    if direction == Asc then (a: TeamScore, b: TeamScore) => a.score <= b.score
    else (a: TeamScore, b: TeamScore) => a.score >= b.score
  }

  function IdOrder(): (TeamScore, TeamScore) -> bool
  {
    (a: TeamScore, b: TeamScore) => a.teamId < b.teamId
  }

  /** `teamScores` holds one entry per scored team, with that team's score, in ascending id order. */
  ghost predicate Tabulates(teamScores: seq<TeamScore>, scores: map<int, real>)
  {
    && (forall id :: id in scores <==> exists k :: 0 <= k < |teamScores| && teamScores[k].teamId == id)
    && (forall k :: 0 <= k < |teamScores| ==> teamScores[k].teamId in scores && teamScores[k].score == scores[teamScores[k].teamId])
    && StableSort.Chained(teamScores, IdOrder())
  }

  lemma TabulatesKeys(keys: seq<int>, teamScores: seq<TeamScore>, scores: map<int, real>)
    requires forall id :: id in scores <==> id in keys
    requires Lookup.StrictlyAscending(keys)
    requires |teamScores| == |keys|
    requires forall k :: 0 <= k < |keys| ==> keys[k] in scores && teamScores[k] == TeamScore(keys[k], scores[keys[k]])
    ensures Tabulates(teamScores, scores)
  {
    forall id | id in scores ensures exists k :: 0 <= k < |teamScores| && teamScores[k].teamId == id {
      var k :| 0 <= k < |keys| && keys[k] == id;
      assert teamScores[k].teamId == id;
    }
  }

  /** Pushing the next key's score keeps the pushed list a prefix of the key order paired with the scores. */
  lemma PushKeepsTabulated(keys: seq<int>, teamScores: seq<TeamScore>, scores: map<int, real>, score: real)
    requires |teamScores| < |keys| && keys[|teamScores|] in scores && score == scores[keys[|teamScores|]]
    requires forall k :: 0 <= k < |teamScores| ==> keys[k] in scores && teamScores[k] == TeamScore(keys[k], scores[keys[k]])
    ensures var pushed := teamScores + [TeamScore(keys[|teamScores|], score)];
      forall k :: 0 <= k < |pushed| ==> keys[k] in scores && pushed[k] == TeamScore(keys[k], scores[keys[k]])
  {
  }

  /** Sorts the pushed scores stably in the direction and keeps only the ids. */
  method RankTeamScores(teamScores: seq<TeamScore>, direction: SortDirection, ghost scores: map<int, real>)
    returns (ids: seq<int>)
    requires Tabulates(teamScores, scores)
    ensures IsRanking(ids, scores, direction)
  {
    var le := ScoreOrder(direction);
    var sorted := StableSort.Sort(teamScores, le, IdOrder());
    ids := seq(|sorted|, k requires 0 <= k < |sorted| => sorted[k].teamId);
    assert forall k :: 0 <= k < |sorted| ==> sorted[k].teamId in scores && sorted[k].score == scores[sorted[k].teamId] by {
      forall k | 0 <= k < |sorted| ensures sorted[k].teamId in scores && sorted[k].score == scores[sorted[k].teamId] {
        assert sorted[k] in multiset(teamScores);
      }
    }
    assert forall id :: id in ids <==> id in scores by {
      forall id ensures id in ids <==> id in scores {
        if id in scores {
          var k :| 0 <= k < |teamScores| && teamScores[k].teamId == id;
          assert teamScores[k] in multiset(sorted);
          var p :| 0 <= p < |sorted| && sorted[p] == teamScores[k];
          assert ids[p] == id;
        }
      }
    }
    forall i, j | 0 <= i < j < |ids| ensures RankedBefore(ids[i], ids[j], scores, direction) {
      assert le(sorted[i], sorted[j]);
      if sorted[i].score == sorted[j].score {
        assert le(sorted[j], sorted[i]);
      }
    }
  }

  /** Pushes every team's score in ascending id order, as `Object.keys(...).forEach` visits them. */
  method SortByGameweek(sigma: Sigmoid, fixtures: seq<Fixture>, gameweek: int, direction: SortDirection, sortBy: SortBy,
                        teamById: map<int, EnrichedTeam>, leagueMean: real) returns (ids: seq<int>)
    requires OpponentsResolvable(fixtures, teamById, gameweek, gameweek)
    ensures IsRanking(ids, GameweekScores(sigma, sortBy, fixtures, gameweek, teamById, leagueMean), direction)
    ensures |ids| == |teamById|
  {
    ghost var scores := GameweekScores(sigma, sortBy, fixtures, gameweek, teamById, leagueMean);
    var keys := Lookup.AscendingKeys(teamById);
    var teamScores: seq<TeamScore> := [];
    var i := 0;
    while i < |keys|
      invariant 0 <= i <= |keys|
      invariant |teamScores| == i
      invariant forall k :: 0 <= k < i ==> teamScores[k] == TeamScore(keys[k], scores[keys[k]])
    {
      var teamId := keys[i];
      var score := GameweekScore(sigma, sortBy, fixtures, gameweek, teamId, teamById, leagueMean);
      PushKeepsTabulated(keys, teamScores, scores, score);
      teamScores := teamScores + [TeamScore(teamId, score)];
      i := i + 1;
    }
    TabulatesKeys(keys, teamScores, scores);
    ids := RankTeamScores(teamScores, direction, scores);
    RankingIsPermutation(ids, scores, direction);
  }

  method SortByGameweekRange(sigma: Sigmoid, fixtures: seq<Fixture>, startWeek: int, endWeek: int,
                             direction: SortDirection, sortBy: SortBy,
                             teamById: map<int, EnrichedTeam>, leagueMean: real) returns (ids: seq<int>)
    requires OpponentsResolvable(fixtures, teamById, startWeek, endWeek)
    ensures IsRanking(ids, RangeScores(sigma, sortBy, fixtures, startWeek, endWeek, teamById, leagueMean), direction)
    ensures |ids| == |teamById|
  {
    ghost var scores := RangeScores(sigma, sortBy, fixtures, startWeek, endWeek, teamById, leagueMean);
    var keys := Lookup.AscendingKeys(teamById);
    var teamScores: seq<TeamScore> := [];
    var i := 0;
    while i < |keys|
      invariant 0 <= i <= |keys|
      invariant |teamScores| == i
      invariant forall k :: 0 <= k < i ==> teamScores[k] == TeamScore(keys[k], scores[keys[k]])
    {
      var teamId := keys[i];
      var score := RangeScore(sigma, sortBy, fixtures, startWeek, endWeek, teamId, teamById, leagueMean);
      PushKeepsTabulated(keys, teamScores, scores, score);
      teamScores := teamScores + [TeamScore(teamId, score)];
      i := i + 1;
    }
    TabulatesKeys(keys, teamScores, scores);
    ids := RankTeamScores(teamScores, direction, scores);
    RankingIsPermutation(ids, scores, direction);
  }
}
