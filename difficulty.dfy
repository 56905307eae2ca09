/**
 * The canonical FDR scoring engine: opponent extraction for one gameweek or a
 * gameweek range, the logistic squash of each rating gap around the league
 * mean, the complement-product combination of several fixtures, the two
 * classification policies (absolute thresholds and percentile), the league
 * mean and the team lookup.
 */
module CanonicalDifficulty {
  import opened Domain
  import Lookup

  // ---------------------------------------------------------------------------
  // Squash and combination

  /** The per-fixture value: the logistic function of k * (x - leagueMean). */
  function Squash(sigma: Sigmoid, x: real, leagueMean: real): (p: real)
    ensures 0.0 < p < 1.0
  {
    sigma(Steepness * (x - leagueMean))
  }

  lemma SquashMonotone(sigma: Sigmoid, x: real, y: real, leagueMean: real)
    requires x <= y
    ensures Squash(sigma, x, leagueMean) <= Squash(sigma, y, leagueMean)
  {
  }

  ghost predicate Probabilities(ps: seq<real>)
  {
    forall i :: 0 <= i < |ps| ==> 0.0 < ps[i] < 1.0
  }

  /** The running product of (1 - p_i), folded from the left as `reduce` does. */
  function ComplementProduct(ps: seq<real>): real
  {
    if ps == [] then 1.0 else ComplementProduct(ps[..|ps| - 1]) * (1.0 - ps[|ps| - 1])
  }

  /** A named product `ab` of a fraction `a` and a proper fraction `b` is positive and below both. */
  lemma ProductBelow(a: real, b: real, ab: real)
    requires 0.0 < a <= 1.0 && 0.0 < b < 1.0 && ab == a * b
    ensures 0.0 < ab <= b && ab < a
    ensures a < 1.0 ==> ab < b
  {
    MulBounds(a, b);
    assert ab < a;
    assert ab <= b;
  }

  lemma MulBounds(a: real, b: real)
    requires 0.0 < a <= 1.0 && 0.0 < b < 1.0
    ensures 0.0 < a * b <= b && a * b < a
    ensures a < 1.0 ==> a * b < b
  {
    MulPos(a, b);
    MulBelow(a, b);
    if a < 1.0 {
      MulBelow(b, a);
    }
  }

  /** x * y lies strictly below x when y is a proper fraction. */
  lemma MulBelow(x: real, y: real)
    requires x > 0.0 && 0.0 < y < 1.0
    ensures x * y < x
    ensures y * x < x
  {
    MulPos(x, 1.0 - y);
    assert x - x * y == x * (1.0 - y);
  }

  lemma MulPos(x: real, y: real)
    requires x > 0.0 && y > 0.0
    ensures x * y > 0.0
  {
  }

  /** Named products of smaller positive factors are no larger. */
  lemma ProductAntitone(a: real, b: real, c: real, d: real, ab: real, cd: real)
    requires 0.0 < c <= a && 0.0 < d <= b && ab == a * b && cd == c * d
    ensures cd <= ab
  {
    MulMonotone(a, b, c, d);
    assert cd <= ab;
  }

  lemma MulMonotone(a: real, b: real, c: real, d: real)
    requires 0.0 < c <= a && 0.0 < d <= b
    ensures c * d <= a * b
  {
    assert a * b - c * d == a * (b - d) + d * (a - c);
  }

  /**
   * With every p_i a probability, the product of complements is positive, at
   * most each single complement, strictly below 1 once a fixture is present,
   * and strictly below each complement once there are two fixtures.
   */
  lemma {:induction false} ComplementProductBounds(ps: seq<real>)
    requires Probabilities(ps)
    ensures 0.0 < ComplementProduct(ps) <= 1.0
    ensures ps != [] ==> ComplementProduct(ps) < 1.0
    ensures forall i :: 0 <= i < |ps| ==> ComplementProduct(ps) <= 1.0 - ps[i]
    ensures |ps| >= 2 ==> forall i :: 0 <= i < |ps| ==> ComplementProduct(ps) < 1.0 - ps[i]
  {
    if ps != [] {
      var init, last := ps[..|ps| - 1], ps[|ps| - 1];
      assert Probabilities(init) by {
        forall i | 0 <= i < |init| ensures 0.0 < init[i] < 1.0 {
          assert init[i] == ps[i];
        }
      }
      ComplementProductBounds(init);
      var a, b := ComplementProduct(init), 1.0 - last;
      var cp := ComplementProduct(ps);
      ProductBelow(a, b, cp);
      forall i | 0 <= i < |ps| ensures cp <= 1.0 - ps[i] && (|ps| >= 2 ==> cp < 1.0 - ps[i]) {
        if i < |ps| - 1 {
          assert init[i] == ps[i];
        }
      }
    }
  }

  /** `1 - Π(1 - p_i)`, and 0 for no fixtures. */
  function CombineWeighted(ps: seq<real>): (r: real)
    ensures ps == [] ==> r == 0.0
    ensures Probabilities(ps) && ps != [] ==> 0.0 < r < 1.0
    ensures Probabilities(ps) ==> forall i :: 0 <= i < |ps| ==> ps[i] <= r
  {
    if |ps| == 0 then 0.0
    else
      CombineWeightedBounds(ps);
      1.0 - ComplementProduct(ps)
  }

  lemma CombineWeightedBounds(ps: seq<real>)
    ensures Probabilities(ps) ==> 0.0 < ComplementProduct(ps) <= 1.0
    ensures Probabilities(ps) && ps != [] ==> ComplementProduct(ps) < 1.0
    ensures Probabilities(ps) ==> forall i :: 0 <= i < |ps| ==> ComplementProduct(ps) <= 1.0 - ps[i]
  {
    if Probabilities(ps) {
      ComplementProductBounds(ps);
    }
  }

  /** A double gameweek scores strictly more than either of its fixtures alone. */
  lemma CombineExceedsEach(ps: seq<real>)
    requires Probabilities(ps) && |ps| >= 2
    ensures forall i :: 0 <= i < |ps| ==> ps[i] < CombineWeighted(ps)
  {
    ComplementProductBounds(ps);
  }

  /** Raising any per-fixture value never lowers the combined score. */
  lemma {:induction false} CombineWeightedMonotone(ps: seq<real>, qs: seq<real>)
    requires |ps| == |qs| && Probabilities(ps) && Probabilities(qs)
    requires forall i :: 0 <= i < |ps| ==> ps[i] <= qs[i]
    ensures CombineWeighted(ps) <= CombineWeighted(qs)
  {
    if ps != [] {
      ComplementProductAntitone(ps, qs);
    }
  }

  lemma {:induction false} ComplementProductAntitone(ps: seq<real>, qs: seq<real>)
    requires |ps| == |qs| && Probabilities(ps) && Probabilities(qs)
    requires forall i :: 0 <= i < |ps| ==> ps[i] <= qs[i]
    ensures ComplementProduct(qs) <= ComplementProduct(ps)
  {
    if ps != [] {
      var n := |ps| - 1;
      var a, b := ComplementProduct(ps[..n]), 1.0 - ps[n];
      var c, d := ComplementProduct(qs[..n]), 1.0 - qs[n];
      assert 0.0 < c <= a by {
        assert Probabilities(ps[..n]) && Probabilities(qs[..n]) by {
          forall i | 0 <= i < n ensures 0.0 < ps[..n][i] < 1.0 && 0.0 < qs[..n][i] < 1.0 {
            assert ps[..n][i] == ps[i] && qs[..n][i] == qs[i];
          }
        }
        forall i | 0 <= i < n ensures ps[..n][i] <= qs[..n][i] {
          assert ps[..n][i] == ps[i] && qs[..n][i] == qs[i];
        }
        ComplementProductAntitone(ps[..n], qs[..n]);
        ComplementProductBounds(qs[..n]);
      }
      ProductAntitone(a, b, c, d, ComplementProduct(ps), ComplementProduct(qs));
    }
  }


  // ---------------------------------------------------------------------------
  // Classification

  /** Absolute thresholds on the combined score. */
  function Rating(score: real): (d: Difficulty)
    ensures d == Invalid <==> score == 0.0
    ensures d == Easy <==> score > 0.66
    ensures d == Medium <==> 0.33 < score <= 0.66
    ensures d == Hard <==> score <= 0.33 && score != 0.0
  {
    if score == 0.0 then Invalid
    else if score > 0.66 then Easy
    else if score > 0.33 then Medium
    else Hard
  }

  function Positives(xs: seq<real>): (r: seq<real>)
    ensures |r| <= |xs|
    ensures forall x :: x in r <==> x in xs && x > 0.0
  {
    if xs == [] then []
    else (if xs[0] > 0.0 then [xs[0]] else []) + Positives(xs[1..])
  }

  function Below(xs: seq<real>, score: real): (r: seq<real>)
    ensures |r| <= |xs|
    ensures forall x :: x in r <==> x in xs && x < score
  {
    if xs == [] then []
    else (if xs[0] < score then [xs[0]] else []) + Below(xs[1..], score)
  }

  /** Percentile policy: rank the score among the positive scores of the pool. */
  function PercentileRating(score: real, allScores: seq<real>): Difficulty
  {
    if score == 0.0 || |allScores| == 0 then Invalid
    else
      var valid := Positives(allScores);
      if |valid| == 0 then Invalid
      else
        var countBelow := |Below(valid, score)|;
        var percentile := (countBelow as real / |valid| as real) * 100.0;
        if percentile >= 66.0 then Easy
        else if percentile <= 33.0 then Hard
        else Medium
  }

  lemma PercentThreshold(c: nat, n: nat, t: nat)
    requires n > 0
    ensures (c as real / n as real) * 100.0 >= t as real <==> 100 * c >= t * n
    ensures (c as real / n as real) * 100.0 <= t as real <==> 100 * c <= t * n
  {
    var q := c as real / n as real;
    assert q * n as real == c as real;
    assert q * 100.0 * n as real == 100.0 * c as real;
    assert (t * n) as real == t as real * n as real;
  }

  /**
   * With n positive scores in the pool, c of them below `score`: invalid when
   * the score is 0 or the pool has no positive score; otherwise easy iff
   * 100c >= 66n, hard iff 100c <= 33n, and medium in between.
   */
  lemma PercentileRatingSpec(score: real, allScores: seq<real>)
    ensures var n := |Positives(allScores)|;
      PercentileRating(score, allScores) == Invalid <==> score == 0.0 || n == 0
    ensures var n, c := |Positives(allScores)|, |Below(Positives(allScores), score)|;
      score != 0.0 && n > 0 ==>
        && (PercentileRating(score, allScores) == Easy <==> 100 * c >= 66 * n)
        && (PercentileRating(score, allScores) == Hard <==> 100 * c <= 33 * n)
        && (PercentileRating(score, allScores) == Medium <==> 33 * n < 100 * c < 66 * n)
  {
    if |Positives(allScores)| > 0 {
      PercentThreshold(|Below(Positives(allScores), score)|, |Positives(allScores)|, 66);
      PercentThreshold(|Below(Positives(allScores), score)|, |Positives(allScores)|, 33);
    }
  }

  // ---------------------------------------------------------------------------
  // Opponents

  /** The opponent a fixture gives the team: none when the team does not play in it. */
  function Perspective(teamId: int, f: Fixture): seq<Opponent>
  {
    if f.team_h == teamId then [Opponent(f.team_a, true)]
    else if f.team_a == teamId then [Opponent(f.team_h, false)]
    else []
  }

  function OpponentsForGameweek(teamId: int, gameweek: int, fixtures: seq<Fixture>): seq<Opponent>
  {
    if fixtures == [] then []
    else
      (if fixtures[0].event == gameweek then Perspective(teamId, fixtures[0]) else [])
      + OpponentsForGameweek(teamId, gameweek, fixtures[1..])
  }

  function OpponentsForRange(teamId: int, startWeek: int, endWeek: int, fixtures: seq<Fixture>): seq<Opponent>
  {
    if fixtures == [] then []
    else
      (if startWeek <= fixtures[0].event <= endWeek then Perspective(teamId, fixtures[0]) else [])
      + OpponentsForRange(teamId, startWeek, endWeek, fixtures[1..])
  }

  /** A one-week range yields exactly the single-gameweek opponents. */
  lemma {:induction false} RangeOfOneWeek(teamId: int, w: int, fixtures: seq<Fixture>)
    ensures OpponentsForRange(teamId, w, w, fixtures) == OpponentsForGameweek(teamId, w, fixtures)
  {
    if fixtures != [] {
      RangeOfOneWeek(teamId, w, fixtures[1..]);
    }
  }

  lemma {:induction false} EmptyRange(teamId: int, startWeek: int, endWeek: int, fixtures: seq<Fixture>)
    requires startWeek > endWeek
    ensures OpponentsForRange(teamId, startWeek, endWeek, fixtures) == []
  {
    if fixtures != [] {
      EmptyRange(teamId, startWeek, endWeek, fixtures[1..]);
    }
  }

  /** Opponents follow fixture order: the opponents of a concatenation concatenate. */
  lemma {:induction false} OpponentsAppend(teamId: int, gameweek: int, xs: seq<Fixture>, ys: seq<Fixture>)
    ensures OpponentsForGameweek(teamId, gameweek, xs + ys)
         == OpponentsForGameweek(teamId, gameweek, xs) + OpponentsForGameweek(teamId, gameweek, ys)
  {
    if xs != [] {
      var head := if xs[0].event == gameweek then Perspective(teamId, xs[0]) else [];
      assert (xs + ys)[0] == xs[0];
      assert (xs + ys)[1..] == xs[1..] + ys;
      OpponentsAppend(teamId, gameweek, xs[1..], ys);
      calc {
        OpponentsForGameweek(teamId, gameweek, xs + ys);
        head + OpponentsForGameweek(teamId, gameweek, xs[1..] + ys);
        head + (OpponentsForGameweek(teamId, gameweek, xs[1..]) + OpponentsForGameweek(teamId, gameweek, ys));
        (head + OpponentsForGameweek(teamId, gameweek, xs[1..])) + OpponentsForGameweek(teamId, gameweek, ys);
      }
    } else {
      assert xs + ys == ys;
    }
  }

  /** A range pools its two halves: the opponents of [lo, hi] are those of [lo, mid] and then (mid, hi], fixture by fixture. */
  lemma {:induction false} RangeSplits(teamId: int, lo: int, mid: int, hi: int, fixtures: seq<Fixture>)
    requires lo <= mid < hi
    ensures multiset(OpponentsForRange(teamId, lo, hi, fixtures))
         == multiset(OpponentsForRange(teamId, lo, mid, fixtures)) + multiset(OpponentsForRange(teamId, mid + 1, hi, fixtures))
  {
    if fixtures != [] {
      RangeSplits(teamId, lo, mid, hi, fixtures[1..]);
    }
  }

  /**
   * Every opponent comes from a fixture of the week that involves the team:
   * the away side with home = true when the team is at home, the home side
   * with home = false when it is away.
   */
  lemma {:induction false} OpponentsSound(teamId: int, gameweek: int, fixtures: seq<Fixture>, o: Opponent)
    requires o in OpponentsForGameweek(teamId, gameweek, fixtures)
    ensures exists f :: (f in fixtures && f.event == gameweek &&
      ((f.team_h == teamId && o == Opponent(f.team_a, true)) ||
       (f.team_a == teamId && f.team_h != teamId && o == Opponent(f.team_h, false))))
  {
    var f := fixtures[0];
    if f.event == gameweek && o in Perspective(teamId, f) {
      assert f in fixtures;
    } else {
      OpponentsSound(teamId, gameweek, fixtures[1..], o);
      var g :| g in fixtures[1..] && g.event == gameweek &&
        ((g.team_h == teamId && o == Opponent(g.team_a, true)) ||
         (g.team_a == teamId && g.team_h != teamId && o == Opponent(g.team_h, false)));
      assert g in fixtures;
    }
  }

  /** Every fixture of the week involving the team contributes its opponent. */
  lemma {:induction false} OpponentsComplete(teamId: int, gameweek: int, fixtures: seq<Fixture>, f: Fixture)
    requires f in fixtures && f.event == gameweek
    ensures f.team_h == teamId ==> Opponent(f.team_a, true) in OpponentsForGameweek(teamId, gameweek, fixtures)
    ensures f.team_a == teamId && f.team_h != teamId ==>
      Opponent(f.team_h, false) in OpponentsForGameweek(teamId, gameweek, fixtures)
  {
    if fixtures[0] != f {
      OpponentsComplete(teamId, gameweek, fixtures[1..], f);
    }
  }

  /**
   * The lookup resolves every opponent that a fixture of weeks [lo, hi] can
   * give a team of the lookup (the source throws on a missing one).
   */
  ghost predicate OpponentsResolvable(fixtures: seq<Fixture>, teamById: map<int, EnrichedTeam>, lo: int, hi: int)
  {
    forall f :: f in fixtures && lo <= f.event <= hi ==>
      (f.team_h in teamById ==> f.team_a in teamById) && (f.team_a in teamById ==> f.team_h in teamById)
  }

  ghost predicate Known(opponents: seq<Opponent>, teamById: map<int, EnrichedTeam>)
  {
    forall o :: o in opponents ==> o.id in teamById
  }

  lemma {:induction false} RangeOpponentsKnown(teamId: int, lo: int, hi: int, fixtures: seq<Fixture>, teamById: map<int, EnrichedTeam>)
    requires teamId in teamById && OpponentsResolvable(fixtures, teamById, lo, hi)
    ensures Known(OpponentsForRange(teamId, lo, hi, fixtures), teamById)
  {
    if fixtures != [] {
      RangeOpponentsKnown(teamId, lo, hi, fixtures[1..], teamById);
    }
  }

  lemma GameweekOpponentsKnown(teamId: int, gameweek: int, fixtures: seq<Fixture>, teamById: map<int, EnrichedTeam>)
    requires teamId in teamById && OpponentsResolvable(fixtures, teamById, gameweek, gameweek)
    ensures Known(OpponentsForGameweek(teamId, gameweek, fixtures), teamById)
  {
    RangeOfOneWeek(teamId, gameweek, fixtures);
    RangeOpponentsKnown(teamId, gameweek, gameweek, fixtures, teamById);
  }

  // ---------------------------------------------------------------------------
  // Attack and defense difficulty

  function AttackProbabilities(sigma: Sigmoid, offenseRating: real, opponents: seq<Opponent>,
                               teamById: map<int, EnrichedTeam>, leagueMean: real): (ps: seq<real>)
    requires Known(opponents, teamById)
    ensures |ps| == |opponents| && Probabilities(ps)
  {
    seq(|opponents|, i requires 0 <= i < |opponents| =>
      Squash(sigma, offenseRating - teamById[opponents[i].id].def_rating, leagueMean))
  }

  function DefenseProbabilities(sigma: Sigmoid, defenseRating: real, opponents: seq<Opponent>,
                                teamById: map<int, EnrichedTeam>, leagueMean: real): (ps: seq<real>)
    requires Known(opponents, teamById)
    ensures |ps| == |opponents| && Probabilities(ps)
  {
    seq(|opponents|, i requires 0 <= i < |opponents| =>
      Squash(sigma, defenseRating - teamById[opponents[i].id].off_rating, leagueMean))
  }

  /**
   * A blank selection scores 0 / invalid with no opponents; otherwise the
   * score lies strictly between 0 and 1, is classified by the absolute
   * thresholds (never invalid) and the opponents are returned as given.
   */
  function AttackDifficulty(sigma: Sigmoid, offenseRating: real, opponents: seq<Opponent>,
                            teamById: map<int, EnrichedTeam>, leagueMean: real): (r: DifficultyScore)
    requires Known(opponents, teamById)
    ensures opponents == [] ==> r == DifficultyScore(0.0, Invalid, [])
    ensures opponents != [] ==>
      && 0.0 < r.score < 1.0
      && r.difficulty == Rating(r.score) && r.difficulty != Invalid
      && r.opponents == opponents
  {
    if |opponents| == 0 then DifficultyScore(0.0, Invalid, [])
    else
      var score := CombineWeighted(AttackProbabilities(sigma, offenseRating, opponents, teamById, leagueMean));
      DifficultyScore(score, Rating(score), opponents)
  }

  function DefenseDifficulty(sigma: Sigmoid, defenseRating: real, opponents: seq<Opponent>,
                             teamById: map<int, EnrichedTeam>, leagueMean: real): (r: DifficultyScore)
    requires Known(opponents, teamById)
    ensures opponents == [] ==> r == DifficultyScore(0.0, Invalid, [])
    ensures opponents != [] ==>
      && 0.0 < r.score < 1.0
      && r.difficulty == Rating(r.score) && r.difficulty != Invalid
      && r.opponents == opponents
  {
    if |opponents| == 0 then DifficultyScore(0.0, Invalid, [])
    else
      var score := CombineWeighted(DefenseProbabilities(sigma, defenseRating, opponents, teamById, leagueMean));
      DifficultyScore(score, Rating(score), opponents)
  }

  /** A stronger attack never makes the attack score lower. */
  lemma AttackMonotoneInOffense(sigma: Sigmoid, r1: real, r2: real, opponents: seq<Opponent>,
                                teamById: map<int, EnrichedTeam>, leagueMean: real)
    requires r1 <= r2 && Known(opponents, teamById)
    ensures AttackDifficulty(sigma, r1, opponents, teamById, leagueMean).score
         <= AttackDifficulty(sigma, r2, opponents, teamById, leagueMean).score
  {
    var ps := AttackProbabilities(sigma, r1, opponents, teamById, leagueMean);
    var qs := AttackProbabilities(sigma, r2, opponents, teamById, leagueMean);
    forall i | 0 <= i < |ps| ensures ps[i] <= qs[i] {
      SquashMonotone(sigma, r1 - teamById[opponents[i].id].def_rating, r2 - teamById[opponents[i].id].def_rating, leagueMean);
    }
    CombineWeightedMonotone(ps, qs);
  }

  /** Opponents with stronger defenses never make the attack score higher. */
  lemma AttackAntitoneInOpponentDefense(sigma: Sigmoid, offenseRating: real, opponents: seq<Opponent>,
                                        weaker: map<int, EnrichedTeam>, stronger: map<int, EnrichedTeam>, leagueMean: real)
    requires Known(opponents, weaker) && Known(opponents, stronger)
    requires forall o :: o in opponents ==> weaker[o.id].def_rating <= stronger[o.id].def_rating
    ensures AttackDifficulty(sigma, offenseRating, opponents, stronger, leagueMean).score
         <= AttackDifficulty(sigma, offenseRating, opponents, weaker, leagueMean).score
  {
    var ps := AttackProbabilities(sigma, offenseRating, opponents, stronger, leagueMean);
    var qs := AttackProbabilities(sigma, offenseRating, opponents, weaker, leagueMean);
    forall i | 0 <= i < |ps| ensures ps[i] <= qs[i] {
      var o := opponents[i];
      assert o in opponents;
      SquashMonotone(sigma, offenseRating - stronger[o.id].def_rating, offenseRating - weaker[o.id].def_rating, leagueMean);
    }
    CombineWeightedMonotone(ps, qs);
  }

  /** A stronger defense never makes the defense score lower. */
  lemma DefenseMonotoneInDefense(sigma: Sigmoid, r1: real, r2: real, opponents: seq<Opponent>,
                                 teamById: map<int, EnrichedTeam>, leagueMean: real)
    requires r1 <= r2 && Known(opponents, teamById)
    ensures DefenseDifficulty(sigma, r1, opponents, teamById, leagueMean).score
         <= DefenseDifficulty(sigma, r2, opponents, teamById, leagueMean).score
  {
    var ps := DefenseProbabilities(sigma, r1, opponents, teamById, leagueMean);
    var qs := DefenseProbabilities(sigma, r2, opponents, teamById, leagueMean);
    forall i | 0 <= i < |ps| ensures ps[i] <= qs[i] {
      SquashMonotone(sigma, r1 - teamById[opponents[i].id].off_rating, r2 - teamById[opponents[i].id].off_rating, leagueMean);
    }
    CombineWeightedMonotone(ps, qs);
  }

  /** Opponents with stronger attacks never make the defense score higher. */
  lemma DefenseAntitoneInOpponentOffense(sigma: Sigmoid, defenseRating: real, opponents: seq<Opponent>,
                                         weaker: map<int, EnrichedTeam>, stronger: map<int, EnrichedTeam>, leagueMean: real)
    requires Known(opponents, weaker) && Known(opponents, stronger)
    requires forall o :: o in opponents ==> weaker[o.id].off_rating <= stronger[o.id].off_rating
    ensures DefenseDifficulty(sigma, defenseRating, opponents, stronger, leagueMean).score
         <= DefenseDifficulty(sigma, defenseRating, opponents, weaker, leagueMean).score
  {
    var ps := DefenseProbabilities(sigma, defenseRating, opponents, stronger, leagueMean);
    var qs := DefenseProbabilities(sigma, defenseRating, opponents, weaker, leagueMean);
    forall i | 0 <= i < |ps| ensures ps[i] <= qs[i] {
      var o := opponents[i];
      assert o in opponents;
      SquashMonotone(sigma, defenseRating - stronger[o.id].off_rating, defenseRating - weaker[o.id].off_rating, leagueMean);
    }
    CombineWeightedMonotone(ps, qs);
  }

  /**
   * The worked scenario: offense 1700 against a defense of 1300 with league
   * mean 0 squashes sigmoid(4); as that is about 0.982, the class is easy.
   */
  lemma SingleFixtureScenario(sigma: Sigmoid, x: EnrichedTeam, y: EnrichedTeam)
    requires x.off_rating == 1700.0 && y.def_rating == 1300.0 && sigma(4.0) > 0.66
    ensures var teamById := map[x.id := x, y.id := y][y.id := y];
      var r := AttackDifficulty(sigma, x.off_rating, [Opponent(y.id, true)], teamById, 0.0);
      r.score == sigma(4.0) && r.difficulty == Easy
  {
    var teamById := map[x.id := x, y.id := y][y.id := y];
    var ps := AttackProbabilities(sigma, x.off_rating, [Opponent(y.id, true)], teamById, 0.0);
    assert ps == [sigma(4.0)];
    assert ComplementProduct(ps) == ComplementProduct([]) * (1.0 - sigma(4.0));
  }

  // ---------------------------------------------------------------------------
  // League mean and team lookup

  function Spread(t: EnrichedTeam): real
  {
    t.off_rating - t.def_rating
  }

  function SpreadSum(teams: seq<EnrichedTeam>): real
  {
    if teams == [] then 0.0 else SpreadSum(teams[..|teams| - 1]) + Spread(teams[|teams| - 1])
  }

  /** The mean of offense minus defense over all teams; 0 for no teams. */
  function LeagueMean(teams: seq<EnrichedTeam>): (r: real)
    ensures teams == [] ==> r == 0.0
    ensures teams != [] ==> r * |teams| as real == SpreadSum(teams)
  {
    if |teams| == 0 then 0.0 else SpreadSum(teams) / |teams| as real
  }

  lemma {:induction false} SpreadSumBetween(teams: seq<EnrichedTeam>, lo: real, hi: real)
    requires forall t :: t in teams ==> lo <= Spread(t) <= hi
    ensures |teams| as real * lo <= SpreadSum(teams) <= |teams| as real * hi
  {
    if teams != [] {
      var init := teams[..|teams| - 1];
      assert |init| as real * lo <= SpreadSum(init) <= |init| as real * hi by {
        assert forall t :: t in init ==> t in teams;
        SpreadSumBetween(init, lo, hi);
      }
      assert teams[|teams| - 1] in teams;
      CountScale(|init|, lo);
      CountScale(|init|, hi);
    }
  }

  /** One more copy of `x`: (n + 1) x = n x + x. */
  lemma CountScale(n: nat, x: real)
    ensures (n + 1) as real * x == n as real * x + x
  {
  }

  /** The league mean lies within the range of the teams' spreads. */
  lemma LeagueMeanBetween(teams: seq<EnrichedTeam>, lo: real, hi: real)
    requires teams != []
    requires forall t :: t in teams ==> lo <= Spread(t) <= hi
    ensures lo <= LeagueMean(teams) <= hi
  {
    SpreadSumBetween(teams, lo, hi);
    QuotientBetween(SpreadSum(teams), |teams| as real, lo, hi);
  }

  lemma QuotientBetween(s: real, n: real, lo: real, hi: real)
    requires n > 0.0 && n * lo <= s <= n * hi
    ensures lo <= s / n <= hi
  {
    assert s / n - lo == (s - n * lo) / n;
    assert hi - s / n == (n * hi - s) / n;
  }

  function TeamId(t: EnrichedTeam): int { t.id }

  function SameTeam(t: EnrichedTeam): EnrichedTeam { t }

  /**
   * `createTeamLookup` as a value: each team stored under its id, the last
   * duplicate winning. Exactly the ids of the teams are keys, and each key
   * maps to a team carrying that id.
   */
  function TeamLookup(teams: seq<EnrichedTeam>): (lookup: map<int, EnrichedTeam>)
    ensures forall id :: id in lookup <==> exists i :: 0 <= i < |teams| && teams[i].id == id
    ensures forall id :: id in lookup ==> lookup[id].id == id
  {
    Lookup.LastWinsSpec(teams, TeamId, SameTeam);
    LastWinsKeepsIds(teams);
    Lookup.LastWins(teams, TeamId, SameTeam)
  }

  lemma LastWinsKeepsIds(teams: seq<EnrichedTeam>)
    ensures forall id :: id in Lookup.LastWins(teams, TeamId, SameTeam) ==> Lookup.LastWins(teams, TeamId, SameTeam)[id].id == id
  {
    Lookup.LastWinsSpec(teams, TeamId, SameTeam);
    forall id | id in Lookup.LastWins(teams, TeamId, SameTeam) ensures Lookup.LastWins(teams, TeamId, SameTeam)[id].id == id {
      var i :| 0 <= i < |teams| && TeamId(teams[i]) == id;
      var last := LastIndexWithKey(teams, i);
      assert TeamId(teams[last]) == id;
    }
  }

  /** The team stored under an id is the last team of the input carrying it. */
  lemma TeamLookupLastWins(teams: seq<EnrichedTeam>)
    ensures forall i :: Lookup.LastWithKey(teams, TeamId, i) ==> TeamLookup(teams)[teams[i].id] == teams[i]
  {
    Lookup.LastWinsSpec(teams, TeamId, SameTeam);
  }

  /** Adding a team to the input overwrites its id's entry. */
  lemma TeamLookupSnoc(teams: seq<EnrichedTeam>, j: int)
    requires 0 <= j < |teams|
    ensures TeamLookup(teams[..j + 1]) == TeamLookup(teams[..j])[teams[j].id := teams[j]]
  {
    assert teams[..j + 1][..j] == teams[..j];
  }

  /** The last position carrying the same id as position `i`. */
  lemma LastIndexWithKey(teams: seq<EnrichedTeam>, i: int) returns (last: int)
    requires 0 <= i < |teams|
    ensures i <= last && Lookup.LastWithKey(teams, TeamId, last) && teams[last].id == teams[i].id
    decreases |teams| - i
  {
    if exists j :: i < j < |teams| && teams[j].id == teams[i].id {
      var j :| i < j < |teams| && teams[j].id == teams[i].id;
      last := LastIndexWithKey(teams, j);
    } else {
      last := i;
    }
  }

  method CreateTeamLookup(teams: seq<EnrichedTeam>) returns (lookup: map<int, EnrichedTeam>)
    ensures lookup == TeamLookup(teams)
    ensures forall id :: id in lookup <==> exists i :: 0 <= i < |teams| && teams[i].id == id
    ensures forall id :: id in lookup ==> lookup[id].id == id
  {
    lookup := map[];
    var i := 0;
    while i < |teams|
      invariant 0 <= i <= |teams|
      invariant lookup == TeamLookup(teams[..i])
    {
      assert teams[..i + 1][..i] == teams[..i];
      lookup := lookup[teams[i].id := teams[i]];
      i := i + 1;
    }
    assert teams[..i] == teams;
  }
}
