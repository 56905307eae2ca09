/**
 * The game setup service's rating enrichment: the Elo-style rating derived
 * from a league rank, the map of ratings per team built from the rankings
 * rows (a later row for a team replaces an earlier one), and the teams of the
 * game extended with their two ratings.
 */
module GameSetup {
  import opened Domain
  import Lookup

  /** A team as the game's bootstrap data lists it. */
  datatype FPLTeam = FPLTeam(code: int, id: int, name: string, short_name: string)

  datatype Elo = Elo(off_rating: real, def_rating: real)

  /** One row of the rankings query; a rating is missing when its rank is. */
  datatype RatingRow = RatingRow(team_id: int, off_rating: Option<real>, def_rating: Option<real>)

  /** `1700 - (rank - 1) * 400 / 19`: 1700 for the best rank, 1300 for the 20th, falling as the rank grows. */
  function RankRating(rank: real): (r: real)
    ensures rank == 1.0 ==> r == 1700.0
    ensures rank == 20.0 ==> r == 1300.0
    ensures 1.0 <= rank <= 20.0 ==> 1300.0 <= r <= 1700.0
  {
    1700.0 - (rank - 1.0) * 400.0 / 19.0
  }

  lemma RankRatingDecreasing(better: real, worse: real)
    requires better <= worse
    ensures RankRating(worse) <= RankRating(better)
  {
  }

  /**
   * The same formula with the quotient truncated, as the database computes
   * it when the rank columns hold integers: the endpoints are the same and
   * the value is at least the exact rating and less than one above it.
   */
  function TruncatedRankRating(rank: int): (r: int)
    requires rank >= 1
    ensures rank == 1 ==> r == 1700
    ensures rank == 20 ==> r == 1300
    ensures RankRating(rank as real) <= r as real < RankRating(rank as real) + 1.0
  {
    var q := (rank - 1) * 400 / 19;
    assert q * 19 <= (rank - 1) * 400 < q * 19 + 19;
    1700 - q
  }

  lemma TruncatedRankRatingDecreasing(better: int, worse: int)
    requires 1 <= better <= worse
    ensures TruncatedRankRating(worse) <= TruncatedRankRating(better)
  {
    var qb := (better - 1) * 400 / 19;
    var qw := (worse - 1) * 400 / 19;
    assert qb * 19 <= (better - 1) * 400 <= (worse - 1) * 400 < qw * 19 + 19;
  }

  /** A row of the rankings table; a rank may be NULL. */
  datatype RankingRow = RankingRow(team_id: int, off_rank: Option<real>, def_rank: Option<real>)

  /** The rankings query: each present rank becomes its rating, a NULL rank a NULL rating. */
  function RatingsQuery(rows: seq<RankingRow>): (ratings: seq<RatingRow>)
    ensures |ratings| == |rows|
    ensures forall i :: 0 <= i < |rows| ==>
      && ratings[i].team_id == rows[i].team_id
      && (rows[i].off_rank.None? <==> ratings[i].off_rating.None?)
      && (rows[i].def_rank.None? <==> ratings[i].def_rating.None?)
      && (rows[i].off_rank.Some? ==> ratings[i].off_rating.value == RankRating(rows[i].off_rank.value))
      && (rows[i].def_rank.Some? ==> ratings[i].def_rating.value == RankRating(rows[i].def_rank.value))
  {
    seq(|rows|, i requires 0 <= i < |rows| =>
      RatingRow(rows[i].team_id,
        if rows[i].off_rank.Some? then Some(RankRating(rows[i].off_rank.value)) else None,
        if rows[i].def_rank.Some? then Some(RankRating(rows[i].def_rank.value)) else None))
  }

  /** A missing or zero rating counts as 0 (`value || 0`). */
  function OrZero(v: Option<real>): (r: real)
    ensures v.None? ==> r == 0.0
    ensures v.Some? ==> r == v.value
  {
    match v
    case Some(x) => x
    case None => 0.0
  }

  function RowElo(row: RatingRow): Elo
  {
    Elo(OrZero(row.off_rating), OrZero(row.def_rating))
  }

  /**
   * The ratings per team: every team id of the rows has an entry and no other
   * id has one, and a team's entry comes from its last row.
   */
  method GetTeamEloData(rows: seq<RatingRow>) returns (eloMap: map<int, Elo>)
    ensures forall id :: id in eloMap <==> exists i :: 0 <= i < |rows| && rows[i].team_id == id
    ensures forall i :: Lookup.LastWithKey(rows, (r: RatingRow) => r.team_id, i) ==>
      eloMap[rows[i].team_id] == RowElo(rows[i])
  {
    eloMap := map[];
    var i := 0;
    while i < |rows|
      invariant 0 <= i <= |rows|
      invariant eloMap == Lookup.LastWins(rows[..i], (r: RatingRow) => r.team_id, RowElo)
    {
      assert rows[..i + 1][..i] == rows[..i];
      var row := rows[i];
      eloMap := eloMap[row.team_id := Elo(OrZero(row.off_rating), OrZero(row.def_rating))];
      i := i + 1;
    }
    assert rows[..|rows|] == rows;
    Lookup.LastWinsSpec(rows, (r: RatingRow) => r.team_id, RowElo);
  }

  /**
   * One enriched team per team, in the same order, with the game's fields
   * unchanged; a team without ratings gets 0 for both.
   */
  function EnrichTeamsWithElo(fplTeams: seq<FPLTeam>, eloData: map<int, Elo>): (enriched: seq<EnrichedTeam>)
    ensures |enriched| == |fplTeams|
    ensures forall i :: 0 <= i < |fplTeams| ==>
      var t, e := fplTeams[i], enriched[i];
      && e.code == t.code && e.id == t.id && e.name == t.name && e.short_name == t.short_name
      && (t.id !in eloData ==> e.off_rating == 0.0 && e.def_rating == 0.0)
      && (t.id in eloData ==> e.off_rating == eloData[t.id].off_rating && e.def_rating == eloData[t.id].def_rating)
  {
    seq(|fplTeams|, i requires 0 <= i < |fplTeams| =>
      var team := fplTeams[i];
      var elo := if team.id in eloData then Some(eloData[team.id]) else None;
      EnrichedTeam(team.code, team.id, team.name, team.short_name,
        if elo.Some? then elo.value.off_rating else 0.0,
        if elo.Some? then elo.value.def_rating else 0.0))
  }

  /**
   * The setup pipeline end to end: a team whose id appears in the rankings
   * rows carries the ratings of its last row, any other team carries zeros.
   */
  method EnrichFromRows(fplTeams: seq<FPLTeam>, rows: seq<RatingRow>) returns (enriched: seq<EnrichedTeam>)
    ensures |enriched| == |fplTeams|
    ensures forall i, j ::
      (0 <= i < |fplTeams| && Lookup.LastWithKey(rows, (r: RatingRow) => r.team_id, j) && rows[j].team_id == fplTeams[i].id) ==>
      enriched[i].off_rating == OrZero(rows[j].off_rating) && enriched[i].def_rating == OrZero(rows[j].def_rating)
    ensures forall i :: 0 <= i < |fplTeams| && (forall j :: 0 <= j < |rows| ==> rows[j].team_id != fplTeams[i].id) ==>
      enriched[i].off_rating == 0.0 && enriched[i].def_rating == 0.0
  {
    var eloData := GetTeamEloData(rows);
    enriched := EnrichTeamsWithElo(fplTeams, eloData);
  }
}
