/**
 * The fixture service's batch replacement: a season's fixtures are accepted
 * only as exactly 380 well-formed records with distinct ids, and only then
 * are the stored rows deleted and replaced, one row per fixture in order.
 */
module FixtureService {
  import opened Domain

  /** The number of fixtures in a twenty-team season. */
  const SeasonFixtures: int := 380

  /** The `finished` field as the feed sends it: a flag or a number. */
  datatype Finished = Flag(flag: bool) | Number(n: int)

  /** A fixture record that passed the schema. */
  datatype FixtureInput = FixtureInput(id: int, code: int, event: int, finished: Finished, team_h: int, team_a: int, kickoff_time: string)

  /**
   * One element of the feed as the schema sees it: a record it accepts, or
   * one it rejects with its issues, each already written as `path: message`.
   */
  datatype RawFixture = WellFormed(fixture: FixtureInput) | Malformed(issues: seq<string>)

  /** A row of the fixtures table. */
  datatype FixtureRow = FixtureRow(id: int, code: int, event: int, finished: int, team_h: int, team_a: int, kickoff_time: string)

  const InvalidPrefix: string := "Invalid fixtures data: "
  const DuplicateMessage: string := "Duplicate fixture ids found in input"
  const UpdatePrefix: string := "Failed to update fixtures: "

  /** The decimal digits of a natural number. */
  function NatToString(n: nat): (s: string)
    ensures |s| >= 1 && forall i :: 0 <= i < |s| ==> '0' <= s[i] <= '9'
  {
    var digit := "0123456789"[n % 10];
    if n < 10 then [digit] else NatToString(n / 10) + [digit]
  }

  /** The issues joined with `", "`. */
  function Join(parts: seq<string>): string
  {
    if parts == [] then ""
    else if |parts| == 1 then parts[0]
    else parts[0] + ", " + Join(parts[1..])
  }

  /** Every issue of the rejected elements, in order. */
  function Issues(raw: seq<RawFixture>): seq<string>
  {
    if raw == [] then []
    else (if raw[0].Malformed? then raw[0].issues else []) + Issues(raw[1..])
  }

  function Parsed(raw: seq<RawFixture>): seq<FixtureInput>
    requires forall i :: 0 <= i < |raw| ==> raw[i].WellFormed?
  {
    seq(|raw|, i requires 0 <= i < |raw| && raw[i].WellFormed? => raw[i].fixture)
  }

  /**
   * The whole array parses when every element does, giving the records in
   * order; otherwise the error lists the issues after the invalid-data prefix.
   */
  function ParseFixtures(raw: seq<RawFixture>): (r: Result<seq<FixtureInput>, string>)
    ensures r.Ok? <==> forall i :: 0 <= i < |raw| ==> raw[i].WellFormed?
    ensures r.Ok? ==> |r.value| == |raw| && forall i :: 0 <= i < |raw| ==> raw[i] == WellFormed(r.value[i])
    ensures r.Err? ==> InvalidPrefix <= r.error
  {
    if forall i :: 0 <= i < |raw| ==> raw[i].WellFormed? then Ok(Parsed(raw))
    else Err(InvalidPrefix + Join(Issues(raw)))
  }

  function IdSet(fs: seq<FixtureInput>): set<int>
  {
    set f | f in fs :: f.id
  }

  ghost predicate DistinctIds(fs: seq<FixtureInput>)
  {
    forall i, j :: 0 <= i < j < |fs| ==> fs[i].id != fs[j].id
  }

  /** The set of ids is never larger than the list, and is as large exactly when no id repeats. */
  lemma {:induction false} IdSetSize(fs: seq<FixtureInput>)
    ensures |IdSet(fs)| <= |fs|
    ensures |IdSet(fs)| == |fs| <==> DistinctIds(fs)
  {
    if fs != [] {
      var n := |fs| - 1;
      var init := fs[..n];
      IdSetSize(init);
      IdSetSnoc(init, fs[n]);
      assert fs == init + [fs[n]];
      DistinctSnoc(init, fs[n]);
    }
  }

  lemma IdSetSnoc(init: seq<FixtureInput>, last: FixtureInput)
    ensures IdSet(init + [last]) == IdSet(init) + {last.id}
  {
    assert forall f :: f in init + [last] <==> f in init || f == last;
  }

  /** A list with one more element has distinct ids when the shorter one does and the new id is not among them. */
  lemma DistinctSnoc(init: seq<FixtureInput>, last: FixtureInput)
    ensures DistinctIds(init + [last]) <==> DistinctIds(init) && last.id !in IdSet(init)
  {
    var fs := init + [last];
    var n := |init|;
    if last.id in IdSet(init) {
      var f :| f in init && f.id == last.id;
      var j :| 0 <= j < n && init[j] == f;
      assert fs[j].id == fs[n].id;
    } else {
      forall i | 0 <= i < n ensures fs[i].id != fs[n].id {
        assert init[i] in init;
      }
      assert forall i :: 0 <= i < n ==> fs[i] == init[i];
    }
  }

  /**
   * `None` when the batch is acceptable; otherwise the first error in the
   * order the checks run: the count, then the schema, then duplicate ids.
   */
  function ValidateFixtures(raw: seq<RawFixture>): (error: Option<string>)
    ensures |raw| != SeasonFixtures ==>
      error == Some("Expected 380 fixtures, but received " + NatToString(|raw|))
    ensures |raw| == SeasonFixtures && ParseFixtures(raw).Err? ==> error == Some(ParseFixtures(raw).error)
    ensures |raw| == SeasonFixtures && ParseFixtures(raw).Ok? ==>
      (error == Some(DuplicateMessage) <==> !DistinctIds(ParseFixtures(raw).value))
    ensures error.None? <==> |raw| == SeasonFixtures && ParseFixtures(raw).Ok? && DistinctIds(ParseFixtures(raw).value)
  {
    if |raw| != SeasonFixtures then Some("Expected 380 fixtures, but received " + NatToString(|raw|))
    else match ParseFixtures(raw)
      case Err(e) => Some(e)
      case Ok(parsed) =>
        IdSetSize(parsed);
        if |IdSet(parsed)| != SeasonFixtures then Some(DuplicateMessage) else None
  }

  /** The stored value of `finished`: 1 for true, 0 for false, the number itself otherwise. */
  function FinishedValue(f: Finished): (v: int)
    ensures f == Flag(true) ==> v == 1
    ensures f == Flag(false) ==> v == 0
    ensures f.Number? ==> v == f.n
  {
    match f
    case Flag(b) => if b then 1 else 0
    case Number(n) => n
  }

  function ToRow(f: FixtureInput): FixtureRow
  {
    FixtureRow(f.id, f.code, f.event, FinishedValue(f.finished), f.team_h, f.team_a, f.kickoff_time)
  }

  /** The fixtures table. */
  class FixtureStore {
    var rows: seq<FixtureRow>

    constructor ()
      ensures rows == []
    {
      rows := [];
    }

    /**
     * A rejected batch fails with the validation message after the update
     * prefix and leaves the table as it was; an accepted one replaces the
     * table by one row per fixture, in input order, whose ids are distinct.
     */
    method UpdateFixtures(raw: seq<RawFixture>) returns (result: Result<(), string>)
      modifies this
      ensures ValidateFixtures(raw).Some? ==>
        result == Err(UpdatePrefix + ValidateFixtures(raw).value) && rows == old(rows)
      ensures ValidateFixtures(raw).None? ==>
        && result.Ok? && |rows| == |raw| == SeasonFixtures
        && (forall i :: 0 <= i < |raw| ==> raw[i].WellFormed? && rows[i] == ToRow(raw[i].fixture))
        && (forall i, j :: 0 <= i < j < |rows| ==> rows[i].id != rows[j].id)
    {
      var error := ValidateFixtures(raw);
      if error.Some? {
        return Err(UpdatePrefix + error.value);
      }
      var parsed := ParseFixtures(raw);
      var fixtures := parsed.value;
      rows := [];
      var i := 0;
      while i < |fixtures|
        invariant 0 <= i <= |fixtures| && |rows| == i
        invariant forall k :: 0 <= k < i ==> rows[k] == ToRow(fixtures[k])
      {
        rows := rows + [ToRow(fixtures[i])];
        i := i + 1;
      }
      result := Ok(());
    }
  }
}
