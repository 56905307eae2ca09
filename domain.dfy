/**
 * Values shared by every part of the Fixture Difficulty Rating (FDR) model:
 * fixtures, teams, opponents, difficulty classes and the logistic squash
 * that the engine leaves to the runtime's exponential function.
 */
module Domain {

  datatype Option<+T> = None | Some(value: T)

  datatype Result<+T, +E> = Ok(value: T) | Err(error: E)

  /** A scheduled match, as stored by the fixture service (kick-off as an epoch timestamp). */
  datatype Fixture = Fixture(
    id: int,
    code: int,
    event: int,
    finished: bool,
    team_h: int,
    team_a: int,
    kickoff: int)

  /** A team of the game, enriched with the two Elo-style ratings. */
  datatype EnrichedTeam = EnrichedTeam(
    code: int,
    id: int,
    name: string,
    short_name: string,
    off_rating: real,
    def_rating: real)

  /** The other side of a fixture, seen from the queried team. */
  datatype Opponent = Opponent(id: int, home: bool)

  datatype Difficulty = Easy | Medium | Hard | Invalid

  datatype DifficultyScore = DifficultyScore(score: real, difficulty: Difficulty, opponents: seq<Opponent>)

  datatype SortBy = Offense | Defense

  datatype SortDirection = Asc | Desc

  function Flip(d: SortDirection): (r: SortDirection)
    ensures r != d
  {
    if d == Asc then Desc else Asc
  }

  /** The direction a fresh sort starts with: offense best-first, defense easiest-first. */
  function DefaultDirection(sortBy: SortBy): SortDirection
  {
    if sortBy == Offense then Desc else Asc
  }

  /**
   * The direction of a sort request: the opposite of the current direction
   * when the request repeats the previous one, the default otherwise.
   */
  function ToggleOrDefault(repeat: bool, current: SortDirection, sortBy: SortBy): (d: SortDirection)
    ensures repeat ==> d != current
    ensures !repeat ==> d == DefaultDirection(sortBy)
  {
    if repeat then Flip(current) else DefaultDirection(sortBy)
  }

  datatype GameweekStats = GameweekStats(min: int, max: int)

  function Min(a: int, b: int): int { if a <= b then a else b }

  function Max(a: int, b: int): int { if a >= b then a else b }

  /**
   * The logistic function 1/(1+e^-t) is only known to the model through the two
   * facts the engine relies on: its values lie strictly between 0 and 1, and it
   * never decreases.
   */
  ghost predicate IsSigmoid(f: real -> real)
  {
    && (forall t :: 0.0 < f(t) < 1.0)
    && (forall t, u :: t <= u ==> f(t) <= f(u))
  }

  type Sigmoid = f: real -> real | IsSigmoid(f) witness (t: real) => 0.5

  /** Steepness used by every caller of the squash (the default k = 0.01). */
  const Steepness: real := 0.01
}
