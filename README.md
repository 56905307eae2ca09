# better-fdr: the Fixture Difficulty Rating engine in Dafny

better-fdr helps fantasy football players judge how hard a team's coming
matches are. It turns team ratings and the fixture list into one difficulty
signal per team and gameweek (a round of matches), classifies it as easy,
medium, hard or invalid (a blank week), and orders the teams by it over a
window of gameweeks that the user moves.

The repository carries three scoring variants that are never reconciled.
Each one is modelled as its own module:

- **Canonical engine** (`CanonicalDifficulty`, `Ranking`, `DifficultyScores`).
  This is the FDR table's engine. Each fixture's rating gap is squashed by
  a logistic curve centred on the league mean. The values are combined by
  the complement product `1 - Π(1 - p)`. The result is classified by
  absolute thresholds or by percentile. All teams are ranked by a stable
  sort. `DifficultyScores` builds the team × gameweek table in advance.
- **Legacy rank-based engine** (`LegacyDifficulty`, `LegacyFixtures`).
  - A team's strength is `(21 - rank) / 20`.
  - A week with several fixtures scores `min / count`.
  - A blank week scores 1 and is classified invalid.
  - Rows are grouped per event and sorted stably by name, then by key.
- **Live table page** (`LiveModel`, `LiveTable`). This is the page the
  site actually serves.
  - The league mean is a mutable field of `DifficultyModel`, and it averages
    offense **plus** defense.
  - A fixture's input is a rating sum, not a gap.
  - Defense uses the product rule `1 - Π p`.
  - The window is fixed at ten weeks.

The state machines around the engine are classes whose methods update their
fields:
- `WindowControls.FdrControls`: the window hook of the FDR table.
- `TableHeader.HeaderState`: the desktop header's column/direction sort.
- `CardList.CardListState`: the mobile card list's sort.
- `LiveTable.LiveTableState`: the live page's window and sort.

Smaller pieces:
- the gameweek helpers (`Gameweek`, `DataProvider`);
- the fixture batch validator with its validate-before-replace store
  (`FixtureService`);
- the rank-to-rating formula and the rating enrichment of the game's teams
  (`GameSetup`).

Shared pieces:
- `Domain`: the entities, and the logistic curve as the parameter type
  `Sigmoid`.
- `StableSort`: the stable sort that `Array.prototype.sort` performs,
  written as a generic insertion sort.
- `Lookup`: the "last write wins" dictionary build and integer-key order.

The logistic function `1/(1+e^-t)` appears only as a parameter `sigma` of
type `Domain.Sigmoid`. That type holds every real function with values in
(0, 1) that never decreases. The steepness `k` is always its default 0.01,
so `squash(x, mean)` is `sigma(0.01 * (x - mean))`.

Points where the code's behaviour is easy to misread:
- A fixture whose opponent is missing from the team index makes the
  canonical and live engines throw. They do not skip it. The model states
  this as a precondition (`OpponentsResolvable`, `OpponentsKnown`).
- The live page's league mean averages `off + def`. The canonical mean
  averages `off - def`.
- The live page's window can start before the first gameweek
  (`LiveTable.ShortSeasonWindowStartsEarly`).

## Model

| member | source | states |
|---|---|---|
| CanonicalDifficulty.Squash | src/app/components/FDRTable/utils/difficulty.ts:8-10 | the squashed value lies strictly between 0 and 1 |
| CanonicalDifficulty.SquashMonotone | src/app/components/FDRTable/utils/difficulty.ts:8-10 | a larger rating gap never gives a smaller squashed value |
| CanonicalDifficulty.CombineWeighted | src/app/components/FDRTable/utils/difficulty.ts:16-19 | no scores combine to 0; probabilities combine to a value in (0, 1) that is at least each of them |
| CanonicalDifficulty.ComplementProductBounds | src/app/components/FDRTable/utils/difficulty.ts:16-19 | the product of complements is in (0, 1], below 1 when non-empty, at most each complement, and strictly below each once there are two or more |
| CanonicalDifficulty.CombineExceedsEach | src/app/components/FDRTable/utils/difficulty.ts:16-19 | with two or more fixtures the combined score is strictly above every single-fixture score |
| CanonicalDifficulty.CombineWeightedMonotone | src/app/components/FDRTable/utils/difficulty.ts:16-19 | raising any fixture's probability never lowers the combined score |
| CanonicalDifficulty.ComplementProductAntitone | src/app/components/FDRTable/utils/difficulty.ts:16-19 | raising any probability never raises the product of complements |
| CanonicalDifficulty.Rating | src/app/components/FDRTable/utils/difficulty.ts:24-29 | the four classes as disjoint, exhaustive conditions on the score: exactly 0 invalid, above 0.66 easy, above 0.33 medium, otherwise hard |
| CanonicalDifficulty.Positives | src/app/components/FDRTable/utils/difficulty.ts:42 | keeps exactly the scores above 0, never more than the pool holds |
| CanonicalDifficulty.Below | src/app/components/FDRTable/utils/difficulty.ts:46 | keeps exactly the scores below the given score, never more than the list holds |
| CanonicalDifficulty.PercentileRatingSpec | src/app/components/FDRTable/utils/difficulty.ts:36-55 | invalid exactly for score 0 or no positive score; otherwise, with c positive scores below and n positive scores, easy iff 100c ≥ 66n, hard iff 100c ≤ 33n, medium in between |
| CanonicalDifficulty.PercentThreshold | src/app/components/FDRTable/utils/difficulty.ts:48-53 | comparing the percentage `c/n·100` with a threshold is the same as comparing `100c` with `threshold·n` |
| CanonicalDifficulty.RangeOfOneWeek | src/app/components/FDRTable/utils/difficulty.ts:60-92 | a range of one week yields exactly that week's opponents |
| CanonicalDifficulty.EmptyRange | src/app/components/FDRTable/utils/difficulty.ts:78-92 | a range whose start is after its end has no opponents |
| CanonicalDifficulty.OpponentsAppend | src/app/components/FDRTable/utils/difficulty.ts:60-73 | extraction keeps fixture order: the opponents of two fixture lists joined are the two results joined |
| CanonicalDifficulty.RangeSplits | src/app/components/FDRTable/utils/difficulty.ts:78-92 | a range's opponents are those of its two halves pooled, so a range score is over the union of fixtures, not an average of weeks |
| CanonicalDifficulty.OpponentsSound | src/app/components/FDRTable/utils/difficulty.ts:60-73 | every opponent comes from a fixture of that week: the away side with home = true when the team is at home, the home side with home = false when it is away |
| CanonicalDifficulty.OpponentsComplete | src/app/components/FDRTable/utils/difficulty.ts:60-73 | every fixture of the week that involves the team yields its opponent with the right home flag |
| CanonicalDifficulty.RangeOpponentsKnown | src/app/components/FDRTable/utils/difficulty.ts:78-92 | when all fixtures of the weeks used name known teams, every extracted opponent can be looked up |
| CanonicalDifficulty.AttackProbabilities | src/app/components/FDRTable/utils/difficulty.ts:108-110 | one probability in (0, 1) per opponent |
| CanonicalDifficulty.DefenseProbabilities | src/app/components/FDRTable/utils/difficulty.ts:131-133 | one probability in (0, 1) per opponent |
| CanonicalDifficulty.AttackDifficulty | src/app/components/FDRTable/utils/difficulty.ts:97-115 | no opponents give score 0, invalid, no opponents; otherwise a score in (0, 1) whose threshold class is never invalid, with the opponents returned as given |
| CanonicalDifficulty.DefenseDifficulty | src/app/components/FDRTable/utils/difficulty.ts:120-138 | the same sentinel and bounds for the defense score |
| CanonicalDifficulty.AttackMonotoneInOffense | src/app/components/FDRTable/utils/difficulty.ts:108-110 | a higher own offense never lowers the attack score |
| CanonicalDifficulty.AttackAntitoneInOpponentDefense | src/app/components/FDRTable/utils/difficulty.ts:108-110 | stronger opponent defenses never raise the attack score |
| CanonicalDifficulty.DefenseMonotoneInDefense | src/app/components/FDRTable/utils/difficulty.ts:131-133 | a higher own defense never lowers the defense score |
| CanonicalDifficulty.DefenseAntitoneInOpponentOffense | src/app/components/FDRTable/utils/difficulty.ts:131-133 | stronger opponent offenses never raise the defense score |
| CanonicalDifficulty.SingleFixtureScenario | src/app/components/FDRTable/utils/difficulty.ts:97-115 | offense 1700 against defense 1300 at mean 0 scores sigma(4) and is easy |
| CanonicalDifficulty.LeagueMean | src/app/components/FDRTable/utils/difficulty.ts:143-149 | no teams give 0; otherwise the mean times the team count is the sum of offense − defense |
| CanonicalDifficulty.LeagueMeanBetween | src/app/components/FDRTable/utils/difficulty.ts:143-149 | the mean lies within the range of the teams' offense − defense spreads |
| CanonicalDifficulty.TeamLookup | src/app/components/FDRTable/utils/difficulty.ts:154-162 | the keys are exactly the teams' ids, and each key maps to a team with that id |
| CanonicalDifficulty.TeamLookupLastWins | src/app/components/FDRTable/utils/difficulty.ts:154-162 | among teams sharing an id the last one is stored |
| CanonicalDifficulty.CreateTeamLookup | src/app/components/FDRTable/utils/difficulty.ts:154-162 | the loop builds exactly the last-wins lookup of the teams |
| Lookup.LastWinsSpec | src/app/components/FDRTable/utils/difficulty.ts:157-161 | a dictionary filled in order has one key per distinct key of the input, holding the value of its last occurrence |
| Lookup.AscendingKeys | src/app/components/FDRTable/utils/sorting.ts:24 | the integer keys of a dictionary listed once each in ascending order, the order `Object.keys` gives |
| Lookup.DistinctAscending | src/app/components/FDRTable/hooks/useDifficultyScores.ts:33-35 | the distinct values of a list in strictly ascending order |
| StableSort.Sort | src/app/components/FDRTable/utils/sorting.ts:55-60 | the output is a permutation of the input, ordered by the comparator, and elements the comparator ties keep their input order |
| StableSort.SortedCorrect | src/app/components/FDRTable/utils/sorting.ts:55-60 | insertion sorting permutes, orders and keeps ties in input order |
| Ranking.ScoreAgainst | src/app/components/FDRTable/utils/sorting.ts:33-50 | offense ranks by the attack score from `off_rating`, defense by the defense score from `def_rating`; the score is in [0, 1) and 0 exactly when there are no opponents |
| Ranking.GameweekScores | src/app/components/FDRTable/utils/sorting.ts:24-52 | one score per team id of the lookup |
| Ranking.RangeScores | src/app/components/FDRTable/utils/sorting.ts:79-109 | one score per team id of the lookup |
| Ranking.RankingIsPermutation | src/app/components/FDRTable/utils/sorting.ts:55-62 | a ranking lists every team once: as many ids as teams, none twice |
| Ranking.RankingOrdersScores | src/app/components/FDRTable/utils/sorting.ts:55-60 | scores never decrease along an ascending ranking and never increase along a descending one |
| Ranking.RankedPositions | src/app/components/FDRTable/utils/sorting.ts:55-60 | a team precedes another in the ranking exactly when it ranks before it by score, then id |
| Ranking.RankingUnique | src/app/components/FDRTable/utils/sorting.ts:24-60 | scores and direction determine the ranking: two rankings of the same scores are equal |
| Ranking.TiedTeamsKeepIdOrder | src/app/components/FDRTable/utils/sorting.ts:24-60 | teams with equal scores appear in ascending id order |
| Ranking.DescendingReversesAscending | src/app/components/FDRTable/utils/sorting.ts:24-60 | the descending ranking is the exact reverse of the ascending one if and only if no two scores tie |
| Ranking.ReverseOfAscending | src/app/components/FDRTable/utils/sorting.ts:55-60 | reversing an ascending ranking of tie-free scores gives the descending ranking |
| Ranking.BlankTeamPlacement | src/app/components/FDRTable/utils/sorting.ts:26-60 | a team scoring 0 while all others score above 0 is first ascending and last descending |
| Ranking.BlankTeamScoresZero | src/app/components/FDRTable/utils/sorting.ts:26-52 | a team scores 0 for a week exactly when it has no fixture that week |
| Ranking.OneWeekScoresAlike | src/app/components/FDRTable/utils/sorting.ts:68-119 | a one-week range scores every team as that single week does |
| Ranking.RangeOfOneWeekRanksAlike | src/app/components/FDRTable/utils/sorting.ts:68-119 | sorting by a one-week range gives the same order as sorting by that week |
| Ranking.RankTeamScores | src/app/components/FDRTable/utils/sorting.ts:55-62 | the stable sort of the id-ordered team scores is the ranking of those scores |
| Ranking.SortByGameweek | src/app/components/FDRTable/utils/sorting.ts:14-63 | returns the ranking of all teams by their score for the week in the chosen direction, one id per team |
| Ranking.SortByGameweekRange | src/app/components/FDRTable/utils/sorting.ts:68-119 | returns the ranking of all teams by their pooled score over the range, one id per team |
| DifficultyScores.TeamGameweekScore | src/app/components/FDRTable/hooks/useDifficultyScores.ts:50-69 | a team without fixtures that week gets 0 / invalid for both perspectives; otherwise both scores are valid and carry that week's opponents |
| DifficultyScores.ScoreGameweek | src/app/components/FDRTable/hooks/useDifficultyScores.ts:48-72 | every team's row gains that week's entry and nothing else changes |
| DifficultyScores.EmptyRows | src/app/components/FDRTable/hooks/useDifficultyScores.ts:43-45 | one empty row per team id |
| DifficultyScores.EventListIsEvents | src/app/components/FDRTable/hooks/useDifficultyScores.ts:33-35 | the processed weeks are exactly the events of the fixtures |
| DifficultyScores.AddGameweek | src/app/components/FDRTable/hooks/useDifficultyScores.ts:48-96 | one more processed week keeps both tables complete for the weeks done: scores per team, offense ranked descending and defense ascending |
| DifficultyScores.ComputeDifficultyScores | src/app/components/FDRTable/hooks/useDifficultyScores.ts:20-101 | no table without teams or fixtures; otherwise every team has the attack and defense scores of every event week, and every event week has both rankings |
| DifficultyScores.BlankGameweekEntry | src/app/components/FDRTable/hooks/useDifficultyScores.ts:50-64 | a team without a fixture in a processed week has that week's entry, 0 / invalid for both perspectives |
| DataProvider.MinEvent | src/app/components/FDRTable/context/FDRDataProvider.tsx:27 | the smallest event of the fixtures, attained by one of them |
| DataProvider.MaxEvent | src/app/components/FDRTable/context/FDRDataProvider.tsx:28 | the largest event of the fixtures, attained by one of them |
| DataProvider.GetGameweekStats | src/app/components/FDRTable/context/FDRDataProvider.tsx:20-30 | no fixtures give (0, 0); otherwise min ≤ max, both attained, every event within them |
| DataProvider.DeriveValues | src/app/components/FDRTable/context/FDRDataProvider.tsx:52-65 | without setup data an empty lookup and mean 0, without fixtures stats (0, 0); otherwise the lookup, mean and stats of the data |
| DataProvider.LastGameweekPositive | src/app/components/FDRTable/context/FDRDataProvider.tsx:62-65 | the derived last gameweek is positive exactly when fixtures are loaded and one has a positive event |
| Domain.Flip | src/app/components/FDRTable/desktop/TableHeader.tsx:54-60 | flipping always changes the direction |
| Domain.ToggleOrDefault | src/app/components/FDRTable/desktop/TableHeader.tsx:54-60 | a repeated sort flips the direction; otherwise offense sorts descending and defense ascending |
| WindowControls.NextWindow | src/app/components/FDRTable/hooks/useFDRControls.ts:89-93 | the end never passes the last week and the width is kept; a window at the last week stays put, one before it moves one week on |
| WindowControls.PrevWindow | src/app/components/FDRTable/hooks/useFDRControls.ts:94-96 | the start never precedes the first week; for a proper window the width is kept, a window at the first week stays put, one after it moves one week back |
| WindowControls.MovesCancel | src/app/components/FDRTable/hooks/useFDRControls.ts:85-100 | away from both bounds, a step forward and a step back undo each other |
| WindowControls.AdvanceStops | src/app/components/FDRTable/hooks/useFDRControls.ts:89-93 | after any number of steps forward the width is unchanged and the end is the old end plus the steps, capped at the last week |
| WindowControls.Resized | src/app/components/FDRTable/hooks/useFDRControls.ts:52-83 | a resized window keeps its start and has the new size unless clipped at the last week |
| WindowControls.FdrControls.constructor | src/app/components/FDRTable/hooks/useFDRControls.ts:38-46 | window [1, 1], offense, no ordering, range 5, not initialised |
| WindowControls.FdrControls.WindowSize | src/app/components/FDRTable/hooks/useFDRControls.ts:49 | ten weeks on desktop, the chosen range on mobile |
| WindowControls.FdrControls.InitialWindowEffect | src/app/components/FDRTable/hooks/useFDRControls.ts:52-61 | fires once, only with a non-zero current week and a positive last week, and sets the window from the current week |
| WindowControls.FdrControls.DeviceSwitchEffect | src/app/components/FDRTable/hooks/useFDRControls.ts:64-73 | after initialisation a device switch keeps the start and resizes to the new device's size |
| WindowControls.FdrControls.MobileRangeEffect | src/app/components/FDRTable/hooks/useFDRControls.ts:76-83 | on mobile after initialisation the window is resized to the chosen range |
| WindowControls.FdrControls.HandleWindowChange | src/app/components/FDRTable/hooks/useFDRControls.ts:85-100 | the window moves as `NextWindow` or `PrevWindow`, nothing else changes |
| WindowControls.FdrControls.HandleSortByChange | src/app/components/FDRTable/hooks/useFDRControls.ts:102-104 | only the perspective changes |
| WindowControls.FdrControls.HandleGameweekRangeChange | src/app/components/FDRTable/hooks/useFDRControls.ts:106-108 | only the range changes |
| WindowControls.FdrControls.SetTableWindow | src/app/components/FDRTable/hooks/useFDRControls.ts:115-118 | only the window changes |
| WindowControls.FdrControls.SetOrderedTeamIds | src/app/components/FDRTable/hooks/useFDRControls.ts:115-118 | only the ordering changes |
| WindowControls.FirstRenderWithData | src/app/components/FDRTable/hooks/useFDRControls.ts:52-61 | the first render with data starts the window at the current week, ten weeks wide on desktop and five on mobile, never past the last week |
| TableHeader.HeaderGameweeks | src/app/components/FDRTable/desktop/TableHeader.tsx:34-37 | the columns are exactly the weeks min to max, ascending, one each |
| TableHeader.HighlightedGameweeks | src/app/components/FDRTable/desktop/TableHeader.tsx:39-45 | the highlighted weeks are exactly min to min + range − 1 |
| TableHeader.ClickedWeeks | src/app/components/FDRTable/desktop/TableHeader.tsx:63-86 | column 0 ranks the range from min, capped at the last week; any other column ranks its own week |
| TableHeader.HeaderState.constructor | src/app/components/FDRTable/desktop/TableHeader.tsx:47-49 | no column, descending, offense |
| TableHeader.HeaderState.HandleHeaderClick | src/app/components/FDRTable/desktop/TableHeader.tsx:51-93 | without fixtures nothing changes; otherwise the direction flips iff the same column and perspective are clicked again, and the emitted order is the ranking of the clicked weeks in that direction |
| CardList.DefaultTeamIds | src/app/components/FDRTable/mobile/CardList.tsx:52-57 | every team's id once, ordered by short name, equal names in input order |
| CardList.SortedPositions | src/app/components/FDRTable/mobile/CardList.tsx:52-57 | sorting teams tagged with their positions orders them by short name and keeps equal names in input order |
| CardList.SortWeeks | src/app/components/FDRTable/mobile/CardList.tsx:82-106 | current mode ranks the window's first week; range mode ranks from it over the range, capped at the last week |
| CardList.DisplayedTeamIds | src/app/components/FDRTable/mobile/CardList.tsx:126-127 | the local sort if any, else the shared ordering, else the default order |
| CardList.CardListState.constructor | src/app/components/FDRTable/mobile/CardList.tsx:43-49 | range mode, no sort, descending, offense |
| CardList.CardListState.SetMobileSortMode | src/app/components/FDRTable/mobile/CardList.tsx:43-49 | only the mode changes |
| CardList.CardListState.HandleSort | src/app/components/FDRTable/mobile/CardList.tsx:60-124 | without fixtures nothing changes; otherwise the direction flips iff a sort with the same perspective and mode exists, and the stored ids are the ranking of the mode's weeks |
| CardList.SortTwice | src/app/components/FDRTable/mobile/CardList.tsx:60-124 | sorting twice gives the default direction, then the other one; the second order reverses the first iff no scores tie |
| LegacyDifficulty.TeamStrength | src/lib/utils/difficulty.ts:13-15 | rank 1 is strength 1, rank 20 strength 0.05, and ranks 1 to 20 stay within those |
| LegacyDifficulty.StrengthDecreasing | src/lib/utils/difficulty.ts:13-15 | a better rank always gives a higher strength |
| LegacyDifficulty.OffensiveDifficulty | src/lib/utils/difficulty.ts:22-29 | for league ranks the value lies in [0.025, 0.975] |
| LegacyDifficulty.DefensiveDifficulty | src/lib/utils/difficulty.ts:36-43 | for league ranks the value lies in [0.025, 0.975] |
| LegacyDifficulty.OffensiveDifficultyMonotone | src/lib/utils/difficulty.ts:22-29 | a stronger opposing defense raises, and a stronger own attack lowers, the offensive difficulty |
| LegacyDifficulty.DefensiveDifficultyMonotone | src/lib/utils/difficulty.ts:36-43 | a stronger opposing attack raises, and a stronger own defense lowers, the defensive difficulty |
| LegacyDifficulty.FixtureDifficulty | src/lib/utils/difficulty.ts:48-57 | offense mode gives the offensive, defense mode the defensive difficulty, within [0.025, 0.975] |
| LegacyDifficulty.Easiest | src/lib/utils/difficulty.ts:69 | the least difficulty of the week, attained by one fixture |
| LegacyDifficulty.MultiFixtureDifficulty | src/lib/utils/difficulty.ts:63-71 | a blank week scores 1, a single fixture its own value, several fixtures the least value divided by their count |
| LegacyDifficulty.DifficultyLevel | src/lib/utils/difficulty.ts:80-85 | the four levels as disjoint, exhaustive conditions: exactly 1 invalid, at least 0.62 hard, at most 0.38 easy, medium between |
| LegacyDifficulty.InvalidOnlyWhenBlank | src/lib/utils/difficulty.ts:63-85 | for league ranks a week is invalid exactly when it has no fixture |
| LegacyDifficulty.DoubleWeekNeverHard | src/lib/utils/difficulty.ts:63-85 | a week of two or more fixtures scores at most 0.4875 and is never hard |
| LegacyFixtures.EventFixtures | src/lib/utils/fixtures.ts:34-44 | the fixtures of one event, in input order |
| LegacyFixtures.GroupFixturesByEvent | src/lib/utils/fixtures.ts:34-44 | one group per event that occurs, each holding exactly that event's fixtures in input order |
| LegacyFixtures.AppendToGroup | src/lib/utils/fixtures.ts:38-40 | the fixture's event gains a group if it had none, the fixture goes at the end of that group, and every other group is unchanged |
| LegacyFixtures.EveryFixtureGroupedOnce | src/lib/utils/fixtures.ts:34-44 | the group sizes over the distinct events add up to the number of fixtures |
| LegacyFixtures.TeamFixturesForEvent | src/lib/utils/fixtures.ts:49-57 | exactly the fixtures of the event where the team plays home or away |
| LegacyFixtures.DisplaysSound | src/lib/utils/fixtures.ts:86-105 | every display belongs to a fixture with a known opponent and carries its home flag and difficulty, every fixture with a known opponent has its display in the list; none at all iff every opponent is unknown |
| LegacyFixtures.DisplaysExactly | src/lib/utils/fixtures.ts:86-105 | the displays are exactly those of the fixtures with a known opponent; only fixtures against unknown opponents are skipped |
| LegacyFixtures.EventDataFor | src/lib/utils/fixtures.ts:74-116 | a blank event is (no fixtures, 1, invalid); otherwise the displays of the team's fixtures in that event, holding exactly the displays of those with a known opponent, with their combined difficulty and level |
| LegacyFixtures.InvalidIffNoKnownOpponent | src/lib/utils/fixtures.ts:86-116 | for league teams an event is invalid exactly when none of its fixtures has a known opponent |
| LegacyFixtures.RowFor | src/lib/utils/fixtures.ts:62-123 | the row has an entry for exactly the requested events, each the event data for the team |
| LegacyFixtures.BuildDisplays | src/lib/utils/fixtures.ts:86-105 | the loop builds the displays of the known opponents and their difficulties |
| LegacyFixtures.ProcessTeamFixtures | src/lib/utils/fixtures.ts:62-123 | the loop builds the team's row |
| LegacyFixtures.TeamsMap | src/lib/utils/fixtures.ts:134-137 | the keys are exactly the team ids, the last team with an id winning |
| LegacyFixtures.ProcessAllTeams | src/lib/utils/fixtures.ts:128-142 | one row per team, in input order |
| LegacyFixtures.EventValue | src/lib/utils/fixtures.ts:183-186 | missing event data counts as 1 |
| LegacyFixtures.WindowSumOnlyReadsWindow | src/lib/utils/fixtures.ts:152-162 | the next-five sum depends only on the five events from the start |
| LegacyFixtures.WindowSumOfMissingEvents | src/lib/utils/fixtures.ts:152-162 | with no data in the window every event counts 1 |
| LegacyFixtures.Next5Difficulty | src/lib/utils/fixtures.ts:152-162 | the loop sums exactly the five events from the start |
| LegacyFixtures.OrdersArePreorders | src/lib/utils/fixtures.ts:167-205 | the name order and the key orders are total preorders |
| LegacyFixtures.SortTeamRows | src/lib/utils/fixtures.ts:167-205 | a permutation of the rows, ordered by name without a sort key, otherwise by key in the chosen direction with names breaking ties |
| Gameweek.GetCurrentGameweek | src/lib/utils/gameweek.ts:7-33 | the earliest event with a kickoff after now, all earlier events having kicked off; with none upcoming the last event, or 1 when there is none or it is 0 |
| Gameweek.GetMaxGameweek | src/lib/utils/gameweek.ts:38-41 | 38 without fixtures, otherwise the largest event |
| Gameweek.GetVisibleGameweeks | src/lib/utils/gameweek.ts:46-59 | consecutive weeks from the start, none past the last week, as many as fit up to the count |
| LiveModel.RatingSumTotalBetween | src/app/components/Table/utils.ts:11-12 | the total of the teams' rating sums lies between count·lo and count·hi |
| LiveModel.FixtureForTeamInWeek | src/app/components/Table/utils.ts:17-23 | exactly the team's fixtures of that week; none for an unknown team |
| LiveModel.CombineWeightedOffense | src/app/components/Table/utils.ts:29-32 | the live offense rule is the canonical complement product |
| LiveModel.Complements | src/app/components/Table/utils.ts:34-37 | each value replaced by 1 minus it, probabilities staying probabilities |
| LiveModel.ProductOfComplements | src/app/components/Table/utils.ts:34-37 | the product of the values equals the product of the complements of their complements |
| LiveModel.CombineWeightedDefense | src/app/components/Table/utils.ts:34-37 | the product rule is the complement product applied to the complements: a single fixture scores 1 − p, and the value lies in (0, 1) and is at least each 1 − p |
| LiveModel.LiveClass | src/app/components/Table/utils.ts:52-53 | easy above 0.66, medium above 0.33, hard otherwise, never invalid; it agrees with the canonical classes on every non-zero value |
| LiveModel.DifficultyModel.constructor | src/app/components/Table/utils.ts:4 | the league mean starts at 0 |
| LiveModel.DifficultyModel.InitDifficultyModel | src/app/components/Table/utils.ts:6-15 | no teams leave the mean as it was; otherwise the mean times the count is the total of offense + defense |
| LiveModel.DifficultyModel.AttackScores | src/app/components/Table/utils.ts:47-49 | one probability per fixture |
| LiveModel.DifficultyModel.DefenseScores | src/app/components/Table/utils.ts:69-71 | one probability per fixture |
| LiveModel.DifficultyModel.GetAttack | src/app/components/Table/utils.ts:39-56 | no fixtures give 0 / invalid; otherwise the complement product of the squashed sums, in (0, 1), with its live class |
| LiveModel.DifficultyModel.GetDefense | src/app/components/Table/utils.ts:58-78 | no fixtures give 0 / invalid; otherwise the product rule over the squashed sums, in (0, 1), with its live class |
| LiveModel.DifficultyModel.AttackMonotoneInOffense | src/app/components/Table/utils.ts:47-50 | a higher own offense never lowers the live attack value |
| LiveModel.DifficultyModel.DefenseAntitoneInDefense | src/app/components/Table/utils.ts:69-72 | a higher own defense never raises the live defense value, the opposite of the canonical engine |
| LiveModel.InitialisedMeanBetween | src/app/components/Table/utils.ts:6-15 | after initialisation with teams the mean lies within the range of their rating sums |
| LiveTable.Smallest | src/app/components/Table/Table.tsx:28 | the least week of a non-empty list, attained in it |
| LiveTable.Largest | src/app/components/Table/Table.tsx:29 | the greatest week of a non-empty list, attained in it |
| LiveTable.GetMinMax | src/app/components/Table/Table.tsx:17-31 | (1, 1) without fixtures; otherwise the first and last week of any fixture, both attained, whatever order the teams are visited in |
| LiveTable.LiveNext | src/app/components/Table/Table.tsx:98-101 | the end never passes the last week and the window stays at least ten weeks wide; a ten-week window before the last week moves one week on |
| LiveTable.LivePrev | src/app/components/Table/Table.tsx:103-105 | the start never precedes the first week and the window stays at least ten weeks wide; a ten-week window after the first week moves one week back |
| LiveTable.MovesAgreeWithControls | src/app/components/Table/Table.tsx:96-107 | on a ten-week window the live page moves exactly as the FDR table's controls do |
| LiveTable.ShortSeasonWindowStartsEarly | src/app/components/Table/Table.tsx:98-101 | in a five-week season a step forward from weeks 1–10 gives weeks −4 to 5 |
| LiveTable.LiveTableState.constructor | src/app/components/Table/Table.tsx:44-47 | weeks 1 to 10, offense, descending, no column |
| LiveTable.LiveTableState.HandleWindowChange | src/app/components/Table/Table.tsx:96-107 | the window moves as `LiveNext` or `LivePrev`, nothing else changes |
| LiveTable.LiveTableState.HandleSortByChange | src/app/components/Table/Table.tsx:109-111 | only the perspective changes |
| LiveTable.LiveTableState.HandleSort | src/app/components/Table/Table.tsx:113-124 | the clicked column becomes the sort column; the same column flips the direction, another takes the perspective's default |
| LiveTable.SortSameColumnTwice | src/app/components/Table/Table.tsx:113-124 | on a fresh table two clicks on a column give descending, then ascending |
| FixtureService.ParseFixtures | src/lib/services/FixtureService.ts:89-103 | the batch parses iff every element is well formed, giving the records in order; a failure's message starts with "Invalid fixtures data: " |
| FixtureService.IdSetSize | src/lib/services/FixtureService.ts:112-117 | the set of ids is never larger than the list, and is as large exactly when no id repeats |
| FixtureService.ValidateFixtures | src/lib/services/FixtureService.ts:105-118 | a count other than 380 is rejected first with its message, then a parse failure, then repeated ids; the batch passes exactly when it has 380 well-formed records with distinct ids |
| FixtureService.FinishedValue | src/lib/services/FixtureService.ts:142-146 | true is stored as 1, false as 0, a number as itself |
| FixtureService.FixtureStore.UpdateFixtures | src/lib/services/FixtureService.ts:120-162 | a rejected batch fails with the prefixed validation message and leaves the rows as they were; an accepted one replaces them by one row per fixture, in order, with distinct ids |
| GameSetup.RankRating | src/lib/services/GameSetupService.ts:67-68 | rank 1 is 1700, rank 20 is 1300, and ranks 1 to 20 stay within those |
| GameSetup.RankRatingDecreasing | src/lib/services/GameSetupService.ts:67-68 | a worse rank never gives a higher rating |
| GameSetup.TruncatedRankRating | src/lib/services/GameSetupService.ts:67-68 | with integer division the endpoints are the same and the value is at most one above the exact rating |
| GameSetup.TruncatedRankRatingDecreasing | src/lib/services/GameSetupService.ts:67-68 | with integer division a worse rank still never gives a higher rating |
| GameSetup.RatingsQuery | src/lib/services/GameSetupService.ts:63-71 | one row per ranking row: a NULL rank gives a NULL rating, any other rank its rating |
| GameSetup.OrZero | src/lib/services/GameSetupService.ts:77-78 | a missing rating counts as 0 |
| GameSetup.GetTeamEloData | src/lib/services/GameSetupService.ts:59-83 | one entry per team id of the rows, holding its last row's ratings |
| GameSetup.EnrichTeamsWithElo | src/lib/services/GameSetupService.ts:88-101 | one team per team in order, its game fields unchanged, with the ratings of its entry or zeros without one |
| GameSetup.EnrichFromRows | src/lib/services/GameSetupService.ts:38-41 | a team with ranking rows carries the ratings of its last row; any other team carries zeros |

## Left out

- `Math.exp` and floating point: the logistic curve is the parameter `sigma`, and all arithmetic is over exact reals. Double rounding is not captured: extreme gaps that round to exactly 0 or 1, and percentile comparisons at the 33/66 boundaries.
- `CanonicalDifficulty.AttackDifficulty`, `DefenseDifficulty`, `LiveModel.DifficultyModel.GetAttack` and `GetDefense` require every opponent to be in the team index. The code throws on a missing one, and a throw is not modelled. The legacy engine's skipping of unknown opponents is modelled.
- The `k` parameter of `squash`: every caller uses the default 0.01, so it is fixed.
- `GameSetup.OrZero`: `|| 0` also turns a NaN rating into 0; exact reals have no NaN, so only a missing rating is modelled.
- `localeCompare`: an abstract total preorder `collate` on names.
- `new Date()` and date parsing: `now` and kickoff times are integer timestamps passed in.
- React machinery: effects, `useMemo`, `useCallback` and render order. Each effect body and handler is a method that assigns its state at once.
- `LiveTable.GetMinMax`: the order of `Object.values(fixtures)` (`src/app/components/Table/Table.tsx:19`) is a free choice of the next entry, so the result is proved for every visiting order.
- `Lookup.AscendingKeys`: team ids are taken to be array indices (0 to 2^32 - 2; the game's ids are 1 to 20). For those keys `Object.keys` lists them in ascending order. JavaScript lists any other integer key (a negative or larger id) after them, in insertion order, and the model does not capture that order.
- The rank columns of the ratings query run inside SQLite, whose division is integer or real depending on the column type. Both forms are modelled (`RankRating`, `TruncatedRankRating`), and `RatingsQuery` uses the real one.
- Zod parsing of fixtures: modelled as the `RawFixture` datatype, a well-formed record or a list of issue messages. Schema details and issue wording are not modelled. The numeric `finished` value is an integer.
- Database and network I/O: the route handlers, `useFixtures`/`useTeams`/`useSetup`, `TeamService`, `ensureFixturesTableExists`, `syncFixtures`, `getFixtures`, the external fetches and `getGameSetup`'s queries. `FixtureStore` holds the table as a field, so the delete and the batch insert are one assignment.
- Rendering: all JSX components, `colors.ts`, `getDifficultyColor`, and the DOM reordering effect in `src/app/components/Table/Table.tsx:50-87`.
- `src/app/components/Table/TableHeader.tsx` and `TableRow.tsx` are not part of this model. They import sorting functions that `Table/utils.ts` does not define, and otherwise only render.
- The `!teamById` guard of the mobile card list's sort (`src/app/components/FDRTable/mobile/CardList.tsx:61`) is always false, since `{}` is truthy; only the fixtures check is modelled.
- `GameSetup.TruncatedRankRating` requires a rank of at least 1. For lower ranks the numerator is negative, and SQLite truncates toward zero, which Dafny's division does not.
