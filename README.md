# FunnyBoom game core in Dafny

This project models the deterministic core of FunnyBoom, a Minesweeper variant written in Swift as a
pure reducer `(state, action, dependencies) -> (state, events)`. It covers:

- the board:
  - clamped dimensions and the row-major coordinate list;
  - the 8-neighbourhood;
  - the mine count derived from difficulty and size preset;
  - safe-first-tap mine placement, which draws without replacement from a shrinking candidate
    array and then fills the adjacency map;
- the game state: its derived counters and predicates, and the leaderboard ranking `topTen`;
- the score rules: the constants and the integer final-score formula;
- the cell-interaction reducer:
  - a tap, with lazy board generation;
  - the explicit-stack flood reveal;
  - the chord reveal;
  - Superhero immunity, loss, and win detection with the final score;
  - flag toggling and the clown-hunt tap;
- the special-effect engine:
  - the once-per-cell roll gate, bonus and malus, and preparation notices;
  - the activation of X-ray, Superhero and Funny Boom, and the clown draw;
  - the forced debug mode;
- the once-a-second tick, with its single countdown beep;
- the action dispatcher and the round reset;
- the older all-in-one reducer `FunnyBoom/GameDomain.swift`, kept in its own module `Legacy`.
  Its lifecycle differs:
  - powers start at once for twelve seconds;
  - there is no event list;
  - pulses are kept in an array;
  - there is a player mode and a sound switch;
  - it has its own size presets.

One Dafny module stands for each Swift file:

| module | file |
|---|---|
| `Prelude` | shared helpers: `Option`, `Min`, `Max`, `Distinct` |
| `Board` | `board.dfy` |
| `GameModel` | `game_model.dfy` |
| `ScoreRules` | `score_rules.dfy` |
| `CellInteraction` | `cell_interaction.dfy` |
| `SpecialMode` | `special_mode.dfy` |
| `Tick` | `tick.dfy` |
| `GameReducer` | `game_reducer.dfy` |
| `Legacy` | `legacy.dfy` |

Code that changes things step by step is written as methods with loops, and is proved against
specification functions. This covers:
- the flood reveal's `while let popLast` stack loop;
- the chord's `for` loop;
- both draw loops;
- the adjacency loop and the pulse-dictionary loop;
- the field-by-field construction of the next state in `tapCell`, `tick` and `reduce`.

Code that is a single expression is written as functions and lemmas. This covers `resetRound`,
`topTen`, `finalScore`, the notice constructors and the activation functions.

Randomness is modelled as follows:
- Injected randomness is a stream `draws: nat -> int`, where draw `k` is the raw value of the k-th
  `randomInt` call in one reduction.
- A cursor is threaded through the methods that draw.
- Every reduction counts its draws from 0.
- `randomUnit() < 0.36` is a supplied boolean (`Dependencies.specialRoll`). The source consults it
  at most once per reduction.
- `boundedRandomInt` (`Board.swift:243-248`) makes no call when the bound is at most 1. So a board
  draw from a single candidate consumes nothing, while the clown loop always calls `randomInt`.
  The cursor follows both rules.

## Model

| member | source | states |
|---|---|---|
| Board.MakeDimensions | FunnyBoom/Domain/Model/Board.swift:7-10 | both sides are at least 2, and a requested side of 2 or more is kept exactly |
| Board.CellCount | FunnyBoom/Domain/Model/Board.swift:12-14 | every board has at least four cells |
| Board.RowMajorFacts | FunnyBoom/Domain/Model/Board.swift:16-29 | the coordinate list has exactly cellCount entries, all distinct and valid, in strict row-major order, and it is exactly the set of valid cells |
| Board.AllCellsCount | FunnyBoom/Domain/Model/Board.swift:12-29 | the set of valid cells has cellCount members |
| Board.AllCoordinates | FunnyBoom/Domain/Model/Board.swift:16-25 | the nested loops produce the row-major list: cellCount distinct valid coordinates, ordered, and every valid cell among them |
| Board.GridPrefixMembers | FunnyBoom/Domain/Model/Board.swift:16-25 | the first n rows of the enumeration hold exactly the cells with row below n and column in range |
| Board.GridPrefixOrdered | FunnyBoom/Domain/Model/Board.swift:16-25 | the enumeration of the first n rows is strictly increasing in row-major order |
| Board.NeighborFacts | FunnyBoom/Domain/Model/Board.swift:169-186 | at most 8 neighbours; a cell is listed exactly when it is valid and at Chebyshev distance 1; never the cell itself; no repeats |
| Board.BlockFacts | FunnyBoom/Domain/Model/Board.swift:171-179 | the offsets -1..1 × -1..1 visit exactly the 3×3 block around the cell, including the cell, without repeats |
| Board.KeepNeighborsFacts | FunnyBoom/Domain/Model/Board.swift:173-182 | the filter keeps exactly the valid cells other than the centre, and keeps a list without repeats free of repeats |
| Board.Neighbors | FunnyBoom/Domain/Model/Board.swift:169-186 | the nested offset loops return the neighbour list whose properties NeighborFacts states |
| Board.RoundedShare | FunnyBoom/Domain/Model/Board.swift:140-144 | the share `cells × pct / 100` rounded half up: within one half of the exact product, never negative |
| Board.MineCountFor | FunnyBoom/Domain/Model/Board.swift:140-144 | the mine count lies in [1, max(1, cells − 1)] and equals the rounded density share whenever that share is in range |
| Board.PresetDimensions | FunnyBoom/Domain/Model/Board.swift:108-118 | every size preset has at least 14 rows and 10 columns, so no side is clamped, and between 140 and 468 cells |
| Board.MineCount | FunnyBoom/Domain/Model/Board.swift:140-144 | for every preset and difficulty, at least one mine and at least one free cell |
| Board.DefaultMineCount | FunnyBoom/Domain/Model/Board.swift:138-144 | the default settings (amateur, 20×20) give 52 mines |
| Board.AdjacencyBounds | FunnyBoom/Domain/Model/Board.swift:165-167 | a cell's adjacent-mine count is between 0 and 8 |
| Board.BoundedRandomInt | FunnyBoom/Domain/Model/Board.swift:243-248 | for a bound above 1 the result lies in [0, bound) whatever the raw draw, equals an in-range draw, and consumes one draw; otherwise it is 0 and consumes none |
| Board.ClampIndex | FunnyBoom/Domain/Model/Board.swift:247 | the clamped index lies in [0, count) and equals any raw value already in range |
| Board.PickIndex | FunnyBoom/Domain/Model/Board.swift:206-208 | a picked index is in range, and exactly one draw is used except for a single candidate in the board loop |
| Board.DrawSize | FunnyBoom/Domain/Model/Board.swift:203-209 | drawing without replacement yields exactly min(need, candidates) distinct cells |
| Board.DrawMembers | FunnyBoom/Domain/Model/Board.swift:203-209 | every drawn cell comes from the candidate list |
| Board.DrawCursor | FunnyBoom/Domain/Model/Board.swift:203-209 | the draw loop uses one draw per picked cell, except that the board loop uses none for a pick from a single remaining candidate |
| Board.DrawWithoutReplacement | FunnyBoom/Domain/Model/Board.swift:203-209 | the while loop that removes from the candidate array and inserts into the mine set computes the drawn set, all candidates, of size min(target, candidates) |
| Board.WithoutFacts | FunnyBoom/Domain/Model/Board.swift:196-201 | the candidate filter keeps exactly the cells outside the forbidden set, keeps them distinct, and removes exactly as many as were forbidden |
| Board.AdjacencyMap | FunnyBoom/Domain/Model/Board.swift:211-219 | the loop gives every coordinate an entry, the number of its neighbours that are mines |
| Board.PlaceMinesFacts | FunnyBoom/Domain/Model/Board.swift:194-221 | no mine on the safe cell; no mine in its 3×3 zone when enough cells lie outside it; min(mineCount, candidates) mines, all candidates; exactly mineCount when the safe cell is on the board; the adjacency map is consistent |
| Board.PlaceMines | FunnyBoom/Domain/Model/Board.swift:194-221 | the imperative placement computes the board that PlaceMinesFacts describes |
| Board.GenerateFacts | FunnyBoom/Domain/Model/Board.swift:188-222 | a generated board has the preset's dimensions, is consistent, is never mined at the safe coordinate, and carries exactly the settings' mine count when that coordinate is valid |
| Board.Generate | FunnyBoom/Domain/Model/Board.swift:188-222 | `generate` computes exactly the board GenerateFacts describes |
| Board.WithoutLength | FunnyBoom/Domain/Model/Board.swift:196-201 | removing the forbidden cells from a distinct list shortens it by exactly their number |
| ScoreRules.TimeBonus | FunnyBoom/Domain/Rules/ScoreRules.swift:15-16 | the time bonus lies in [0, 3 × cellCount], is 0 once 5 × elapsed reaches 3 × cellCount, and is the difference before that |
| ScoreRules.FinalScore | FunnyBoom/Domain/Rules/ScoreRules.swift:14-18 | the final score is never negative, equals 100 × points plus the time bonus whenever that is non-negative, and is at least 100 × points |
| ScoreRules.FinalScoreNonIncreasingInTime | FunnyBoom/Domain/Rules/ScoreRules.swift:15-17 | taking longer never raises the final score |
| ScoreRules.FinalScoreNonDecreasingInPoints | FunnyBoom/Domain/Rules/ScoreRules.swift:15-17 | more points never lower the final score |
| GameModel.EveryNoticeIsACountdown | FunnyBoom/Domain/Model/GameState.swift:59-64 | every notice style counts as an activation countdown |
| GameModel.InsertFacts | FunnyBoom/Domain/Model/GameState.swift:139-152 | inserting an entry into a ranked list keeps every entry, adds one, and keeps the list ranked |
| GameModel.SortFacts | FunnyBoom/Domain/Model/GameState.swift:140-149 | sorting yields a permutation of the input ranked by score descending, then time ascending, then date descending |
| GameModel.SortRanked | FunnyBoom/Domain/Model/GameState.swift:140-149 | an already ranked list sorts to itself |
| GameModel.TopTenFacts | FunnyBoom/Domain/Model/GameState.swift:139-152 | topTen keeps min(10, n) of its input's entries, ranked, and no dropped entry ranks before a kept one |
| GameModel.PrefixOfRanked | FunnyBoom/Domain/Model/GameState.swift:150 | a prefix of a ranked list is ranked and ranks before the rest |
| GameModel.TopTenIdempotent | FunnyBoom/Domain/Model/GameState.swift:139-152 | ranking an already ranked top ten changes nothing |
| GameModel.StateDimensions | FunnyBoom/Domain/Model/GameState.swift:212-214 | the board's dimensions, or the preset's before a board exists |
| GameModel.StateMineCount | FunnyBoom/Domain/Model/GameState.swift:216-218 | the board's mine count, or the settings' before a board exists |
| GameModel.RemainingBombs | FunnyBoom/Domain/Model/GameState.swift:220-222 | mines minus flags minus neutralized bombs, floored at 0, and never above the mine count |
| GameModel.CellsToWin | FunnyBoom/Domain/Model/GameState.swift:246-248 | the board's safe cells, cells minus mines; before a board exists, the preset's cells minus the settings' mines, at least 1 |
| GameModel.InitialState | FunnyBoom/Domain/Model/GameState.swift:174-210 | a fresh state is idle, with no board, no time and no points, and the given settings, leaderboard and counter; its board takes input, every mine remains to be found and no safe cell is revealed |
| GameModel.InteractiveExactlyWhenActive | FunnyBoom/Domain/Model/GameState.swift:92-112 | a hunt takes taps exactly when it is past its briefing |
| GameModel.CanInteractExactly | FunnyBoom/Domain/Model/GameState.swift:238-244 | the board takes input exactly in the idle or running phase with no notice showing |
| GameModel.RevealedSafeCells | FunnyBoom/Domain/Model/GameState.swift:250-253 | counts revealed non-mines: 0 without a board, at most the revealed count, and all of them when no mine is revealed |
| CellInteraction.FloodReveal | FunnyBoom/Domain/Reducer/CellInteractionReducer.swift:262-289 | the stack loop terminates; its result contains what was revealed; every added cell is valid, unflagged and not a mine; every added zero-count cell has all its unflagged non-mine neighbours revealed; the origin is added exactly when it was open; the added cells form a tree rooted at the origin through zero-count cells |
| CellInteraction.Loss | FunnyBoom/Domain/Reducer/CellInteractionReducer.swift:245-260 | a loss sets phase lost, reveals every mine, adds one explosion, clears power, overlay, notice, pulses and victory, keeps the board, flags and points, and emits the explosion then the loss-card reveal |
| CellInteraction.LoseRound | FunnyBoom/Domain/Reducer/CellInteractionReducer.swift:245-260 | the field-by-field loss computes the transition Loss describes |
| CellInteraction.WinExactlyWhenEverySafeCellRevealed | FunnyBoom/Domain/Reducer/CellInteractionReducer.swift:216-219 | on a consistent board, the win test holds exactly when every safe cell is revealed |
| CellInteraction.Completion | FunnyBoom/Domain/Reducer/CellInteractionReducer.swift:213-243 | when every safe cell is revealed: phase won, modes and pulses cleared, a pending victory with finalScore(points, elapsed, dimensions), and exactly the victory sound; otherwise nothing changes |
| CellInteraction.CompleteIfWon | FunnyBoom/Domain/Reducer/CellInteractionReducer.swift:213-243 | the field-by-field win test computes the transition Completion describes |
| CellInteraction.WinTestedMeans | FunnyBoom/Domain/Reducer/CellInteractionReducer.swift:213-219 | on a generated board, a step that ran the win test from a round not yet won ends won exactly when every safe cell is revealed, and exactly then plays the victory sound |
| CellInteraction.AppendBoardStartedEventIfNeeded | FunnyBoom/Domain/Reducer/CellInteractionReducer.swift:93-113 | the board-started event is appended exactly when the reveals go from empty to non-empty, and the events are kept otherwise |
| CellInteraction.StartReportedMeans | FunnyBoom/Domain/Reducer/CellInteractionReducer.swift:93-113 | a tap's events contain the board-started event exactly when its reveals went from empty to non-empty, and no other start event |
| CellInteraction.RevealAndScore | FunnyBoom/Domain/Reducer/CellInteractionReducer.swift:62-71 | the flood adds only valid, unflagged safe cells, closes around zero-count cells, reveals an open origin, adds nothing when the origin is revealed, flagged or a mine, reaches every added cell from the origin through added cells whose count is 0, and adds exactly one point per new cell |
| CellInteraction.PathFromOrder | FunnyBoom/Domain/Reducer/CellInteractionReducer.swift:272-285 | every cell the stack loop reveals lies at the end of a path from the origin whose every step leaves a zero-count cell for one of its neighbours, through revealed cells only |
| CellInteraction.FloodStopsAtNumberedCell | FunnyBoom/Domain/Reducer/CellInteractionReducer.swift:281-285 | neighbours are pushed only from a cell with count 0, so from an origin with mines around it the flood reaches nothing but the origin |
| CellInteraction.SafeAdditionCount | FunnyBoom/Domain/Reducer/CellInteractionReducer.swift:194-202 | the chord's running point total counts each newly revealed safe cell once, across successive reveals |
| CellInteraction.ChordRevealIfPossible | FunnyBoom/Domain/Reducer/CellInteractionReducer.swift:166-211 | a no-op unless the count is positive and matches the flagged neighbours; otherwise it visits unflagged unrevealed neighbours in order, scores each new safe cell, loses at the first mine unless Superhero neutralizes it, and otherwise reveals every target and runs the win test; every new safe cell is reached by a zero-count flood from one of the targets, so nothing beyond those floods is revealed |
| CellInteraction.ChordReachFlood | FunnyBoom/Domain/Reducer/CellInteractionReducer.swift:194-202 | a target's flood keeps every safe cell the chord has added reachable from some target |
| CellInteraction.TapMine | FunnyBoom/Domain/Reducer/CellInteractionReducer.swift:37-60 | a mine loses the round without Superhero; under Superhero it is revealed, neutralized and unflagged, and the win test runs |
| CellInteraction.TapSafe | FunnyBoom/Domain/Reducer/CellInteractionReducer.swift:62-90 | a safe tap floods and scores as RevealAndScore states (only unflagged safe cells, closed around zero counts, each reached from the tapped cell by a zero-count flood), keeps the flags, the board and the explosion count, the leaderboard, the clock and the neutralized bombs are kept and only the tapped cell can join the rolled cells, and a board start is reported; then the win test runs: when every safe cell is revealed the round is won, modes and pulses are cleared, the pending victory holds the final score and the victory sound plays, and otherwise the phase and the pending victory are unchanged and no victory sound plays |
| CellInteraction.TapBoard | FunnyBoom/Domain/Reducer/CellInteractionReducer.swift:33-90 | once the board exists: a revealed cell is the chord, without drawing; a mine is a loss, or under Superhero a neutralization followed by the win test; a safe cell is flood revealed and scored, every new tile reached from it by a zero-count flood, the leaderboard, the clock and the neutralized bombs are kept and only the tapped cell can join the rolled cells, and the win test runs |
| CellInteraction.TapChord | FunnyBoom/Domain/Reducer/CellInteractionReducer.swift:33-35 | a tap on a revealed cell returns the chord's transition as it stands: nothing unless armed, otherwise the chord's outcome; it never reports a board start |
| CellInteraction.TapCell | FunnyBoom/Domain/Reducer/CellInteractionReducer.swift:4-91 | ignored when the board cannot take input, an overlay shows, the cell is invalid or flagged; the first tap generates the board around the cell, which is not a mine, reveals it and starts the round; a revealed cell is the chord; a mine loses or is neutralized and the win test runs; a safe cell floods (only unflagged safe cells, each reached from it through zero-count cells) and scores, the leaderboard, the clock and the neutralized bombs are kept and only the tapped cell can join the rolled cells, and the win test runs (won exactly when every safe cell is revealed, with the final score and the victory sound); the explosion count rises by at most 1; a board start is reported exactly when the reveals become non-empty |
| CellInteraction.NumberedTapRevealsOnlyIt | FunnyBoom/Domain/Reducer/CellInteractionReducer.swift:62-71 | a tap on an unrevealed safe cell with mines around it reveals that cell and nothing else |
| CellInteraction.FloodFromNumberedCell | FunnyBoom/Domain/Reducer/CellInteractionReducer.swift:281-285 | a reveal whose new tiles all come from a flood out of a numbered cell adds that cell alone |
| CellInteraction.ChordEvents | FunnyBoom/Domain/Reducer/CellInteractionReducer.swift:33-35 | a chord never reports a board start |
| CellInteraction.Toggled | FunnyBoom/Domain/Reducer/CellInteractionReducer.swift:156-161 | the coordinate's flag flips and every other flag stays |
| CellInteraction.ToggleFlag | FunnyBoom/Domain/Reducer/CellInteractionReducer.swift:145-164 | a no-op when the board cannot take input, an overlay shows or the cell is revealed; otherwise it flips only that flag and plays the flag sound only when adding |
| CellInteraction.ToggleTwiceRestores | FunnyBoom/Domain/Reducer/CellInteractionReducer.swift:145-164 | toggling a flag twice restores the state |
| CellInteraction.TapFunnyBoomCell | FunnyBoom/Domain/Reducer/CellInteractionReducer.swift:115-143 | outside a running, interactive hunt nothing changes; a first tap on a clown adds 10 to points and bonus and one pulse there; a first miss is recorded without points; a repeated tap changes nothing; the clown tiles never change |
| SpecialMode.MakeModeNotice | FunnyBoom/Domain/Reducer/SpecialModeReducer.swift:108-173 | a notice for the style with 5 of 5 seconds left, which counts as an activation countdown |
| SpecialMode.EnqueueTileScorePulse | FunnyBoom/Domain/Reducer/SpecialModeReducer.swift:242-253 | one two-second pulse with the delta at the cell, replacing any earlier one there; other pulses and fields unchanged |
| SpecialMode.ClownCount | FunnyBoom/Domain/Reducer/SpecialModeReducer.swift:223-226 | min(cells, max(6, ⌊cells × 18 / 100⌋)), hence between 6 and cells on any board of six or more cells |
| SpecialMode.FunnyBoomOverlayFacts | FunnyBoom/Domain/Reducer/SpecialModeReducer.swift:217-240 | the overlay holds exactly ClownCount distinct valid clown tiles, no clowns found, no misses, an active eight-second hunt, and uses one draw per clown |
| SpecialMode.MakeFunnyBoomOverlay | FunnyBoom/Domain/Reducer/SpecialModeReducer.swift:217-240 | the clown-drawing loop computes the overlay FunnyBoomOverlayFacts describes |
| SpecialMode.ActivatePreparedSpecialMode | FunnyBoom/Domain/Reducer/SpecialModeReducer.swift:190-215 | activation clears the notice and starts X-ray or Superhero for 8 seconds, or an active eight-second hunt when a board exists; the board, reveals and points stay |
| SpecialMode.SkipSpecialModeCountdown | FunnyBoom/Domain/Reducer/SpecialModeReducer.swift:175-188 | a no-op without a notice; otherwise exactly the activation of the notice's style |
| SpecialMode.BoardCentre | FunnyBoom/Domain/Reducer/SpecialModeReducer.swift:32-36 | the centre (rows/2, columns/2) is on the board |
| SpecialMode.EnsureBoardForForcedSpecialMode | FunnyBoom/Domain/Reducer/SpecialModeReducer.swift:25-49 | afterwards a board exists, generated around the centre if it was missing; an idle round starts running; nothing else changes |
| SpecialMode.ForceSpecialMode | FunnyBoom/Domain/Reducer/SpecialModeReducer.swift:4-23 | a no-op unless idle or running; afterwards a board exists, the round runs, power and overlay are cleared and a fresh notice for the style shows |
| SpecialMode.ForcedBoardFacts | FunnyBoom/Domain/Reducer/SpecialModeReducer.swift:25-49 | a board generated by the forced mode is consistent, has the preset's shape and mine count, and is not mined at the centre |
| SpecialMode.RolledEffect | FunnyBoom/Domain/Reducer/SpecialModeReducer.swift:81-84 | the effect index is clamped to [0, 4], so the effect table is indexed safely whatever the draw |
| SpecialMode.MaybeApplySpecialEffect | FunnyBoom/Domain/Reducer/SpecialModeReducer.swift:51-106 | nothing happens unless the tapped cell is newly revealed, has count 0 and was never rolled; past the gate the cell is marked even if the roll fails; a successful roll emits exactly the discovery sound, clears the modes, and applies ±10 with a pulse or a fresh notice; the board, reveals and flags never change |
| Tick.StepBeepsOnFinalThree | FunnyBoom/Domain/Reducer/TickReducer.swift:101-103 | a one-second step is a final-three countdown exactly when it starts at 2, 3 or 4 |
| Tick.PowerAfterTick | FunnyBoom/Domain/Reducer/TickReducer.swift:13-39 | a power with at most 1 second ends; any other keeps its kind and loses a second |
| Tick.OverlayAfterTick | FunnyBoom/Domain/Reducer/TickReducer.swift:41-64 | a briefing at 1 second or less becomes an eight-second hunt, otherwise loses a second; a hunt at 1 second or less ends, otherwise loses a second; clowns and found sets stay |
| Tick.TickPower | FunnyBoom/Domain/Reducer/TickReducer.swift:13-39 | the power step changes only the power, as PowerAfterTick says, and beeps exactly when a power with more than 1 second steps into its last three |
| Tick.TickOverlay | FunnyBoom/Domain/Reducer/TickReducer.swift:41-64 | the hunt step changes only the overlay, as OverlayAfterTick says, and beeps exactly when an active hunt with more than 1 second steps into its last three; a briefing never beeps |
| Tick.TickNotice | FunnyBoom/Domain/Reducer/TickReducer.swift:66-77 | the notice step loses a second, and at zero activates the prepared mode as ActivatePreparedSpecialMode says |
| Tick.PulsesAfterTickFacts | FunnyBoom/Domain/Reducer/TickReducer.swift:79-92 | a pulse survives a tick exactly when it had more than one second; it loses one and keeps its cell and delta |
| Tick.FreshPulseLastsTwoTicks | FunnyBoom/Domain/Reducer/TickReducer.swift:79-92 | a fresh two-second pulse survives one tick and is gone after two |
| Tick.RefreshPulses | FunnyBoom/Domain/Reducer/TickReducer.swift:79-92 | the loop over the pulse dictionary rebuilds exactly the aged dictionary PulsesAfterTickFacts describes |
| Tick.TickStep | FunnyBoom/Domain/Reducer/TickReducer.swift:4-99 | the step-by-step tick computes the tick specification that TickFacts, TickCountdowns and ExpiringNoticeStartsFullMode describe |
| Tick.TickFacts | FunnyBoom/Domain/Reducer/TickReducer.swift:4-99 | outside a running round nothing happens; in one, elapsed time rises by 1; board, reveals, flags and points stay; at most one beep, sounded exactly when a power or a running hunt steps into 3, 2 or 1 |
| Tick.TickStateFacts | FunnyBoom/Domain/Reducer/TickReducer.swift:11-92 | in a running round the clock gains one second and nothing outside the countdowns moves |
| Tick.TickBeepFacts | FunnyBoom/Domain/Reducer/TickReducer.swift:94-96 | in a running round the tick beeps at most once, exactly when a power or an active hunt reaches 3, 2 or 1; briefing and notice never beep |
| Tick.TickCountdowns | FunnyBoom/Domain/Reducer/TickReducer.swift:13-92 | without an expiring notice, power and hunt take one step, the notice loses a second and the pulses age |
| Tick.ExpiringNoticeStartsFullMode | FunnyBoom/Domain/Reducer/TickReducer.swift:13-77 | a notice that runs out starts its mode after the power and hunt steps, so X-ray and Superhero start with 8 seconds and a hunt with an active eight-second phase; the notice is gone |
| GameReducer.ResetRound | FunnyBoom/Domain/Reducer/GameReducer.swift:66-86 | keeps settings, leaderboard and explosion counter; every other field takes its initial value |
| GameReducer.ResetRoundIdempotent | FunnyBoom/Domain/Reducer/GameReducer.swift:66-86 | resetting twice is resetting once |
| GameReducer.ResetRoundForgetsTheRound | FunnyBoom/Domain/Reducer/GameReducer.swift:66-86 | two states reset to the same round exactly when they agree on settings, leaderboard and explosion counter |
| GameReducer.ReducedFacts | FunnyBoom/Domain/Reducer/GameReducer.swift:4-64 | across all actions: only tap, flag and tick emit events; the explosion counter never decreases and only a tap raises it, by 1; a board stays consistent with the settings; a difficulty or size change sets that setting, keeps the other and resets |
| GameReducer.Reduce | FunnyBoom/Domain/Reducer/GameReducer.swift:4-64 | each action does what its handler promises: a tap has the whole outcome TapCell states, including what a safe tap keeps, with the draws counted from 0; a flag toggle its state and its flag sound; the prompt dismissal clears only the victory; a scores load sets only the leaderboard to its top ten |
| Legacy.PresetTablesDiffer | FunnyBoom/GameDomain.swift:87-98 | this file's preset table agrees with the current one except for the two largest presets |
| Legacy.LegacyMineCount | FunnyBoom/GameDomain.swift:121-125 | at least one mine and at least one free cell for every preset of this file |
| Legacy.LegacyGenerateFacts | FunnyBoom/GameDomain.swift:169-203 | a generated board has this file's preset shape, is consistent, is never mined at the safe cell, and has the settings' mine count |
| Legacy.LegacyGenerate | FunnyBoom/GameDomain.swift:169-203 | `generate` computes the board LegacyGenerateFacts describes |
| Legacy.ResetRound | FunnyBoom/GameDomain.swift:542-564 | keeps settings, leaderboard, sound switch and explosion counter; reveal mode and every other field initial |
| Legacy.ResetRoundIdempotent | FunnyBoom/GameDomain.swift:542-564 | resetting twice is resetting once |
| Legacy.PulsesElsewhere | FunnyBoom/GameDomain.swift:905 | keeps exactly the pulses at other cells |
| Legacy.PulsesElsewhereOnePerCell | FunnyBoom/GameDomain.swift:905 | removing a cell's pulses keeps at most one pulse per cell |
| Legacy.EnqueuedFacts | FunnyBoom/GameDomain.swift:900-914 | the new two-second pulse is last, no earlier pulse is at its cell, pulses elsewhere are kept, and at most one pulse per cell is preserved |
| Legacy.RemovePulsesAt | FunnyBoom/GameDomain.swift:905 | the removal loop keeps exactly the pulses at other cells |
| Legacy.EnqueueTileScorePulse | FunnyBoom/GameDomain.swift:900-914 | only the pulse array changes, to the enqueued one |
| Legacy.AgedPulsesCameFrom | FunnyBoom/GameDomain.swift:701-705 | every surviving pulse is an input pulse one second younger, so none reaches 0 |
| Legacy.AgedPulsesKept | FunnyBoom/GameDomain.swift:701-705 | every pulse with more than one second survives, one second older |
| Legacy.AgedPulsesOnePerCell | FunnyBoom/GameDomain.swift:701-705 | ageing keeps at most one pulse per cell |
| Legacy.AgePulses | FunnyBoom/GameDomain.swift:701-705 | the compactMap loop computes the aged pulse array |
| Legacy.NoticeAfterTick | FunnyBoom/GameDomain.swift:692-699 | a notice with at most 1 second is cleared and activates nothing; otherwise it loses a second |
| Legacy.OverlayAfterTick | FunnyBoom/GameDomain.swift:707-714 | a hunt with at most 1 second is cleared; otherwise it loses a second |
| Legacy.StepPower | FunnyBoom/GameDomain.swift:675-690 | the legacy power step is the current core's PowerAfterTick: a power with at most 1 second ends, any other loses a second |
| Legacy.StepNotice | FunnyBoom/GameDomain.swift:692-699 | the notice step is NoticeAfterTick, and no notice stays none |
| Legacy.StepOverlay | FunnyBoom/GameDomain.swift:707-714 | the hunt step is OverlayAfterTick, and no hunt stays none |
| Legacy.LegacyTick | FunnyBoom/GameDomain.swift:669-717 | the step-by-step tick computes the tick specification TickFacts describes |
| Legacy.TickFacts | FunnyBoom/GameDomain.swift:669-717 | outside a running round nothing happens; in one, time rises by 1, power, notice and hunt lose a second or end, pulses age and keep one per cell, and nothing else changes |
| Legacy.Loss | FunnyBoom/GameDomain.swift:606-614 | phase lost, every mine revealed, one more explosion, modes, pulses and victory cleared, progress kept |
| Legacy.LoseRound | FunnyBoom/GameDomain.swift:606-614 | the field-by-field loss computes Loss |
| Legacy.Completion | FunnyBoom/GameDomain.swift:760-788 | when every safe cell is revealed: phase won, modes and pulses cleared, a pending victory with the final score; otherwise nothing changes |
| Legacy.CompleteIfWon | FunnyBoom/GameDomain.swift:760-788 | the field-by-field win test computes Completion |
| Legacy.WinTestedMeans | FunnyBoom/GameDomain.swift:760-766 | on a generated board, a step that ran the win test from a round not yet won ends won exactly when every safe cell is revealed |
| Legacy.LegacyToggleFlag | FunnyBoom/GameDomain.swift:650-667 | a no-op when the board cannot take input, an overlay shows or the cell is revealed; otherwise only that flag flips |
| Legacy.ToggleFlagTwiceRestores | FunnyBoom/GameDomain.swift:650-667 | toggling twice restores the state |
| Legacy.LegacyTapFunnyBoomCell | FunnyBoom/GameDomain.swift:634-648 | with no interactivity check, the first tap on a clown adds 10 to points and bonus; anything else changes nothing, and misses are not recorded |
| Legacy.ClownScoresOnce | FunnyBoom/GameDomain.swift:634-648 | a clown scores once: tapping it again changes nothing |
| Legacy.ModeNotice | FunnyBoom/GameDomain.swift:882-898 | a notice of the style whose total and remaining seconds are the duration |
| Legacy.LegacyOverlayFacts | FunnyBoom/GameDomain.swift:853-871 | ClownCount distinct valid clown tiles, none found, five seconds, one draw per clown |
| Legacy.MakeLegacyOverlay | FunnyBoom/GameDomain.swift:854-871 | the clown-drawing loop computes the overlay LegacyOverlayFacts describes |
| Legacy.MaybeApplySpecialEffect | FunnyBoom/GameDomain.swift:790-880 | the same gate; a successful roll clears the modes and applies ±10 with a pulse, starts X-ray or Superhero at once for 12 seconds with a 12-second notice, or opens a five-second hunt with a five-second notice |
| Legacy.RevealAndScore | FunnyBoom/GameDomain.swift:617-621 | the shared flood reveal adds only valid unflagged safe cells, closes around zero-count cells, adds nothing when the origin is revealed, flagged or a mine, reaches every added cell from the origin through added zero-count cells, and scores one point per new cell |
| Legacy.ChordRevealIfPossible | FunnyBoom/GameDomain.swift:719-758 | a no-op unless armed; otherwise the reveals only grow, each new tile is a valid unflagged safe cell or a target mine, every new safe cell is reached by a zero-count flood from a target, each scores, the first mine without Superhero loses, and otherwise the target mines are neutralized, every target is revealed, the new tiles are closed around zero counts and the win test runs |
| Legacy.TapSafe | FunnyBoom/GameDomain.swift:617-631 | a safe tap floods (only unflagged safe cells, closed around zero counts, each reached from the tapped cell by a zero-count flood) and scores, keeps flags, board, mode, sound, leaderboard, clock and neutralized bombs, lets only the tapped cell join the rolled cells; then the win test runs: when every safe cell is revealed the round is won, modes and pulses are cleared and the pending victory holds the final score, and otherwise the phase and the pending victory are unchanged |
| Legacy.LegacyTapCell | FunnyBoom/GameDomain.swift:566-632 | the guards; in flag mode exactly a flag toggle; the first tap generates this file's board around the cell and reveals it; a revealed cell is the chord; a Superhero mine is revealed and neutralized with no phase change and no win test; otherwise a mine loses; a safe cell floods (only unflagged safe cells, each reached from it through zero-count cells) and scores, the leaderboard, the clock and the neutralized bombs are kept and only the tapped cell can join the rolled cells, and the win test runs |
| Legacy.NumberedTapRevealsOnlyIt | FunnyBoom/GameDomain.swift:617-621 | a tap that opens an unrevealed safe cell with mines around it reveals that cell and nothing else |
| Legacy.FirstTap | FunnyBoom/GameDomain.swift:580-631 | the first tap that reaches the board generates it from this file's tables around the cell, sets the round running and then has the outcome LegacyTapCell states: the tapped cell floods through zero-count cells only and the leaderboard, the clock and the neutralized bombs are kept and only the tapped cell can join the rolled cells |
| Legacy.TapBoard | FunnyBoom/GameDomain.swift:593-631 | once the board exists: a revealed cell is the chord; a mine is neutralized under Superhero or loses; a safe cell floods through zero-count cells only and scores, the leaderboard, the clock and the neutralized bombs are kept and only the tapped cell can join the rolled cells, and the win test runs |
| Legacy.ReducedFacts | FunnyBoom/GameDomain.swift:499-540 | the explosion counter never decreases and only a tap raises it, by 1; a board stays consistent with the settings; toggleSound flips exactly the sound switch; setPlayerMode sets only the mode; the mode otherwise changes only back to reveal on a reset |
| Legacy.Reduce | FunnyBoom/GameDomain.swift:499-540 | each action does what its handler promises: a tap has the whole outcome LegacyTapCell states, including what a safe tap keeps, with the draws counted from 0; the setters reset; the mode and sound actions set one field |

## Left out

- SwiftUI views, the view facade, the async drivers and timers, the effect runner, audio synthesis,
  analytics and persistence. They are user interface, concurrency, floating point or I/O; the
  core only returns events for them.
- UUID identifiers, localized titles, subtitles and symbols, nicknames and `Date`. Score entries
  keep an opaque integer id and an integer `playedAt`; notices and pulses carry no id.
- Floating-point constants are integer percentages:
  - the mine density is rounded half up, `(cells × pct + 50) / 100`, which agrees with Swift's
    `.rounded()` on non-negative values;
  - the clown density truncates, `cells × 18 / 100`;
  - `randomUnit() < 0.36` is a supplied boolean;
  - `SpecialModeNotice.progress` is not modelled.
- Swift's `Int` is 64 bits wide and traps on overflow. The model uses unbounded integers, because
  no board, score or timer comes near that width.
- GameModel.TopTenFacts: the ranking is a stable insertion sort. Swift's `sorted(by:)` does not
  promise stability, so entries that tie on all three keys may appear in another order in the
  source.
- `randomInt` is a stream of raw draws read from a cursor. The model does not capture which
  concrete generator supplies them.
- CellInteraction.FloodReveal: the visit order and the parent links it returns are ghost outputs
  that describe the reveal. They are not part of the source's result.
- CellInteraction.TapCell: on a safe cell it states the events only through the board-started
  rule and the victory sound, and it does not say what the special roll did to the bonus, the
  notice and the pulses. Those are stated by SpecialMode.MaybeApplySpecialEffect.
- Legacy.LegacyTapCell: on a safe cell it does not say what the special roll did to the bonus,
  the power, the hunt, the notice and the pulses. Those are stated by
  Legacy.MaybeApplySpecialEffect.
- Legacy.ChordRevealIfPossible: it does not state the order facts (revealed up to the first mine).
  The current core's CellInteraction.ChordRevealIfPossible states them.
- GameReducer.Reduce: for a clown-hunt tap it states only that no event is returned and that only
  points, bonus, pulses and overlay can change. The full outcome is stated by
  CellInteraction.TapFunnyBoomCell.
