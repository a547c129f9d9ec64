/**
 * The game's value types, the state aggregate with its derived properties, the domain events and the
 * high-score ranking (FunnyBoom/Domain/Model/GameState.swift).
 *
 * Identifiers (UUIDs), localized titles, subtitles and symbols, and the player's nickname are not
 * part of this model; dates are whole numbers.
 */
module GameModel {
  import opened Prelude
  import opened Board

  datatype Phase = Idle | Running | Won | Lost

  datatype SpecialEffect = Bonus | Malus | Xray | Superhero | FunnyBoom

  /** `SpecialEffect.allCases`, in declaration order. */
  const AllEffects: seq<SpecialEffect> := [Bonus, Malus, Xray, Superhero, FunnyBoom]

  /** Both cases carry the countdown, so `secondsRemaining` is the shared destructor. */
  datatype ActivePower = XrayPower(secondsRemaining: int) | SuperheroPower(secondsRemaining: int)

  datatype Style = XrayStyle | SuperheroStyle | FunnyBoomStyle

  /** `SpecialModeNotice` without its identifier and texts. */
  datatype Notice = Notice(style: Style, totalSeconds: int, secondsRemaining: int)

  /** `isActivationCountdown`: every style announces a countdown to activation. */
  predicate IsActivationCountdown(notice: Notice) {
    match notice.style
    case XrayStyle => true
    case SuperheroStyle => true
    case FunnyBoomStyle => true
  }

  lemma EveryNoticeIsACountdown(notice: Notice)
    ensures IsActivationCountdown(notice)
  {
  }

  /** `TileScorePulse` without its identifier. */
  datatype Pulse = Pulse(coordinate: Coordinate, pointsDelta: int, secondsRemaining: int)

  /** Both cases carry the countdown, so `secondsRemaining` is the shared destructor. */
  datatype FunnyBoomPhase = Briefing(secondsRemaining: int) | Active(secondsRemaining: int)

  datatype Overlay = Overlay(
    clownTiles: set<Coordinate>,
    revealedClowns: set<Coordinate>,
    revealedMisses: set<Coordinate>,
    phase: FunnyBoomPhase)

  /** `FunnyBoomOverlay.isInteractive`: clowns can be hunted only once the briefing is over. */
  predicate IsInteractive(overlay: Overlay) {
    overlay.phase.Active?
  }

  /** A hunt takes taps in its active phase and never during the briefing. */
  lemma InteractiveExactlyWhenActive(overlay: Overlay)
    ensures IsInteractive(overlay) <==> !overlay.phase.Briefing?
  {
  }

  /** `PendingVictory` without its identifier. */
  datatype PendingVictory = PendingVictory(points: int, elapsedSeconds: int, totalScore: int)

  /** `ScoreEntry` with an opaque identity and `playedAt` as a whole number; the nickname is not modelled. */
  datatype ScoreEntry = ScoreEntry(
    id: int,
    points: int,
    elapsedSeconds: int,
    totalScore: int,
    boardSize: BoardSizePreset,
    difficulty: Difficulty,
    playedAt: int)

  // ---------------------------------------------------------------------------------------------
  // Ranking

  /** The comparator of `topTen`: a higher total first, then a faster round, then the more recent one. */
  predicate RanksBefore(a: ScoreEntry, b: ScoreEntry) {
    if a.totalScore != b.totalScore then a.totalScore > b.totalScore
    else if a.elapsedSeconds != b.elapsedSeconds then a.elapsedSeconds < b.elapsedSeconds
    else a.playedAt > b.playedAt
  }

  /** No entry is ranked strictly ahead of an earlier one. */
  predicate Ranked(s: seq<ScoreEntry>) {
    forall i, j :: 0 <= i < j < |s| ==> !RanksBefore(s[j], s[i])
  }

  /** Places x in front of the first entry that does not rank strictly before it. */
  function Insert(x: ScoreEntry, s: seq<ScoreEntry>): seq<ScoreEntry>
    decreases |s|
  {
    if s == [] || !RanksBefore(s[0], x) then [x] + s else [s[0]] + Insert(x, s[1..])
  }

  /** Insertion sort under RanksBefore; entries that tie keep their input order. */
  function SortByRank(s: seq<ScoreEntry>): seq<ScoreEntry>
    decreases |s|
  {
    if s == [] then [] else Insert(s[0], SortByRank(s[1..]))
  }

  /** `ScoreEntry.topTen(from:)`. */
  function TopTen(scores: seq<ScoreEntry>): seq<ScoreEntry> {
    var sorted := SortByRank(scores);
    SortLength(scores);
    sorted[..Min(10, |sorted|)]
  }

  /** "Not ranked before" is transitive: RanksBefore is a strict weak order. */
  lemma NotRanksBeforeTransitive(a: ScoreEntry, b: ScoreEntry, c: ScoreEntry)
    requires !RanksBefore(a, b) && !RanksBefore(b, c)
    ensures !RanksBefore(a, c)
  {
  }

  lemma {:induction false} InsertFacts(x: ScoreEntry, s: seq<ScoreEntry>)
    ensures multiset(Insert(x, s)) == multiset(s) + multiset{x}
    ensures |Insert(x, s)| == |s| + 1
    ensures Ranked(s) ==> Ranked(Insert(x, s))
    decreases |s|
  {
    if s == [] {
    } else if !RanksBefore(s[0], x) {
      if Ranked(s) {
        forall j | 0 < j < |[x] + s| ensures !RanksBefore(([x] + s)[j], x) {
          if j > 1 {
            NotRanksBeforeTransitive(s[j - 1], s[0], x);
          }
        }
        RankedCons(x, s);
      }
    } else {
      InsertFacts(x, s[1..]);
      assert s == [s[0]] + s[1..];
      if Ranked(s) {
        var rest := Insert(x, s[1..]);
        assert Ranked(s[1..]) by { RankedTail(s); }
        forall j | 0 <= j < |rest| ensures !RanksBefore(rest[j], s[0]) {
          assert rest[j] in multiset(rest);
          if rest[j] != x {
            assert rest[j] in multiset(s[1..]);
            var k :| 0 <= k < |s[1..]| && s[1..][k] == rest[j];
            assert s[k + 1] == rest[j];
          }
        }
        RankedCons(s[0], rest);
      }
    }
  }

  lemma RankedTail(s: seq<ScoreEntry>)
    requires s != [] && Ranked(s)
    ensures Ranked(s[1..])
  {
    forall i, j | 0 <= i < j < |s[1..]| ensures !RanksBefore(s[1..][j], s[1..][i]) {
      assert s[1..][j] == s[j + 1] && s[1..][i] == s[i + 1];
    }
  }

  lemma RankedCons(x: ScoreEntry, s: seq<ScoreEntry>)
    requires Ranked(s)
    requires forall j :: 0 <= j < |s| ==> !RanksBefore(s[j], x)
    ensures Ranked([x] + s)
  {
    var r := [x] + s;
    forall i, j | 0 <= i < j < |r| ensures !RanksBefore(r[j], r[i]) {
      assert r[j] == s[j - 1];
      if i > 0 {
        assert r[i] == s[i - 1];
      }
    }
  }

  lemma {:induction false} SortLength(s: seq<ScoreEntry>)
    ensures |SortByRank(s)| == |s|
    decreases |s|
  {
    if s != [] {
      SortLength(s[1..]);
      InsertFacts(s[0], SortByRank(s[1..]));
    }
  }

  /** The sort is ranked and a permutation of its input. */
  lemma {:induction false} SortFacts(s: seq<ScoreEntry>)
    ensures Ranked(SortByRank(s))
    ensures multiset(SortByRank(s)) == multiset(s)
    decreases |s|
  {
    if s != [] {
      SortFacts(s[1..]);
      InsertFacts(s[0], SortByRank(s[1..]));
      assert s == [s[0]] + s[1..];
    }
  }

  /** A list already in rank order is left as it is. */
  lemma {:induction false} SortRanked(s: seq<ScoreEntry>)
    requires Ranked(s)
    ensures SortByRank(s) == s
    decreases |s|
  {
    if s != [] {
      RankedTail(s);
      SortRanked(s[1..]);
      if |s| > 1 {
        assert !RanksBefore(s[1..][0], s[0]);
      }
      assert s == [s[0]] + s[1..];
    }
  }

  /**
   * `topTen` keeps min(10, n) entries, all taken from its input, in rank order, and no entry it drops
   * ranks strictly ahead of one it keeps.
   */
  lemma TopTenFacts(scores: seq<ScoreEntry>)
    ensures |TopTen(scores)| == Min(10, |scores|)
    ensures Ranked(TopTen(scores))
    ensures multiset(TopTen(scores)) <= multiset(scores)
    ensures forall x, y :: x in multiset(scores) - multiset(TopTen(scores)) && y in TopTen(scores) ==> !RanksBefore(x, y)
  {
    var sorted := SortByRank(scores);
    SortLength(scores);
    SortFacts(scores);
    var n := Min(10, |sorted|);
    PrefixOfRanked(sorted, n);
    assert TopTen(scores) == sorted[..n];
  }

  /** Cutting a ranked list leaves a ranked prefix made of some of its entries, none behind a dropped one. */
  lemma PrefixOfRanked(sorted: seq<ScoreEntry>, n: int)
    requires Ranked(sorted) && 0 <= n <= |sorted|
    ensures Ranked(sorted[..n])
    ensures multiset(sorted) - multiset(sorted[..n]) == multiset(sorted[n..])
    ensures forall x, y :: x in multiset(sorted[n..]) && y in sorted[..n] ==> !RanksBefore(x, y)
  {
    var kept, dropped := sorted[..n], sorted[n..];
    assert sorted == kept + dropped;
    forall x, y | x in multiset(dropped) && y in kept
      ensures !RanksBefore(x, y)
    {
      assert x in dropped;
      var i :| 0 <= i < |kept| && kept[i] == y;
      var j :| 0 <= j < |dropped| && dropped[j] == x;
      assert sorted[i] == y && sorted[n + j] == x;
    }
    forall i, j | 0 <= i < j < |kept| ensures !RanksBefore(kept[j], kept[i]) {
      assert kept[i] == sorted[i] && kept[j] == sorted[j];
    }
  }

  /** Ranking a ranked list again changes nothing: `topTen` is idempotent. */
  lemma TopTenIdempotent(scores: seq<ScoreEntry>)
    ensures TopTen(TopTen(scores)) == TopTen(scores)
  {
    TopTenFacts(scores);
    var top := TopTen(scores);
    SortRanked(top);
  }

  // ---------------------------------------------------------------------------------------------
  // The state aggregate

  datatype GameState = GameState(
    settings: GameSettings,
    board: Option<GameBoard>,
    phase: Phase,
    elapsedSeconds: int,
    points: int,
    bonusPoints: int,
    revealedTiles: set<Coordinate>,
    flaggedTiles: set<Coordinate>,
    neutralizedBombs: set<Coordinate>,
    specialRollTiles: set<Coordinate>,
    activePower: Option<ActivePower>,
    funnyBoomOverlay: Option<Overlay>,
    specialModeNotice: Option<Notice>,
    tileScorePulses: map<Coordinate, Pulse>,
    pendingVictory: Option<PendingVictory>,
    scores: seq<ScoreEntry>,
    explosionSequence: int)

  /**
   * `GameState.init` with every defaulted argument left at its default: an idle round with no board
   * whose board takes input, every mine still to find and no safe cell revealed.
   */
  function InitialState(settings: GameSettings, scores: seq<ScoreEntry>, explosionSequence: int): (s: GameState)
    ensures s.board.None? && s.phase == Idle && s.elapsedSeconds == 0 && s.points == 0
    ensures s.settings == settings && s.scores == scores && s.explosionSequence == explosionSequence
    ensures CanInteractWithBoard(s)
    ensures RemainingBombs(s) == MineCount(settings) && RevealedSafeCells(s) == 0
    ensures CellsToWin(s) == CellCount(PresetDimensions(settings.boardSize)) - MineCount(settings) >= 1
  {
    GameState(settings, None, Idle, 0, 0, 0, {}, {}, {}, {}, None, None, None, map[], None, scores, explosionSequence)
  }

  /** `dimensions`: the board's, or the preset's before the board exists. */
  function StateDimensions(s: GameState): (d: Dimensions)
    ensures s.board.Some? ==> d == s.board.value.dimensions
    ensures s.board.None? ==> d == PresetDimensions(s.settings.boardSize)
  {
    match s.board
    case Some(board) => board.dimensions
    case None => PresetDimensions(s.settings.boardSize)
  }

  /** `mineCount`: the board's number of mines, or the settings' before the board exists. */
  function StateMineCount(s: GameState): (n: int)
    ensures n >= 0
    ensures s.board.Some? ==> n == |s.board.value.mines|
    ensures s.board.None? ==> n == MineCount(s.settings)
  {
    match s.board
    case Some(board) => |board.mines|
    case None => MineCount(s.settings)
  }

  /** `remainingBombs`: mines not yet accounted for by a flag or a neutralization, never below zero. */
  function RemainingBombs(s: GameState): (n: int)
    ensures n >= 0
    ensures n <= StateMineCount(s)
    ensures var unaccounted := StateMineCount(s) - |s.flaggedTiles| - |s.neutralizedBombs|;
            (unaccounted >= 0 ==> n == unaccounted) && (unaccounted < 0 ==> n == 0)
  {
    Max(0, StateMineCount(s) - |s.flaggedTiles| - |s.neutralizedBombs|)
  }

  predicate IsXrayActive(s: GameState) {
    s.activePower.Some? && s.activePower.value.XrayPower?
  }

  predicate IsSuperheroActive(s: GameState) {
    s.activePower.Some? && s.activePower.value.SuperheroPower?
  }

  /** `isSpecialModePreparationActive`. */
  predicate IsPreparationActive(s: GameState) {
    s.specialModeNotice.Some? && IsActivationCountdown(s.specialModeNotice.value)
  }

  /** `canInteractWithBoard`. */
  predicate CanInteractWithBoard(s: GameState) {
    (s.phase == Idle || s.phase == Running) && !IsPreparationActive(s)
  }

  /** Since every notice is a countdown, the board is locked exactly while a notice shows or the round is over. */
  lemma CanInteractExactly(s: GameState)
    ensures CanInteractWithBoard(s) <==> (s.phase == Idle || s.phase == Running) && s.specialModeNotice.None?
  {
    if s.specialModeNotice.Some? {
      EveryNoticeIsACountdown(s.specialModeNotice.value);
    }
  }

  /** `cellsToWin`: the board's safe cells; before the board exists, at least one. */
  function CellsToWin(s: GameState): (n: int)
    ensures s.board.Some? ==> n == CellCount(s.board.value.dimensions) - |s.board.value.mines|
    ensures s.board.None? ==> n == CellCount(PresetDimensions(s.settings.boardSize)) - MineCount(s.settings) >= 1
  {
    CellCount(StateDimensions(s)) - StateMineCount(s)
  }

  /** `revealedSafeCells`: the revealed tiles that are not mines, 0 before the board exists. */
  function RevealedSafeCells(s: GameState): (n: int)
    ensures 0 <= n <= |s.revealedTiles|
    ensures s.board.None? ==> n == 0
    ensures s.board.Some? && s.revealedTiles !! s.board.value.mines ==> n == |s.revealedTiles|
  {
    match s.board
    case None => 0
    case Some(board) => |s.revealedTiles - board.mines|
  }

  // ---------------------------------------------------------------------------------------------
  // Actions, dependencies, events

  datatype Action =
    | StartNewRound
    | SetDifficulty(difficulty: Difficulty)
    | SetBoardSize(boardSize: BoardSizePreset)
    | ForceSpecialMode(style: Style)
    | TapCell(coordinate: Coordinate)
    | ToggleFlag(coordinate: Coordinate)
    | TapFunnyBoomCell(coordinate: Coordinate)
    | SkipSpecialModeCountdown
    | TimerTick
    | DismissVictoryPrompt
    | ScoresLoaded(scores: seq<ScoreEntry>)

  /**
   * `GameDependencies` for one reduction: `draws(k)` is the raw value of the k-th `randomInt` call, and
   * specialRoll is whether the one `randomUnit()` draw a reduction can make falls below the trigger
   * probability. `now` is used only outside this core.
   */
  datatype Dependencies = Dependencies(draws: nat -> int, specialRoll: bool)

  datatype SoundEffect = Explosion | SpecialSquareDiscovered | Victory | CountdownBeep | FlagPlaced

  datatype Event =
    | PlaySound(sound: SoundEffect)
    | ScheduleLossCardReveal
    | TrackBoardStarted(difficulty: Difficulty, boardSize: Dimensions)

  datatype Transition = Transition(state: GameState, events: seq<Event>)
}
