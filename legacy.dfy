/**
 * The older all-in-one reducer (FunnyBoom/GameDomain.swift). It shares the board, the flood reveal,
 * the draw loop and the scoring formula with the current core, but has its own lifecycle: a player
 * mode and a sound switch, powers that start at once for twelve seconds, a five-second clown hunt,
 * pulses kept in an array, no event list, and its own size presets.
 */
module Legacy {
  import opened Prelude
  import opened Board
  import opened ScoreRules
  import opened GameModel
  import Tick
  import SpecialMode
  import CellInteraction

  const LegacyXrayDuration := 12
  const LegacySuperheroDuration := 12
  const LegacyFunnyBoomDuration := 5

  // ---------------------------------------------------------------------------------------------
  // Presets and the board

  /** This file's `BoardSizePreset.dimensions`: the large and monster presets are wider than the current ones. */
  function LegacyPresetDimensions(preset: BoardSizePreset): Dimensions {
    match preset
    case Tiny15x15 => MakeDimensions(15, 15)
    case Rectangular20x15 => MakeDimensions(15, 20)
    case Classic20x20 => MakeDimensions(20, 20)
    case Large25x20 => MakeDimensions(20, 25)
    case Monster35x23 => MakeDimensions(23, 35)
    case Phone10x14 => MakeDimensions(14, 10)
    case Phone12x18 => MakeDimensions(18, 12)
    case Phone14x22 => MakeDimensions(22, 14)
  }

  /** The two preset tables differ exactly on the large and monster sizes. */
  lemma PresetTablesDiffer(preset: BoardSizePreset)
    ensures LegacyPresetDimensions(preset) == PresetDimensions(preset) <==> !(preset == Large25x20 || preset == Monster35x23)
  {
  }

  /** `GameSettings.mineCount` over this file's presets. */
  function LegacyMineCount(settings: GameSettings): (n: int)
    ensures 1 <= n <= CellCount(LegacyPresetDimensions(settings.boardSize)) - 1
  {
    MineCountFor(CellCount(LegacyPresetDimensions(settings.boardSize)), settings.difficulty)
  }

  /** `GameBoard.generate`: the shared mine placement over this file's presets. */
  function LegacyGenerateSpec(settings: GameSettings, safe: Coordinate, draws: nat -> int, cursor: nat): (GameBoard, nat) {
    PlaceMinesSpec(LegacyPresetDimensions(settings.boardSize), LegacyMineCount(settings), safe, draws, cursor)
  }

  /** A generated board has the preset's shape, is consistent, spares the safe cell and has the settings' mine count. */
  lemma LegacyGenerateFacts(settings: GameSettings, safe: Coordinate, draws: nat -> int, cursor: nat)
    ensures var (board, next) := LegacyGenerateSpec(settings, safe, draws, cursor);
            && board.dimensions == LegacyPresetDimensions(settings.boardSize) && Consistent(board)
            && safe !in board.mines
            && (IsValid(board.dimensions, safe) ==> |board.mines| == LegacyMineCount(settings))
            && cursor <= next
  {
    PlaceMinesFacts(LegacyPresetDimensions(settings.boardSize), LegacyMineCount(settings), safe, draws, cursor);
  }

  method LegacyGenerate(settings: GameSettings, safe: Coordinate, draws: nat -> int, cursor: nat)
    returns (board: GameBoard, next: nat)
    ensures (board, next) == LegacyGenerateSpec(settings, safe, draws, cursor)
  {
    board, next := PlaceMines(LegacyPresetDimensions(settings.boardSize), LegacyMineCount(settings), safe, draws, cursor);
  }

  // ---------------------------------------------------------------------------------------------
  // The state

  datatype PlayerMode = RevealMode | FlagMode

  /** The clown hunt of this file: one countdown, and no record of misses. */
  datatype LegacyOverlay = LegacyOverlay(clownTiles: set<Coordinate>, revealedClowns: set<Coordinate>, secondsRemaining: int)

  datatype LegacyState = LegacyState(
    settings: GameSettings,
    board: Option<GameBoard>,
    phase: Phase,
    playerMode: PlayerMode,
    elapsedSeconds: int,
    points: int,
    bonusPoints: int,
    revealedTiles: set<Coordinate>,
    flaggedTiles: set<Coordinate>,
    neutralizedBombs: set<Coordinate>,
    specialRollTiles: set<Coordinate>,
    activePower: Option<ActivePower>,
    funnyBoomOverlay: Option<LegacyOverlay>,
    specialModeNotice: Option<Notice>,
    tileScorePulses: seq<Pulse>,
    pendingVictory: Option<PendingVictory>,
    scores: seq<ScoreEntry>,
    soundEnabled: bool,
    explosionSequence: int)

  /** `GameState.init` with the given settings, leaderboard, sound switch and counter, and every other default. */
  function LegacyInitialState(settings: GameSettings, scores: seq<ScoreEntry>, soundEnabled: bool, explosionSequence: int): LegacyState {
    LegacyState(settings, None, Idle, RevealMode, 0, 0, 0, {}, {}, {}, {}, None, None, None, [], None, scores, soundEnabled, explosionSequence)
  }

  /** `dimensions`: the board's, or the preset's before the board exists. */
  function LegacyDimensions(s: LegacyState): Dimensions {
    if s.board.Some? then s.board.value.dimensions else LegacyPresetDimensions(s.settings.boardSize)
  }

  predicate CanInteractWithBoard(s: LegacyState) {
    s.phase == Idle || s.phase == Running
  }

  predicate IsSuperheroActive(s: LegacyState) {
    s.activePower.Some? && s.activePower.value.SuperheroPower?
  }

  datatype LegacyAction =
    | StartNewRound
    | SetDifficulty(difficulty: Difficulty)
    | SetBoardSize(boardSize: BoardSizePreset)
    | SetPlayerMode(mode: PlayerMode)
    | ToggleSound
    | TapCell(coordinate: Coordinate)
    | ToggleFlag(coordinate: Coordinate)
    | TapFunnyBoomCell(coordinate: Coordinate)
    | TimerTick
    | DismissVictoryPrompt
    | ScoresLoaded(scores: seq<ScoreEntry>)

  /**
   * `resetRound(from:)`: a fresh round in reveal mode that keeps the settings, the leaderboard, the
   * sound switch and the explosion counter.
   */
  function ResetRound(state: LegacyState): (r: LegacyState)
    ensures r.settings == state.settings && r.scores == state.scores
    ensures r.soundEnabled == state.soundEnabled && r.explosionSequence == state.explosionSequence
    ensures r.playerMode == RevealMode && r.board.None? && r.phase == Idle
    ensures r.elapsedSeconds == 0 && r.points == 0 && r.bonusPoints == 0
    ensures r.revealedTiles == {} && r.flaggedTiles == {} && r.neutralizedBombs == {} && r.specialRollTiles == {}
    ensures r.activePower.None? && r.funnyBoomOverlay.None? && r.specialModeNotice.None?
    ensures r.tileScorePulses == [] && r.pendingVictory.None?
    ensures r == LegacyInitialState(state.settings, state.scores, state.soundEnabled, state.explosionSequence)
  {
    LegacyState(state.settings, None, Idle, RevealMode, 0, 0, 0, {}, {}, {}, {}, None, None, None, [], None,
                state.scores, state.soundEnabled, state.explosionSequence)
  }

  lemma ResetRoundIdempotent(state: LegacyState)
    ensures ResetRound(ResetRound(state)) == ResetRound(state)
  {
  }

  // ---------------------------------------------------------------------------------------------
  // Pulses as an array

  /** The pulses at other coordinates, in their order: `removeAll { $0.coordinate == coordinate }`. */
  function PulsesElsewhere(pulses: seq<Pulse>, c: Coordinate): (r: seq<Pulse>)
    ensures forall p :: p in r <==> p in pulses && p.coordinate != c
    ensures |r| <= |pulses|
    decreases |pulses|
  {
    if pulses == [] then []
    else
      var last := pulses[|pulses| - 1];
      PulsesElsewhere(pulses[..|pulses| - 1], c) + (if last.coordinate == c then [] else [last])
  }

  /** No two pulses share a coordinate. */
  predicate OnePulsePerCell(pulses: seq<Pulse>) {
    forall i, j :: 0 <= i < j < |pulses| ==> pulses[i].coordinate != pulses[j].coordinate
  }

  /** Removing the pulses at one coordinate keeps the others one per cell. */
  lemma {:induction false} PulsesElsewhereOnePerCell(pulses: seq<Pulse>, c: Coordinate)
    requires OnePulsePerCell(pulses)
    ensures OnePulsePerCell(PulsesElsewhere(pulses, c))
    decreases |pulses|
  {
    if pulses != [] {
      var init, last := pulses[..|pulses| - 1], pulses[|pulses| - 1];
      assert OnePulsePerCell(init);
      PulsesElsewhereOnePerCell(init, c);
      var rest := PulsesElsewhere(init, c);
      if last.coordinate != c {
        var r := rest + [last];
        forall i, j | 0 <= i < j < |r| ensures r[i].coordinate != r[j].coordinate {
          if j == |r| - 1 {
            assert r[i] in init;
            var k :| 0 <= k < |init| && init[k] == r[i];
            assert pulses[k] == r[i];
          } else {
            assert r[i] == rest[i] && r[j] == rest[j];
          }
        }
      }
    }
  }

  /** The pulse enqueued at a coordinate after removing the old ones there. */
  function Enqueued(pulses: seq<Pulse>, coordinate: Coordinate, pointsDelta: int): seq<Pulse> {
    PulsesElsewhere(pulses, coordinate) + [Pulse(coordinate, pointsDelta, TileScorePulseDuration)]
  }

  /**
   * After an enqueue the new two-second pulse is the last one and the only one at its coordinate,
   * every other pulse is kept, and pulses stay one per cell.
   */
  lemma EnqueuedFacts(pulses: seq<Pulse>, coordinate: Coordinate, pointsDelta: int)
    ensures var r := Enqueued(pulses, coordinate, pointsDelta);
            && r[|r| - 1] == Pulse(coordinate, pointsDelta, TileScorePulseDuration)
            && (forall i :: 0 <= i < |r| - 1 ==> r[i].coordinate != coordinate)
            && (forall p :: p in pulses && p.coordinate != coordinate ==> p in r)
            && (OnePulsePerCell(pulses) ==> OnePulsePerCell(r))
  {
    var rest := PulsesElsewhere(pulses, coordinate);
    var r := Enqueued(pulses, coordinate, pointsDelta);
    forall i | 0 <= i < |r| - 1 ensures r[i].coordinate != coordinate {
      assert r[i] == rest[i] && rest[i] in rest;
    }
    if OnePulsePerCell(pulses) {
      PulsesElsewhereOnePerCell(pulses, coordinate);
      forall i, j | 0 <= i < j < |r| ensures r[i].coordinate != r[j].coordinate {
        if j < |r| - 1 {
          assert r[i] == rest[i] && r[j] == rest[j];
        }
      }
    }
  }

  /** The `removeAll` loop, keeping the pulses at other coordinates in order. */
  method RemovePulsesAt(pulses: seq<Pulse>, coordinate: Coordinate) returns (kept: seq<Pulse>)
    ensures kept == PulsesElsewhere(pulses, coordinate)
  {
    kept := [];
    for i := 0 to |pulses|
      invariant kept == PulsesElsewhere(pulses[..i], coordinate)
    {
      assert pulses[..i + 1][..i] == pulses[..i];
      if pulses[i].coordinate != coordinate {
        kept := kept + [pulses[i]];
      }
    }
    assert pulses[..|pulses|] == pulses;
  }

  /** `enqueueTileScorePulse(state:coordinate:pointsDelta:)`: remove any pulse at the coordinate, then append a fresh one. */
  method EnqueueTileScorePulse(state: LegacyState, coordinate: Coordinate, pointsDelta: int) returns (next: LegacyState)
    ensures next == state.(tileScorePulses := Enqueued(state.tileScorePulses, coordinate, pointsDelta))
  {
    next := state;
    var kept := RemovePulsesAt(next.tileScorePulses, coordinate);
    next := next.(tileScorePulses := kept + [Pulse(coordinate, pointsDelta, TileScorePulseDuration)]);
  }

  // ---------------------------------------------------------------------------------------------
  // The tick

  /** The pulses one second older, those left with none dropped, in their order. */
  function AgedPulses(pulses: seq<Pulse>): (r: seq<Pulse>)
    ensures |r| <= |pulses|
    decreases |pulses|
  {
    if pulses == [] then []
    else
      var last := pulses[|pulses| - 1];
      AgedPulses(pulses[..|pulses| - 1])
        + (if last.secondsRemaining - 1 > 0 then [last.(secondsRemaining := last.secondsRemaining - 1)] else [])
  }

  /** Every aged pulse has at least a second left and was in the list one second younger. */
  lemma {:induction false} AgedPulsesCameFrom(pulses: seq<Pulse>)
    ensures forall p :: p in AgedPulses(pulses) ==>
              p.secondsRemaining >= 1 && p.(secondsRemaining := p.secondsRemaining + 1) in pulses
    decreases |pulses|
  {
    if pulses != [] {
      var init := pulses[..|pulses| - 1];
      AgedPulsesCameFrom(init);
      assert pulses == init + [pulses[|pulses| - 1]];
    }
  }

  /** Every pulse with more than a second left survives, one second older. */
  lemma {:induction false} AgedPulsesKept(pulses: seq<Pulse>)
    ensures forall q :: q in pulses && q.secondsRemaining > 1 ==> q.(secondsRemaining := q.secondsRemaining - 1) in AgedPulses(pulses)
    decreases |pulses|
  {
    if pulses != [] {
      var init, last := pulses[..|pulses| - 1], pulses[|pulses| - 1];
      AgedPulsesKept(init);
      assert pulses == init + [last];
      forall q | q in pulses && q.secondsRemaining > 1 ensures q.(secondsRemaining := q.secondsRemaining - 1) in AgedPulses(pulses) {
        if q != last {
          assert q in init;
        }
      }
    }
  }

  /** Ageing keeps pulses one per cell. */
  lemma {:induction false} AgedPulsesOnePerCell(pulses: seq<Pulse>)
    requires OnePulsePerCell(pulses)
    ensures OnePulsePerCell(AgedPulses(pulses))
    decreases |pulses|
  {
    if pulses != [] {
      var init := pulses[..|pulses| - 1];
      assert OnePulsePerCell(init);
      AgedPulsesOnePerCell(init);
      AgedPulsesCameFrom(init);
      var rest := AgedPulses(init);
      var r := AgedPulses(pulses);
      forall i, j | 0 <= i < j < |r| ensures r[i].coordinate != r[j].coordinate {
        if j == |rest| {
          assert r[i] == rest[i] && rest[i] in rest;
          var older := r[i].(secondsRemaining := r[i].secondsRemaining + 1);
          var k :| 0 <= k < |init| && init[k] == older;
          assert pulses[k] == older;
        } else {
          assert r[i] == rest[i] && r[j] == rest[j];
        }
      }
    }
  }

  /** The `compactMap` over the pulses. */
  method AgePulses(pulses: seq<Pulse>) returns (aged: seq<Pulse>)
    ensures aged == AgedPulses(pulses)
  {
    aged := [];
    for i := 0 to |pulses|
      invariant aged == AgedPulses(pulses[..i])
    {
      assert pulses[..i + 1][..i] == pulses[..i];
      var nextPulse := pulses[i];
      nextPulse := nextPulse.(secondsRemaining := nextPulse.secondsRemaining - 1);
      if nextPulse.secondsRemaining > 0 {
        aged := aged + [nextPulse];
      }
    }
    assert pulses[..|pulses|] == pulses;
  }

  /** The notice loses a second and is dropped at zero; nothing starts when it ends. */
  function NoticeAfterTick(notice: Notice): (r: Option<Notice>)
    ensures r.None? <==> notice.secondsRemaining <= 1
    ensures r.Some? ==> r.value == notice.(secondsRemaining := notice.secondsRemaining - 1)
  {
    if notice.secondsRemaining - 1 <= 0 then None else Some(notice.(secondsRemaining := notice.secondsRemaining - 1))
  }

  /**
   * The hunt loses a second and ends at zero, its clowns and finds unchanged. It has the shape of
   * NoticeAfterTick, but models a separate block of the legacy tick (the overlay countdown, not the
   * notice countdown).
   */
  function OverlayAfterTick(overlay: LegacyOverlay): (r: Option<LegacyOverlay>)
    ensures r.None? <==> overlay.secondsRemaining <= 1
    ensures r.Some? ==> r.value == overlay.(secondsRemaining := overlay.secondsRemaining - 1)
    ensures r.Some? ==> r.value.clownTiles == overlay.clownTiles && r.value.revealedClowns == overlay.revealedClowns
  {
    if overlay.secondsRemaining - 1 <= 0 then None else Some(overlay.(secondsRemaining := overlay.secondsRemaining - 1))
  }

  /** What `tick(state:)` produces: only a running round changes, and only its clock and countdowns. */
  function TickSpec(state: LegacyState): LegacyState {
    if state.phase != Running then state
    else
      state.(
        elapsedSeconds := state.elapsedSeconds + 1,
        activePower := if state.activePower.Some? then Tick.PowerAfterTick(state.activePower.value) else None,
        specialModeNotice := if state.specialModeNotice.Some? then NoticeAfterTick(state.specialModeNotice.value) else None,
        tileScorePulses := AgedPulses(state.tileScorePulses),
        funnyBoomOverlay := if state.funnyBoomOverlay.Some? then OverlayAfterTick(state.funnyBoomOverlay.value) else None)
  }

  /** The power step of `tick`. */
  method StepPower(power: Option<ActivePower>) returns (r: Option<ActivePower>)
    ensures r == if power.Some? then Tick.PowerAfterTick(power.value) else None
  {
    r := power;
    if power.Some? {
      match power.value
      case XrayPower(secondsRemaining) =>
        if secondsRemaining <= 1 {
          r := None;
        } else {
          r := Some(XrayPower(secondsRemaining - 1));
        }
      case SuperheroPower(secondsRemaining) =>
        if secondsRemaining <= 1 {
          r := None;
        } else {
          r := Some(SuperheroPower(secondsRemaining - 1));
        }
    }
  }

  /** The notice step of `tick`. */
  method StepNotice(notice: Option<Notice>) returns (r: Option<Notice>)
    ensures r == if notice.Some? then NoticeAfterTick(notice.value) else None
  {
    r := notice;
    if notice.Some? {
      var counted := notice.value;
      counted := counted.(secondsRemaining := counted.secondsRemaining - 1);
      if counted.secondsRemaining <= 0 {
        r := None;
      } else {
        r := Some(counted);
      }
    }
  }

  /** The hunt step of `tick`. */
  method StepOverlay(overlay: Option<LegacyOverlay>) returns (r: Option<LegacyOverlay>)
    ensures r == if overlay.Some? then OverlayAfterTick(overlay.value) else None
  {
    r := overlay;
    if overlay.Some? {
      var counted := overlay.value;
      counted := counted.(secondsRemaining := counted.secondsRemaining - 1);
      if counted.secondsRemaining <= 0 {
        r := None;
      } else {
        r := Some(counted);
      }
    }
  }

  /** `tick(state:)`, field by field, in the source's order: clock, power, notice, pulses, hunt. */
  method LegacyTick(state: LegacyState) returns (next: LegacyState)
    ensures next == TickSpec(state)
  {
    if state.phase != Running {
      return state;
    }
    next := state;
    next := next.(elapsedSeconds := next.elapsedSeconds + 1);
    var power := StepPower(next.activePower);
    next := next.(activePower := power);
    var notice := StepNotice(next.specialModeNotice);
    next := next.(specialModeNotice := notice);
    var aged := AgePulses(next.tileScorePulses);
    next := next.(tileScorePulses := aged);
    var overlay := StepOverlay(next.funnyBoomOverlay);
    next := next.(funnyBoomOverlay := overlay);
  }

  /**
   * A tick outside a running round does nothing. In one, the clock gains a second, a power steps
   * down on its own (an ending notice starts nothing), the notice and the hunt end when their last
   * second runs out, pulses age and stay one per cell, and the board, the tiles, the score and the
   * switches stay as they were.
   */
  lemma TickFacts(state: LegacyState)
    ensures state.phase != Running ==> TickSpec(state) == state
    ensures state.phase == Running ==>
              var next := TickSpec(state);
              && next.elapsedSeconds == state.elapsedSeconds + 1
              && next.activePower == (if state.activePower.Some? then Tick.PowerAfterTick(state.activePower.value) else None)
              && (state.specialModeNotice.Some? ==> (next.specialModeNotice.None? <==> state.specialModeNotice.value.secondsRemaining <= 1))
              && (state.funnyBoomOverlay.Some? ==> (next.funnyBoomOverlay.None? <==> state.funnyBoomOverlay.value.secondsRemaining <= 1))
              && (state.specialModeNotice.None? ==> next.specialModeNotice.None?)
              && (state.funnyBoomOverlay.None? ==> next.funnyBoomOverlay.None?)
              && (forall q :: q in state.tileScorePulses && q.secondsRemaining > 1 ==>
                    q.(secondsRemaining := q.secondsRemaining - 1) in next.tileScorePulses)
              && (forall p :: p in next.tileScorePulses ==> p.(secondsRemaining := p.secondsRemaining + 1) in state.tileScorePulses)
              && (OnePulsePerCell(state.tileScorePulses) ==> OnePulsePerCell(next.tileScorePulses))
              && next == state.(elapsedSeconds := next.elapsedSeconds, activePower := next.activePower,
                                specialModeNotice := next.specialModeNotice, tileScorePulses := next.tileScorePulses,
                                funnyBoomOverlay := next.funnyBoomOverlay)
  {
    AgedPulsesCameFrom(state.tileScorePulses);
    AgedPulsesKept(state.tileScorePulses);
    if OnePulsePerCell(state.tileScorePulses) {
      AgedPulsesOnePerCell(state.tileScorePulses);
    }
  }

  // ---------------------------------------------------------------------------------------------
  // Loss and win

  /** The fields that neither a loss nor a win touches, other than the revealed tiles. */
  predicate SameProgress(a: LegacyState, b: LegacyState) {
    && a.settings == b.settings && a.board == b.board && a.playerMode == b.playerMode
    && a.elapsedSeconds == b.elapsedSeconds && a.points == b.points && a.bonusPoints == b.bonusPoints
    && a.flaggedTiles == b.flaggedTiles && a.neutralizedBombs == b.neutralizedBombs
    && a.specialRollTiles == b.specialRollTiles && a.scores == b.scores && a.soundEnabled == b.soundEnabled
  }

  /**
   * The loss written out in `tapCell` and in the chord: the round is lost, every mine is shown, the
   * explosion counter advances by one, and every mode, pulse and pending reward is cleared.
   */
  function Loss(state: LegacyState, board: GameBoard): (r: LegacyState)
    ensures r.phase == Lost
    ensures r.revealedTiles == state.revealedTiles + board.mines
    ensures r.explosionSequence == state.explosionSequence + 1
    ensures r.activePower.None? && r.funnyBoomOverlay.None? && r.specialModeNotice.None?
    ensures r.tileScorePulses == [] && r.pendingVictory.None?
    ensures SameProgress(r, state)
  {
    state.(phase := Lost, activePower := None, funnyBoomOverlay := None, specialModeNotice := None,
           tileScorePulses := [], pendingVictory := None, revealedTiles := state.revealedTiles + board.mines,
           explosionSequence := state.explosionSequence + 1)
  }

  /** The loss, field by field. */
  method LoseRound(state: LegacyState, board: GameBoard) returns (next: LegacyState)
    ensures next == Loss(state, board)
  {
    next := state;
    next := next.(phase := Lost);
    next := next.(activePower := None);
    next := next.(funnyBoomOverlay := None);
    next := next.(specialModeNotice := None);
    next := next.(tileScorePulses := []);
    next := next.(pendingVictory := None);
    next := next.(revealedTiles := next.revealedTiles + board.mines);
    next := next.(explosionSequence := next.explosionSequence + 1);
  }

  /**
   * What `completeIfWon(state:board:)` produces: when the shared win test passes, the round is won,
   * every mode and pulse is cleared and the pending victory records the points, the time and their
   * final score; otherwise nothing changes.
   */
  function Completion(state: LegacyState, board: GameBoard): (r: LegacyState)
    ensures CellInteraction.AllSafeRevealed(board, state.revealedTiles) ==>
              && r.phase == Won
              && r.activePower.None? && r.funnyBoomOverlay.None? && r.specialModeNotice.None?
              && r.tileScorePulses == []
              && r.pendingVictory == Some(PendingVictory(state.points, state.elapsedSeconds,
                                                         FinalScore(state.points, state.elapsedSeconds, board.dimensions)))
    ensures !CellInteraction.AllSafeRevealed(board, state.revealedTiles) ==> r == state
    ensures SameProgress(r, state) && r.revealedTiles == state.revealedTiles
    ensures r.explosionSequence == state.explosionSequence
  {
    if CellInteraction.AllSafeRevealed(board, state.revealedTiles) then
      state.(phase := Won, activePower := None, funnyBoomOverlay := None, specialModeNotice := None, tileScorePulses := [],
             pendingVictory := Some(PendingVictory(state.points, state.elapsedSeconds,
                                                   FinalScore(state.points, state.elapsedSeconds, board.dimensions))))
    else state
  }

  /**
   * The win test as it shows in the result of a step that ends with `completeIfWon`: when the
   * result's reveals pass the shared test, the round is won, every mode and pulse is cleared and the
   * pending victory records the result's points, time and final score; otherwise the phase and the
   * pending victory are those given.
   */
  predicate WinTested(board: GameBoard, phase: Phase, pending: Option<PendingVictory>, next: LegacyState) {
    if CellInteraction.AllSafeRevealed(board, next.revealedTiles) then
      && next.phase == Won
      && next.activePower.None? && next.funnyBoomOverlay.None? && next.specialModeNotice.None?
      && next.tileScorePulses == []
      && next.pendingVictory == Some(PendingVictory(next.points, next.elapsedSeconds,
                                                    FinalScore(next.points, next.elapsedSeconds, board.dimensions)))
    else
      next.phase == phase && next.pendingVictory == pending
  }

  /** So on a generated board, a step that ran the win test from a round not yet won ends won exactly when its reveals cover every safe cell. */
  lemma WinTestedMeans(board: GameBoard, phase: Phase, pending: Option<PendingVictory>, next: LegacyState)
    requires Consistent(board) && next.revealedTiles <= AllCells(board.dimensions)
    requires WinTested(board, phase, pending, next) && phase != Won
    ensures next.phase == Won <==> AllCells(board.dimensions) - board.mines <= next.revealedTiles
  {
    CellInteraction.WinExactlyWhenEverySafeCellRevealed(board, next.revealedTiles);
  }

  /** `completeIfWon(state:board:)`, field by field. */
  method CompleteIfWon(state: LegacyState, board: GameBoard) returns (next: LegacyState)
    ensures next == Completion(state, board)
  {
    next := state;
    var safeCells := CellCount(board.dimensions) - |board.mines|;
    var revealedSafeCells := |next.revealedTiles - board.mines|;
    if revealedSafeCells >= safeCells {
      next := next.(phase := Won);
      next := next.(activePower := None);
      next := next.(funnyBoomOverlay := None);
      next := next.(specialModeNotice := None);
      next := next.(tileScorePulses := []);
      var totalScore := FinalScore(next.points, next.elapsedSeconds, board.dimensions);
      next := next.(pendingVictory := Some(PendingVictory(next.points, next.elapsedSeconds, totalScore)));
    }
  }

  // ---------------------------------------------------------------------------------------------
  // Flags and the clown hunt

  /** The guards under which `toggleFlag` does nothing. */
  predicate FlagIgnored(state: LegacyState, coordinate: Coordinate) {
    !CanInteractWithBoard(state) || state.funnyBoomOverlay.Some? || coordinate in state.revealedTiles
  }

  /** `toggleFlag(state:coordinate:)`: unless ignored, the coordinate's flag flips and nothing else changes. */
  function LegacyToggleFlag(state: LegacyState, coordinate: Coordinate): (r: LegacyState)
    ensures FlagIgnored(state, coordinate) ==> r == state
    ensures !FlagIgnored(state, coordinate) ==>
              && (coordinate in r.flaggedTiles <==> coordinate !in state.flaggedTiles)
              && (forall x :: x != coordinate ==> (x in r.flaggedTiles <==> x in state.flaggedTiles))
    ensures r == state.(flaggedTiles := r.flaggedTiles)
  {
    if FlagIgnored(state, coordinate) then state
    else if coordinate in state.flaggedTiles then state.(flaggedTiles := state.flaggedTiles - {coordinate})
    else state.(flaggedTiles := state.flaggedTiles + {coordinate})
  }

  /** Toggling the same flag twice restores the state. */
  lemma ToggleFlagTwiceRestores(state: LegacyState, coordinate: Coordinate)
    ensures LegacyToggleFlag(LegacyToggleFlag(state, coordinate), coordinate) == state
  {
    var once := LegacyToggleFlag(state, coordinate);
    if !FlagIgnored(state, coordinate) {
      assert once.flaggedTiles == CellInteraction.Toggled(state.flaggedTiles, coordinate);
      assert LegacyToggleFlag(once, coordinate).flaggedTiles == state.flaggedTiles;
    }
  }

  /** A clown that a running hunt has not yet counted: the only tap that scores. */
  predicate FreshClown(state: LegacyState, coordinate: Coordinate) {
    && state.phase == Running && state.funnyBoomOverlay.Some?
    && coordinate in state.funnyBoomOverlay.value.clownTiles
    && coordinate !in state.funnyBoomOverlay.value.revealedClowns
  }

  /**
   * `tapFunnyBoomCell(state:coordinate:)`: in a running round with a hunt, the first tap on a clown
   * counts it and scores the event points as points and bonus; every other tap changes nothing. This
   * file's hunt has no interactivity test, no pulse and no record of misses.
   */
  function LegacyTapFunnyBoomCell(state: LegacyState, coordinate: Coordinate): (r: LegacyState)
    ensures FreshClown(state, coordinate) ==>
              var overlay := state.funnyBoomOverlay.value;
              r == state.(points := state.points + EventPoints, bonusPoints := state.bonusPoints + EventPoints,
                          funnyBoomOverlay := Some(overlay.(revealedClowns := overlay.revealedClowns + {coordinate})))
    ensures !FreshClown(state, coordinate) ==> r == state
  {
    if state.phase != Running || state.funnyBoomOverlay.None? then state
    else
      var overlay := state.funnyBoomOverlay.value;
      if coordinate in overlay.clownTiles && coordinate !in overlay.revealedClowns then
        state.(points := state.points + EventPoints, bonusPoints := state.bonusPoints + EventPoints,
               funnyBoomOverlay := Some(overlay.(revealedClowns := overlay.revealedClowns + {coordinate})))
      else state.(funnyBoomOverlay := Some(overlay))
  }

  /** A clown scores once: a second tap on it changes nothing. */
  lemma ClownScoresOnce(state: LegacyState, coordinate: Coordinate)
    ensures var once := LegacyTapFunnyBoomCell(state, coordinate);
            && !FreshClown(once, coordinate)
            && LegacyTapFunnyBoomCell(once, coordinate) == once
  {
  }

  // ---------------------------------------------------------------------------------------------
  // The special-effect roll

  /** `makeModeNotice(style:…:duration:)`: a full countdown of the given length. */
  function ModeNotice(style: Style, duration: int): (notice: Notice)
    ensures notice.style == style && notice.totalSeconds == notice.secondsRemaining == duration
  {
    Notice(style, duration, duration)
  }

  /** The hunt a Funny Boom roll creates: the shared clown draw over every cell, and five seconds on the clock. */
  function LegacyOverlaySpec(board: GameBoard, draws: nat -> int, cursor: nat): (LegacyOverlay, nat) {
    var d := board.dimensions;
    var drawn := Draw(RowMajor(d), SpecialMode.ClownCount(CellCount(d)), draws, cursor, false);
    (LegacyOverlay(drawn.0, {}, LegacyFunnyBoomDuration), drawn.1)
  }

  /**
   * The hunt has exactly min(max(6, floor(0.18 * cells)), cells) clowns, all on the board, none
   * found yet, five seconds to run, and one `randomInt` call per clown.
   */
  lemma LegacyOverlayFacts(board: GameBoard, draws: nat -> int, cursor: nat)
    ensures var (overlay, next) := LegacyOverlaySpec(board, draws, cursor);
            && overlay.clownTiles <= AllCells(board.dimensions)
            && |overlay.clownTiles| == SpecialMode.ClownCount(CellCount(board.dimensions))
            && overlay.revealedClowns == {} && overlay.secondsRemaining == LegacyFunnyBoomDuration
            && next == cursor + |overlay.clownTiles|
  {
    var d := board.dimensions;
    RowMajorFacts(d);
    DrawFacts(RowMajor(d), SpecialMode.ClownCount(CellCount(d)), draws, cursor, false);
    AllCellsSubset(d, LegacyOverlaySpec(board, draws, cursor).0.clownTiles);
  }

  /** The clown loop of the Funny Boom branch. */
  method MakeLegacyOverlay(board: GameBoard, draws: nat -> int, cursor: nat) returns (overlay: LegacyOverlay, next: nat)
    ensures (overlay, next) == LegacyOverlaySpec(board, draws, cursor)
  {
    var d := board.dimensions;
    var candidates := AllCoordinates(d);
    var clownCount := Min(Max(6, CellCount(d) * ClownDensityPercent / 100), |candidates|);
    var clowns;
    clowns, next := DrawWithoutReplacement(candidates, clownCount, draws, cursor, false);
    overlay := LegacyOverlay(clowns, {}, LegacyFunnyBoomDuration);
  }

  /** The roll is considered only for a tapped cell just revealed, with no adjacent mine, never rolled before. */
  predicate RollGate(state: LegacyState, board: GameBoard, tapped: Coordinate, newlyRevealed: set<Coordinate>) {
    tapped in newlyRevealed && AdjacentMineCount(board, tapped) == 0 && tapped !in state.specialRollTiles
  }

  /** The fields a special effect never touches are those of `b` and `a` alike. */
  predicate SameOutsideModes(a: LegacyState, b: LegacyState) {
    && a.settings == b.settings && a.board == b.board && a.phase == b.phase && a.playerMode == b.playerMode
    && a.elapsedSeconds == b.elapsedSeconds
    && a.revealedTiles == b.revealedTiles && a.flaggedTiles == b.flaggedTiles && a.neutralizedBombs == b.neutralizedBombs
    && a.pendingVictory == b.pendingVictory && a.scores == b.scores && a.soundEnabled == b.soundEnabled
    && a.explosionSequence == b.explosionSequence
  }

  /**
   * The fields a safe tap leaves alone: the leaderboard, the clock and the neutralized bombs; the
   * rolled cells gain at most the tapped cell.
   */
  predicate SafeTapKeeps(before: LegacyState, after: LegacyState, coordinate: Coordinate) {
    && after.scores == before.scores && after.elapsedSeconds == before.elapsedSeconds
    && after.neutralizedBombs == before.neutralizedBombs
    && before.specialRollTiles <= after.specialRollTiles <= before.specialRollTiles + {coordinate}
  }

  /**
   * `maybeApplySpecialEffect(state:board:tappedCoordinate:newlyRevealed:environment:)`: past the gate
   * the cell is marked as rolled whatever the roll says; a successful roll clears the current mode
   * and applies the drawn effect at once: ±10 points with a pulse, a twelve-second power with a
   * twelve-second notice, or a five-second hunt with a five-second notice.
   */
  method MaybeApplySpecialEffect(state: LegacyState, board: GameBoard, tapped: Coordinate, newlyRevealed: set<Coordinate>,
                                 deps: Dependencies, cursor: nat)
    returns (next: LegacyState, nextCursor: nat)
    ensures !RollGate(state, board, tapped, newlyRevealed) ==> next == state && nextCursor == cursor
    // Whatever happens, the board, the reveals, the flags and the tile points are untouched.
    ensures SameOutsideModes(next, state) && next.points - next.bonusPoints == state.points - state.bonusPoints
    ensures cursor <= nextCursor
    ensures RollGate(state, board, tapped, newlyRevealed) && !deps.specialRoll ==>
              next == state.(specialRollTiles := state.specialRollTiles + {tapped}) && nextCursor == cursor
    ensures RollGate(state, board, tapped, newlyRevealed) && deps.specialRoll ==>
              var effect := SpecialMode.RolledEffect(deps.draws(cursor));
              && SameOutsideModes(next, state)
              && next.specialRollTiles == state.specialRollTiles + {tapped}
              && (effect == Bonus ==>
                    && next.points == state.points + EventPoints && next.bonusPoints == state.bonusPoints + EventPoints
                    && next.tileScorePulses == Enqueued(state.tileScorePulses, tapped, EventPoints)
                    && next.activePower.None? && next.funnyBoomOverlay.None? && next.specialModeNotice.None?
                    && nextCursor == cursor + 1)
              && (effect == Malus ==>
                    && next.points == state.points - EventPoints && next.bonusPoints == state.bonusPoints - EventPoints
                    && next.tileScorePulses == Enqueued(state.tileScorePulses, tapped, -EventPoints)
                    && next.activePower.None? && next.funnyBoomOverlay.None? && next.specialModeNotice.None?
                    && nextCursor == cursor + 1)
              && (effect == Xray ==>
                    && next.activePower == Some(XrayPower(LegacyXrayDuration))
                    && next.specialModeNotice == Some(ModeNotice(XrayStyle, LegacyXrayDuration))
                    && next.funnyBoomOverlay.None?)
              && (effect == Superhero ==>
                    && next.activePower == Some(SuperheroPower(LegacySuperheroDuration))
                    && next.specialModeNotice == Some(ModeNotice(SuperheroStyle, LegacySuperheroDuration))
                    && next.funnyBoomOverlay.None?)
              && (effect == FunnyBoom ==>
                    && next.activePower.None?
                    && next.funnyBoomOverlay == Some(LegacyOverlaySpec(board, deps.draws, cursor + 1).0)
                    && nextCursor == LegacyOverlaySpec(board, deps.draws, cursor + 1).1
                    && next.specialModeNotice == Some(ModeNotice(FunnyBoomStyle, LegacyFunnyBoomDuration)))
              && (effect in {Xray, Superhero, FunnyBoom} ==>
                    next.points == state.points && next.bonusPoints == state.bonusPoints && next.tileScorePulses == state.tileScorePulses)
              && (effect in {Xray, Superhero} ==> nextCursor == cursor + 1)
  {
    next, nextCursor := state, cursor;
    if tapped !in newlyRevealed {
      return;
    }
    if AdjacentMineCount(board, tapped) != 0 {
      return;
    }
    if tapped in next.specialRollTiles {
      return;
    }
    next := next.(specialRollTiles := next.specialRollTiles + {tapped});
    if !deps.specialRoll {
      return;
    }
    next := next.(activePower := None, funnyBoomOverlay := None, specialModeNotice := None);
    var index := ClampIndex(deps.draws(nextCursor), |AllEffects|);
    nextCursor := nextCursor + 1;
    match AllEffects[index]
    case Bonus =>
      next := next.(points := next.points + EventPoints, bonusPoints := next.bonusPoints + EventPoints);
      next := EnqueueTileScorePulse(next, tapped, EventPoints);
    case Malus =>
      next := next.(points := next.points - EventPoints, bonusPoints := next.bonusPoints - EventPoints);
      next := EnqueueTileScorePulse(next, tapped, -EventPoints);
    case Xray =>
      next := next.(activePower := Some(XrayPower(LegacyXrayDuration)));
      next := next.(specialModeNotice := Some(ModeNotice(XrayStyle, LegacyXrayDuration)));
    case Superhero =>
      next := next.(activePower := Some(SuperheroPower(LegacySuperheroDuration)));
      next := next.(specialModeNotice := Some(ModeNotice(SuperheroStyle, LegacySuperheroDuration)));
    case FunnyBoom =>
      LegacyOverlayFacts(board, deps.draws, nextCursor);
      var overlay;
      overlay, nextCursor := MakeLegacyOverlay(board, deps.draws, nextCursor);
      next := next.(funnyBoomOverlay := Some(overlay));
      next := next.(specialModeNotice := Some(ModeNotice(FunnyBoomStyle, LegacyFunnyBoomDuration)));
  }

  // ---------------------------------------------------------------------------------------------
  // Reveal and chord

  /** A flood from origin over the current tiles, scored one point per newly revealed tile; nothing else changes. */
  method RevealAndScore(state: LegacyState, board: GameBoard, origin: Coordinate) returns (next: LegacyState, newSafe: set<Coordinate>)
    ensures newSafe == next.revealedTiles - state.revealedTiles
    ensures next == state.(revealedTiles := next.revealedTiles, points := state.points + |newSafe| * RevealPoints)
    ensures state.revealedTiles <= next.revealedTiles
    ensures forall x :: x in newSafe ==> x !in state.flaggedTiles && x !in board.mines && (x == origin || IsValid(board.dimensions, x))
    ensures origin !in state.revealedTiles && origin !in state.flaggedTiles && origin !in board.mines ==> origin in next.revealedTiles
    ensures origin in state.revealedTiles || origin in state.flaggedTiles || origin in board.mines ==> newSafe == {}
    ensures forall x, y :: x in newSafe && AdjacentMineCount(board, x) == 0 && y in NeighborList(board.dimensions, x) ==>
              y in next.revealedTiles || y in state.flaggedTiles || y in board.mines
    // and conversely each new tile is reached from origin through new tiles with no adjacent mine.
    ensures forall x :: x in newSafe ==> CellInteraction.FloodReached(board, origin, x, newSafe)
  {
    var revealedNow, order, parents := CellInteraction.FloodReveal(origin, board, state.revealedTiles, state.flaggedTiles);
    newSafe := revealedNow - state.revealedTiles;
    next := state.(revealedTiles := state.revealedTiles + revealedNow);
    next := next.(points := next.points + |newSafe| * RevealPoints);
    forall x | x in newSafe ensures CellInteraction.FloodReached(board, origin, x, newSafe) {
      var i :| 0 <= i < |order| && order[i] == x;
      var path := CellInteraction.PathFromOrder(board, origin, order, parents, newSafe, i);
    }
  }

  /** A chord acts on the cell's neighbours that are neither flagged nor revealed when it starts. */
  predicate ChordTarget(state: LegacyState, c: Coordinate) {
    c !in state.flaggedTiles && c !in state.revealedTiles
  }

  /** A chord goes ahead when the cell has mines around it and exactly that many flagged neighbours. */
  predicate ChordArmed(state: LegacyState, board: GameBoard, coordinate: Coordinate) {
    && AdjacentMineCount(board, coordinate) > 0
    && CountIn(NeighborList(board.dimensions, coordinate), state.flaggedTiles) == AdjacentMineCount(board, coordinate)
  }

  /** A chord without Superhero that reaches a mine. */
  predicate ChordHitsMine(state: LegacyState, board: GameBoard, coordinate: Coordinate) {
    && !IsSuperheroActive(state)
    && exists n :: n in NeighborList(board.dimensions, coordinate) && ChordTarget(state, n) && n in board.mines
  }

  /** What a chord may add to the revealed tiles: a neutralized target mine under Superhero, or a board cell that is neither mined nor flagged. */
  predicate ChordAdded(state: LegacyState, board: GameBoard, coordinate: Coordinate, x: Coordinate) {
    || (x in board.mines && IsSuperheroActive(state) && x in NeighborList(board.dimensions, coordinate) && ChordTarget(state, x))
    || (x !in board.mines && x !in state.flaggedTiles && IsValid(board.dimensions, x))
  }

  /** Only the revealed tiles, the neutralized mines and the points have moved, in step with each other. */
  ghost predicate ChordAccount(state: LegacyState, board: GameBoard, next: LegacyState) {
    && next == state.(revealedTiles := next.revealedTiles, neutralizedBombs := next.neutralizedBombs, points := next.points)
    && state.revealedTiles <= next.revealedTiles
    && next.neutralizedBombs == state.neutralizedBombs + (next.revealedTiles - state.revealedTiles) * board.mines
    && next.points == state.points + |CellInteraction.NewSafe(state.revealedTiles, next.revealedTiles, board)| * RevealPoints
  }

  /**
   * What the targets before index i have added: only what ChordAdded allows, closed around
   * zero-count tiles and reached from a target; those targets are revealed, and none of them was a
   * mine unless Superhero is active.
   */
  ghost predicate ChordCoverage(state: LegacyState, board: GameBoard, coordinate: Coordinate, neighbors: seq<Coordinate>, i: int, next: LegacyState) {
    var added := next.revealedTiles - state.revealedTiles;
    && 0 <= i <= |neighbors|
    && (forall x :: x in added ==> ChordAdded(state, board, coordinate, x))
    && (forall x, y :: x in added && x !in board.mines && AdjacentMineCount(board, x) == 0 && y in NeighborList(board.dimensions, x) ==>
          y in next.revealedTiles || y in state.flaggedTiles || y in board.mines)
    && (forall j :: 0 <= j < i && ChordTarget(state, neighbors[j]) ==> neighbors[j] in next.revealedTiles)
    && (!IsSuperheroActive(state) ==> forall j :: 0 <= j < i && ChordTarget(state, neighbors[j]) ==> neighbors[j] !in board.mines)
    && CellInteraction.ChordReach(board, coordinate, state.flaggedTiles, state.revealedTiles, next.revealedTiles)
  }

  /** Passing over a neighbour that is not a target keeps the account. */
  lemma ChordSkipStep(state: LegacyState, board: GameBoard, coordinate: Coordinate, neighbors: seq<Coordinate>, i: int, next: LegacyState)
    requires 0 <= i < |neighbors|
    requires ChordProgress(state, board, coordinate, neighbors, i, next)
    requires !ChordTarget(state, neighbors[i])
    ensures ChordProgress(state, board, coordinate, neighbors, i + 1, next)
  {
  }

  /** Neutralizing a target mine under Superhero keeps the account. */
  lemma ChordNeutralizeStep(state: LegacyState, board: GameBoard, coordinate: Coordinate, neighbors: seq<Coordinate>, i: int, next: LegacyState)
    requires neighbors == NeighborList(board.dimensions, coordinate)
    requires 0 <= i < |neighbors|
    requires ChordAccount(state, board, next) && ChordCoverage(state, board, coordinate, neighbors, i, next)
    requires ChordTarget(state, neighbors[i]) && neighbors[i] in board.mines && IsSuperheroActive(state)
    ensures var next' := next.(revealedTiles := next.revealedTiles + {neighbors[i]}, neutralizedBombs := next.neutralizedBombs + {neighbors[i]});
            ChordAccount(state, board, next') && ChordCoverage(state, board, coordinate, neighbors, i + 1, next')
  {
    var n := neighbors[i];
    var r' := next.revealedTiles + {n};
    assert CellInteraction.NewSafe(state.revealedTiles, r', board) == CellInteraction.NewSafe(state.revealedTiles, next.revealedTiles, board);
    ChordNeutralizeAccount(state, board, n, next);
    ChordNeutralizeCoverage(state, board, coordinate, neighbors, i, next);
  }

  lemma ChordNeutralizeAccount(state: LegacyState, board: GameBoard, n: Coordinate, next: LegacyState)
    requires ChordAccount(state, board, next)
    requires n in board.mines && n !in state.revealedTiles
    requires CellInteraction.NewSafe(state.revealedTiles, next.revealedTiles + {n}, board)
             == CellInteraction.NewSafe(state.revealedTiles, next.revealedTiles, board)
    ensures ChordAccount(state, board, next.(revealedTiles := next.revealedTiles + {n}, neutralizedBombs := next.neutralizedBombs + {n}))
  {
    var r' := next.revealedTiles + {n};
    assert (r' - state.revealedTiles) * board.mines == (next.revealedTiles - state.revealedTiles) * board.mines + {n};
  }

  lemma ChordNeutralizeCoverage(state: LegacyState, board: GameBoard, coordinate: Coordinate, neighbors: seq<Coordinate>, i: int, next: LegacyState)
    requires neighbors == NeighborList(board.dimensions, coordinate)
    requires 0 <= i < |neighbors|
    requires ChordCoverage(state, board, coordinate, neighbors, i, next)
    requires ChordTarget(state, neighbors[i]) && neighbors[i] in board.mines && IsSuperheroActive(state)
    requires CellInteraction.NewSafe(state.revealedTiles, next.revealedTiles + {neighbors[i]}, board)
             == CellInteraction.NewSafe(state.revealedTiles, next.revealedTiles, board)
    ensures ChordCoverage(state, board, coordinate, neighbors, i + 1, next.(revealedTiles := next.revealedTiles + {neighbors[i]}))
  {
    CellInteraction.ChordReachSame(board, coordinate, state.flaggedTiles, state.revealedTiles, next.revealedTiles, next.revealedTiles + {neighbors[i]});
  }

  /** What RevealAndScore promises about a flood from n that took `next` to `next'`. */
  ghost predicate FloodedFrom(board: GameBoard, n: Coordinate, next: LegacyState, next': LegacyState) {
    var newSafe := next'.revealedTiles - next.revealedTiles;
    && next' == next.(revealedTiles := next'.revealedTiles, points := next.points + |newSafe| * RevealPoints)
    && next.revealedTiles <= next'.revealedTiles
    && (forall x :: x in newSafe ==> x !in next.flaggedTiles && x !in board.mines && (x == n || IsValid(board.dimensions, x)))
    && (n !in next.revealedTiles && n !in next.flaggedTiles ==> n in next'.revealedTiles)
    && (forall x, y :: x in newSafe && AdjacentMineCount(board, x) == 0 && y in NeighborList(board.dimensions, x) ==>
          y in next'.revealedTiles || y in next.flaggedTiles || y in board.mines)
    && (forall x :: x in newSafe ==> CellInteraction.FloodReached(board, n, x, newSafe))
  }

  /** Flooding from a safe target keeps the account. */
  lemma ChordFloodStep(state: LegacyState, board: GameBoard, coordinate: Coordinate, neighbors: seq<Coordinate>, i: int,
                       next: LegacyState, next': LegacyState)
    requires neighbors == NeighborList(board.dimensions, coordinate)
    requires 0 <= i < |neighbors|
    requires ChordAccount(state, board, next) && ChordCoverage(state, board, coordinate, neighbors, i, next)
    requires ChordTarget(state, neighbors[i]) && neighbors[i] !in board.mines
    requires FloodedFrom(board, neighbors[i], next, next')
    ensures ChordAccount(state, board, next') && ChordCoverage(state, board, coordinate, neighbors, i + 1, next')
  {
    CellInteraction.SafeAdditionCount(state.revealedTiles, next.revealedTiles, next'.revealedTiles, board);
    assert (next'.revealedTiles - state.revealedTiles) * board.mines == (next.revealedTiles - state.revealedTiles) * board.mines;
    ChordFloodCoverage(state, board, coordinate, neighbors, i, next, next');
  }

  lemma ChordFloodCoverage(state: LegacyState, board: GameBoard, coordinate: Coordinate, neighbors: seq<Coordinate>, i: int,
                           next: LegacyState, next': LegacyState)
    requires neighbors == NeighborList(board.dimensions, coordinate)
    requires 0 <= i < |neighbors|
    requires ChordAccount(state, board, next)
    requires ChordCoverage(state, board, coordinate, neighbors, i, next)
    requires ChordTarget(state, neighbors[i]) && neighbors[i] !in board.mines
    requires FloodedFrom(board, neighbors[i], next, next')
    ensures ChordCoverage(state, board, coordinate, neighbors, i + 1, next')
  {
    var d := board.dimensions;
    var n := neighbors[i];
    assert next.flaggedTiles == state.flaggedTiles;
    NeighborFacts(d, coordinate);
    assert n in NeighborList(d, coordinate);
    forall x | x in next'.revealedTiles - state.revealedTiles ensures ChordAdded(state, board, coordinate, x) {
    }
    forall j | 0 <= j < i + 1 && ChordTarget(state, neighbors[j]) ensures neighbors[j] in next'.revealedTiles {
    }
    CellInteraction.ChordReachFlood(board, coordinate, state.flaggedTiles, state.revealedTiles, next.revealedTiles, next'.revealedTiles, n);
  }

  /** Reaching a target mine without Superhero: the account gives the loss's postconditions. */
  lemma ChordLossExit(state: LegacyState, board: GameBoard, coordinate: Coordinate, neighbors: seq<Coordinate>, i: int, next: LegacyState)
    requires neighbors == NeighborList(board.dimensions, coordinate)
    requires 0 <= i < |neighbors|
    requires ChordAccount(state, board, next) && ChordCoverage(state, board, coordinate, neighbors, i, next)
    requires ChordTarget(state, neighbors[i]) && neighbors[i] in board.mines && !IsSuperheroActive(state)
    ensures ChordHitsMine(state, board, coordinate)
    ensures next == state.(revealedTiles := (next.revealedTiles + board.mines) - (board.mines - state.revealedTiles), points := next.points)
    ensures state.revealedTiles <= next.revealedTiles + board.mines
    ensures next.points == state.points + |CellInteraction.NewSafe(state.revealedTiles, next.revealedTiles + board.mines, board)| * RevealPoints
    ensures forall x :: x in next.revealedTiles + board.mines - state.revealedTiles ==> ChordAdded(state, board, coordinate, x) || x in board.mines
    ensures CellInteraction.ChordReach(board, coordinate, state.flaggedTiles, state.revealedTiles, next.revealedTiles + board.mines)
  {
    var r := next.revealedTiles;
    assert neighbors[i] in NeighborList(board.dimensions, coordinate);
    assert (r - state.revealedTiles) * board.mines == {} by {
      forall x | x in r - state.revealedTiles ensures x !in board.mines {
        assert ChordAdded(state, board, coordinate, x);
      }
    }
    assert (r + board.mines) - (board.mines - state.revealedTiles) == r;
    assert CellInteraction.NewSafe(state.revealedTiles, r + board.mines, board) == CellInteraction.NewSafe(state.revealedTiles, r, board);
    CellInteraction.ChordReachSame(board, coordinate, state.flaggedTiles, state.revealedTiles, r, r + board.mines);
  }

  /** A chord that never lost: every target is revealed and no unprotected target was a mine. */
  lemma ChordDoneExit(state: LegacyState, board: GameBoard, coordinate: Coordinate, neighbors: seq<Coordinate>, next: LegacyState)
    requires neighbors == NeighborList(board.dimensions, coordinate)
    requires ChordCoverage(state, board, coordinate, neighbors, |neighbors|, next)
    ensures !ChordHitsMine(state, board, coordinate)
    ensures forall n :: n in neighbors && ChordTarget(state, n) ==> n in next.revealedTiles
  {
    forall n | n in neighbors && ChordTarget(state, n) ensures n in next.revealedTiles && (!IsSuperheroActive(state) ==> n !in board.mines) {
      var j :| 0 <= j < |neighbors| && neighbors[j] == n;
    }
  }

  /**
   * What an armed chord produces: the reveals only grow, one point per newly revealed safe tile,
   * only with tiles ChordAdded allows or mines, and each new safe tile is reached by a flood from a
   * target; a chord that reaches a mine outside Superhero is the loss from the state before that
   * mine; any other chord adds no unprotected mine, neutralizes the target mines it reveals,
   * reveals every target, leaves its new zero-count tiles closed and runs the win test.
   */
  ghost predicate ChordOutcome(state: LegacyState, board: GameBoard, coordinate: Coordinate, next: LegacyState) {
    && state.revealedTiles <= next.revealedTiles
    && next.points == state.points + |CellInteraction.NewSafe(state.revealedTiles, next.revealedTiles, board)| * RevealPoints
    && (forall x :: x in next.revealedTiles - state.revealedTiles ==> ChordAdded(state, board, coordinate, x) || x in board.mines)
    && CellInteraction.ChordReach(board, coordinate, state.flaggedTiles, state.revealedTiles, next.revealedTiles)
    && (ChordHitsMine(state, board, coordinate) ==>
          next == Loss(state.(revealedTiles := next.revealedTiles - (board.mines - state.revealedTiles), points := next.points), board))
    && (!ChordHitsMine(state, board, coordinate) ==>
          && next == Completion(state.(revealedTiles := next.revealedTiles, neutralizedBombs := next.neutralizedBombs, points := next.points), board)
          && next.neutralizedBombs == state.neutralizedBombs + (next.revealedTiles - state.revealedTiles) * board.mines
          && (forall x :: x in next.revealedTiles - state.revealedTiles ==> ChordAdded(state, board, coordinate, x))
          && (forall n :: n in NeighborList(board.dimensions, coordinate) && ChordTarget(state, n) ==> n in next.revealedTiles)
          && (forall x, y ::
                (x in next.revealedTiles - state.revealedTiles && x !in board.mines && AdjacentMineCount(board, x) == 0 &&
                 y in NeighborList(board.dimensions, x)) ==> y in next.revealedTiles || y in state.flaggedTiles || y in board.mines))
  }

  /**
   * `chordRevealIfPossible(state:coordinate:board:)`. Nothing happens unless the cell has mines
   * around it and exactly that many flagged neighbours. Otherwise the neighbours not flagged and
   * not revealed at the start are taken in `neighbors` order: a mine is neutralized under
   * Superhero and otherwise loses the round at once; any other cell is flood revealed and scored.
   * A chord that does not lose ends with the win test.
   */
  method ChordRevealIfPossible(state: LegacyState, coordinate: Coordinate, board: GameBoard) returns (next: LegacyState)
    ensures !ChordArmed(state, board, coordinate) ==> next == state
    ensures ChordArmed(state, board, coordinate) ==> ChordOutcome(state, board, coordinate, next)
  {
    if AdjacentMineCount(board, coordinate) <= 0 {
      return state;
    }
    var neighbors := Neighbors(board.dimensions, coordinate);
    var flaggedNeighbors := CountIn(neighbors, state.flaggedTiles);
    if flaggedNeighbors != AdjacentMineCount(board, coordinate) {
      return state;
    }
    next := ChordWalk(state, coordinate, board, neighbors);
  }

  /** The loop's account of a chord in progress: what `next` holds after the targets before index i. */
  ghost predicate ChordProgress(state: LegacyState, board: GameBoard, coordinate: Coordinate, neighbors: seq<Coordinate>, i: int, next: LegacyState) {
    ChordAccount(state, board, next) && ChordCoverage(state, board, coordinate, neighbors, i, next)
  }

  /** A walk stopped by a target mine outside Superhero ends in the loss ChordOutcome describes. */
  lemma ChordLossOutcome(state: LegacyState, board: GameBoard, coordinate: Coordinate, neighbors: seq<Coordinate>, i: int, next: LegacyState)
    requires neighbors == NeighborList(board.dimensions, coordinate)
    requires 0 <= i < |neighbors|
    requires ChordProgress(state, board, coordinate, neighbors, i, next)
    requires ChordTarget(state, neighbors[i]) && neighbors[i] in board.mines && !IsSuperheroActive(state)
    ensures ChordOutcome(state, board, coordinate, Loss(next, board))
  {
    ChordLossExit(state, board, coordinate, neighbors, i, next);
  }

  /** A walk over every neighbour ends in the win test ChordOutcome describes. */
  lemma ChordDoneOutcome(state: LegacyState, board: GameBoard, coordinate: Coordinate, neighbors: seq<Coordinate>, next: LegacyState)
    requires neighbors == NeighborList(board.dimensions, coordinate)
    requires ChordProgress(state, board, coordinate, neighbors, |neighbors|, next)
    ensures ChordOutcome(state, board, coordinate, Completion(next, board))
  {
    ChordDoneExit(state, board, coordinate, neighbors, next);
  }

  /**
   * One neighbour of the chord walk: a target mine is neutralized under Superhero and otherwise
   * stops the walk (`hit`, with the state untouched); a safe target is flood revealed and scored;
   * anything else is passed over.
   */
  method ChordVisit(state: LegacyState, coordinate: Coordinate, board: GameBoard, neighbors: seq<Coordinate>, i: int, next: LegacyState)
    returns (next': LegacyState, hit: bool)
    requires neighbors == NeighborList(board.dimensions, coordinate)
    requires 0 <= i < |neighbors|
    requires ChordProgress(state, board, coordinate, neighbors, i, next)
    ensures hit <==> ChordTarget(state, neighbors[i]) && neighbors[i] in board.mines && !IsSuperheroActive(state)
    ensures hit ==> next' == next
    ensures !hit ==> ChordProgress(state, board, coordinate, neighbors, i + 1, next')
  {
    var neighbor := neighbors[i];
    next', hit := next, false;
    if neighbor !in state.flaggedTiles && neighbor !in state.revealedTiles {
      if neighbor in board.mines {
        if IsSuperheroActive(state) {
          ChordNeutralizeStep(state, board, coordinate, neighbors, i, next);
          next' := next.(revealedTiles := next.revealedTiles + {neighbor}, neutralizedBombs := next.neutralizedBombs + {neighbor});
        } else {
          hit := true;
        }
      } else {
        var newSafe;
        next', newSafe := RevealAndScore(next, board, neighbor);
        ChordFloodStep(state, board, coordinate, neighbors, i, next, next');
      }
    } else {
      ChordSkipStep(state, board, coordinate, neighbors, i, next);
    }
  }

  /** The walk over an armed chord's neighbours, in neighbour order, stopping at the first mine hit outside Superhero. */
  method ChordWalk(state: LegacyState, coordinate: Coordinate, board: GameBoard, neighbors: seq<Coordinate>) returns (next: LegacyState)
    requires neighbors == NeighborList(board.dimensions, coordinate)
    ensures ChordOutcome(state, board, coordinate, next)
  {
    next := state;
    for i := 0 to |neighbors|
      invariant ChordProgress(state, board, coordinate, neighbors, i, next)
    {
      var next', hit := ChordVisit(state, coordinate, board, neighbors, i, next);
      if hit {
        ChordLossOutcome(state, board, coordinate, neighbors, i, next);
        next := LoseRound(next, board);
        return;
      }
      next := next';
    }
    ChordDoneOutcome(state, board, coordinate, neighbors, next);
    next := CompleteIfWon(next, board);
  }

  // ---------------------------------------------------------------------------------------------
  // Tapping a cell

  /** The guards under which `tapCell` returns the state untouched, whatever the player mode. */
  predicate TapIgnored(state: LegacyState, coordinate: Coordinate) {
    !CanInteractWithBoard(state) || state.funnyBoomOverlay.Some? || !IsValid(LegacyDimensions(state), coordinate)
  }

  /** A tap that reaches the board: past the guards, in reveal mode, on a cell without a flag. */
  predicate TapOpens(state: LegacyState, coordinate: Coordinate) {
    !TapIgnored(state, coordinate) && state.playerMode == RevealMode && coordinate !in state.flaggedTiles
  }

  /** The safe branch of `tapCell`: flood reveal and score, the special-effect roll and the win test. */
  method TapSafe(state: LegacyState, board: GameBoard, coordinate: Coordinate, deps: Dependencies, cursor: nat)
    returns (next: LegacyState, nextCursor: nat)
    requires coordinate !in state.revealedTiles && coordinate !in state.flaggedTiles && coordinate !in board.mines
    requires IsValid(board.dimensions, coordinate)
    ensures next.settings == state.settings && next.board == state.board && next.flaggedTiles == state.flaggedTiles
    ensures next.playerMode == state.playerMode && next.soundEnabled == state.soundEnabled && next.scores == state.scores
    ensures next.explosionSequence == state.explosionSequence
    ensures next.phase == state.phase || next.phase == Won
    ensures CellInteraction.FloodAdded(board, coordinate, state.flaggedTiles, state.revealedTiles, next.revealedTiles)
    ensures SafeTapKeeps(state, next, coordinate)
    ensures next.points - next.bonusPoints
            == state.points - state.bonusPoints + |next.revealedTiles - state.revealedTiles| * RevealPoints
    ensures WinTested(board, state.phase, state.pendingVictory, next)
    ensures cursor <= nextCursor
  {
    var revealed, newSafe := RevealAndScore(state, board, coordinate);
    var effected, effectCursor := MaybeApplySpecialEffect(revealed, board, coordinate, newSafe, deps, cursor);
    assert effected.revealedTiles == revealed.revealedTiles;
    assert effected.points - effected.bonusPoints == revealed.points - revealed.bonusPoints;
    next := CompleteIfWon(effected, board);
    nextCursor := effectCursor;
  }

  /**
   * What the legacy `tapCell` does to the state, with board generation drawing from `cursor`. The
   * guards leave the state untouched and flag mode toggles the flag; the settings, the player mode,
   * the sound switch and the leaderboard never change, nor does a board once generated; and the
   * explosion counter rises by at most one.
   */
  ghost predicate TapOutcome(state: LegacyState, coordinate: Coordinate, deps: Dependencies, cursor: nat, next: LegacyState) {
    && (TapIgnored(state, coordinate) ==> next == state)
    && (!TapIgnored(state, coordinate) && state.playerMode == FlagMode ==> next == LegacyToggleFlag(state, coordinate))
    && (!TapIgnored(state, coordinate) && state.playerMode == RevealMode && coordinate in state.flaggedTiles ==> next == state)
    && state.explosionSequence <= next.explosionSequence <= state.explosionSequence + 1
    && next.settings == state.settings && next.playerMode == state.playerMode
    && next.soundEnabled == state.soundEnabled && next.scores == state.scores
    && (state.board.Some? ==> next.board == state.board)
    && (!TapOpens(state, coordinate) && state.board.None? ==> next.board.None?)
    // The first tap generates the board around the tapped cell, which is then revealed.
    && (TapOpens(state, coordinate) && state.board.None? ==>
          var generated := LegacyGenerateSpec(state.settings, coordinate, deps.draws, cursor);
          && next.board == Some(generated.0)
          && coordinate !in generated.0.mines
          && (coordinate !in state.revealedTiles ==> coordinate in next.revealedTiles && (next.phase == Running || next.phase == Won)))
    // A revealed cell is a chord: nothing unless armed, otherwise the chord's walk.
    && (TapOpens(state, coordinate) && state.board.Some? && coordinate in state.revealedTiles ==>
          && (!ChordArmed(state, state.board.value, coordinate) ==> next == state)
          && (ChordArmed(state, state.board.value, coordinate) ==> ChordOutcome(state, state.board.value, coordinate, next)))
    // A mine under Superhero is revealed and neutralized; the phase stays and no win test runs.
    && (TapOpens(state, coordinate) && state.board.Some? && coordinate !in state.revealedTiles
        && coordinate in state.board.value.mines && IsSuperheroActive(state) ==>
          next == state.(revealedTiles := state.revealedTiles + {coordinate},
                         neutralizedBombs := state.neutralizedBombs + {coordinate},
                         flaggedTiles := state.flaggedTiles - {coordinate}))
    // A mine without Superhero loses the round.
    && (TapOpens(state, coordinate) && state.board.Some? && coordinate !in state.revealedTiles
        && coordinate in state.board.value.mines && !IsSuperheroActive(state) ==>
          next == Loss(state, state.board.value))
    // A safe cell is flood revealed, each new tile scores one point besides any bonus or malus, and the win test runs.
    && (TapOpens(state, coordinate) && coordinate !in state.revealedTiles
        && (state.board.None? || coordinate !in state.board.value.mines) ==>
          && next.board.Some?
          && CellInteraction.FloodAdded(next.board.value, coordinate, state.flaggedTiles, state.revealedTiles, next.revealedTiles)
          && SafeTapKeeps(state, next, coordinate)
          && next.points - next.bonusPoints
             == state.points - state.bonusPoints + |next.revealedTiles - state.revealedTiles| * RevealPoints
          && next.flaggedTiles == state.flaggedTiles
          && next.explosionSequence == state.explosionSequence
          && WinTested(next.board.value, if state.board.None? then Running else state.phase, state.pendingVictory, next))
  }

  /**
   * `tapCell(state:coordinate:environment:)`. In flag mode a tap is a flag toggle. Otherwise a
   * flagged cell is left alone; the first tap generates the board from the legacy tables around
   * the tapped cell and starts the clock; a revealed cell is a chord; a mine is neutralized under
   * Superhero, with no win test and no phase change, and otherwise loses the round; any other cell
   * is flood revealed and scored, rolls for a special effect and runs the win test. The draws are
   * consumed from `cursor`; `nextCursor` is the first left unused.
   */
  method LegacyTapCell(state: LegacyState, coordinate: Coordinate, deps: Dependencies, cursor: nat)
    returns (next: LegacyState, nextCursor: nat)
    ensures TapOutcome(state, coordinate, deps, cursor, next)
    ensures !TapOpens(state, coordinate) ==> nextCursor == cursor
    ensures cursor <= nextCursor
    // Generation uses the first draws, the special-effect index any later one.
    ensures TapOpens(state, coordinate) && state.board.None? ==>
              LegacyGenerateSpec(state.settings, coordinate, deps.draws, cursor).1 <= nextCursor
    // A mine and a chord draw nothing.
    ensures TapOpens(state, coordinate) && state.board.Some? && coordinate in state.revealedTiles ==> nextCursor == cursor
    ensures TapOpens(state, coordinate) && state.board.Some? && coordinate in state.board.value.mines ==> nextCursor == cursor
  {
    nextCursor := cursor;
    if !CanInteractWithBoard(state) || state.funnyBoomOverlay.Some? || !IsValid(LegacyDimensions(state), coordinate) {
      return state, cursor;
    }
    if state.playerMode == FlagMode {
      return LegacyToggleFlag(state, coordinate), cursor;
    }
    if coordinate in state.flaggedTiles {
      return state, cursor;
    }
    if state.board.None? {
      next, nextCursor := FirstTap(state, coordinate, deps, cursor);
      return;
    }
    next, nextCursor := TapBoard(state, state.board.value, coordinate, deps, cursor);
  }

  /**
   * The flood stops at a numbered cell: a reveal-mode tap that reaches an unrevealed safe cell with
   * a mine next to it reveals that cell and nothing else.
   */
  lemma NumberedTapRevealsOnlyIt(state: LegacyState, coordinate: Coordinate, deps: Dependencies, cursor: nat, next: LegacyState)
    requires TapOutcome(state, coordinate, deps, cursor, next)
    requires TapOpens(state, coordinate) && coordinate !in state.revealedTiles
    requires state.board.None? || coordinate !in state.board.value.mines
    requires next.board.Some? && AdjacentMineCount(next.board.value, coordinate) != 0
    ensures next.revealedTiles == state.revealedTiles + {coordinate}
  {
    CellInteraction.FloodFromNumberedCell(next.board.value, coordinate, state.revealedTiles, next.revealedTiles);
  }

  /** The first tap that reaches the board: generate it around the tapped cell, start the clock, then act on the cell. */
  method FirstTap(state: LegacyState, coordinate: Coordinate, deps: Dependencies, cursor: nat)
    returns (next: LegacyState, nextCursor: nat)
    requires TapOpens(state, coordinate) && state.board.None?
    ensures TapOutcome(state, coordinate, deps, cursor, next)
    ensures cursor <= LegacyGenerateSpec(state.settings, coordinate, deps.draws, cursor).1 <= nextCursor
  {
    var generated, after := LegacyGenerate(state.settings, coordinate, deps.draws, cursor);
    LegacyGenerateFacts(state.settings, coordinate, deps.draws, cursor);
    var started := state.(board := Some(generated));
    started := started.(phase := Running);
    next, nextCursor := TapBoard(started, generated, coordinate, deps, after);
  }

  /**
   * The part of `tapCell` after the guards and board generation: a revealed cell is a chord, a mine
   * is neutralized or lost, and a safe cell is flood revealed.
   */
  method TapBoard(state: LegacyState, board: GameBoard, coordinate: Coordinate, deps: Dependencies, cursor: nat)
    returns (next: LegacyState, nextCursor: nat)
    requires state.board == Some(board)
    requires IsValid(board.dimensions, coordinate) && coordinate !in state.flaggedTiles
    ensures state.explosionSequence <= next.explosionSequence <= state.explosionSequence + 1
    ensures cursor <= nextCursor
    ensures next.settings == state.settings && next.board == state.board && next.playerMode == state.playerMode
    ensures next.soundEnabled == state.soundEnabled && next.scores == state.scores
    ensures coordinate in state.revealedTiles || coordinate in board.mines ==> nextCursor == cursor
    ensures coordinate in state.revealedTiles ==>
              && (!ChordArmed(state, board, coordinate) ==> next == state)
              && (ChordArmed(state, board, coordinate) ==> ChordOutcome(state, board, coordinate, next))
    ensures coordinate !in state.revealedTiles && coordinate in board.mines && IsSuperheroActive(state) ==>
              next == state.(revealedTiles := state.revealedTiles + {coordinate},
                             neutralizedBombs := state.neutralizedBombs + {coordinate},
                             flaggedTiles := state.flaggedTiles - {coordinate})
    ensures coordinate !in state.revealedTiles && coordinate in board.mines && !IsSuperheroActive(state) ==>
              next == Loss(state, board)
    ensures coordinate !in state.revealedTiles && coordinate !in board.mines ==>
              && CellInteraction.FloodAdded(board, coordinate, state.flaggedTiles, state.revealedTiles, next.revealedTiles)
              && SafeTapKeeps(state, next, coordinate)
              && next.points - next.bonusPoints
                 == state.points - state.bonusPoints + |next.revealedTiles - state.revealedTiles| * RevealPoints
              && next.flaggedTiles == state.flaggedTiles
              && next.explosionSequence == state.explosionSequence
              && WinTested(board, state.phase, state.pendingVictory, next)
  {
    nextCursor := cursor;
    if coordinate in state.revealedTiles {
      next := ChordRevealIfPossible(state, coordinate, board);
      return;
    }
    next := state;
    if coordinate in board.mines {
      if IsSuperheroActive(next) {
        next := next.(revealedTiles := next.revealedTiles + {coordinate});
        next := next.(neutralizedBombs := next.neutralizedBombs + {coordinate});
        next := next.(flaggedTiles := next.flaggedTiles - {coordinate});
        return;
      }
      next := LoseRound(next, board);
      return;
    }
    next, nextCursor := TapSafe(next, board, coordinate, deps, nextCursor);
  }

  // ---------------------------------------------------------------------------------------------
  // The reducer

  /** A board, once there is one, is a consistent board of this file's preset shape with its mine count. */
  ghost predicate BoardMatchesSettings(s: LegacyState) {
    s.board.Some? ==>
      && Consistent(s.board.value)
      && s.board.value.dimensions == LegacyPresetDimensions(s.settings.boardSize)
      && |s.board.value.mines| == LegacyMineCount(s.settings)
  }

  /**
   * What each action does: round management resets, the mode and sound switches set one field, the
   * tap keeps the promises of its handler, and the rest follow their definitions. The draws of a
   * reduction are counted from 0.
   */
  ghost predicate Reduced(state: LegacyState, action: LegacyAction, deps: Dependencies, next: LegacyState) {
    match action
    case StartNewRound => next == ResetRound(state)
    case SetDifficulty(difficulty) => next == ResetRound(state.(settings := state.settings.(difficulty := difficulty)))
    case SetBoardSize(boardSize) => next == ResetRound(state.(settings := state.settings.(boardSize := boardSize)))
    case SetPlayerMode(mode) => next == state.(playerMode := mode)
    case ToggleSound => next == state.(soundEnabled := !state.soundEnabled)
    case TapCell(coordinate) => TapOutcome(state, coordinate, deps, 0, next)
    case ToggleFlag(coordinate) => next == LegacyToggleFlag(state, coordinate)
    case TapFunnyBoomCell(coordinate) => next == LegacyTapFunnyBoomCell(state, coordinate)
    case TimerTick => next == TickSpec(state)
    case DismissVictoryPrompt => next == state.(pendingVictory := None)
    case ScoresLoaded(scores) => next == state.(scores := TopTen(scores))
  }

  /**
   * Across all actions: the explosion counter never goes down and only a tap can raise it, by one; a
   * board stays consistent with the settings; only the sound action changes the sound switch, which
   * it flips; and the player mode changes only by its own action or back to reveal on a reset.
   */
  lemma ReducedFacts(state: LegacyState, action: LegacyAction, deps: Dependencies, next: LegacyState)
    requires Reduced(state, action, deps, next)
    ensures state.explosionSequence <= next.explosionSequence <= state.explosionSequence + 1
    ensures !action.TapCell? ==> next.explosionSequence == state.explosionSequence
    ensures BoardMatchesSettings(state) ==> BoardMatchesSettings(next)
    ensures action.ToggleSound? <==> next.soundEnabled != state.soundEnabled
    ensures action.SetPlayerMode? ==> next == state.(playerMode := action.mode)
    ensures next.playerMode != state.playerMode ==>
              action.SetPlayerMode? || (next.playerMode == RevealMode && next.board.None? && next.phase == Idle)
  {
    match action
    case TapCell(coordinate) =>
      if TapOpens(state, coordinate) && state.board.None? {
        LegacyGenerateFacts(state.settings, coordinate, deps.draws, 0);
        assert IsValid(LegacyPresetDimensions(state.settings.boardSize), coordinate);
      }
    case _ =>
  }

  /** `reduce(state:action:environment:)`. */
  method Reduce(state: LegacyState, action: LegacyAction, deps: Dependencies) returns (next: LegacyState)
    ensures Reduced(state, action, deps, next)
  {
    next := state;
    match action {
    case StartNewRound =>
      next := ResetRound(next);
    case SetDifficulty(difficulty) =>
      next := next.(settings := next.settings.(difficulty := difficulty));
      next := ResetRound(next);
    case SetBoardSize(boardSize) =>
      next := next.(settings := next.settings.(boardSize := boardSize));
      next := ResetRound(next);
    case SetPlayerMode(mode) =>
      next := next.(playerMode := mode);
    case ToggleSound =>
      next := next.(soundEnabled := !next.soundEnabled);
    case TapCell(coordinate) =>
      var tapped, _ := LegacyTapCell(next, coordinate, deps, 0);
      next := tapped;
    case ToggleFlag(coordinate) =>
      next := LegacyToggleFlag(next, coordinate);
    case TapFunnyBoomCell(coordinate) =>
      next := LegacyTapFunnyBoomCell(next, coordinate);
    case TimerTick =>
      next := LegacyTick(next);
    case DismissVictoryPrompt =>
      next := next.(pendingVictory := None);
    case ScoresLoaded(scores) =>
      next := next.(scores := TopTen(scores));
    }
  }
}
