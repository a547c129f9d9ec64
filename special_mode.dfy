/**
 * The special-effect engine: the once-per-cell roll, bonus and malus, preparation notices, activation
 * of X-ray, Superhero and the Funny Boom clown hunt, and the forced debug mode
 * (FunnyBoom/Domain/Reducer/SpecialModeReducer.swift).
 */
module SpecialMode {
  import opened Prelude
  import opened Board
  import opened ScoreRules
  import opened GameModel

  /** The fields a special mode never touches are those of `b` and `a` alike. */
  predicate SameOutsideModes(a: GameState, b: GameState) {
    && a.settings == b.settings && a.board == b.board && a.phase == b.phase
    && a.elapsedSeconds == b.elapsedSeconds
    && a.revealedTiles == b.revealedTiles && a.flaggedTiles == b.flaggedTiles
    && a.neutralizedBombs == b.neutralizedBombs
    && a.pendingVictory == b.pendingVictory && a.scores == b.scores
    && a.explosionSequence == b.explosionSequence
  }

  // ---------------------------------------------------------------------------------------------
  // Notices and pulses

  /** `makeModeNotice(for:)`: a countdown of the preparation duration, full at the start. */
  function MakeModeNotice(style: Style): (notice: Notice)
    ensures notice.style == style
    ensures notice.totalSeconds == notice.secondsRemaining == SpecialModePreparationDuration
    ensures IsActivationCountdown(notice)
  {
    Notice(style, SpecialModePreparationDuration, SpecialModePreparationDuration)
  }

  /** Every pulse is stored under its own coordinate. */
  predicate PulsesKeyed(pulses: map<Coordinate, Pulse>) {
    forall c :: c in pulses ==> pulses[c].coordinate == c
  }

  /**
   * `enqueueTileScorePulse(state:coordinate:pointsDelta:)`: a fresh two-second pulse at the coordinate,
   * replacing any earlier pulse there and leaving every other pulse and field as it was.
   */
  method EnqueueTileScorePulse(state: GameState, coordinate: Coordinate, pointsDelta: int) returns (next: GameState)
    ensures next.tileScorePulses.Keys == state.tileScorePulses.Keys + {coordinate}
    ensures next.tileScorePulses[coordinate] == Pulse(coordinate, pointsDelta, TileScorePulseDuration)
    ensures forall c :: c in state.tileScorePulses && c != coordinate ==> next.tileScorePulses[c] == state.tileScorePulses[c]
    ensures PulsesKeyed(state.tileScorePulses) ==> PulsesKeyed(next.tileScorePulses)
    ensures next == state.(tileScorePulses := next.tileScorePulses)
  {
    next := state;
    next := next.(tileScorePulses := next.tileScorePulses[coordinate := Pulse(coordinate, pointsDelta, TileScorePulseDuration)]);
  }

  // ---------------------------------------------------------------------------------------------
  // The clown hunt

  /** `min(max(6, Int(Double(cells) * clownDensity)), cells)`, the product truncated. */
  function ClownCount(cells: int): (n: int)
    requires cells >= 0
    ensures n == Min(cells, Max(6, cells * ClownDensityPercent / 100))
    ensures cells >= 6 ==> 6 <= n <= cells
  {
    Min(Max(6, cells * ClownDensityPercent / 100), cells)
  }

  /** `makeFunnyBoomOverlay(board:dependencies:)`, and the cursor after its draws. */
  function FunnyBoomOverlaySpec(board: GameBoard, draws: nat -> int, cursor: nat): (Overlay, nat) {
    var d := board.dimensions;
    var drawn := Draw(RowMajor(d), ClownCount(CellCount(d)), draws, cursor, false);
    (Overlay(drawn.0, {}, {}, Active(FunnyBoomPlayDuration)), drawn.1)
  }

  /**
   * A new hunt has exactly min(max(6, ⌊0.18 · cells⌋), cells) clowns, all on the board, nothing
   * revealed yet, the full play time, and one `randomInt` call per clown.
   */
  lemma FunnyBoomOverlayFacts(board: GameBoard, draws: nat -> int, cursor: nat)
    ensures var (overlay, next) := FunnyBoomOverlaySpec(board, draws, cursor);
            && overlay.clownTiles <= AllCells(board.dimensions)
            && |overlay.clownTiles| == ClownCount(CellCount(board.dimensions))
            && overlay.revealedClowns == {} && overlay.revealedMisses == {}
            && overlay.phase == Active(FunnyBoomPlayDuration) && IsInteractive(overlay)
            && next == cursor + |overlay.clownTiles|
  {
    var d := board.dimensions;
    RowMajorFacts(d);
    DrawFacts(RowMajor(d), ClownCount(CellCount(d)), draws, cursor, false);
    AllCellsSubset(d, FunnyBoomOverlaySpec(board, draws, cursor).0.clownTiles);
  }

  /** `makeFunnyBoomOverlay`: the candidate list is every cell in row-major order, drawn from without replacement. */
  method MakeFunnyBoomOverlay(board: GameBoard, draws: nat -> int, cursor: nat) returns (overlay: Overlay, next: nat)
    ensures (overlay, next) == FunnyBoomOverlaySpec(board, draws, cursor)
  {
    var d := board.dimensions;
    var candidates := AllCoordinates(d);
    var clownCount := Min(Max(6, CellCount(d) * ClownDensityPercent / 100), |candidates|);
    var clowns;
    clowns, next := DrawWithoutReplacement(candidates, clownCount, draws, cursor, false);
    overlay := Overlay(clowns, {}, {}, Active(FunnyBoomPlayDuration));
  }

  // ---------------------------------------------------------------------------------------------
  // Activation

  /**
   * `activatePreparedSpecialModeIfNeeded(state:style:dependencies:)`: X-ray and Superhero start their
   * eight-second power, Funny Boom starts a hunt when there is a board; the notice is cleared either way.
   */
  function ActivatePreparedSpecialMode(state: GameState, style: Style, draws: nat -> int, cursor: nat): (r: (GameState, nat))
    ensures SameOutsideModes(r.0, state)
    ensures r.0.specialModeNotice.None?
    ensures r.0.points == state.points && r.0.bonusPoints == state.bonusPoints
    ensures r.0.specialRollTiles == state.specialRollTiles && r.0.tileScorePulses == state.tileScorePulses
    ensures style == XrayStyle ==>
              r.0.activePower == Some(XrayPower(XrayActiveDuration)) && r.0.funnyBoomOverlay == state.funnyBoomOverlay && r.1 == cursor
    ensures style == SuperheroStyle ==>
              r.0.activePower == Some(SuperheroPower(SuperheroActiveDuration)) && r.0.funnyBoomOverlay == state.funnyBoomOverlay && r.1 == cursor
    ensures style == FunnyBoomStyle ==> r.0.activePower == state.activePower
    ensures style == FunnyBoomStyle && state.board.None? ==> r.0.funnyBoomOverlay == state.funnyBoomOverlay && r.1 == cursor
    ensures style == FunnyBoomStyle && state.board.Some? ==>
              (r.0.funnyBoomOverlay, r.1) == (Some(FunnyBoomOverlaySpec(state.board.value, draws, cursor).0), FunnyBoomOverlaySpec(state.board.value, draws, cursor).1)
  {
    match style
    case XrayStyle =>
      (state.(activePower := Some(XrayPower(XrayActiveDuration)), specialModeNotice := None), cursor)
    case SuperheroStyle =>
      (state.(activePower := Some(SuperheroPower(SuperheroActiveDuration)), specialModeNotice := None), cursor)
    case FunnyBoomStyle =>
      match state.board
      case None => (state.(specialModeNotice := None), cursor)
      case Some(board) =>
        var drawn := FunnyBoomOverlaySpec(board, draws, cursor);
        (state.(funnyBoomOverlay := Some(drawn.0), specialModeNotice := None), drawn.1)
  }

  /** `skipSpecialModeCountdown(state:dependencies:)`: without a notice nothing happens; with one, its mode starts now. */
  function SkipSpecialModeCountdown(state: GameState, draws: nat -> int, cursor: nat): (r: (GameState, nat))
    ensures state.specialModeNotice.None? ==> r == (state, cursor)
    ensures state.specialModeNotice.Some? ==>
              r == ActivatePreparedSpecialMode(state, state.specialModeNotice.value.style, draws, cursor)
    ensures r.0.specialModeNotice.None?
  {
    match state.specialModeNotice
    case None => (state, cursor)
    case Some(notice) =>
      if IsActivationCountdown(notice) then ActivatePreparedSpecialMode(state, notice.style, draws, cursor)
      else (state, cursor)
  }

  // ---------------------------------------------------------------------------------------------
  // Forced mode

  /** The centre cell a forced mode generates the board around. */
  function BoardCentre(d: Dimensions): (c: Coordinate)
    ensures IsValid(d, c)
  {
    Coordinate(d.rows / 2, d.columns / 2)
  }

  /**
   * `ensureBoardForForcedSpecialMode(state:dependencies:)`: a missing board is generated around the
   * centre of the preset, and an idle round starts running.
   */
  function EnsureBoardForForcedSpecialMode(state: GameState, draws: nat -> int, cursor: nat): (r: (GameState, nat))
    ensures r.0.board.Some?
    ensures state.board.Some? ==> r.0.board == state.board && r.1 == cursor
    ensures state.board.None? ==>
              (r.0.board.value, r.1) == GenerateSpec(state.settings, BoardCentre(PresetDimensions(state.settings.boardSize)), draws, cursor)
    ensures r.0.phase == if state.phase == Idle then Running else state.phase
    ensures r.0 == state.(board := r.0.board, phase := r.0.phase)
  {
    var withBoard :=
      if state.board.None? then
        var generated := GenerateSpec(state.settings, BoardCentre(PresetDimensions(state.settings.boardSize)), draws, cursor);
        (state.(board := Some(generated.0)), generated.1)
      else (state, cursor);
    if withBoard.0.phase == Idle then (withBoard.0.(phase := Running), withBoard.1) else withBoard
  }

  /**
   * `forceSpecialMode(state:style:dependencies:)`: only in an idle or running round; afterwards any
   * power or hunt is gone, a board exists, the round runs and a fresh notice for the style counts down.
   */
  function ForceSpecialMode(state: GameState, style: Style, draws: nat -> int, cursor: nat): (r: (GameState, nat))
    ensures !(state.phase == Idle || state.phase == Running) ==> r == (state, cursor)
    ensures state.phase == Idle || state.phase == Running ==>
              && r.0.board.Some? && r.0.phase == Running
              && r.0.activePower.None? && r.0.funnyBoomOverlay.None?
              && r.0.specialModeNotice == Some(MakeModeNotice(style))
              && (state.board.Some? ==> r.0.board == state.board && r.1 == cursor)
              && (state.board.None? ==>
                    (r.0.board.value, r.1) == GenerateSpec(state.settings, BoardCentre(PresetDimensions(state.settings.boardSize)), draws, cursor))
              && r.0 == state.(board := r.0.board, phase := Running, activePower := None, funnyBoomOverlay := None,
                               specialModeNotice := Some(MakeModeNotice(style)))
  {
    if !(state.phase == Idle || state.phase == Running) then (state, cursor)
    else
      var cleared := state.(activePower := None, funnyBoomOverlay := None, specialModeNotice := None);
      var ensured := EnsureBoardForForcedSpecialMode(cleared, draws, cursor);
      (ensured.0.(specialModeNotice := Some(MakeModeNotice(style))), ensured.1)
  }

  /** A board a forced mode generates is consistent and keeps the centre free of mines. */
  lemma ForcedBoardFacts(state: GameState, style: Style, draws: nat -> int, cursor: nat)
    requires (state.phase == Idle || state.phase == Running) && state.board.None?
    ensures var board := ForceSpecialMode(state, style, draws, cursor).0.board.value;
            && Consistent(board)
            && board.dimensions == PresetDimensions(state.settings.boardSize)
            && BoardCentre(board.dimensions) !in board.mines
            && |board.mines| == MineCount(state.settings)
  {
    GenerateFacts(state.settings, BoardCentre(PresetDimensions(state.settings.boardSize)), draws, cursor);
  }

  // ---------------------------------------------------------------------------------------------
  // The roll

  /** The roll is considered only for a tapped cell just revealed, with no adjacent mine, never rolled before. */
  predicate RollGate(state: GameState, board: GameBoard, tapped: Coordinate, newlyRevealed: set<Coordinate>) {
    tapped in newlyRevealed && AdjacentMineCount(board, tapped) == 0 && tapped !in state.specialRollTiles
  }

  /** The effect a successful roll applies: `allCases[max(0, min(4, randomInt(5)))]`. */
  function RolledEffect(raw: int): (effect: SpecialEffect)
    ensures 0 <= raw < |AllEffects| ==> effect == AllEffects[raw]
    ensures raw <= 0 ==> effect == Bonus
    ensures raw >= |AllEffects| - 1 ==> effect == FunnyBoom
  {
    AllEffects[ClampIndex(raw, |AllEffects|)]
  }

  /** The notice style of the three effects that prepare a mode. */
  function EffectStyle(effect: SpecialEffect): Style
    requires effect in {Xray, Superhero, FunnyBoom}
  {
    match effect
    case Xray => XrayStyle
    case Superhero => SuperheroStyle
    case FunnyBoom => FunnyBoomStyle
  }

  /**
   * `maybeApplySpecialEffect(state:board:tappedCoordinate:newlyRevealed:dependencies:)`. Past the
   * gate the cell is marked as rolled whatever the roll says; a successful roll clears the current
   * mode, announces itself with one sound and applies the drawn effect: ±10 points with a pulse at
   * the cell, or a fresh notice for a mode (which activates later).
   */
  method MaybeApplySpecialEffect(state: GameState, board: GameBoard, tapped: Coordinate, newlyRevealed: set<Coordinate>,
                                 deps: Dependencies, cursor: nat)
    returns (next: GameState, events: seq<Event>, nextCursor: nat)
    ensures !RollGate(state, board, tapped, newlyRevealed) ==> next == state && events == [] && nextCursor == cursor
    // Whatever happens, the board, the reveals, the flags and the tile points are untouched.
    ensures SameOutsideModes(next, state) && next.points - next.bonusPoints == state.points - state.bonusPoints
    ensures events == [] || events == [PlaySound(SpecialSquareDiscovered)]
    ensures RollGate(state, board, tapped, newlyRevealed) && !deps.specialRoll ==>
              next == state.(specialRollTiles := state.specialRollTiles + {tapped}) && events == [] && nextCursor == cursor
    ensures RollGate(state, board, tapped, newlyRevealed) && deps.specialRoll ==>
              var effect := RolledEffect(deps.draws(cursor));
              && events == [PlaySound(SpecialSquareDiscovered)]
              && nextCursor == cursor + 1
              && SameOutsideModes(next, state)
              && next.specialRollTiles == state.specialRollTiles + {tapped}
              && next.activePower.None? && next.funnyBoomOverlay.None?
              && (effect == Bonus ==>
                    && next.points == state.points + EventPoints && next.bonusPoints == state.bonusPoints + EventPoints
                    && next.tileScorePulses == state.tileScorePulses[tapped := Pulse(tapped, EventPoints, TileScorePulseDuration)]
                    && next.specialModeNotice.None?)
              && (effect == Malus ==>
                    && next.points == state.points - EventPoints && next.bonusPoints == state.bonusPoints - EventPoints
                    && next.tileScorePulses == state.tileScorePulses[tapped := Pulse(tapped, -EventPoints, TileScorePulseDuration)]
                    && next.specialModeNotice.None?)
              && (effect in {Xray, Superhero, FunnyBoom} ==>
                    && next.points == state.points && next.bonusPoints == state.bonusPoints
                    && next.tileScorePulses == state.tileScorePulses
                    && next.specialModeNotice == Some(MakeModeNotice(EffectStyle(effect))))
  {
    next, events, nextCursor := state, [], cursor;
    if tapped !in newlyRevealed {
      return;
    }
    if AdjacentMineCount(board, tapped) != 0 {
      return;
    }
    if tapped in next.specialRollTiles {
      return;
    }
    next := next.(specialRollTiles := next.specialRollTiles + {tapped});
    if !deps.specialRoll {
      return;
    }
    events := [PlaySound(SpecialSquareDiscovered)];
    next := next.(activePower := None, funnyBoomOverlay := None, specialModeNotice := None);
    var index := ClampIndex(deps.draws(nextCursor), |AllEffects|);
    nextCursor := nextCursor + 1;
    match AllEffects[index]
    case Bonus =>
      next := next.(points := next.points + EventPoints, bonusPoints := next.bonusPoints + EventPoints);
      next := EnqueueTileScorePulse(next, tapped, EventPoints);
    case Malus =>
      next := next.(points := next.points - EventPoints, bonusPoints := next.bonusPoints - EventPoints);
      next := EnqueueTileScorePulse(next, tapped, -EventPoints);
    case Xray =>
      next := next.(specialModeNotice := Some(MakeModeNotice(XrayStyle)));
    case Superhero =>
      next := next.(specialModeNotice := Some(MakeModeNotice(SuperheroStyle)));
    case FunnyBoom =>
      next := next.(specialModeNotice := Some(MakeModeNotice(FunnyBoomStyle)));
  }
}
