/** The action dispatcher and the round reset (FunnyBoom/Domain/Reducer/GameReducer.swift). */
module GameReducer {
  import opened Prelude
  import opened Board
  import opened GameModel
  import SpecialMode
  import CellInteraction
  import Tick

  /**
   * `resetRound(from:)`: a fresh round with the same settings, the same leaderboard and the same
   * explosion counter, and every other field at the value a new game starts with.
   */
  function ResetRound(state: GameState): (r: GameState)
    ensures r.settings == state.settings && r.scores == state.scores && r.explosionSequence == state.explosionSequence
    ensures r.board.None? && r.phase == Idle && r.elapsedSeconds == 0 && r.points == 0 && r.bonusPoints == 0
    ensures r.revealedTiles == {} && r.flaggedTiles == {} && r.neutralizedBombs == {} && r.specialRollTiles == {}
    ensures r.activePower.None? && r.funnyBoomOverlay.None? && r.specialModeNotice.None?
    ensures r.tileScorePulses == map[] && r.pendingVictory.None?
    ensures r == InitialState(state.settings, state.scores, state.explosionSequence)
  {
    GameState(state.settings, None, Idle, 0, 0, 0, {}, {}, {}, {}, None, None, None, map[], None,
              state.scores, state.explosionSequence)
  }

  /** Resetting a reset round changes nothing. */
  lemma ResetRoundIdempotent(state: GameState)
    ensures ResetRound(ResetRound(state)) == ResetRound(state)
  {
  }

  /** Two states reset to the same round exactly when they agree on settings, leaderboard and explosion counter. */
  lemma ResetRoundForgetsTheRound(a: GameState, b: GameState)
    ensures ResetRound(a) == ResetRound(b) <==>
              a.settings == b.settings && a.scores == b.scores && a.explosionSequence == b.explosionSequence
  {
    if ResetRound(a) == ResetRound(b) {
      assert ResetRound(a).settings == ResetRound(b).settings;
    }
  }

  /**
   * A board, once there is one, is a consistent board of the preset's shape with the settings' mine
   * count: every path that generates one does so from the current settings, and every path that
   * changes the settings drops the board.
   */
  ghost predicate BoardMatchesSettings(s: GameState) {
    s.board.Some? ==>
      && Consistent(s.board.value)
      && s.board.value.dimensions == PresetDimensions(s.settings.boardSize)
      && |s.board.value.mines| == MineCount(s.settings)
  }

  /** The actions that can return events. */
  predicate MayEmit(action: Action) {
    action.TapCell? || action.ToggleFlag? || action.TimerTick?
  }

  /**
   * What each action does: round management resets, the special-mode and tick actions follow their
   * definitions with the reduction's draws counted from 0, the board actions keep the promises of
   * their handlers, and the prompt and the leaderboard are set directly.
   */
  ghost predicate Reduced(state: GameState, action: Action, deps: Dependencies, t: Transition) {
    match action
    case StartNewRound => t == Transition(ResetRound(state), [])
    case SetDifficulty(difficulty) =>
      t == Transition(ResetRound(state.(settings := state.settings.(difficulty := difficulty))), [])
    case SetBoardSize(boardSize) =>
      t == Transition(ResetRound(state.(settings := state.settings.(boardSize := boardSize))), [])
    case ForceSpecialMode(style) => t == Transition(SpecialMode.ForceSpecialMode(state, style, deps.draws, 0).0, [])
    case TapCell(coordinate) => CellInteraction.TapOutcome(state, coordinate, deps, 0, t)
    case ToggleFlag(coordinate) =>
      && (CellInteraction.FlagIgnored(state, coordinate) ==> t == Transition(state, []))
      && (!CellInteraction.FlagIgnored(state, coordinate) ==>
            && t.state == state.(flaggedTiles := CellInteraction.Toggled(state.flaggedTiles, coordinate))
            && t.events == (if coordinate in state.flaggedTiles then [] else [PlaySound(FlagPlaced)]))
    case TapFunnyBoomCell(coordinate) =>
      && t.events == []
      && (!CellInteraction.HuntOpen(state) ==> t.state == state)
      && t.state == state.(points := t.state.points, bonusPoints := t.state.bonusPoints,
                           tileScorePulses := t.state.tileScorePulses, funnyBoomOverlay := t.state.funnyBoomOverlay)
    case SkipSpecialModeCountdown => t == Transition(SpecialMode.SkipSpecialModeCountdown(state, deps.draws, 0).0, [])
    case TimerTick => t == Tick.TickSpec(state, deps.draws, 0).0
    case DismissVictoryPrompt => t == Transition(state.(pendingVictory := None), [])
    case ScoresLoaded(scores) => t == Transition(state.(scores := TopTen(scores)), [])
  }

  /**
   * Across all actions: only a tap, a flag toggle and a tick return events; the explosion counter
   * never goes down and only a tap can raise it, by one; a board stays consistent with the settings;
   * and a difficulty or size change sets that one setting and keeps the other.
   */
  lemma ReducedFacts(state: GameState, action: Action, deps: Dependencies, t: Transition)
    requires Reduced(state, action, deps, t)
    ensures !MayEmit(action) ==> t.events == []
    ensures state.explosionSequence <= t.state.explosionSequence <= state.explosionSequence + 1
    ensures !action.TapCell? ==> t.state.explosionSequence == state.explosionSequence
    ensures BoardMatchesSettings(state) ==> BoardMatchesSettings(t.state)
    ensures action.SetDifficulty? ==>
              t.state.settings == state.settings.(difficulty := action.difficulty) && t.state.phase == Idle
    ensures action.SetBoardSize? ==>
              t.state.settings == state.settings.(boardSize := action.boardSize) && t.state.phase == Idle
  {
    match action
    case ForceSpecialMode(style) =>
      if (state.phase == Idle || state.phase == Running) && state.board.None? {
        SpecialMode.ForcedBoardFacts(state, style, deps.draws, 0);
      }
    case TapCell(coordinate) =>
      if !CellInteraction.TapIgnored(state, coordinate) && state.board.None? {
        GenerateFacts(state.settings, coordinate, deps.draws, 0);
      }
    case TimerTick =>
      Tick.TickFacts(state, deps.draws, 0);
    case _ =>
  }

  /** The tap branch of `reduce`: the handler's transition, whose events become the reduction's. */
  method ReduceTap(state: GameState, coordinate: Coordinate, deps: Dependencies) returns (t: Transition)
    ensures Reduced(state, TapCell(coordinate), deps, t)
  {
    var transition, _ := CellInteraction.TapCell(state, coordinate, deps, 0);
    t := transition;
  }

  /** The tick branch of `reduce`. */
  method ReduceTick(state: GameState, deps: Dependencies) returns (t: Transition)
    ensures Reduced(state, TimerTick, deps, t)
  {
    var transition, _ := Tick.TickStep(state, deps, 0);
    t := transition;
  }

  /**
   * `reduce(state:action:dependencies:)`. Each reduction gets its own draws, counted from 0, so the
   * cursor the handlers thread through ends with the reduction.
   */
  method Reduce(state: GameState, action: Action, deps: Dependencies) returns (t: Transition)
    ensures Reduced(state, action, deps, t)
  {
    var next := state;
    match action {
    case StartNewRound =>
      next := ResetRound(next);
    case SetDifficulty(difficulty) =>
      next := next.(settings := next.settings.(difficulty := difficulty));
      next := ResetRound(next);
    case SetBoardSize(boardSize) =>
      next := next.(settings := next.settings.(boardSize := boardSize));
      next := ResetRound(next);
    case ForceSpecialMode(style) =>
      next := SpecialMode.ForceSpecialMode(next, style, deps.draws, 0).0;
    case TapCell(coordinate) =>
      t := ReduceTap(next, coordinate, deps);
      return;
    case ToggleFlag(coordinate) =>
      t := CellInteraction.ToggleFlag(next, coordinate);
      return;
    case TapFunnyBoomCell(coordinate) =>
      next := CellInteraction.TapFunnyBoomCell(next, coordinate);
    case SkipSpecialModeCountdown =>
      next := SpecialMode.SkipSpecialModeCountdown(next, deps.draws, 0).0;
    case TimerTick =>
      t := ReduceTick(next, deps);
      return;
    case DismissVictoryPrompt =>
      next := next.(pendingVictory := None);
    case ScoresLoaded(scores) =>
      next := next.(scores := TopTen(scores));
    }
    t := Transition(next, []);
  }
}
