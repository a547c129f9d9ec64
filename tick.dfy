/** The once-a-second countdowns (FunnyBoom/Domain/Reducer/TickReducer.swift). */
module Tick {
  import opened Prelude
  import opened Board
  import opened ScoreRules
  import opened GameModel
  import opened SpecialMode

  /** `isFinalThreeSecondCountdown(previousSeconds:currentSeconds:)`. */
  predicate IsFinalThreeSecondCountdown(previousSeconds: int, currentSeconds: int) {
    currentSeconds < previousSeconds && currentSeconds <= 3 && currentSeconds > 0
  }

  /** A one-second step beeps exactly when it lands on 3, 2 or 1. */
  lemma StepBeepsOnFinalThree(seconds: int)
    ensures IsFinalThreeSecondCountdown(seconds, seconds - 1) <==> 2 <= seconds <= 4
  {
  }

  // ---------------------------------------------------------------------------------------------
  // One second off each countdown

  /** A power with one second or less left ends; any other keeps its kind and loses a second. */
  function PowerAfterTick(power: ActivePower): (r: Option<ActivePower>)
    ensures power.secondsRemaining <= 1 <==> r.None?
    ensures r.Some? ==> r.value.secondsRemaining == power.secondsRemaining - 1
    ensures r.Some? ==> (r.value.XrayPower? <==> power.XrayPower?)
  {
    match power
    case XrayPower(seconds) => if seconds <= 1 then None else Some(XrayPower(seconds - 1))
    case SuperheroPower(seconds) => if seconds <= 1 then None else Some(SuperheroPower(seconds - 1))
  }

  /**
   * A briefing with one second or less left opens the eight-second hunt, otherwise loses a second;
   * a hunt with one second or less left ends, otherwise loses a second. The clowns and what has been
   * found stay as they are.
   */
  function OverlayAfterTick(overlay: Overlay): (r: Option<Overlay>)
    ensures overlay.phase.Briefing? ==> r.Some?
    ensures overlay.phase.Briefing? && overlay.phase.secondsRemaining <= 1 ==> r.value.phase == Active(FunnyBoomPlayDuration)
    ensures overlay.phase.Briefing? && overlay.phase.secondsRemaining > 1 ==> r.value.phase == Briefing(overlay.phase.secondsRemaining - 1)
    ensures overlay.phase.Active? ==> (r.None? <==> overlay.phase.secondsRemaining <= 1)
    ensures overlay.phase.Active? && r.Some? ==> r.value.phase == Active(overlay.phase.secondsRemaining - 1)
    ensures r.Some? ==> r.value == overlay.(phase := r.value.phase)
  {
    match overlay.phase
    case Briefing(seconds) =>
      if seconds <= 1 then Some(overlay.(phase := Active(FunnyBoomPlayDuration)))
      else Some(overlay.(phase := Briefing(seconds - 1)))
    case Active(seconds) =>
      if seconds <= 1 then None else Some(overlay.(phase := Active(seconds - 1)))
  }

  /** A power that steps into its last three seconds. */
  predicate PowerBeeps(power: Option<ActivePower>) {
    power.Some? && power.value.secondsRemaining > 1
    && IsFinalThreeSecondCountdown(power.value.secondsRemaining, power.value.secondsRemaining - 1)
  }

  /** A running hunt that steps into its last three seconds; a briefing never beeps. */
  predicate HuntBeeps(overlay: Option<Overlay>) {
    overlay.Some? && overlay.value.phase.Active? && overlay.value.phase.secondsRemaining > 1
    && IsFinalThreeSecondCountdown(overlay.value.phase.secondsRemaining, overlay.value.phase.secondsRemaining - 1)
  }

  /** The tick's single beep. */
  predicate TickBeeps(state: GameState) {
    PowerBeeps(state.activePower) || HuntBeeps(state.funnyBoomOverlay)
  }

  /** Every pulse loses a second and those left with none are dropped. */
  function PulsesAfterTick(pulses: map<Coordinate, Pulse>): map<Coordinate, Pulse> {
    map c | c in pulses && pulses[c].secondsRemaining - 1 > 0 :: pulses[c].(secondsRemaining := pulses[c].secondsRemaining - 1)
  }

  /** A pulse outlives the tick exactly when it had more than one second, and it keeps its cell and points. */
  lemma PulsesAfterTickFacts(pulses: map<Coordinate, Pulse>)
    ensures forall c :: c in PulsesAfterTick(pulses) <==> c in pulses && pulses[c].secondsRemaining > 1
    ensures forall c :: c in PulsesAfterTick(pulses) ==>
              && PulsesAfterTick(pulses)[c].secondsRemaining == pulses[c].secondsRemaining - 1
              && PulsesAfterTick(pulses)[c].coordinate == pulses[c].coordinate
              && PulsesAfterTick(pulses)[c].pointsDelta == pulses[c].pointsDelta
    ensures PulsesKeyed(pulses) ==> PulsesKeyed(PulsesAfterTick(pulses))
  {
  }

  /** A fresh two-second pulse shows for one tick and is gone after the second. */
  lemma FreshPulseLastsTwoTicks(pulses: map<Coordinate, Pulse>, c: Coordinate)
    requires c in pulses && pulses[c].secondsRemaining == TileScorePulseDuration
    ensures c in PulsesAfterTick(pulses)
    ensures c !in PulsesAfterTick(PulsesAfterTick(pulses))
  {
    PulsesAfterTickFacts(pulses);
    PulsesAfterTickFacts(PulsesAfterTick(pulses));
  }

  /** The pulse loop: rebuild the dictionary from every pulse, one second older, dropping the spent ones. */
  method RefreshPulses(pulses: map<Coordinate, Pulse>) returns (refreshed: map<Coordinate, Pulse>)
    ensures refreshed == PulsesAfterTick(pulses)
  {
    refreshed := map[];
    var pending := pulses.Keys;
    while pending != {}
      invariant pending <= pulses.Keys
      invariant refreshed == map c | c in pulses && c !in pending && pulses[c].secondsRemaining - 1 > 0 ::
                               pulses[c].(secondsRemaining := pulses[c].secondsRemaining - 1)
      decreases |pending|
    {
      var coordinate :| coordinate in pending;
      var nextPulse := pulses[coordinate];
      nextPulse := nextPulse.(secondsRemaining := nextPulse.secondsRemaining - 1);
      if nextPulse.secondsRemaining > 0 {
        refreshed := refreshed[coordinate := nextPulse];
      }
      pending := pending - {coordinate};
    }
  }

  // ---------------------------------------------------------------------------------------------
  // The tick

  /** The preparation notice ticks down; at zero its mode starts (which clears the notice). */
  function NoticeAfterTick(state: GameState, draws: nat -> int, cursor: nat): (GameState, nat) {
    match state.specialModeNotice
    case None => (state, cursor)
    case Some(notice) =>
      if notice.secondsRemaining - 1 <= 0 then ActivatePreparedSpecialMode(state, notice.style, draws, cursor)
      else (state.(specialModeNotice := Some(notice.(secondsRemaining := notice.secondsRemaining - 1))), cursor)
  }

  /** The countdown steps in the source's order: time, power, hunt, then notice, then pulses. */
  function TickSpec(state: GameState, draws: nat -> int, cursor: nat): (Transition, nat) {
    if state.phase != Running then (Transition(state, []), cursor)
    else
      var counted := state.(
        elapsedSeconds := state.elapsedSeconds + 1,
        activePower := if state.activePower.Some? then PowerAfterTick(state.activePower.value) else None,
        funnyBoomOverlay := if state.funnyBoomOverlay.Some? then OverlayAfterTick(state.funnyBoomOverlay.value) else None);
      var noticed := NoticeAfterTick(counted, draws, cursor);
      (Transition(noticed.0.(tileScorePulses := PulsesAfterTick(noticed.0.tileScorePulses)),
                  if TickBeeps(state) then [PlaySound(CountdownBeep)] else []),
       noticed.1)
  }

  /** The power step of `tick`, reporting whether it beeps. */
  method TickPower(state: GameState) returns (next: GameState, beep: bool)
    ensures next == state.(activePower := if state.activePower.Some? then PowerAfterTick(state.activePower.value) else None)
    ensures beep == PowerBeeps(state.activePower)
  {
    next, beep := state, false;
    if next.activePower.Some? {
      match next.activePower.value
      case XrayPower(secondsRemaining) =>
        if secondsRemaining <= 1 {
          next := next.(activePower := None);
        } else {
          var updatedSeconds := secondsRemaining - 1;
          next := next.(activePower := Some(XrayPower(updatedSeconds)));
          beep := beep || IsFinalThreeSecondCountdown(secondsRemaining, updatedSeconds);
        }
      case SuperheroPower(secondsRemaining) =>
        if secondsRemaining <= 1 {
          next := next.(activePower := None);
        } else {
          var updatedSeconds := secondsRemaining - 1;
          next := next.(activePower := Some(SuperheroPower(updatedSeconds)));
          beep := beep || IsFinalThreeSecondCountdown(secondsRemaining, updatedSeconds);
        }
    }
  }

  /** The hunt step of `tick`, reporting whether it beeps. */
  method TickOverlay(state: GameState) returns (next: GameState, beep: bool)
    ensures next == state.(funnyBoomOverlay := if state.funnyBoomOverlay.Some? then OverlayAfterTick(state.funnyBoomOverlay.value) else None)
    ensures beep == HuntBeeps(state.funnyBoomOverlay)
  {
    next, beep := state, false;
    if next.funnyBoomOverlay.Some? {
      var overlay := next.funnyBoomOverlay.value;
      match overlay.phase
      case Briefing(secondsRemaining) =>
        if secondsRemaining <= 1 {
          overlay := overlay.(phase := Active(FunnyBoomPlayDuration));
        } else {
          overlay := overlay.(phase := Briefing(secondsRemaining - 1));
        }
        next := next.(funnyBoomOverlay := Some(overlay));
      case Active(secondsRemaining) =>
        if secondsRemaining <= 1 {
          next := next.(funnyBoomOverlay := None);
        } else {
          var updatedSeconds := secondsRemaining - 1;
          overlay := overlay.(phase := Active(updatedSeconds));
          next := next.(funnyBoomOverlay := Some(overlay));
          beep := beep || IsFinalThreeSecondCountdown(secondsRemaining, updatedSeconds);
        }
    }
  }

  /** The notice step of `tick`. */
  method TickNotice(state: GameState, deps: Dependencies, cursor: nat) returns (next: GameState, nextCursor: nat)
    ensures (next, nextCursor) == NoticeAfterTick(state, deps.draws, cursor)
  {
    next, nextCursor := state, cursor;
    if next.specialModeNotice.Some? {
      var notice := next.specialModeNotice.value;
      notice := notice.(secondsRemaining := notice.secondsRemaining - 1);
      if notice.secondsRemaining <= 0 {
        var activated := ActivatePreparedSpecialMode(next, notice.style, deps.draws, nextCursor);
        next, nextCursor := activated.0, activated.1;
      } else {
        next := next.(specialModeNotice := Some(notice));
      }
    }
  }

  /** `tick(state:dependencies:)`, step by step. */
  method TickStep(state: GameState, deps: Dependencies, cursor: nat) returns (t: Transition, nextCursor: nat)
    ensures (t, nextCursor) == TickSpec(state, deps.draws, cursor)
  {
    if state.phase != Running {
      return Transition(state, []), cursor;
    }
    var next := state;
    var events: seq<Event> := [];
    next := next.(elapsedSeconds := next.elapsedSeconds + 1);
    var powerBeep, huntBeep;
    next, powerBeep := TickPower(next);
    next, huntBeep := TickOverlay(next);
    var shouldPlayCountdownBeep := powerBeep || huntBeep;
    assert shouldPlayCountdownBeep == TickBeeps(state);
    ghost var counted := state.(
      elapsedSeconds := state.elapsedSeconds + 1,
      activePower := if state.activePower.Some? then PowerAfterTick(state.activePower.value) else None,
      funnyBoomOverlay := if state.funnyBoomOverlay.Some? then OverlayAfterTick(state.funnyBoomOverlay.value) else None);
    assert next == counted;
    next, nextCursor := TickNotice(next, deps, cursor);
    assert (next, nextCursor) == NoticeAfterTick(counted, deps.draws, cursor);
    if next.tileScorePulses != map[] {
      var refreshed := RefreshPulses(next.tileScorePulses);
      next := next.(tileScorePulses := refreshed);
    } else {
      assert PulsesAfterTick(next.tileScorePulses) == map[];
    }
    if shouldPlayCountdownBeep {
      events := events + [PlaySound(CountdownBeep)];
    }
    assert next.tileScorePulses == PulsesAfterTick(NoticeAfterTick(counted, deps.draws, cursor).0.tileScorePulses);
    assert events == if TickBeeps(state) then [PlaySound(CountdownBeep)] else [];
    t := Transition(next, events);
  }

  // ---------------------------------------------------------------------------------------------
  // What a tick does

  /** A notice that runs out on this tick. */
  predicate NoticeExpires(state: GameState) {
    state.specialModeNotice.Some? && state.specialModeNotice.value.secondsRemaining <= 1
  }

  /**
   * Outside a running round a tick does nothing; in one, the clock gains a second, the beep sounds
   * at most once and only for a power or a running hunt stepping into 3, 2 or 1, and nothing the
   * countdowns do not own changes.
   */
  lemma TickFacts(state: GameState, draws: nat -> int, cursor: nat)
    ensures var (t, next) := TickSpec(state, draws, cursor);
            && (state.phase != Running ==> t == Transition(state, []) && next == cursor)
            && (state.phase == Running ==>
                  && t.state.elapsedSeconds == state.elapsedSeconds + 1
                  && SameOutsideModes(t.state, state.(elapsedSeconds := state.elapsedSeconds + 1))
                  && t.state.points == state.points && t.state.bonusPoints == state.bonusPoints
                  && t.state.specialRollTiles == state.specialRollTiles
                  && |t.events| <= 1
                  && (t.events != [] <==>
                        || (state.activePower.Some? && 2 <= state.activePower.value.secondsRemaining <= 4)
                        || (state.funnyBoomOverlay.Some? && state.funnyBoomOverlay.value.phase.Active?
                            && 2 <= state.funnyBoomOverlay.value.phase.secondsRemaining <= 4))
                  && (t.events != [] ==> t.events == [PlaySound(CountdownBeep)])
                  && cursor <= next)
  {
    if state.phase == Running {
      TickStateFacts(state, draws, cursor);
      TickBeepFacts(state, draws, cursor);
    }
  }

  /** In a running round the tick's state: one more second, and nothing outside the countdowns moves. */
  lemma TickStateFacts(state: GameState, draws: nat -> int, cursor: nat)
    requires state.phase == Running
    ensures var (t, next) := TickSpec(state, draws, cursor);
            && t.state.elapsedSeconds == state.elapsedSeconds + 1
            && SameOutsideModes(t.state, state.(elapsedSeconds := state.elapsedSeconds + 1))
            && t.state.points == state.points && t.state.bonusPoints == state.bonusPoints
            && t.state.specialRollTiles == state.specialRollTiles
            && cursor <= next
  {
    var counted := state.(
      elapsedSeconds := state.elapsedSeconds + 1,
      activePower := if state.activePower.Some? then PowerAfterTick(state.activePower.value) else None,
      funnyBoomOverlay := if state.funnyBoomOverlay.Some? then OverlayAfterTick(state.funnyBoomOverlay.value) else None);
    if counted.specialModeNotice.Some? && counted.specialModeNotice.value.secondsRemaining - 1 <= 0 && counted.board.Some? {
      FunnyBoomOverlayFacts(counted.board.value, draws, cursor);
    }
  }

  /** In a running round the tick's events: at most the one beep, exactly when a power or a running hunt reaches 3, 2 or 1. */
  lemma TickBeepFacts(state: GameState, draws: nat -> int, cursor: nat)
    requires state.phase == Running
    ensures var t := TickSpec(state, draws, cursor).0;
            && |t.events| <= 1
            && (t.events != [] <==>
                  || (state.activePower.Some? && 2 <= state.activePower.value.secondsRemaining <= 4)
                  || (state.funnyBoomOverlay.Some? && state.funnyBoomOverlay.value.phase.Active?
                      && 2 <= state.funnyBoomOverlay.value.phase.secondsRemaining <= 4))
            && (t.events != [] ==> t.events == [PlaySound(CountdownBeep)])
  {
    assert TickSpec(state, draws, cursor).0.events == if TickBeeps(state) then [PlaySound(CountdownBeep)] else [];
    if state.activePower.Some? {
      StepBeepsOnFinalThree(state.activePower.value.secondsRemaining);
    }
    if state.funnyBoomOverlay.Some? {
      StepBeepsOnFinalThree(state.funnyBoomOverlay.value.phase.secondsRemaining);
    }
  }

  /**
   * Without an expiring notice the power and the hunt take exactly one step and the notice loses a
   * second; the pulses age in every case.
   */
  lemma TickCountdowns(state: GameState, draws: nat -> int, cursor: nat)
    requires state.phase == Running && !NoticeExpires(state)
    ensures var t := TickSpec(state, draws, cursor).0;
            && t.state.activePower == (if state.activePower.Some? then PowerAfterTick(state.activePower.value) else None)
            && t.state.funnyBoomOverlay == (if state.funnyBoomOverlay.Some? then OverlayAfterTick(state.funnyBoomOverlay.value) else None)
            && (state.specialModeNotice.Some? ==>
                  t.state.specialModeNotice == Some(state.specialModeNotice.value.(secondsRemaining := state.specialModeNotice.value.secondsRemaining - 1)))
            && (state.specialModeNotice.None? ==> t.state.specialModeNotice.None?)
            && t.state.tileScorePulses == PulsesAfterTick(state.tileScorePulses)
  {
  }

  /**
   * A notice that runs out starts its mode after the power and hunt steps, so the new mode keeps its
   * full duration on the tick that starts it, and the notice is gone.
   */
  lemma ExpiringNoticeStartsFullMode(state: GameState, draws: nat -> int, cursor: nat)
    requires state.phase == Running && NoticeExpires(state)
    ensures var t := TickSpec(state, draws, cursor).0;
            && t.state.specialModeNotice.None?
            && t.state.tileScorePulses == PulsesAfterTick(state.tileScorePulses)
            && (state.specialModeNotice.value.style == XrayStyle ==> t.state.activePower == Some(XrayPower(XrayActiveDuration)))
            && (state.specialModeNotice.value.style == SuperheroStyle ==> t.state.activePower == Some(SuperheroPower(SuperheroActiveDuration)))
            && (state.specialModeNotice.value.style == FunnyBoomStyle && state.board.Some? ==>
                  && t.state.funnyBoomOverlay.Some?
                  && t.state.funnyBoomOverlay.value.phase == Active(FunnyBoomPlayDuration)
                  && t.state.funnyBoomOverlay.value.revealedClowns == {}
                  && t.state.funnyBoomOverlay.value.revealedMisses == {})
  {
    if state.board.Some? {
      FunnyBoomOverlayFacts(state.board.value, draws, cursor);
    }
  }
}
