/**
 * Taps, flags, chords, flood reveal, loss and win (FunnyBoom/Domain/Reducer/CellInteractionReducer.swift).
 */
module CellInteraction {
  import opened Prelude
  import opened Board
  import opened ScoreRules
  import opened GameModel
  import opened SpecialMode

  // ---------------------------------------------------------------------------------------------
  // Flood reveal

  /**
   * The inner loop of flood reveal: push, in neighbour order, every cell of around not yet revealed.
   * `from` records, for the reachability argument, the index of the cell whose neighbours these are.
   */
  method PushUnrevealed(queue: seq<Coordinate>, ghost from: seq<int>, around: seq<Coordinate>, revealed: set<Coordinate>, ghost parent: int)
    returns (pushed: seq<Coordinate>, ghost pushedFrom: seq<int>)
    requires |from| == |queue|
    ensures |pushedFrom| == |pushed| && |queue| <= |pushed|
    ensures pushed[..|queue|] == queue && pushedFrom[..|queue|] == from
    ensures forall k :: |queue| <= k < |pushed| ==> pushed[k] in around && pushed[k] !in revealed && pushedFrom[k] == parent
    ensures forall y :: y in around ==> y in revealed || y in pushed
  {
    pushed, pushedFrom := queue, from;
    for i := 0 to |around|
      invariant |pushedFrom| == |pushed| && |queue| <= |pushed|
      invariant pushed[..|queue|] == queue && pushedFrom[..|queue|] == from
      invariant forall k :: |queue| <= k < |pushed| ==> pushed[k] in around && pushed[k] !in revealed && pushedFrom[k] == parent
      invariant forall j :: 0 <= j < i ==> around[j] in revealed || around[j] in pushed
    {
      if around[i] !in revealed {
        pushed, pushedFrom := pushed + [around[i]], pushedFrom + [parent];
      }
    }
  }

  /** The cells flood reveal may add: the board's cells and the origin of the reveal. */
  function Reach(board: GameBoard, origin: Coordinate): set<Coordinate> {
    AllCells(board.dimensions) + {origin}
  }

  /** The stack's bookkeeping: each entry is the origin (first pop only) or a neighbour of a zero-count added cell. */
  ghost predicate FloodWitness(board: GameBoard, origin: Coordinate, queue: seq<Coordinate>, from: seq<int>, order: seq<Coordinate>, parents: seq<int>) {
    StackWitness(board, origin, queue, from, order) && OrderWitness(board, origin, order, parents)
  }

  /** Each stacked cell is in reach and was pushed by a zero-count added cell, or is the origin before anything was added. */
  ghost predicate StackWitness(board: GameBoard, origin: Coordinate, queue: seq<Coordinate>, from: seq<int>, order: seq<Coordinate>) {
    && |from| == |queue|
    && (order == [] ==> |queue| <= 1)
    && (forall k :: 0 <= k < |queue| ==> queue[k] in Reach(board, origin))
    && (forall k :: 0 <= k < |queue| ==>
          (from[k] < 0 && queue[k] == origin && order == [])
          || (0 <= from[k] < |order| && AdjacentMineCount(board, order[from[k]]) == 0 && queue[k] in NeighborList(board.dimensions, order[from[k]])))
  }

  /** The added cells in order: the first is the origin and each later one neighbours an earlier zero-count cell. */
  ghost predicate OrderWitness(board: GameBoard, origin: Coordinate, order: seq<Coordinate>, parents: seq<int>) {
    && |parents| == |order|
    && (order != [] ==> order[0] == origin)
    && (forall i :: 0 < i < |order| ==>
          0 <= parents[i] < i && AdjacentMineCount(board, order[parents[i]]) == 0 && order[i] in NeighborList(board.dimensions, order[parents[i]]))
  }

  /** What has been revealed so far: the listed cells, none flagged or mined, closed up to the cells still stacked. */
  ghost predicate FloodCover(board: GameBoard, origin: Coordinate, alreadyRevealed: set<Coordinate>, flagged: set<Coordinate>,
                             revealed: set<Coordinate>, queue: seq<Coordinate>, order: seq<Coordinate>) {
    var d := board.dimensions;
    && alreadyRevealed <= revealed
    && (forall x :: x in order <==> x in revealed - alreadyRevealed)
    && (forall x :: x in revealed - alreadyRevealed ==> x !in flagged && x !in board.mines && x in Reach(board, origin))
    && (forall x, y :: x in revealed - alreadyRevealed && AdjacentMineCount(board, x) == 0 && y in NeighborList(d, x) ==>
          y in revealed || y in flagged || y in board.mines || y in queue)
    && (origin !in alreadyRevealed && origin !in flagged && origin !in board.mines ==> origin in revealed || origin in queue)
    && (origin in alreadyRevealed || origin in flagged || origin in board.mines ==> order == [])
  }

  /** Popping a cell that is revealed, flagged or a mine keeps the stack's bookkeeping. */
  lemma FloodSkipWitnessStep(board: GameBoard, origin: Coordinate, queue: seq<Coordinate>, from: seq<int>, order: seq<Coordinate>, parents: seq<int>)
    requires queue != []
    requires FloodWitness(board, origin, queue, from, order, parents)
    ensures FloodWitness(board, origin, queue[..|queue| - 1], from[..|from| - 1], order, parents)
  {
    var rest := queue[..|queue| - 1];
    var restFrom := from[..|from| - 1];
    assert forall k :: 0 <= k < |rest| ==> rest[k] == queue[k] && restFrom[k] == from[k];
  }

  /** Popping a cell that is revealed, flagged or a mine keeps what has been revealed closed. */
  lemma FloodSkipCoverStep(board: GameBoard, origin: Coordinate, alreadyRevealed: set<Coordinate>, flagged: set<Coordinate>,
                           revealed: set<Coordinate>, queue: seq<Coordinate>, order: seq<Coordinate>)
    requires queue != []
    requires FloodCover(board, origin, alreadyRevealed, flagged, revealed, queue, order)
    requires queue[|queue| - 1] in revealed || queue[|queue| - 1] in flagged || queue[|queue| - 1] in board.mines
    ensures FloodCover(board, origin, alreadyRevealed, flagged, revealed, queue[..|queue| - 1], order)
  {
    var c := queue[|queue| - 1];
    var rest := queue[..|queue| - 1];
    forall y | y in queue && y != c ensures y in rest {
      var k :| 0 <= k < |queue| && queue[k] == y;
      assert k < |rest| && rest[k] == y;
    }
  }

  /** What PushUnrevealed promises, as the step lemmas need it. */
  ghost predicate Pushed(board: GameBoard, queue: seq<Coordinate>, from: seq<int>, c: Coordinate, revealed: set<Coordinate>, parent: int,
                         pushed: seq<Coordinate>, pushedFrom: seq<int>) {
    if AdjacentMineCount(board, c) != 0 then pushed == queue && pushedFrom == from
    else
      && |pushedFrom| == |pushed| && |queue| <= |pushed|
      && pushed[..|queue|] == queue && pushedFrom[..|queue|] == from
      && (forall k :: |queue| <= k < |pushed| ==>
            pushed[k] in NeighborList(board.dimensions, c) && pushed[k] !in revealed && pushedFrom[k] == parent)
      && (forall y :: y in NeighborList(board.dimensions, c) ==> y in revealed || y in pushed)
  }

  /** Revealing the popped cell (and pushing its neighbours) keeps the stack's bookkeeping. */
  lemma FloodRevealWitnessStep(board: GameBoard, origin: Coordinate, revealed: set<Coordinate>,
                               queue: seq<Coordinate>, from: seq<int>, order: seq<Coordinate>, parents: seq<int>,
                               pushed: seq<Coordinate>, pushedFrom: seq<int>)
    requires queue != []
    requires FloodWitness(board, origin, queue, from, order, parents)
    requires Pushed(board, queue[..|queue| - 1], from[..|from| - 1], queue[|queue| - 1], revealed, |order|, pushed, pushedFrom)
    ensures FloodWitness(board, origin, pushed, pushedFrom, order + [queue[|queue| - 1]],
                         parents + [if from[|from| - 1] < 0 then 0 else from[|from| - 1]])
  {
    FloodRevealStackStep(board, origin, revealed, queue, from, order, pushed, pushedFrom);
    FloodRevealOrderStep(board, origin, queue, from, order, parents);
  }

  /** The stack part of FloodRevealWitnessStep: kept entries keep their witnesses, pushed ones point to the new cell. */
  lemma FloodRevealStackStep(board: GameBoard, origin: Coordinate, revealed: set<Coordinate>,
                             queue: seq<Coordinate>, from: seq<int>, order: seq<Coordinate>,
                             pushed: seq<Coordinate>, pushedFrom: seq<int>)
    requires queue != []
    requires StackWitness(board, origin, queue, from, order)
    requires Pushed(board, queue[..|queue| - 1], from[..|from| - 1], queue[|queue| - 1], revealed, |order|, pushed, pushedFrom)
    ensures StackWitness(board, origin, pushed, pushedFrom, order + [queue[|queue| - 1]])
  {
    var d := board.dimensions;
    var c := queue[|queue| - 1];
    var rest := queue[..|queue| - 1];
    var order' := order + [c];
    forall k | 0 <= k < |pushed|
      ensures pushed[k] in Reach(board, origin)
      ensures 0 <= pushedFrom[k] < |order'| && AdjacentMineCount(board, order'[pushedFrom[k]]) == 0
              && pushed[k] in NeighborList(d, order'[pushedFrom[k]])
    {
      if k < |rest| {
        assert pushed[k] == rest[k] == queue[k] && pushedFrom[k] == from[k];
        assert order'[from[k]] == order[from[k]];
      } else {
        assert order'[|order|] == c;
        NeighborFacts(d, c);
        AllCellsAreTheValidOnes(d, pushed[k]);
      }
    }
  }

  /** The order part of FloodRevealWitnessStep: the popped cell is the origin or was pushed by an earlier zero-count cell. */
  lemma FloodRevealOrderStep(board: GameBoard, origin: Coordinate, queue: seq<Coordinate>, from: seq<int>, order: seq<Coordinate>, parents: seq<int>)
    requires queue != []
    requires StackWitness(board, origin, queue, from, order)
    requires OrderWitness(board, origin, order, parents)
    ensures OrderWitness(board, origin, order + [queue[|queue| - 1]], parents + [if from[|from| - 1] < 0 then 0 else from[|from| - 1]])
  {
    var order' := order + [queue[|queue| - 1]];
    assert order'[|order|] == queue[|queue| - 1];
    assert forall k :: 0 <= k < |order| ==> order'[k] == order[k];
  }

  /** Revealing the popped cell (and pushing its neighbours) keeps what has been revealed closed. */
  lemma FloodRevealCoverStep(board: GameBoard, origin: Coordinate, alreadyRevealed: set<Coordinate>, flagged: set<Coordinate>,
                             revealed: set<Coordinate>, queue: seq<Coordinate>, from: seq<int>, order: seq<Coordinate>,
                             pushed: seq<Coordinate>, pushedFrom: seq<int>)
    requires queue != [] && |from| == |queue|
    requires FloodCover(board, origin, alreadyRevealed, flagged, revealed, queue, order)
    requires queue[|queue| - 1] !in revealed && queue[|queue| - 1] !in flagged && queue[|queue| - 1] !in board.mines
    requires queue[|queue| - 1] in Reach(board, origin)
    requires order == [] ==> queue[|queue| - 1] == origin
    requires Pushed(board, queue[..|queue| - 1], from[..|from| - 1], queue[|queue| - 1], revealed + {queue[|queue| - 1]}, |order|, pushed, pushedFrom)
    ensures FloodCover(board, origin, alreadyRevealed, flagged, revealed + {queue[|queue| - 1]}, pushed, order + [queue[|queue| - 1]])
  {
    var c := queue[|queue| - 1];
    var rest := queue[..|queue| - 1];
    forall y | y in queue && y != c ensures y in pushed {
      var k :| 0 <= k < |queue| && queue[k] == y;
      assert k < |rest| && rest[k] == y;
      assert pushed[k] == y;
    }
    var order' := order + [c];
    assert forall x :: x in order' <==> x in order || x == c;
  }

  /** Adding a new element of u to s leaves fewer elements of u outside it. */
  lemma ShrinkingRest(u: set<Coordinate>, s: set<Coordinate>, c: Coordinate)
    requires c in u && c !in s
    ensures |u - (s + {c})| < |u - s|
  {
    assert u - s == (u - (s + {c})) + {c};
  }

  /** When the stack is empty the invariant gives FloodReveal's postconditions. */
  lemma FloodExit(board: GameBoard, origin: Coordinate, alreadyRevealed: set<Coordinate>, flagged: set<Coordinate>,
                  revealed: set<Coordinate>, from: seq<int>, order: seq<Coordinate>, parents: seq<int>)
    requires FloodWitness(board, origin, [], from, order, parents)
    requires FloodCover(board, origin, alreadyRevealed, flagged, revealed, [], order)
    ensures alreadyRevealed <= revealed
    ensures forall x :: x in revealed - alreadyRevealed ==>
              x !in flagged && x !in board.mines && (x == origin || IsValid(board.dimensions, x))
    ensures origin !in alreadyRevealed && origin !in flagged && origin !in board.mines ==> origin in revealed
    ensures origin in alreadyRevealed || origin in flagged || origin in board.mines ==> revealed == alreadyRevealed
    ensures forall x, y :: x in revealed - alreadyRevealed && AdjacentMineCount(board, x) == 0 && y in NeighborList(board.dimensions, x) ==>
              y in revealed || y in flagged || y in board.mines
    ensures forall x :: x in order <==> x in revealed - alreadyRevealed
    ensures order != [] ==> order[0] == origin
    ensures |parents| == |order|
    ensures forall i :: 0 < i < |order| ==>
              && 0 <= parents[i] < i
              && AdjacentMineCount(board, order[parents[i]]) == 0
              && order[i] in NeighborList(board.dimensions, order[parents[i]])
  {
    forall x | x in revealed - alreadyRevealed ensures x == origin || IsValid(board.dimensions, x) {
      AllCellsAreTheValidOnes(board.dimensions, x);
    }
    if order == [] {
      forall x | x in revealed ensures x in alreadyRevealed {
        assert x !in order;
      }
    }
  }

  /** Popping a cell that is not revealed, flagged or a mine: reveal it and, when no mine is next to it, stack its unrevealed neighbours. */
  method RevealPopped(origin: Coordinate, board: GameBoard, alreadyRevealed: set<Coordinate>, flagged: set<Coordinate>,
                      revealed: set<Coordinate>, queue: seq<Coordinate>, ghost from: seq<int>, ghost order: seq<Coordinate>, ghost parents: seq<int>)
    returns (revealed': set<Coordinate>, queue': seq<Coordinate>, ghost from': seq<int>, ghost order': seq<Coordinate>, ghost parents': seq<int>)
    requires queue != []
    requires FloodWitness(board, origin, queue, from, order, parents)
    requires FloodCover(board, origin, alreadyRevealed, flagged, revealed, queue, order)
    requires queue[|queue| - 1] !in revealed && queue[|queue| - 1] !in flagged && queue[|queue| - 1] !in board.mines
    ensures FloodWitness(board, origin, queue', from', order', parents')
    ensures FloodCover(board, origin, alreadyRevealed, flagged, revealed', queue', order')
    ensures revealed' == revealed + {queue[|queue| - 1]}
  {
    var coordinate := queue[|queue| - 1];
    ghost var source := from[|from| - 1];
    var rest := queue[..|queue| - 1];
    ghost var restFrom := from[..|from| - 1];
    StackedInReach(board, origin, queue, from, order, parents);
    PoppedFirst(board, origin, queue, from, order, parents);
    revealed' := revealed + {coordinate};
    queue', from' := rest, restFrom;
    if AdjacentMineCount(board, coordinate) == 0 {
      var around := Neighbors(board.dimensions, coordinate);
      queue', from' := PushUnrevealed(rest, restFrom, around, revealed', |order|);
    }
    assert Pushed(board, rest, restFrom, coordinate, revealed', |order|, queue', from');
    FloodRevealWitnessStep(board, origin, revealed', queue, from, order, parents, queue', from');
    FloodRevealCoverStep(board, origin, alreadyRevealed, flagged, revealed, queue, from, order, queue', from');
    parents' := parents + [if source < 0 then 0 else source];
    order' := order + [coordinate];
  }

  /** Popping a cell that is revealed, flagged or a mine drops it. */
  method SkipPopped(origin: Coordinate, board: GameBoard, alreadyRevealed: set<Coordinate>, flagged: set<Coordinate>,
                    revealed: set<Coordinate>, queue: seq<Coordinate>, ghost from: seq<int>, ghost order: seq<Coordinate>, ghost parents: seq<int>)
    returns (queue': seq<Coordinate>, ghost from': seq<int>)
    requires queue != []
    requires FloodWitness(board, origin, queue, from, order, parents)
    requires FloodCover(board, origin, alreadyRevealed, flagged, revealed, queue, order)
    requires queue[|queue| - 1] in revealed || queue[|queue| - 1] in flagged || queue[|queue| - 1] in board.mines
    ensures FloodWitness(board, origin, queue', from', order, parents)
    ensures FloodCover(board, origin, alreadyRevealed, flagged, revealed, queue', order)
    ensures |queue'| < |queue|
  {
    FloodSkipWitnessStep(board, origin, queue, from, order, parents);
    FloodSkipCoverStep(board, origin, alreadyRevealed, flagged, revealed, queue, order);
    queue', from' := queue[..|queue| - 1], from[..|from| - 1];
  }

  /** Before anything is revealed the only cell on the stack is the origin. */
  lemma PoppedFirst(board: GameBoard, origin: Coordinate, queue: seq<Coordinate>, from: seq<int>, order: seq<Coordinate>, parents: seq<int>)
    requires queue != []
    requires FloodWitness(board, origin, queue, from, order, parents)
    ensures order == [] ==> queue[|queue| - 1] == origin
  {
  }

  /** Every cell on the stack is the origin or one of the board's cells. */
  lemma StackedInReach(board: GameBoard, origin: Coordinate, queue: seq<Coordinate>, from: seq<int>, order: seq<Coordinate>, parents: seq<int>)
    requires queue != []
    requires FloodWitness(board, origin, queue, from, order, parents)
    ensures queue[|queue| - 1] in Reach(board, origin)
  {
  }

  /**
   * `floodReveal(from:board:alreadyRevealed:flagged:)`: a `popLast` stack walk from origin that
   * reveals every unflagged non-mine cell it reaches and continues through the neighbours of cells
   * with no adjacent mine. The result keeps what was revealed; each added cell is neither flagged nor
   * a mine; the origin is added unless it was revealed, flagged or a mine (and then nothing is added);
   * and the added cells are closed: a zero-count added cell has each neighbour revealed, flagged or
   * mined. Conversely the ghost outputs witness that every added cell is reached from the origin
   * through zero-count added cells: `order` lists them as added and `parents[i]` is an earlier one
   * next to `order[i]`.
   */
  method FloodReveal(origin: Coordinate, board: GameBoard, alreadyRevealed: set<Coordinate>, flagged: set<Coordinate>)
    returns (revealed: set<Coordinate>, ghost order: seq<Coordinate>, ghost parents: seq<int>)
    ensures alreadyRevealed <= revealed
    ensures forall x :: x in revealed - alreadyRevealed ==>
              x !in flagged && x !in board.mines && (x == origin || IsValid(board.dimensions, x))
    ensures origin !in alreadyRevealed && origin !in flagged && origin !in board.mines ==> origin in revealed
    ensures origin in alreadyRevealed || origin in flagged || origin in board.mines ==> revealed == alreadyRevealed
    ensures forall x, y :: x in revealed - alreadyRevealed && AdjacentMineCount(board, x) == 0 && y in NeighborList(board.dimensions, x) ==>
              y in revealed || y in flagged || y in board.mines
    ensures forall x :: x in order <==> x in revealed - alreadyRevealed
    ensures order != [] ==> order[0] == origin
    ensures |parents| == |order|
    ensures forall i :: 0 < i < |order| ==>
              && 0 <= parents[i] < i
              && AdjacentMineCount(board, order[parents[i]]) == 0
              && order[i] in NeighborList(board.dimensions, order[parents[i]])
  {
    revealed := alreadyRevealed;
    var queue := [origin];
    ghost var from := [-1];
    order, parents := [], [];
    assert queue == [] + [origin];
    while queue != []
      invariant FloodWitness(board, origin, queue, from, order, parents)
      invariant FloodCover(board, origin, alreadyRevealed, flagged, revealed, queue, order)
      decreases |Reach(board, origin) - revealed|, |queue|
    {
      var coordinate := queue[|queue| - 1];
      if coordinate in revealed || coordinate in flagged || coordinate in board.mines {
        queue, from := SkipPopped(origin, board, alreadyRevealed, flagged, revealed, queue, from, order, parents);
      } else {
        StackedInReach(board, origin, queue, from, order, parents);
        ShrinkingRest(Reach(board, origin), revealed, coordinate);
        revealed, queue, from, order, parents := RevealPopped(origin, board, alreadyRevealed, flagged, revealed, queue, from, order, parents);
      }
    }
    FloodExit(board, origin, alreadyRevealed, flagged, revealed, from, order, parents);
  }

  /**
   * A path the flood can take: it stays inside `within` and each step leaves a cell with no
   * adjacent mine for one of that cell's neighbours.
   */
  ghost predicate ZeroPath(board: GameBoard, path: seq<Coordinate>, within: set<Coordinate>) {
    && |path| >= 1
    && (forall i :: 0 <= i < |path| ==> path[i] in within)
    && (forall i :: 0 <= i < |path| - 1 ==> ZeroStep(board, path, i))
  }

  /** Step i of a flood path leaves a cell with no adjacent mine for one of its neighbours. */
  ghost predicate ZeroStep(board: GameBoard, path: seq<Coordinate>, i: int)
    requires 0 <= i < |path| - 1
  {
    AdjacentMineCount(board, path[i]) == 0 && path[i + 1] in NeighborList(board.dimensions, path[i])
  }

  /** x is reached from origin by a flood that only passes through cells of `within`. */
  ghost predicate FloodReached(board: GameBoard, origin: Coordinate, x: Coordinate, within: set<Coordinate>) {
    exists path :: ZeroPath(board, path, within) && path[0] == origin && path[|path| - 1] == x
  }

  /** FloodReveal's ghost outputs give, for each added cell, a path from the origin through added cells. */
  lemma PathFromOrder(board: GameBoard, origin: Coordinate, order: seq<Coordinate>, parents: seq<int>, within: set<Coordinate>, i: int)
    returns (path: seq<Coordinate>)
    requires OrderWitness(board, origin, order, parents)
    requires forall x :: x in order ==> x in within
    requires 0 <= i < |order|
    ensures ZeroPath(board, path, within) && path[0] == origin && path[|path| - 1] == order[i]
    decreases i
  {
    if i == 0 {
      path := [origin];
    } else {
      var p := PathFromOrder(board, origin, order, parents, within, parents[i]);
      path := p + [order[i]];
      assert order[i] in order;
      forall k | 0 <= k < |path|
        ensures path[k] in within
      {
        if k < |p| {
          assert path[k] == p[k];
        }
      }
      forall a | 0 <= a < |path| - 1
        ensures ZeroStep(board, path, a)
      {
        if a + 1 < |p| {
          assert ZeroStep(board, p, a);
          assert path[a] == p[a] && path[a + 1] == p[a + 1];
        } else {
          assert path[a] == p[|p| - 1] == order[parents[i]] && path[a + 1] == order[i];
        }
      }
    }
  }

  /** A flood path stays a flood path inside a larger set. */
  lemma FloodReachedGrows(board: GameBoard, origin: Coordinate, x: Coordinate, within: set<Coordinate>, within': set<Coordinate>)
    requires within <= within'
    requires FloodReached(board, origin, x, within)
    ensures FloodReached(board, origin, x, within')
  {
    var path :| ZeroPath(board, path, within) && path[0] == origin && path[|path| - 1] == x;
    forall k | 0 <= k < |path|
      ensures path[k] in within'
    {
      assert path[k] in within;
    }
    forall k | 0 <= k < |path| - 1
      ensures ZeroStep(board, path, k)
    {
      assert ZeroStep(board, path, k);
    }
    assert ZeroPath(board, path, within');
  }

  /** The first step of a flood path leaves a cell with no adjacent mine. */
  lemma FirstStep(board: GameBoard, path: seq<Coordinate>, within: set<Coordinate>)
    requires ZeroPath(board, path, within) && |path| > 1
    ensures AdjacentMineCount(board, path[0]) == 0
  {
    assert ZeroStep(board, path, 0);
  }

  /** A flood does not leave a cell that has a mine next to it: from such an origin it reaches only the origin. */
  lemma FloodStopsAtNumberedCell(board: GameBoard, origin: Coordinate, x: Coordinate, within: set<Coordinate>)
    requires AdjacentMineCount(board, origin) != 0
    requires FloodReached(board, origin, x, within)
    ensures x == origin
  {
    var path :| ZeroPath(board, path, within) && path[0] == origin && path[|path| - 1] == x;
    if |path| > 1 {
      FirstStep(board, path, within);
      assert false;
    }
  }

  /**
   * What a flood from `origin` adds, taking the revealed tiles from `before` to `after`: the origin and
   * only unflagged safe cells of the board, closed under the neighbours of cells with no adjacent mine,
   * each reached from the origin through the added cells.
   */
  ghost predicate FloodAdded(board: GameBoard, origin: Coordinate, flagged: set<Coordinate>,
                             before: set<Coordinate>, after: set<Coordinate>) {
    && before <= after && origin in after
    && (forall x :: x in after - before ==> x !in flagged && x !in board.mines && IsValid(board.dimensions, x))
    && (forall x, y :: x in after - before && AdjacentMineCount(board, x) == 0 && y in NeighborList(board.dimensions, x) ==>
          y in after || y in flagged || y in board.mines)
    && (forall x :: x in after - before ==> FloodReached(board, origin, x, after - before))
  }

  /**
   * The fields a safe tap leaves alone: the leaderboard, the clock and the neutralized bombs; the
   * rolled cells gain at most the tapped cell.
   */
  predicate SafeTapKeeps(before: GameState, after: GameState, coordinate: Coordinate) {
    && after.scores == before.scores && after.elapsedSeconds == before.elapsedSeconds
    && after.neutralizedBombs == before.neutralizedBombs
    && before.specialRollTiles <= after.specialRollTiles <= before.specialRollTiles + {coordinate}
  }

  // ---------------------------------------------------------------------------------------------
  // Loss and win

  /** The fields that neither a loss nor a win touches, other than the revealed tiles. */
  predicate SameProgress(a: GameState, b: GameState) {
    && a.settings == b.settings && a.board == b.board && a.elapsedSeconds == b.elapsedSeconds
    && a.points == b.points && a.bonusPoints == b.bonusPoints
    && a.flaggedTiles == b.flaggedTiles && a.neutralizedBombs == b.neutralizedBombs
    && a.specialRollTiles == b.specialRollTiles && a.scores == b.scores
  }

  /**
   * What `loseRound(state:board:)` produces: the round is lost, every mine is shown, the explosion
   * counter advances by one, every mode and pending reward is cleared, and the explosion sound plus
   * the delayed loss card are requested.
   */
  function Loss(state: GameState, board: GameBoard): (t: Transition)
    ensures t.state.phase == Lost
    ensures t.state.revealedTiles == state.revealedTiles + board.mines
    ensures t.state.explosionSequence == state.explosionSequence + 1
    ensures t.state.activePower.None? && t.state.funnyBoomOverlay.None? && t.state.specialModeNotice.None?
    ensures t.state.tileScorePulses == map[] && t.state.pendingVictory.None?
    ensures SameProgress(t.state, state)
    ensures t.events == [PlaySound(Explosion), ScheduleLossCardReveal]
  {
    Transition(
      state.(phase := Lost, activePower := None, funnyBoomOverlay := None, specialModeNotice := None,
             tileScorePulses := map[], pendingVictory := None,
             revealedTiles := state.revealedTiles + board.mines,
             explosionSequence := state.explosionSequence + 1),
      [PlaySound(Explosion), ScheduleLossCardReveal])
  }

  /** `loseRound(state:board:)`, field by field. */
  method LoseRound(state: GameState, board: GameBoard) returns (t: Transition)
    ensures t == Loss(state, board)
  {
    var next := state;
    next := next.(phase := Lost);
    next := next.(activePower := None);
    next := next.(funnyBoomOverlay := None);
    next := next.(specialModeNotice := None);
    next := next.(tileScorePulses := map[]);
    next := next.(pendingVictory := None);
    next := next.(revealedTiles := next.revealedTiles + board.mines);
    next := next.(explosionSequence := next.explosionSequence + 1);
    t := Transition(next, [PlaySound(Explosion), ScheduleLossCardReveal]);
  }

  /** The win test of `completeIfWon`: at least as many non-mine tiles revealed as the board has safe cells. */
  predicate AllSafeRevealed(board: GameBoard, revealed: set<Coordinate>) {
    |revealed - board.mines| >= CellCount(board.dimensions) - |board.mines|
  }

  /** On a generated board, with only board cells revealed, the test holds exactly when every safe cell is revealed. */
  lemma WinExactlyWhenEverySafeCellRevealed(board: GameBoard, revealed: set<Coordinate>)
    requires Consistent(board)
    requires revealed <= AllCells(board.dimensions)
    ensures AllSafeRevealed(board, revealed) <==> AllCells(board.dimensions) - board.mines <= revealed
  {
    var cells := AllCells(board.dimensions);
    AllCellsCount(board.dimensions);
    assert cells == (cells - board.mines) + board.mines;
    assert |cells - board.mines| == CellCount(board.dimensions) - |board.mines|;
    var safe := revealed - board.mines;
    assert safe <= cells - board.mines;
    assert cells - board.mines == safe + ((cells - board.mines) - safe);
    if cells - board.mines <= revealed {
      assert safe == cells - board.mines;
    }
  }

  /**
   * What `completeIfWon(state:board:)` produces: when the win test passes, the round is won, every
   * mode is cleared and the pending victory records the points, the time and their final score,
   * with the victory sound as the only event; otherwise nothing changes and nothing is emitted.
   */
  function Completion(state: GameState, board: GameBoard): (t: Transition)
    ensures AllSafeRevealed(board, state.revealedTiles) ==>
              && t.state.phase == Won
              && t.state.activePower.None? && t.state.funnyBoomOverlay.None? && t.state.specialModeNotice.None?
              && t.state.tileScorePulses == map[]
              && t.state.pendingVictory == Some(PendingVictory(state.points, state.elapsedSeconds,
                                                               FinalScore(state.points, state.elapsedSeconds, board.dimensions)))
              && t.events == [PlaySound(Victory)]
    ensures !AllSafeRevealed(board, state.revealedTiles) ==> t == Transition(state, [])
    ensures SameProgress(t.state, state) && t.state.revealedTiles == state.revealedTiles
    ensures t.state.explosionSequence == state.explosionSequence
  {
    if AllSafeRevealed(board, state.revealedTiles) then
      Transition(
        state.(phase := Won, activePower := None, funnyBoomOverlay := None, specialModeNotice := None, tileScorePulses := map[],
               pendingVictory := Some(PendingVictory(state.points, state.elapsedSeconds,
                                                     FinalScore(state.points, state.elapsedSeconds, board.dimensions)))),
        [PlaySound(Victory)])
    else
      Transition(state, [])
  }

  /**
   * The win test as it shows in the result of a step that ends with `completeIfWon`: when the
   * result's reveals pass the test, the round is won, every mode and pulse is cleared, the pending
   * victory records the result's points, time and final score, and the victory sound is among the
   * events; otherwise the phase and the pending victory are those given, and no victory sound plays.
   */
  predicate WinTested(board: GameBoard, phase: Phase, pending: Option<PendingVictory>, t: Transition) {
    if AllSafeRevealed(board, t.state.revealedTiles) then
      && t.state.phase == Won
      && t.state.activePower.None? && t.state.funnyBoomOverlay.None? && t.state.specialModeNotice.None?
      && t.state.tileScorePulses == map[]
      && t.state.pendingVictory == Some(PendingVictory(t.state.points, t.state.elapsedSeconds,
                                                       FinalScore(t.state.points, t.state.elapsedSeconds, board.dimensions)))
      && PlaySound(Victory) in t.events
    else
      && t.state.phase == phase && t.state.pendingVictory == pending
      && PlaySound(Victory) !in t.events
  }

  /**
   * So on a generated board, a step that ran the win test from a round not yet won ends won exactly
   * when its reveals cover every safe cell, and then plays the victory sound.
   */
  lemma WinTestedMeans(board: GameBoard, phase: Phase, pending: Option<PendingVictory>, t: Transition)
    requires Consistent(board) && t.state.revealedTiles <= AllCells(board.dimensions)
    requires WinTested(board, phase, pending, t) && phase != Won
    ensures t.state.phase == Won <==> AllCells(board.dimensions) - board.mines <= t.state.revealedTiles
    ensures t.state.phase == Won <==> PlaySound(Victory) in t.events
  {
    WinExactlyWhenEverySafeCellRevealed(board, t.state.revealedTiles);
  }

  /** `completeIfWon(state:board:)`, field by field. */
  method CompleteIfWon(state: GameState, board: GameBoard) returns (t: Transition)
    ensures t == Completion(state, board)
  {
    var next := state;
    var safeCells := CellCount(board.dimensions) - |board.mines|;
    var revealedSafeCells := |next.revealedTiles - board.mines|;
    if revealedSafeCells >= safeCells {
      next := next.(phase := Won);
      next := next.(activePower := None);
      next := next.(funnyBoomOverlay := None);
      next := next.(specialModeNotice := None);
      next := next.(tileScorePulses := map[]);
      var totalScore := FinalScore(next.points, next.elapsedSeconds, board.dimensions);
      next := next.(pendingVictory := Some(PendingVictory(next.points, next.elapsedSeconds, totalScore)));
      return Transition(next, [PlaySound(Victory)]);
    }
    t := Transition(next, []);
  }

  // ---------------------------------------------------------------------------------------------
  // Revealing and scoring

  /** The board-started analytics event for a state. */
  function BoardStartedEvent(state: GameState): Event {
    TrackBoardStarted(state.settings.difficulty, StateDimensions(state))
  }

  /**
   * `appendBoardStartedEventIfNeeded(previousState:nextState:events:)`: the analytics event is
   * appended exactly when the step took the revealed tiles from none to some.
   */
  method AppendBoardStartedEventIfNeeded(previous: GameState, next: GameState, events: seq<Event>) returns (events': seq<Event>)
    ensures previous.revealedTiles == {} && next.revealedTiles != {} ==> events' == events + [BoardStartedEvent(next)]
    ensures previous.revealedTiles != {} || next.revealedTiles == {} ==> events' == events
  {
    events' := events;
    if previous.revealedTiles != {} {
      return;
    }
    if next.revealedTiles == {} {
      return;
    }
    events' := events' + [BoardStartedEvent(next)];
  }

  /**
   * The reveal shared by a tap and a chord: flood from origin over the current tiles, add the
   * result and score one point per newly revealed tile; nothing else changes.
   */
  method RevealAndScore(state: GameState, board: GameBoard, origin: Coordinate) returns (next: GameState, newSafe: set<Coordinate>)
    ensures newSafe == next.revealedTiles - state.revealedTiles
    ensures next == state.(revealedTiles := next.revealedTiles, points := state.points + |newSafe| * RevealPoints)
    ensures state.revealedTiles <= next.revealedTiles
    ensures forall x :: x in newSafe ==> x !in state.flaggedTiles && x !in board.mines && (x == origin || IsValid(board.dimensions, x))
    ensures origin !in state.revealedTiles && origin !in state.flaggedTiles && origin !in board.mines ==> origin in next.revealedTiles
    ensures origin in state.revealedTiles || origin in state.flaggedTiles || origin in board.mines ==> newSafe == {}
    ensures forall x, y :: x in newSafe && AdjacentMineCount(board, x) == 0 && y in NeighborList(board.dimensions, x) ==>
              y in next.revealedTiles || y in state.flaggedTiles || y in board.mines
    // and conversely each new tile is reached from origin through new tiles with no adjacent mine.
    ensures forall x :: x in newSafe ==> FloodReached(board, origin, x, newSafe)
  {
    var revealedNow, order, parents := FloodReveal(origin, board, state.revealedTiles, state.flaggedTiles);
    newSafe := revealedNow - state.revealedTiles;
    next := state.(revealedTiles := state.revealedTiles + revealedNow);
    next := next.(points := next.points + |newSafe| * RevealPoints);
    forall x | x in newSafe ensures FloodReached(board, origin, x, newSafe) {
      var i :| 0 <= i < |order| && order[i] == x;
      var path := PathFromOrder(board, origin, order, parents, newSafe, i);
    }
  }

  // ---------------------------------------------------------------------------------------------
  // Chord reveal

  /** A chord acts on the cell's neighbours that are neither flagged nor revealed when it starts. */
  predicate ChordTarget(state: GameState, c: Coordinate) {
    c !in state.flaggedTiles && c !in state.revealedTiles
  }

  /** A chord goes ahead when the cell has mines around it and exactly that many flagged neighbours. */
  predicate ChordArmed(state: GameState, board: GameBoard, coordinate: Coordinate) {
    && AdjacentMineCount(board, coordinate) > 0
    && CountIn(NeighborList(board.dimensions, coordinate), state.flaggedTiles) == AdjacentMineCount(board, coordinate)
  }

  /** A chord without Superhero that reaches a mine. */
  predicate ChordHitsMine(state: GameState, board: GameBoard, coordinate: Coordinate) {
    && !IsSuperheroActive(state)
    && exists n :: n in NeighborList(board.dimensions, coordinate) && ChordTarget(state, n) && n in board.mines
  }

  /** What a chord may add to the revealed tiles: a neutralized target mine under Superhero, or a board cell that is neither mined nor flagged. */
  predicate ChordAdded(state: GameState, board: GameBoard, coordinate: Coordinate, x: Coordinate) {
    || (x in board.mines && IsSuperheroActive(state) && x in NeighborList(board.dimensions, coordinate) && ChordTarget(state, x))
    || (x !in board.mines && x !in state.flaggedTiles && IsValid(board.dimensions, x))
  }

  /** The safe tiles added since `from`. */
  function NewSafe(from: set<Coordinate>, revealed: set<Coordinate>, board: GameBoard): set<Coordinate> {
    revealed - from - board.mines
  }

  /** Adding tiles that are not mines grows the newly revealed safe tiles by exactly that many. */
  lemma SafeAdditionCount(from: set<Coordinate>, r: set<Coordinate>, r': set<Coordinate>, board: GameBoard)
    requires from <= r <= r'
    requires (r' - r) !! board.mines
    ensures |NewSafe(from, r', board)| == |NewSafe(from, r, board)| + |r' - r|
  {
    assert NewSafe(from, r', board) == NewSafe(from, r, board) + (r' - r);
    assert NewSafe(from, r, board) !! (r' - r);
  }

  /** x is reached by a flood from one of the chord's targets that only passes through tiles of `within`. */
  ghost predicate ReachedFromTarget(board: GameBoard, coordinate: Coordinate, flagged: set<Coordinate>, from: set<Coordinate>,
                                    x: Coordinate, within: set<Coordinate>) {
    exists n :: n in NeighborList(board.dimensions, coordinate) && n !in flagged && n !in from && FloodReached(board, n, x, within)
  }

  /**
   * The bound on what a chord's floods add: every safe tile revealed since `from` is reached from a
   * target of the chord (an unflagged neighbour not revealed in `from`) through such tiles.
   */
  ghost predicate ChordReach(board: GameBoard, coordinate: Coordinate, flagged: set<Coordinate>, from: set<Coordinate>, revealed: set<Coordinate>) {
    var within := NewSafe(from, revealed, board);
    forall x :: x in within ==> ReachedFromTarget(board, coordinate, flagged, from, x, within)
  }

  /** A flood from a target of the chord keeps the bound. */
  lemma ChordReachFlood(board: GameBoard, coordinate: Coordinate, flagged: set<Coordinate>, from: set<Coordinate>,
                        r: set<Coordinate>, r': set<Coordinate>, n: Coordinate)
    requires from <= r <= r'
    requires ChordReach(board, coordinate, flagged, from, r)
    requires n in NeighborList(board.dimensions, coordinate) && n !in flagged && n !in from
    requires (r' - r) !! board.mines
    requires forall x :: x in r' - r ==> FloodReached(board, n, x, r' - r)
    ensures ChordReach(board, coordinate, flagged, from, r')
  {
    var w := NewSafe(from, r, board);
    var w' := NewSafe(from, r', board);
    assert w <= w' && r' - r <= w';
    forall x | x in w' ensures ReachedFromTarget(board, coordinate, flagged, from, x, w') {
      if x in w {
        var m :| m in NeighborList(board.dimensions, coordinate) && m !in flagged && m !in from && FloodReached(board, m, x, w);
        FloodReachedGrows(board, m, x, w, w');
      } else {
        FloodReachedGrows(board, n, x, r' - r, w');
      }
    }
  }

  /** The bound depends only on the new safe tiles. */
  lemma ChordReachSame(board: GameBoard, coordinate: Coordinate, flagged: set<Coordinate>, from: set<Coordinate>,
                       r: set<Coordinate>, r': set<Coordinate>)
    requires NewSafe(from, r, board) == NewSafe(from, r', board)
    requires ChordReach(board, coordinate, flagged, from, r)
    ensures ChordReach(board, coordinate, flagged, from, r')
  {
  }

  /** The loop's account of a chord in progress: what `next` holds after the targets before index i. */
  ghost predicate ChordProgress(state: GameState, board: GameBoard, coordinate: Coordinate, neighbors: seq<Coordinate>, i: int, next: GameState) {
    ChordAccount(state, board, next) && ChordCoverage(state, board, coordinate, neighbors, i, next)
  }

  /** Only the revealed tiles, the neutralized mines and the points have moved, in step with each other. */
  ghost predicate ChordAccount(state: GameState, board: GameBoard, next: GameState) {
    && next == state.(revealedTiles := next.revealedTiles, neutralizedBombs := next.neutralizedBombs, points := next.points)
    && state.revealedTiles <= next.revealedTiles
    && next.neutralizedBombs == state.neutralizedBombs + (next.revealedTiles - state.revealedTiles) * board.mines
    && next.points == state.points + |NewSafe(state.revealedTiles, next.revealedTiles, board)| * RevealPoints
  }

  /** What the targets before index i have added, and that those targets are all revealed. */
  ghost predicate ChordCoverage(state: GameState, board: GameBoard, coordinate: Coordinate, neighbors: seq<Coordinate>, i: int, next: GameState) {
    var added := next.revealedTiles - state.revealedTiles;
    && 0 <= i <= |neighbors|
    && (forall x :: x in added ==> ChordAdded(state, board, coordinate, x))
    && (forall x, y :: x in added && x !in board.mines && AdjacentMineCount(board, x) == 0 && y in NeighborList(board.dimensions, x) ==>
          y in next.revealedTiles || y in state.flaggedTiles || y in board.mines)
    && (forall j :: 0 <= j < i && ChordTarget(state, neighbors[j]) ==> neighbors[j] in next.revealedTiles)
    && (!IsSuperheroActive(state) ==> forall j :: 0 <= j < i && ChordTarget(state, neighbors[j]) ==> neighbors[j] !in board.mines)
    && ChordReach(board, coordinate, state.flaggedTiles, state.revealedTiles, next.revealedTiles)
  }

  /** Passing over a neighbour that was flagged or revealed at the start keeps the account. */
  lemma ChordSkipStep(state: GameState, board: GameBoard, coordinate: Coordinate, neighbors: seq<Coordinate>, i: int, next: GameState)
    requires 0 <= i < |neighbors|
    requires ChordProgress(state, board, coordinate, neighbors, i, next)
    requires !ChordTarget(state, neighbors[i])
    ensures ChordProgress(state, board, coordinate, neighbors, i + 1, next)
  {
  }

  /** Neutralizing a target mine under Superhero keeps the account. */
  lemma ChordNeutralizeStep(state: GameState, board: GameBoard, coordinate: Coordinate, neighbors: seq<Coordinate>, i: int, next: GameState)
    requires neighbors == NeighborList(board.dimensions, coordinate)
    requires 0 <= i < |neighbors|
    requires ChordProgress(state, board, coordinate, neighbors, i, next)
    requires ChordTarget(state, neighbors[i]) && neighbors[i] in board.mines && IsSuperheroActive(state)
    ensures ChordProgress(state, board, coordinate, neighbors, i + 1,
                          next.(revealedTiles := next.revealedTiles + {neighbors[i]}, neutralizedBombs := next.neutralizedBombs + {neighbors[i]}))
  {
    var n := neighbors[i];
    var r' := next.revealedTiles + {n};
    assert NewSafe(state.revealedTiles, r', board) == NewSafe(state.revealedTiles, next.revealedTiles, board);
    ChordNeutralizeAccount(state, board, n, next);
    ChordNeutralizeCoverage(state, board, coordinate, neighbors, i, next);
  }

  lemma ChordNeutralizeAccount(state: GameState, board: GameBoard, n: Coordinate, next: GameState)
    requires ChordAccount(state, board, next)
    requires n in board.mines && n !in state.revealedTiles
    requires NewSafe(state.revealedTiles, next.revealedTiles + {n}, board) == NewSafe(state.revealedTiles, next.revealedTiles, board)
    ensures ChordAccount(state, board, next.(revealedTiles := next.revealedTiles + {n}, neutralizedBombs := next.neutralizedBombs + {n}))
  {
    var r' := next.revealedTiles + {n};
    assert (r' - state.revealedTiles) * board.mines == (next.revealedTiles - state.revealedTiles) * board.mines + {n};
  }

  lemma ChordNeutralizeCoverage(state: GameState, board: GameBoard, coordinate: Coordinate, neighbors: seq<Coordinate>, i: int, next: GameState)
    requires neighbors == NeighborList(board.dimensions, coordinate)
    requires 0 <= i < |neighbors|
    requires ChordCoverage(state, board, coordinate, neighbors, i, next)
    requires ChordTarget(state, neighbors[i]) && neighbors[i] in board.mines && IsSuperheroActive(state)
    requires NewSafe(state.revealedTiles, next.revealedTiles + {neighbors[i]}, board) == NewSafe(state.revealedTiles, next.revealedTiles, board)
    ensures ChordCoverage(state, board, coordinate, neighbors, i + 1, next.(revealedTiles := next.revealedTiles + {neighbors[i]}))
  {
    ChordReachSame(board, coordinate, state.flaggedTiles, state.revealedTiles, next.revealedTiles, next.revealedTiles + {neighbors[i]});
  }

  /** What RevealAndScore promises about a flood from n that took `next` to `next'`. */
  ghost predicate FloodedFrom(board: GameBoard, n: Coordinate, next: GameState, next': GameState) {
    var newSafe := next'.revealedTiles - next.revealedTiles;
    && next' == next.(revealedTiles := next'.revealedTiles, points := next.points + |newSafe| * RevealPoints)
    && next.revealedTiles <= next'.revealedTiles
    && (forall x :: x in newSafe ==> x !in next.flaggedTiles && x !in board.mines && (x == n || IsValid(board.dimensions, x)))
    && (n !in next.revealedTiles && n !in next.flaggedTiles ==> n in next'.revealedTiles)
    && (forall x, y :: x in newSafe && AdjacentMineCount(board, x) == 0 && y in NeighborList(board.dimensions, x) ==>
          y in next'.revealedTiles || y in next.flaggedTiles || y in board.mines)
    && (forall x :: x in newSafe ==> FloodReached(board, n, x, newSafe))
  }

  /** Flooding from a safe target keeps the account. */
  lemma ChordFloodStep(state: GameState, board: GameBoard, coordinate: Coordinate, neighbors: seq<Coordinate>, i: int,
                       next: GameState, next': GameState)
    requires neighbors == NeighborList(board.dimensions, coordinate)
    requires 0 <= i < |neighbors|
    requires ChordProgress(state, board, coordinate, neighbors, i, next)
    requires ChordTarget(state, neighbors[i]) && neighbors[i] !in board.mines
    requires FloodedFrom(board, neighbors[i], next, next')
    ensures ChordProgress(state, board, coordinate, neighbors, i + 1, next')
  {
    ChordFloodAccount(state, board, neighbors[i], next, next');
    ChordFloodCoverage(state, board, coordinate, neighbors, i, next, next');
  }

  lemma ChordFloodAccount(state: GameState, board: GameBoard, n: Coordinate, next: GameState, next': GameState)
    requires ChordAccount(state, board, next)
    requires FloodedFrom(board, n, next, next')
    ensures ChordAccount(state, board, next')
  {
    SafeAdditionCount(state.revealedTiles, next.revealedTiles, next'.revealedTiles, board);
    assert (next'.revealedTiles - state.revealedTiles) * board.mines == (next.revealedTiles - state.revealedTiles) * board.mines;
  }

  lemma ChordFloodCoverage(state: GameState, board: GameBoard, coordinate: Coordinate, neighbors: seq<Coordinate>, i: int,
                           next: GameState, next': GameState)
    requires neighbors == NeighborList(board.dimensions, coordinate)
    requires 0 <= i < |neighbors|
    requires ChordAccount(state, board, next)
    requires ChordCoverage(state, board, coordinate, neighbors, i, next)
    requires ChordTarget(state, neighbors[i]) && neighbors[i] !in board.mines
    requires FloodedFrom(board, neighbors[i], next, next')
    ensures ChordCoverage(state, board, coordinate, neighbors, i + 1, next')
  {
    var d := board.dimensions;
    var n := neighbors[i];
    assert next.flaggedTiles == state.flaggedTiles;
    forall x | x in next'.revealedTiles - state.revealedTiles ensures ChordAdded(state, board, coordinate, x) {
      if x !in next.revealedTiles {
        NeighborFacts(d, coordinate);
        assert n in neighbors;
      }
    }
    forall j | 0 <= j < i + 1 && ChordTarget(state, neighbors[j]) ensures neighbors[j] in next'.revealedTiles {
    }
    NeighborFacts(d, coordinate);
    assert n in NeighborList(d, coordinate);
    ChordReachFlood(board, coordinate, state.flaggedTiles, state.revealedTiles, next.revealedTiles, next'.revealedTiles, n);
  }

  /** Every target before index i that has no target mine at or before it. */
  ghost predicate RevealedUpToFirstMine(state: GameState, board: GameBoard, neighbors: seq<Coordinate>, revealed: set<Coordinate>) {
    forall j :: 0 <= j < |neighbors| && ChordTarget(state, neighbors[j])
      && (forall k :: 0 <= k <= j ==> neighbors[k] !in board.mines || !ChordTarget(state, neighbors[k]))
      ==> neighbors[j] in revealed
  }

  /** Reaching a target mine without Superhero: the account gives the loss's postconditions. */
  lemma ChordLossExit(state: GameState, board: GameBoard, coordinate: Coordinate, neighbors: seq<Coordinate>, i: int, next: GameState)
    requires neighbors == NeighborList(board.dimensions, coordinate)
    requires 0 <= i < |neighbors|
    requires ChordProgress(state, board, coordinate, neighbors, i, next)
    requires ChordTarget(state, neighbors[i]) && neighbors[i] in board.mines && !IsSuperheroActive(state)
    ensures ChordHitsMine(state, board, coordinate)
    ensures next == state.(revealedTiles := (next.revealedTiles + board.mines) - (board.mines - state.revealedTiles), points := next.points)
    ensures state.revealedTiles <= next.revealedTiles + board.mines
    ensures next.points == state.points + |NewSafe(state.revealedTiles, next.revealedTiles + board.mines, board)| * RevealPoints
    ensures forall x :: x in next.revealedTiles + board.mines - state.revealedTiles ==> ChordAdded(state, board, coordinate, x) || x in board.mines
    ensures RevealedUpToFirstMine(state, board, neighbors, next.revealedTiles + board.mines)
    ensures ChordReach(board, coordinate, state.flaggedTiles, state.revealedTiles, next.revealedTiles + board.mines)
  {
    ChordLossHit(state, board, coordinate, neighbors, i, next);
    ChordLossAccount(state, board, coordinate, next);
    assert NewSafe(state.revealedTiles, next.revealedTiles + board.mines, board) == NewSafe(state.revealedTiles, next.revealedTiles, board);
    ChordReachSame(board, coordinate, state.flaggedTiles, state.revealedTiles, next.revealedTiles, next.revealedTiles + board.mines);
  }

  /** Without Superhero a chord adds no mine, so adding every mine for the loss gives back the account. */
  lemma ChordLossAccount(state: GameState, board: GameBoard, coordinate: Coordinate, next: GameState)
    requires ChordAccount(state, board, next)
    requires forall x :: x in next.revealedTiles - state.revealedTiles ==> ChordAdded(state, board, coordinate, x)
    requires !IsSuperheroActive(state)
    ensures next == state.(revealedTiles := (next.revealedTiles + board.mines) - (board.mines - state.revealedTiles), points := next.points)
    ensures state.revealedTiles <= next.revealedTiles + board.mines
    ensures next.points == state.points + |NewSafe(state.revealedTiles, next.revealedTiles + board.mines, board)| * RevealPoints
    ensures forall x :: x in next.revealedTiles + board.mines - state.revealedTiles ==> ChordAdded(state, board, coordinate, x) || x in board.mines
  {
    var r := next.revealedTiles;
    assert (r - state.revealedTiles) * board.mines == {} by {
      forall x | x in r - state.revealedTiles ensures x !in board.mines {
        assert ChordAdded(state, board, coordinate, x);
      }
    }
    assert next.neutralizedBombs == state.neutralizedBombs;
    assert (r + board.mines) - (board.mines - state.revealedTiles) == r;
    assert NewSafe(state.revealedTiles, r + board.mines, board) == NewSafe(state.revealedTiles, r, board);
  }

  /** Reaching a target mine without Superhero is a hit, and every earlier target was revealed. */
  lemma ChordLossHit(state: GameState, board: GameBoard, coordinate: Coordinate, neighbors: seq<Coordinate>, i: int, next: GameState)
    requires neighbors == NeighborList(board.dimensions, coordinate)
    requires 0 <= i < |neighbors|
    requires ChordCoverage(state, board, coordinate, neighbors, i, next)
    requires ChordTarget(state, neighbors[i]) && neighbors[i] in board.mines && !IsSuperheroActive(state)
    ensures ChordHitsMine(state, board, coordinate)
    ensures RevealedUpToFirstMine(state, board, neighbors, next.revealedTiles + board.mines)
  {
    assert neighbors[i] in NeighborList(board.dimensions, coordinate);
  }

  /** A chord that never lost: every target is revealed and no unprotected target was a mine. */
  lemma ChordDoneExit(state: GameState, board: GameBoard, coordinate: Coordinate, neighbors: seq<Coordinate>, next: GameState)
    requires neighbors == NeighborList(board.dimensions, coordinate)
    requires ChordProgress(state, board, coordinate, neighbors, |neighbors|, next)
    ensures !ChordHitsMine(state, board, coordinate)
    ensures forall n :: n in neighbors && ChordTarget(state, n) ==> n in next.revealedTiles
    ensures RevealedUpToFirstMine(state, board, neighbors, next.revealedTiles)
  {
    forall n | n in neighbors && ChordTarget(state, n) ensures n in next.revealedTiles && (!IsSuperheroActive(state) ==> n !in board.mines) {
      var j :| 0 <= j < |neighbors| && neighbors[j] == n;
    }
  }

  /**
   * `chordRevealIfPossible(state:coordinate:board:)`. Nothing happens unless the cell has mines
   * around it and exactly that many flagged neighbours. Otherwise the neighbours not flagged and
   * not revealed at the start are taken in `neighbors` order: a mine is neutralized under
   * Superhero and otherwise loses the round at once; any other cell is flood revealed and scored.
   * A chord that does not lose ends with the win test.
   */
  method ChordRevealIfPossible(state: GameState, coordinate: Coordinate, board: GameBoard) returns (t: Transition)
    ensures !ChordArmed(state, board, coordinate) ==> t == Transition(state, [])
    ensures ChordArmed(state, board, coordinate) ==> ChordOutcome(state, board, coordinate, t)
    ensures t.state.settings == state.settings && t.state.board == state.board
    ensures ChordArmed(state, board, coordinate) ==>
              && state.revealedTiles <= t.state.revealedTiles
              && t.state.points == state.points + |NewSafe(state.revealedTiles, t.state.revealedTiles, board)| * RevealPoints
              && (forall x :: x in t.state.revealedTiles - state.revealedTiles ==> ChordAdded(state, board, coordinate, x) || x in board.mines)
    ensures ChordArmed(state, board, coordinate) && ChordHitsMine(state, board, coordinate) ==>
              && t == Loss(state.(revealedTiles := t.state.revealedTiles - (board.mines - state.revealedTiles), points := t.state.points), board)
              && RevealedUpToFirstMine(state, board, NeighborList(board.dimensions, coordinate), t.state.revealedTiles)
    ensures ChordArmed(state, board, coordinate) && !ChordHitsMine(state, board, coordinate) ==>
              && t == Completion(state.(revealedTiles := t.state.revealedTiles, neutralizedBombs := t.state.neutralizedBombs, points := t.state.points), board)
              && t.state.neutralizedBombs == state.neutralizedBombs + (t.state.revealedTiles - state.revealedTiles) * board.mines
              && (forall x :: x in t.state.revealedTiles - state.revealedTiles ==> ChordAdded(state, board, coordinate, x))
              && (forall n :: n in NeighborList(board.dimensions, coordinate) && ChordTarget(state, n) ==> n in t.state.revealedTiles)
              && RevealedUpToFirstMine(state, board, NeighborList(board.dimensions, coordinate), t.state.revealedTiles)
              && (forall x, y ::
                    (x in t.state.revealedTiles - state.revealedTiles && x !in board.mines && AdjacentMineCount(board, x) == 0 &&
                     y in NeighborList(board.dimensions, x)) ==> y in t.state.revealedTiles || y in state.flaggedTiles || y in board.mines)
  {
    if AdjacentMineCount(board, coordinate) <= 0 {
      return Transition(state, []);
    }
    var neighbors := Neighbors(board.dimensions, coordinate);
    var flaggedNeighbors := CountIn(neighbors, state.flaggedTiles);
    if flaggedNeighbors != AdjacentMineCount(board, coordinate) {
      return Transition(state, []);
    }
    t := ChordWalk(state, coordinate, board, neighbors);
  }

  /** What an armed chord's walk produces, as ChordRevealIfPossible states it for an armed chord. */
  ghost predicate ChordOutcome(state: GameState, board: GameBoard, coordinate: Coordinate, t: Transition) {
    && t.state.settings == state.settings && t.state.board == state.board
    && state.revealedTiles <= t.state.revealedTiles
    && t.state.points == state.points + |NewSafe(state.revealedTiles, t.state.revealedTiles, board)| * RevealPoints
    && (forall x :: x in t.state.revealedTiles - state.revealedTiles ==> ChordAdded(state, board, coordinate, x) || x in board.mines)
    && ChordReach(board, coordinate, state.flaggedTiles, state.revealedTiles, t.state.revealedTiles)
    && (ChordHitsMine(state, board, coordinate) ==>
          && t == Loss(state.(revealedTiles := t.state.revealedTiles - (board.mines - state.revealedTiles), points := t.state.points), board)
          && RevealedUpToFirstMine(state, board, NeighborList(board.dimensions, coordinate), t.state.revealedTiles))
    && (!ChordHitsMine(state, board, coordinate) ==>
          && t == Completion(state.(revealedTiles := t.state.revealedTiles, neutralizedBombs := t.state.neutralizedBombs, points := t.state.points), board)
          && t.state.neutralizedBombs == state.neutralizedBombs + (t.state.revealedTiles - state.revealedTiles) * board.mines
          && (forall x :: x in t.state.revealedTiles - state.revealedTiles ==> ChordAdded(state, board, coordinate, x))
          && (forall n :: n in NeighborList(board.dimensions, coordinate) && ChordTarget(state, n) ==> n in t.state.revealedTiles)
          && RevealedUpToFirstMine(state, board, NeighborList(board.dimensions, coordinate), t.state.revealedTiles)
          && (forall x, y ::
                (x in t.state.revealedTiles - state.revealedTiles && x !in board.mines && AdjacentMineCount(board, x) == 0 &&
                 y in NeighborList(board.dimensions, x)) ==> y in t.state.revealedTiles || y in state.flaggedTiles || y in board.mines))
  }

  /** A walk stopped by a target mine outside Superhero ends in the loss ChordOutcome describes. */
  lemma ChordLossOutcome(state: GameState, board: GameBoard, coordinate: Coordinate, neighbors: seq<Coordinate>, i: int, next: GameState)
    requires neighbors == NeighborList(board.dimensions, coordinate)
    requires 0 <= i < |neighbors|
    requires ChordProgress(state, board, coordinate, neighbors, i, next)
    requires ChordTarget(state, neighbors[i]) && neighbors[i] in board.mines && !IsSuperheroActive(state)
    ensures ChordOutcome(state, board, coordinate, Loss(next, board))
  {
    ChordLossExit(state, board, coordinate, neighbors, i, next);
  }

  /** A walk over every neighbour ends in the win test ChordOutcome describes. */
  lemma ChordDoneOutcome(state: GameState, board: GameBoard, coordinate: Coordinate, neighbors: seq<Coordinate>, next: GameState)
    requires neighbors == NeighborList(board.dimensions, coordinate)
    requires ChordProgress(state, board, coordinate, neighbors, |neighbors|, next)
    ensures ChordOutcome(state, board, coordinate, Completion(next, board))
  {
    ChordDoneExit(state, board, coordinate, neighbors, next);
  }

  /**
   * One neighbour of the chord walk: a target mine is neutralized under Superhero and otherwise
   * stops the walk (`hit`, with the state untouched); a safe target is flood revealed and scored;
   * anything else is passed over.
   */
  method ChordVisit(state: GameState, coordinate: Coordinate, board: GameBoard, neighbors: seq<Coordinate>, i: int, next: GameState)
    returns (next': GameState, hit: bool)
    requires neighbors == NeighborList(board.dimensions, coordinate)
    requires 0 <= i < |neighbors|
    requires ChordProgress(state, board, coordinate, neighbors, i, next)
    ensures hit <==> ChordTarget(state, neighbors[i]) && neighbors[i] in board.mines && !IsSuperheroActive(state)
    ensures hit ==> next' == next
    ensures !hit ==> ChordProgress(state, board, coordinate, neighbors, i + 1, next')
  {
    var neighbor := neighbors[i];
    next', hit := next, false;
    if neighbor !in state.flaggedTiles && neighbor !in state.revealedTiles {
      if neighbor in board.mines {
        if IsSuperheroActive(state) {
          ChordNeutralizeStep(state, board, coordinate, neighbors, i, next);
          next' := next.(revealedTiles := next.revealedTiles + {neighbor}, neutralizedBombs := next.neutralizedBombs + {neighbor});
        } else {
          hit := true;
        }
      } else {
        var newSafe;
        next', newSafe := RevealAndScore(next, board, neighbor);
        ChordFloodStep(state, board, coordinate, neighbors, i, next, next');
      }
    } else {
      ChordSkipStep(state, board, coordinate, neighbors, i, next);
    }
  }

  /** The walk over an armed chord's neighbours, in neighbour order, stopping at the first mine hit outside Superhero. */
  method ChordWalk(state: GameState, coordinate: Coordinate, board: GameBoard, neighbors: seq<Coordinate>) returns (t: Transition)
    requires neighbors == NeighborList(board.dimensions, coordinate)
    requires ChordArmed(state, board, coordinate)
    ensures ChordOutcome(state, board, coordinate, t)
  {
    var next := state;
    for i := 0 to |neighbors|
      invariant ChordProgress(state, board, coordinate, neighbors, i, next)
    {
      var next', hit := ChordVisit(state, coordinate, board, neighbors, i, next);
      if hit {
        ChordLossOutcome(state, board, coordinate, neighbors, i, next);
        t := LoseRound(next, board);
        return;
      }
      next := next';
    }
    ChordDoneOutcome(state, board, coordinate, neighbors, next);
    t := CompleteIfWon(next, board);
  }

  // ---------------------------------------------------------------------------------------------
  // Tapping a cell

  /** The guards under which `tapCell` returns the state untouched and emits nothing. */
  predicate TapIgnored(state: GameState, coordinate: Coordinate) {
    || !CanInteractWithBoard(state)
    || state.funnyBoomOverlay.Some?
    || !IsValid(StateDimensions(state), coordinate)
    || coordinate in state.flaggedTiles
  }

  /** The state after a Superhero tap on a mine, before the win test. */
  function Neutralized(state: GameState, coordinate: Coordinate): GameState {
    state.(revealedTiles := state.revealedTiles + {coordinate},
           neutralizedBombs := state.neutralizedBombs + {coordinate},
           flaggedTiles := state.flaggedTiles - {coordinate})
  }

  /** The analytics event appended when the revealed tiles went from none to some. */
  function StartedEvents(previous: GameState, next: GameState): seq<Event> {
    if previous.revealedTiles == {} && next.revealedTiles != {} then [BoardStartedEvent(next)] else []
  }

  /** The events of a step end with the board-started event exactly when it is due, and no other such event occurs. */
  predicate StartReported(previous: GameState, t: Transition) {
    var started := StartedEvents(previous, t.state);
    && |started| <= |t.events|
    && t.events[|t.events| - |started|..] == started
    && forall i :: 0 <= i < |t.events| - |started| ==> !t.events[i].TrackBoardStarted?
  }

  /** So the event appears exactly when the revealed tiles went from none to some, and carries the new state's settings. */
  lemma StartReportedMeans(previous: GameState, t: Transition)
    requires StartReported(previous, t)
    ensures BoardStartedEvent(t.state) in t.events <==> previous.revealedTiles == {} && t.state.revealedTiles != {}
    ensures forall e :: e in t.events && e.TrackBoardStarted? ==> e == BoardStartedEvent(t.state)
  {
    var started := StartedEvents(previous, t.state);
    var n := |t.events| - |started|;
    forall i | 0 <= i < |t.events| && t.events[i].TrackBoardStarted?
      ensures i == n && started != [] && t.events[i] == BoardStartedEvent(t.state)
    {
      assert n <= i;
      assert t.events[i] == t.events[n..][i - n];
    }
    if started != [] {
      assert t.events[n] == t.events[n..][0];
    }
  }

  /** Events that never report a board start. */
  predicate NoStartEvents(events: seq<Event>) {
    forall i :: 0 <= i < |events| ==> !events[i].TrackBoardStarted?
  }

  /** Two event lists without a board start concatenate to one without. */
  lemma NoStartEventsConcat(a: seq<Event>, b: seq<Event>)
    requires NoStartEvents(a) && NoStartEvents(b)
    ensures NoStartEvents(a + b)
  {
    assert forall i :: |a| <= i < |a + b| ==> (a + b)[i] == b[i - |a|];
  }

  /** Appending the due board-started event to events without one reports the start correctly. */
  lemma AppendStartReported(previous: GameState, next: GameState, events: seq<Event>)
    requires NoStartEvents(events)
    ensures StartReported(previous, Transition(next, events + StartedEvents(previous, next)))
  {
    var all := events + StartedEvents(previous, next);
    assert all[|all| - |StartedEvents(previous, next)|..] == StartedEvents(previous, next);
    assert forall i :: 0 <= i < |events| ==> all[i] == events[i];
  }

  /** The mine branch of `tapCell`: under Superhero the mine is neutralized and the win test runs; otherwise the round is lost. */
  method TapMine(previous: GameState, next: GameState, board: GameBoard, coordinate: Coordinate) returns (t: Transition)
    ensures !IsSuperheroActive(next) ==>
              t.state == Loss(next, board).state && t.events == Loss(next, board).events + StartedEvents(previous, t.state)
    ensures IsSuperheroActive(next) ==>
              var completion := Completion(Neutralized(next, coordinate), board);
              t.state == completion.state && t.events == completion.events + StartedEvents(previous, t.state)
    ensures StartReported(previous, t)
  {
    var state := next;
    var events: seq<Event> := [];
    if IsSuperheroActive(state) {
      state := state.(revealedTiles := state.revealedTiles + {coordinate});
      state := state.(neutralizedBombs := state.neutralizedBombs + {coordinate});
      state := state.(flaggedTiles := state.flaggedTiles - {coordinate});
      var completion := CompleteIfWon(state, board);
      state := completion.state;
      events := events + completion.events;
      assert NoStartEvents(events);
      AppendStartReported(previous, state, events);
      events := AppendBoardStartedEventIfNeeded(previous, state, events);
      return Transition(state, events);
    }
    var loss := LoseRound(state, board);
    assert NoStartEvents(loss.events);
    AppendStartReported(previous, loss.state, loss.events);
    var lossEvents := AppendBoardStartedEventIfNeeded(previous, loss.state, loss.events);
    t := Transition(loss.state, lossEvents);
  }

  /**
   * The safe branch of `tapCell`: flood reveal and score, the special-effect roll, the win test and
   * the board-started event.
   */
  method TapSafe(previous: GameState, next: GameState, board: GameBoard, coordinate: Coordinate, deps: Dependencies, cursor: nat)
    returns (t: Transition, nextCursor: nat)
    requires next.board == Some(board)
    requires coordinate !in next.revealedTiles && coordinate !in next.flaggedTiles && coordinate !in board.mines
    requires IsValid(board.dimensions, coordinate)
    ensures t.state.settings == next.settings && t.state.board == next.board && t.state.flaggedTiles == next.flaggedTiles
    ensures t.state.explosionSequence == next.explosionSequence
    ensures t.state.phase == next.phase || t.state.phase == Won
    ensures FloodAdded(board, coordinate, next.flaggedTiles, next.revealedTiles, t.state.revealedTiles)
    ensures SafeTapKeeps(next, t.state, coordinate)
    ensures t.state.points - t.state.bonusPoints
            == next.points - next.bonusPoints + |t.state.revealedTiles - next.revealedTiles| * RevealPoints
    ensures WinTested(board, next.phase, next.pendingVictory, t)
    ensures cursor <= nextCursor
    ensures StartReported(previous, t)
  {
    var state, newSafe := RevealAndScore(next, board, coordinate);
    assert FloodAdded(board, coordinate, next.flaggedTiles, next.revealedTiles, state.revealedTiles);
    var effectState, effectEvents, effectCursor := MaybeApplySpecialEffect(state, board, coordinate, newSafe, deps, cursor);
    var completion := CompleteIfWon(effectState, board);
    assert completion.state.revealedTiles == state.revealedTiles && completion.state.flaggedTiles == next.flaggedTiles;
    assert completion.state.revealedTiles - next.revealedTiles == newSafe;
    assert completion.state.points - completion.state.bonusPoints == state.points - state.bonusPoints;
    assert SafeTapKeeps(next, completion.state, coordinate);
    var events := effectEvents + completion.events;
    assert NoStartEvents(events) by {
      assert NoStartEvents(effectEvents) && NoStartEvents(completion.events);
      NoStartEventsConcat(effectEvents, completion.events);
    }
    AppendStartReported(previous, completion.state, events);
    events := AppendBoardStartedEventIfNeeded(previous, completion.state, events);
    assert events == effectEvents + completion.events + StartedEvents(previous, completion.state);
    assert PlaySound(Victory) !in effectEvents + StartedEvents(previous, completion.state);
    t, nextCursor := Transition(completion.state, events), effectCursor;
  }

  /**
   * What `tapCell` does to the state and the events, with board generation drawing from `cursor`.
   * The guards leave the state untouched; the settings never change, nor does a board once generated;
   * the start of the board is reported correctly; and the explosion counter rises by at most one.
   */
  ghost predicate TapOutcome(state: GameState, coordinate: Coordinate, deps: Dependencies, cursor: nat, t: Transition) {
    && (TapIgnored(state, coordinate) ==> t == Transition(state, []))
    && state.explosionSequence <= t.state.explosionSequence <= state.explosionSequence + 1
    && StartReported(state, t)
    && t.state.settings == state.settings
    && (state.board.Some? ==> t.state.board == state.board)
    && (!TapIgnored(state, coordinate) && state.board.None? ==>
          t.state.board == Some(GenerateSpec(state.settings, coordinate, deps.draws, cursor).0))
    // The first tap generates the board around the tapped cell, which is then revealed.
    && (!TapIgnored(state, coordinate) && state.board.None? && coordinate !in state.revealedTiles ==>
          && coordinate !in GenerateSpec(state.settings, coordinate, deps.draws, cursor).0.mines
          && coordinate in t.state.revealedTiles
          && (t.state.phase == Running || t.state.phase == Won))
    // A revealed cell is a chord: nothing unless armed, otherwise the chord's walk.
    && (!TapIgnored(state, coordinate) && state.board.Some? && coordinate in state.revealedTiles ==>
          && (!ChordArmed(state, state.board.value, coordinate) ==> t == Transition(state, []))
          && (ChordArmed(state, state.board.value, coordinate) ==> ChordOutcome(state, state.board.value, coordinate, t)))
    // A mine without Superhero loses the round.
    && (!TapIgnored(state, coordinate) && state.board.Some? && coordinate !in state.revealedTiles
        && coordinate in state.board.value.mines && !IsSuperheroActive(state) ==>
          && t.state == Loss(state, state.board.value).state
          && t.events == Loss(state, state.board.value).events + StartedEvents(state, t.state))
    // A mine under Superhero is revealed and neutralized instead, then the win test runs.
    && (!TapIgnored(state, coordinate) && state.board.Some? && coordinate !in state.revealedTiles
        && coordinate in state.board.value.mines && IsSuperheroActive(state) ==>
          var completion := Completion(Neutralized(state, coordinate), state.board.value);
          && t.state == completion.state
          && t.events == completion.events + StartedEvents(state, t.state))
    // A safe cell is flood revealed, each new tile scores one point besides any bonus or malus, and the win test runs.
    && (!TapIgnored(state, coordinate) && coordinate !in state.revealedTiles
        && (state.board.None? || coordinate !in state.board.value.mines) ==>
          && t.state.board.Some?
          && FloodAdded(t.state.board.value, coordinate, state.flaggedTiles, state.revealedTiles, t.state.revealedTiles)
          && SafeTapKeeps(state, t.state, coordinate)
          && t.state.points - t.state.bonusPoints
             == state.points - state.bonusPoints + |t.state.revealedTiles - state.revealedTiles| * RevealPoints
          && t.state.flaggedTiles == state.flaggedTiles
          && t.state.explosionSequence == state.explosionSequence
          && WinTested(t.state.board.value, if state.board.None? then Running else state.phase, state.pendingVictory, t))
  }

  /**
   * `tapCell(state:coordinate:dependencies:)`. The draws consumed by board generation and by the
   * special-effect index are counted from `cursor`; `nextCursor` is the first draw left unused.
   */
  method TapCell(state: GameState, coordinate: Coordinate, deps: Dependencies, cursor: nat) returns (t: Transition, nextCursor: nat)
    ensures TapOutcome(state, coordinate, deps, cursor, t)
    ensures TapIgnored(state, coordinate) ==> nextCursor == cursor
    ensures cursor <= nextCursor
    // Generation uses the first draws, the special-effect index any later one.
    ensures !TapIgnored(state, coordinate) && state.board.None? ==>
              GenerateSpec(state.settings, coordinate, deps.draws, cursor).1 <= nextCursor
    // A mine and a chord draw nothing.
    ensures !TapIgnored(state, coordinate) && state.board.Some? && coordinate in state.revealedTiles ==> nextCursor == cursor
    ensures !TapIgnored(state, coordinate) && state.board.Some? && coordinate in state.board.value.mines ==> nextCursor == cursor
  {
    nextCursor := cursor;
    if !CanInteractWithBoard(state) || state.funnyBoomOverlay.Some? || !IsValid(StateDimensions(state), coordinate) {
      t := Transition(state, []);
      AppendStartReported(state, state, []);
      return;
    }
    var next := state;
    if coordinate in next.flaggedTiles {
      t := Transition(next, []);
      AppendStartReported(state, state, []);
      return;
    }
    if next.board.None? {
      var generated, after := Generate(next.settings, coordinate, deps.draws, cursor);
      GenerateFacts(next.settings, coordinate, deps.draws, cursor);
      next := next.(board := Some(generated));
      next := next.(phase := Running);
      nextCursor := after;
    }
    t, nextCursor := TapBoard(state, next, next.board.value, coordinate, deps, nextCursor);
  }

  /**
   * The flood stops at a numbered cell: a tap that reaches an unrevealed safe cell with a mine next
   * to it reveals that cell and nothing else.
   */
  lemma NumberedTapRevealsOnlyIt(state: GameState, coordinate: Coordinate, deps: Dependencies, cursor: nat, t: Transition)
    requires TapOutcome(state, coordinate, deps, cursor, t)
    requires !TapIgnored(state, coordinate) && coordinate !in state.revealedTiles
    requires state.board.None? || coordinate !in state.board.value.mines
    requires t.state.board.Some? && AdjacentMineCount(t.state.board.value, coordinate) != 0
    ensures t.state.revealedTiles == state.revealedTiles + {coordinate}
  {
    FloodFromNumberedCell(t.state.board.value, coordinate, state.revealedTiles, t.state.revealedTiles);
  }

  /** A reveal whose new tiles are all reached from a numbered origin, which is among them, adds the origin alone. */
  lemma FloodFromNumberedCell(board: GameBoard, origin: Coordinate, before: set<Coordinate>, after: set<Coordinate>)
    requires before <= after && origin in after && origin !in before
    requires forall x :: x in after - before ==> FloodReached(board, origin, x, after - before)
    requires AdjacentMineCount(board, origin) != 0
    ensures after == before + {origin}
  {
    forall x | x in after - before ensures x == origin {
      FloodStopsAtNumberedCell(board, origin, x, after - before);
    }
    assert after - before == {origin};
  }

  /**
   * The part of `tapCell` after the guards and board generation: a revealed cell is a chord, a mine
   * is lost or neutralized, and a safe cell is flood revealed.
   */
  method TapBoard(previous: GameState, next: GameState, board: GameBoard, coordinate: Coordinate, deps: Dependencies, cursor: nat)
    returns (t: Transition, nextCursor: nat)
    requires next.board == Some(board)
    requires IsValid(board.dimensions, coordinate) && coordinate !in next.flaggedTiles
    requires next.revealedTiles == previous.revealedTiles
    ensures next.explosionSequence <= t.state.explosionSequence <= next.explosionSequence + 1
    ensures cursor <= nextCursor
    ensures StartReported(previous, t)
    ensures t.state.settings == next.settings && t.state.board == next.board
    ensures coordinate in next.revealedTiles ==> nextCursor == cursor
    ensures coordinate in next.revealedTiles ==>
              && (!ChordArmed(next, board, coordinate) ==> t == Transition(next, []))
              && (ChordArmed(next, board, coordinate) ==> ChordOutcome(next, board, coordinate, t))
    ensures coordinate !in next.revealedTiles && coordinate in board.mines && !IsSuperheroActive(next) ==>
              && t.state == Loss(next, board).state
              && t.events == Loss(next, board).events + StartedEvents(previous, t.state)
              && nextCursor == cursor
    ensures coordinate !in next.revealedTiles && coordinate in board.mines && IsSuperheroActive(next) ==>
              var completion := Completion(Neutralized(next, coordinate), board);
              && t.state == completion.state
              && t.events == completion.events + StartedEvents(previous, t.state)
              && nextCursor == cursor
    ensures coordinate !in next.revealedTiles && coordinate !in board.mines ==>
              && FloodAdded(board, coordinate, next.flaggedTiles, next.revealedTiles, t.state.revealedTiles)
              && SafeTapKeeps(next, t.state, coordinate)
              && t.state.points - t.state.bonusPoints
                 == next.points - next.bonusPoints + |t.state.revealedTiles - next.revealedTiles| * RevealPoints
              && t.state.flaggedTiles == next.flaggedTiles
              && t.state.explosionSequence == next.explosionSequence
              && WinTested(board, next.phase, next.pendingVictory, t)
  {
    nextCursor := cursor;
    if coordinate in next.revealedTiles {
      t := TapChord(previous, next, board, coordinate);
      return;
    }
    if coordinate in board.mines {
      t := TapMine(previous, next, board, coordinate);
      return;
    }
    t, nextCursor := TapSafe(previous, next, board, coordinate, deps, cursor);
  }

  /** A tap on a revealed cell is a chord, returned as it stands: it never reports a board start. */
  method TapChord(previous: GameState, next: GameState, board: GameBoard, coordinate: Coordinate) returns (t: Transition)
    requires next.board == Some(board)
    requires next.revealedTiles == previous.revealedTiles && coordinate in next.revealedTiles
    ensures !ChordArmed(next, board, coordinate) ==> t == Transition(next, [])
    ensures ChordArmed(next, board, coordinate) ==> ChordOutcome(next, board, coordinate, t)
    ensures t.state.settings == next.settings && t.state.board == next.board
    ensures next.explosionSequence <= t.state.explosionSequence <= next.explosionSequence + 1
    ensures StartReported(previous, t)
  {
    t := ChordRevealIfPossible(next, coordinate, board);
    ChordEvents(next, coordinate, board, t);
    AppendStartReported(previous, t.state, t.events);
  }

  /** A chord's events are empty, the victory sound, or the loss pair; it never reports a board start. */
  lemma ChordEvents(state: GameState, coordinate: Coordinate, board: GameBoard, t: Transition)
    requires !ChordArmed(state, board, coordinate) ==> t == Transition(state, [])
    requires ChordArmed(state, board, coordinate) && ChordHitsMine(state, board, coordinate) ==>
               exists mid :: t == Loss(mid, board)
    requires ChordArmed(state, board, coordinate) && !ChordHitsMine(state, board, coordinate) ==>
               exists mid :: t == Completion(mid, board)
    ensures NoStartEvents(t.events)
  {
  }

  // ---------------------------------------------------------------------------------------------
  // Flags and the clown hunt

  /** The flag set with the coordinate's membership flipped. */
  function Toggled(flags: set<Coordinate>, c: Coordinate): (r: set<Coordinate>)
    ensures c in r <==> c !in flags
    ensures forall x :: x != c ==> (x in r <==> x in flags)
  {
    if c in flags then flags - {c} else flags + {c}
  }

  /** The guards under which `toggleFlag` does nothing. */
  predicate FlagIgnored(state: GameState, coordinate: Coordinate) {
    !CanInteractWithBoard(state) || state.funnyBoomOverlay.Some? || coordinate in state.revealedTiles
  }

  /**
   * `toggleFlag(state:coordinate:)`: unless ignored, the coordinate's flag is flipped, with the
   * flag sound only when a flag is placed; nothing else changes.
   */
  method ToggleFlag(state: GameState, coordinate: Coordinate) returns (t: Transition)
    ensures FlagIgnored(state, coordinate) ==> t == Transition(state, [])
    ensures !FlagIgnored(state, coordinate) ==>
              && t.state == state.(flaggedTiles := Toggled(state.flaggedTiles, coordinate))
              && t.events == (if coordinate in state.flaggedTiles then [] else [PlaySound(FlagPlaced)])
  {
    if !CanInteractWithBoard(state) || state.funnyBoomOverlay.Some? {
      return Transition(state, []);
    }
    var next := state;
    if coordinate in next.revealedTiles {
      return Transition(next, []);
    }
    var events: seq<Event> := [];
    if coordinate in next.flaggedTiles {
      next := next.(flaggedTiles := next.flaggedTiles - {coordinate});
    } else {
      next := next.(flaggedTiles := next.flaggedTiles + {coordinate});
      events := events + [PlaySound(FlagPlaced)];
    }
    t := Transition(next, events);
  }

  /**
   * Toggling a flag leaves the guards as they were, so a second toggle on the same cell is not
   * ignored either and restores the flags: toggling twice is the identity on the state.
   */
  lemma ToggleTwiceRestores(state: GameState, coordinate: Coordinate)
    requires !FlagIgnored(state, coordinate)
    ensures var once := state.(flaggedTiles := Toggled(state.flaggedTiles, coordinate));
            && !FlagIgnored(once, coordinate)
            && once.(flaggedTiles := Toggled(once.flaggedTiles, coordinate)) == state
  {
    var once := state.(flaggedTiles := Toggled(state.flaggedTiles, coordinate));
    assert Toggled(once.flaggedTiles, coordinate) == state.flaggedTiles;
  }

  /** The guards of `tapFunnyBoomCell`: a running round with an overlay that takes taps. */
  predicate HuntOpen(state: GameState) {
    state.phase == Running && state.funnyBoomOverlay.Some? && IsInteractive(state.funnyBoomOverlay.value)
  }

  /**
   * `tapFunnyBoomCell(state:coordinate:)`: the first tap on a clown scores the event points as
   * points and bonus and shows a pulse there; the first tap elsewhere records a miss; a repeated
   * tap, or a tap while the hunt is not open, changes nothing. The clowns are never changed.
   */
  method TapFunnyBoomCell(state: GameState, coordinate: Coordinate) returns (next: GameState)
    ensures !HuntOpen(state) ==> next == state
    ensures HuntOpen(state) ==>
              var overlay := state.funnyBoomOverlay.value;
              && (coordinate in overlay.clownTiles && coordinate !in overlay.revealedClowns ==>
                    next == state.(points := state.points + EventPoints, bonusPoints := state.bonusPoints + EventPoints,
                                   tileScorePulses := state.tileScorePulses[coordinate := Pulse(coordinate, EventPoints, TileScorePulseDuration)],
                                   funnyBoomOverlay := Some(overlay.(revealedClowns := overlay.revealedClowns + {coordinate}))))
              && (coordinate !in overlay.clownTiles && coordinate !in overlay.revealedMisses ==>
                    next == state.(funnyBoomOverlay := Some(overlay.(revealedMisses := overlay.revealedMisses + {coordinate}))))
              && (coordinate in overlay.clownTiles && coordinate in overlay.revealedClowns ==> next == state)
              && (coordinate !in overlay.clownTiles && coordinate in overlay.revealedMisses ==> next == state)
    ensures next.funnyBoomOverlay.Some? == state.funnyBoomOverlay.Some?
    ensures next.funnyBoomOverlay.Some? ==> next.funnyBoomOverlay.value.clownTiles == state.funnyBoomOverlay.value.clownTiles
  {
    if state.phase != Running {
      return state;
    }
    if state.funnyBoomOverlay.None? {
      return state;
    }
    var overlay := state.funnyBoomOverlay.value;
    if !IsInteractive(overlay) {
      return state;
    }
    next := state;
    if coordinate in overlay.clownTiles {
      if coordinate in overlay.revealedClowns {
        return state;
      }
      overlay := overlay.(revealedClowns := overlay.revealedClowns + {coordinate});
      next := next.(points := next.points + EventPoints);
      next := next.(bonusPoints := next.bonusPoints + EventPoints);
      var pulsed := EnqueueTileScorePulse(next, coordinate, EventPoints);
      assert pulsed.tileScorePulses == next.tileScorePulses[coordinate := Pulse(coordinate, EventPoints, TileScorePulseDuration)];
      next := pulsed;
    } else {
      if coordinate in overlay.revealedMisses {
        return state;
      }
      overlay := overlay.(revealedMisses := overlay.revealedMisses + {coordinate});
    }
    next := next.(funnyBoomOverlay := Some(overlay));
  }
}
