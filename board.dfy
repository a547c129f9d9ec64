/**
 * Board geometry, difficulty and size presets, and safe-first-tap mine placement
 * (FunnyBoom/Domain/Model/Board.swift).
 *
 * The injected `randomInt` collaborator is a stream of raw draws: `draws(k)` is what its k-th call
 * during one reduction returns. Every consumer clamps the draw itself, so the stream is an
 * arbitrary `nat -> int`; methods that draw take the cursor of the next unread draw and return the
 * cursor after their last draw.
 */
module Board {
  import opened Prelude

  // ---------------------------------------------------------------------------------------------
  // Dimensions and coordinates

  /** A pair of side lengths as given to the initializer. */
  datatype Size = Size(rows: int, columns: int)

  /** `BoardDimensions`: its only initializer clamps both sides to at least 2, so every value has that shape. */
  type Dimensions = s: Size | s.rows >= 2 && s.columns >= 2 witness Size(2, 2)

  /** `BoardDimensions.init(rows:columns:)`. */
  function MakeDimensions(rows: int, columns: int): (d: Dimensions)
    ensures d.rows >= 2 && d.columns >= 2
    ensures rows >= 2 ==> d.rows == rows
    ensures rows < 2 ==> d.rows == 2
    ensures columns >= 2 ==> d.columns == columns
    ensures columns < 2 ==> d.columns == 2
  {
    Size(Max(2, rows), Max(2, columns))
  }

  function CellCount(d: Dimensions): (n: int)
    ensures n >= 4
  {
    assert d.rows * d.columns >= 2 * d.columns;
    d.rows * d.columns
  }

  datatype Coordinate = Coordinate(row: int, column: int)

  predicate IsValid(d: Dimensions, c: Coordinate) {
    0 <= c.row < d.rows && 0 <= c.column < d.columns
  }

  /** Every coordinate on a board with dimensions d. */
  function AllCells(d: Dimensions): set<Coordinate> {
    set r: int, c: int | 0 <= r < d.rows && 0 <= c < d.columns :: Coordinate(r, c)
  }

  lemma AllCellsAreTheValidOnes(d: Dimensions, x: Coordinate)
    ensures x in AllCells(d) <==> IsValid(d, x)
  {
    if IsValid(d, x) {
      assert x == Coordinate(x.row, x.column);
    }
  }

  /** Row-major order: `a` comes strictly before `b`. */
  predicate RowMajorBefore(a: Coordinate, b: Coordinate) {
    a.row < b.row || (a.row == b.row && a.column < b.column)
  }

  /** (row, 0), (row, 1), …, (row, n - 1). */
  function RowPrefix(row: int, n: int): seq<Coordinate>
    decreases n
  {
    if n <= 0 then [] else RowPrefix(row, n - 1) + [Coordinate(row, n - 1)]
  }

  /** Rows 0 … n - 1 of a grid with the given number of columns, each row left to right. */
  function GridPrefix(columns: int, n: int): seq<Coordinate>
    decreases n
  {
    if n <= 0 then [] else GridPrefix(columns, n - 1) + RowPrefix(n - 1, columns)
  }

  /** The list `allCoordinates` returns. */
  function RowMajor(d: Dimensions): seq<Coordinate> {
    GridPrefix(d.columns, d.rows)
  }

  lemma {:induction false} RowPrefixFacts(row: int, n: int)
    requires n >= 0
    ensures |RowPrefix(row, n)| == n
    ensures forall i :: 0 <= i < n ==> RowPrefix(row, n)[i] == Coordinate(row, i)
    decreases n
  {
    if n > 0 {
      RowPrefixFacts(row, n - 1);
    }
  }

  lemma {:induction false} GridPrefixLength(columns: int, n: int)
    requires columns >= 0 && n >= 0
    ensures |GridPrefix(columns, n)| == n * columns
    decreases n
  {
    if n > 0 {
      GridPrefixLength(columns, n - 1);
      RowPrefixFacts(n - 1, columns);
      assert |GridPrefix(columns, n)| == (n - 1) * columns + columns;
    }
  }

  lemma {:induction false} GridPrefixMembers(columns: int, n: int)
    requires columns >= 0 && n >= 0
    ensures forall x: Coordinate :: x in GridPrefix(columns, n) <==> 0 <= x.row < n && 0 <= x.column < columns
    decreases n
  {
    if n > 0 {
      GridPrefixMembers(columns, n - 1);
      RowPrefixFacts(n - 1, columns);
      var a, b := GridPrefix(columns, n - 1), RowPrefix(n - 1, columns);
      assert GridPrefix(columns, n) == a + b;
      forall x: Coordinate
        ensures x in a + b <==> 0 <= x.row < n && 0 <= x.column < columns
      {
        if x.row == n - 1 && 0 <= x.column < columns {
          assert b[x.column] == x;
        }
      }
    }
  }

  lemma {:induction false} GridPrefixOrdered(columns: int, n: int)
    requires columns >= 0 && n >= 0
    ensures forall i, j :: 0 <= i < j < |GridPrefix(columns, n)| ==>
              RowMajorBefore(GridPrefix(columns, n)[i], GridPrefix(columns, n)[j])
    decreases n
  {
    if n > 0 {
      GridPrefixOrdered(columns, n - 1);
      GridPrefixMembers(columns, n - 1);
      RowPrefixFacts(n - 1, columns);
      var a, b := GridPrefix(columns, n - 1), RowPrefix(n - 1, columns);
      assert GridPrefix(columns, n) == a + b;
      forall i, j | 0 <= i < j < |a + b|
        ensures RowMajorBefore((a + b)[i], (a + b)[j])
      {
        if j < |a| {
          assert (a + b)[i] == a[i] && (a + b)[j] == a[j];
        } else if i < |a| {
          assert (a + b)[i] == a[i] && a[i] in a;
        } else {
          assert (a + b)[i] == b[i - |a|] && (a + b)[j] == b[j - |a|];
        }
      }
    }
  }

  /** `allCoordinates` lists exactly the cells of the board, each once, in row-major order. */
  lemma RowMajorFacts(d: Dimensions)
    ensures |RowMajor(d)| == CellCount(d)
    ensures forall i :: 0 <= i < |RowMajor(d)| ==> IsValid(d, RowMajor(d)[i])
    ensures forall i, j :: 0 <= i < j < |RowMajor(d)| ==> RowMajorBefore(RowMajor(d)[i], RowMajor(d)[j])
    ensures Distinct(RowMajor(d))
    ensures forall x :: x in RowMajor(d) <==> IsValid(d, x)
    ensures (set x | x in RowMajor(d)) == AllCells(d)
  {
    GridPrefixLength(d.columns, d.rows);
    GridPrefixMembers(d.columns, d.rows);
    GridPrefixOrdered(d.columns, d.rows);
    assert forall i :: 0 <= i < |RowMajor(d)| ==> RowMajor(d)[i] in RowMajor(d);
    forall x ensures x in AllCells(d) <==> IsValid(d, x) {
      AllCellsAreTheValidOnes(d, x);
    }
  }

  /** The board has exactly `cellCount` cells. */
  lemma AllCellsCount(d: Dimensions)
    ensures |AllCells(d)| == CellCount(d)
  {
    RowMajorFacts(d);
    DistinctCardinality(RowMajor(d));
  }

  /** `BoardDimensions.allCoordinates`: two nested loops appending row by row. */

  method AllCoordinates(d: Dimensions) returns (result: seq<Coordinate>)
    ensures result == RowMajor(d)
    ensures |result| == CellCount(d) && Distinct(result)
    ensures forall x :: x in result <==> IsValid(d, x)
    ensures forall i, j :: 0 <= i < j < |result| ==> RowMajorBefore(result[i], result[j])
  {
    result := [];
    for row := 0 to d.rows
      invariant result == GridPrefix(d.columns, row)
    {
      for column := 0 to d.columns
        invariant result == GridPrefix(d.columns, row) + RowPrefix(row, column)
      {
        result := result + [Coordinate(row, column)];
      }
    }
    RowMajorFacts(d);
  }

  // ---------------------------------------------------------------------------------------------
  // The 8-neighbourhood

  /** The 3 × 3 block centred on c, row by row: offsets (-1, -1), (-1, 0), …, (1, 1). */
  function Block(c: Coordinate): seq<Coordinate> {
    seq(9, k requires 0 <= k < 9 => Coordinate(c.row + k / 3 - 1, c.column + k % 3 - 1))
  }

  /** The elements of xs that lie on the board and are not c, in their order. */
  function KeepNeighbors(d: Dimensions, c: Coordinate, xs: seq<Coordinate>): seq<Coordinate>
    decreases |xs|
  {
    if xs == [] then []
    else
      var last := xs[|xs| - 1];
      KeepNeighbors(d, c, xs[..|xs| - 1]) + (if last != c && IsValid(d, last) then [last] else [])
  }

  /** The list `neighbors(of:)` returns. */
  function NeighborList(d: Dimensions, c: Coordinate): seq<Coordinate> {
    KeepNeighbors(d, c, Block(c))
  }

  /** Chebyshev distance exactly 1. */
  predicate Adjacent(a: Coordinate, b: Coordinate) {
    a != b && -1 <= a.row - b.row <= 1 && -1 <= a.column - b.column <= 1
  }

  lemma {:induction false} KeepNeighborsFacts(d: Dimensions, c: Coordinate, xs: seq<Coordinate>)
    ensures forall x :: x in KeepNeighbors(d, c, xs) <==> x in xs && x != c && IsValid(d, x)
    ensures |KeepNeighbors(d, c, xs)| <= |xs|
    ensures c in xs ==> |KeepNeighbors(d, c, xs)| < |xs|
    ensures Distinct(xs) ==> Distinct(KeepNeighbors(d, c, xs))
    decreases |xs|
  {
    if xs != [] {
      var init, last := xs[..|xs| - 1], xs[|xs| - 1];
      KeepNeighborsFacts(d, c, init);
      assert xs == init + [last];
      DistinctSnoc(init, last);
    }
  }

  lemma BlockFacts(c: Coordinate)
    ensures forall x: Coordinate :: x in Block(c) <==> -1 <= x.row - c.row <= 1 && -1 <= x.column - c.column <= 1
    ensures c in Block(c)
    ensures Distinct(Block(c))
  {
    forall x: Coordinate | -1 <= x.row - c.row <= 1 && -1 <= x.column - c.column <= 1
      ensures x in Block(c)
    {
      var k := 3 * (x.row - c.row + 1) + (x.column - c.column + 1);
      assert Block(c)[k] == x;
    }
    assert Block(c)[4] == c;
  }

  /** `neighbors(of:)`: the at most 8 board cells at Chebyshev distance 1 from c, each once. */
  lemma NeighborFacts(d: Dimensions, c: Coordinate)
    ensures |NeighborList(d, c)| <= 8
    ensures forall x :: x in NeighborList(d, c) <==> IsValid(d, x) && Adjacent(x, c)
    ensures c !in NeighborList(d, c)
    ensures Distinct(NeighborList(d, c))
  {
    BlockFacts(c);
    KeepNeighborsFacts(d, c, Block(c));
  }

  /** The cell of the block at offset (rowOffset, columnOffset). */
  lemma BlockAt(c: Coordinate, rowOffset: int, columnOffset: int)
    requires -1 <= rowOffset <= 1 && -1 <= columnOffset <= 1
    ensures Block(c)[3 * (rowOffset + 1) + columnOffset + 1] == Coordinate(c.row + rowOffset, c.column + columnOffset)
  {
    var k := 3 * (rowOffset + 1) + columnOffset + 1;
    assert k / 3 == rowOffset + 1 && k % 3 == columnOffset + 1;
  }

  /** One more element of a prefix adds at most that element to the kept neighbours. */
  lemma KeepNeighborsPrefixStep(d: Dimensions, c: Coordinate, xs: seq<Coordinate>, k: int)
    requires 0 <= k < |xs|
    ensures KeepNeighbors(d, c, xs[..k + 1]) == KeepNeighbors(d, c, xs[..k]) + (if xs[k] != c && IsValid(d, xs[k]) then [xs[k]] else [])
  {
    assert xs[..k + 1][..k] == xs[..k];
  }

  /** One step of the offset loops: the block cell at (rowOffset, columnOffset) is kept exactly when it is not c and on the board. */
  lemma NeighborLoopStep(d: Dimensions, c: Coordinate, rowOffset: int, columnOffset: int, k: int)
    requires -1 <= rowOffset <= 1 && -1 <= columnOffset <= 1
    requires k == 3 * (rowOffset + 1) + columnOffset + 1
    ensures var neighbor := Coordinate(c.row + rowOffset, c.column + columnOffset);
            KeepNeighbors(d, c, Block(c)[..k + 1])
            == KeepNeighbors(d, c, Block(c)[..k]) + (if !(rowOffset == 0 && columnOffset == 0) && IsValid(d, neighbor) then [neighbor] else [])
  {
    KeepNeighborsPrefixStep(d, c, Block(c), k);
    BlockAt(c, rowOffset, columnOffset);
    var neighbor := Coordinate(c.row + rowOffset, c.column + columnOffset);
    assert neighbor == c <==> rowOffset == 0 && columnOffset == 0;
  }

  /** The inner offset loop of `neighbors(of:)`: the row at rowOffset, appended to what the earlier rows kept. */
  method AppendNeighborRow(d: Dimensions, c: Coordinate, rowOffset: int, kept: seq<Coordinate>) returns (result: seq<Coordinate>)
    requires -1 <= rowOffset <= 1
    requires kept == KeepNeighbors(d, c, Block(c)[..3 * (rowOffset + 1)])
    ensures result == KeepNeighbors(d, c, Block(c)[..3 * (rowOffset + 2)])
  {
    result := kept;
    for columnOffset := -1 to 2
      invariant result == KeepNeighbors(d, c, Block(c)[..3 * (rowOffset + 1) + columnOffset + 1])
    {
      NeighborLoopStep(d, c, rowOffset, columnOffset, 3 * (rowOffset + 1) + columnOffset + 1);
      if !(rowOffset == 0 && columnOffset == 0) {
        var neighbor := Coordinate(c.row + rowOffset, c.column + columnOffset);
        if IsValid(d, neighbor) {
          result := result + [neighbor];
        }
      }
    }
  }

  /** `GameBoard.neighbors(of:)` (and the private `neighbors(for:in:)`): two nested offset loops, the inner one in AppendNeighborRow. */
  method Neighbors(d: Dimensions, c: Coordinate) returns (result: seq<Coordinate>)
    ensures result == NeighborList(d, c)
  {
    result := [];
    for rowOffset := -1 to 2
      invariant result == KeepNeighbors(d, c, Block(c)[..3 * (rowOffset + 1)])
    {
      result := AppendNeighborRow(d, c, rowOffset, result);
    }
    assert Block(c)[..9] == Block(c);
  }

  /** How many elements of xs are in s: the `filter { s.contains($0) }.count` of the source. */
  function CountIn(xs: seq<Coordinate>, s: set<Coordinate>): (n: nat)
    ensures n <= |xs|
    decreases |xs|
  {
    if xs == [] then 0 else CountIn(xs[..|xs| - 1], s) + (if xs[|xs| - 1] in s then 1 else 0)
  }

  /** The elements of xs that are not in excluded, in their order: the source's `filter { !excluded.contains($0) }`. */
  function Without(xs: seq<Coordinate>, excluded: set<Coordinate>): seq<Coordinate>
    decreases |xs|
  {
    if xs == [] then []
    else Without(xs[..|xs| - 1], excluded) + (if xs[|xs| - 1] in excluded then [] else [xs[|xs| - 1]])
  }

  /** `Without` keeps exactly the elements not excluded; on a repetition-free list it loses one per excluded element. */
  lemma WithoutFacts(xs: seq<Coordinate>, excluded: set<Coordinate>)
    ensures forall x :: x in Without(xs, excluded) <==> x in xs && x !in excluded
    ensures Distinct(xs) ==> Distinct(Without(xs, excluded))
    ensures Distinct(xs) && excluded <= (set x | x in xs) ==> |Without(xs, excluded)| == |xs| - |excluded|
  {
    WithoutMembers(xs, excluded);
    WithoutDistinct(xs, excluded);
    if Distinct(xs) && excluded <= (set x | x in xs) {
      WithoutLength(xs, excluded);
    }
  }

  lemma {:induction false} WithoutMembers(xs: seq<Coordinate>, excluded: set<Coordinate>)
    ensures forall x :: x in Without(xs, excluded) <==> x in xs && x !in excluded
    decreases |xs|
  {
    if xs != [] {
      assert xs == xs[..|xs| - 1] + [xs[|xs| - 1]];
      WithoutMembers(xs[..|xs| - 1], excluded);
    }
  }

  lemma {:induction false} WithoutDistinct(xs: seq<Coordinate>, excluded: set<Coordinate>)
    ensures Distinct(xs) ==> Distinct(Without(xs, excluded))
    decreases |xs|
  {
    if xs != [] {
      var init, last := xs[..|xs| - 1], xs[|xs| - 1];
      assert xs == init + [last];
      DistinctSnoc(init, last);
      WithoutDistinct(init, excluded);
      WithoutMembers(init, excluded);
      DistinctSnoc(Without(init, excluded), last);
    }
  }

  lemma {:induction false} WithoutLength(xs: seq<Coordinate>, excluded: set<Coordinate>)
    requires Distinct(xs) && excluded <= (set x | x in xs)
    ensures |Without(xs, excluded)| == |xs| - |excluded|
    decreases |xs|
  {
    if xs != [] {
      var init, last := xs[..|xs| - 1], xs[|xs| - 1];
      assert xs == init + [last];
      DistinctSnoc(init, last);
      var initExcluded := excluded - {last};
      assert initExcluded <= (set x | x in init);
      WithoutLength(init, initExcluded);
      WithoutAgrees(init, excluded, initExcluded);
      if last in excluded {
        assert |excluded| == |initExcluded| + 1;
      } else {
        assert initExcluded == excluded;
      }
    }
  }

  /** Excluding values that do not occur changes nothing. */
  lemma {:induction false} WithoutAgrees(xs: seq<Coordinate>, e1: set<Coordinate>, e2: set<Coordinate>)
    requires forall x :: x in xs ==> (x in e1 <==> x in e2)
    ensures Without(xs, e1) == Without(xs, e2)
    decreases |xs|
  {
    if xs != [] {
      assert forall x :: x in xs[..|xs| - 1] ==> x in xs;
      WithoutAgrees(xs[..|xs| - 1], e1, e2);
    }
  }

  // ---------------------------------------------------------------------------------------------
  // Difficulty, size presets and settings

  datatype Difficulty = Debutant | Amateur | Expert | Veteran | Migraine

  /** `mineDensity` as a whole percentage (0.09 … 0.22). */
  function MineDensityPercent(difficulty: Difficulty): int {
    match difficulty
    case Debutant => 9
    case Amateur => 13
    case Expert => 16
    case Veteran => 19
    case Migraine => 22
  }

  datatype BoardSizePreset =
    | Tiny15x15 | Rectangular20x15 | Classic20x20 | Large25x20 | Monster35x23
    | Phone10x14 | Phone12x18 | Phone14x22

  /** `BoardSizePreset.dimensions`: every preset is well above the two-cell clamp, from 140 to 468 cells. */
  function PresetDimensions(preset: BoardSizePreset): (d: Dimensions)
    ensures d.rows >= 14 && d.columns >= 10
    ensures 140 <= CellCount(d) <= 468
  {
    match preset
    case Tiny15x15 => MakeDimensions(15, 15)
    case Rectangular20x15 => MakeDimensions(15, 20)
    case Classic20x20 => MakeDimensions(20, 20)
    case Large25x20 => MakeDimensions(16, 22)
    case Monster35x23 => MakeDimensions(18, 26)
    case Phone10x14 => MakeDimensions(14, 10)
    case Phone12x18 => MakeDimensions(18, 12)
    case Phone14x22 => MakeDimensions(22, 14)
  }

  datatype GameSettings = GameSettings(difficulty: Difficulty, boardSize: BoardSizePreset)

  const DefaultSettings := GameSettings(Amateur, Classic20x20)

  /**
   * `Int((Double(cells) * density).rounded())` for a density of pct percent: the nearest integer,
   * halves rounded up (away from zero, the values being non-negative).
   */
  function RoundedShare(cells: int, pct: int): (r: int)
    requires cells >= 0 && pct >= 0
    ensures 100 * r - 50 <= cells * pct < 100 * r + 50
    ensures r >= 0
  {
    (cells * pct + 50) / 100
  }

  /** `GameSettings.mineCount` on a board of the given number of cells. */
  function MineCountFor(cells: int, difficulty: Difficulty): (n: int)
    requires cells >= 0
    ensures 1 <= n <= Max(1, cells - 1)
    ensures var desired := RoundedShare(cells, MineDensityPercent(difficulty));
            (1 <= desired <= cells - 1 ==> n == desired)
  {
    var desired := RoundedShare(cells, MineDensityPercent(difficulty));
    Min(Max(1, desired), Max(1, cells - 1))
  }

  function MineCount(settings: GameSettings): (n: int)
    ensures 1 <= n <= CellCount(PresetDimensions(settings.boardSize)) - 1
  {
    MineCountFor(CellCount(PresetDimensions(settings.boardSize)), settings.difficulty)
  }

  /** The default 20 × 20 amateur board carries 52 mines. */
  lemma DefaultMineCount()
    ensures MineCount(DefaultSettings) == 52
  {
  }

  // ---------------------------------------------------------------------------------------------
  // The board and its generator

  datatype GameBoard = GameBoard(dimensions: Dimensions, mines: set<Coordinate>, adjacentMines: map<Coordinate, int>)

  predicate IsMine(board: GameBoard, c: Coordinate) {
    c in board.mines
  }

  /** `adjacentMineCount(at:)`: the stored count, 0 for a coordinate without an entry. */
  function AdjacentMineCount(board: GameBoard, c: Coordinate): int {
    if c in board.adjacentMines then board.adjacentMines[c] else 0
  }

  /** What `generate` guarantees: mines lie on the board and every cell's entry counts its mined neighbours. */
  ghost predicate Consistent(board: GameBoard) {
    && board.mines <= AllCells(board.dimensions)
    && board.adjacentMines.Keys == AllCells(board.dimensions)
    && forall c :: c in board.adjacentMines ==>
         board.adjacentMines[c] == CountIn(NeighborList(board.dimensions, c), board.mines)
  }

  /** On a consistent board every adjacency entry lies in [0, 8]. */
  lemma AdjacencyBounds(board: GameBoard, c: Coordinate)
    requires Consistent(board)
    ensures 0 <= AdjacentMineCount(board, c) <= 8
  {
    NeighborFacts(board.dimensions, c);
  }

  /**
   * `boundedRandomInt`: an index below upperBound from the draw at the cursor. When there is no
   * choice to make (upperBound <= 1) it answers 0 without calling `randomInt`, so no draw is used.
   */
  function BoundedRandomInt(draws: nat -> int, cursor: nat, upperBound: int): (r: (int, nat))
    ensures upperBound > 1 ==> 0 <= r.0 < upperBound && r.1 == cursor + 1
    ensures upperBound > 1 && 0 <= draws(cursor) < upperBound ==> r.0 == draws(cursor)
    ensures upperBound <= 1 ==> r == (0, cursor)
  {
    if upperBound <= 1 then (0, cursor)
    else (Min(Max(0, draws(cursor)), upperBound - 1), cursor + 1)
  }

  /**
   * `max(0, min(count - 1, randomInt(count)))`, the clamp written inline where clowns and special
   * effects are drawn (FunnyBoom/Domain/Reducer/SpecialModeReducer.swift:82,230).
   */
  function ClampIndex(raw: int, count: int): (index: int)
    ensures count >= 1 ==> 0 <= index < count
    ensures 0 <= raw < count ==> index == raw
  {
    Max(0, Min(count - 1, raw))
  }

  lemma RemoveAtFacts(s: seq<Coordinate>, i: int)
    requires Distinct(s) && 0 <= i < |s|
    ensures var r := s[..i] + s[i + 1..];
            && Distinct(r) && |r| == |s| - 1
            && forall x :: x in r <==> x in s && x != s[i]
  {
    var r := s[..i] + s[i + 1..];
    assert forall k :: 0 <= k < |r| ==> r[k] == (if k < i then s[k] else s[k + 1]);
    forall x | x in s && x != s[i] ensures x in r {
      var k :| 0 <= k < |s| && s[k] == x;
      if k < i { assert r[k] == x; } else { assert r[k - 1] == x; }
    }
  }

  /** The index one pick reads: through BoundedRandomInt (skipSingletonDraw), or through ClampIndex with a draw always used. */
  function PickIndex(count: int, draws: nat -> int, cursor: nat, skipSingletonDraw: bool): (r: (int, nat))
    ensures count >= 1 ==> 0 <= r.0 < count
    ensures r.1 == if skipSingletonDraw && count <= 1 then cursor else cursor + 1
  {
    if skipSingletonDraw then BoundedRandomInt(draws, cursor, count) else (ClampIndex(draws(cursor), count), cursor + 1)
  }

  /**
   * Drawing without replacement: while a pick is still needed and candidates remain, remove the
   * candidate at the picked index and keep it; the result is the kept set and the cursor after the
   * last draw.
   */
  function Draw(remaining: seq<Coordinate>, need: int, draws: nat -> int, cursor: nat, skipSingletonDraw: bool): (set<Coordinate>, nat)
    decreases |remaining|
  {
    if need <= 0 || remaining == [] then ({}, cursor)
    else
      var pick := PickIndex(|remaining|, draws, cursor, skipSingletonDraw);
      var rest := Draw(remaining[..pick.0] + remaining[pick.0 + 1..], need - 1, draws, pick.1, skipSingletonDraw);
      ({remaining[pick.0]} + rest.0, rest.1)
  }

  /**
   * A draw keeps min(need, |remaining|) distinct candidates and uses one draw per pick, except that
   * the BoundedRandomInt reading uses none for the pick that takes the last candidate.
   */
  lemma DrawFacts(remaining: seq<Coordinate>, need: int, draws: nat -> int, cursor: nat, skipSingletonDraw: bool)
    requires Distinct(remaining)
    ensures var r := Draw(remaining, need, draws, cursor, skipSingletonDraw);
            && (forall x :: x in r.0 ==> x in remaining)
            && |r.0| == Min(Max(0, need), |remaining|)
            && r.1 == cursor + |r.0| - (if skipSingletonDraw && |r.0| == |remaining| && |r.0| > 0 then 1 else 0)
  {
    DrawMembers(remaining, need, draws, cursor, skipSingletonDraw);
    DrawSize(remaining, need, draws, cursor, skipSingletonDraw);
    DrawCursor(remaining, need, draws, cursor, skipSingletonDraw);
  }

  /** The first step of a draw that picks: the picked candidate joins the draw from the rest. */
  lemma DrawUnfold(remaining: seq<Coordinate>, need: int, draws: nat -> int, cursor: nat, skipSingletonDraw: bool)
    requires need > 0 && remaining != []
    ensures var pick := PickIndex(|remaining|, draws, cursor, skipSingletonDraw);
            var rest := Draw(remaining[..pick.0] + remaining[pick.0 + 1..], need - 1, draws, pick.1, skipSingletonDraw);
            Draw(remaining, need, draws, cursor, skipSingletonDraw) == ({remaining[pick.0]} + rest.0, rest.1)
  {
  }

  /** Removing the element at i keeps only elements of s. */
  lemma RemoveAtSubset(s: seq<Coordinate>, i: int)
    requires 0 <= i < |s|
    ensures forall x :: x in s[..i] + s[i + 1..] ==> x in s
  {
    forall x | x in s[..i] + s[i + 1..] ensures x in s {
      if x in s[..i] { assert x in s[..i] + s[i..]; } else { assert x in s[..i] + s[i + 1..]; assert s == s[..i] + [s[i]] + s[i + 1..]; }
    }
  }

  /** In a list without repetitions, removing the element at i removes it altogether. */
  lemma RemovedNotIn(s: seq<Coordinate>, i: int)
    requires Distinct(s) && 0 <= i < |s|
    ensures s[i] !in s[..i] + s[i + 1..]
  {
    var r := s[..i] + s[i + 1..];
    forall k | 0 <= k < |r| ensures r[k] != s[i] {
      if k < i { assert r[k] == s[k]; } else { assert r[k] == s[k + 1]; }
    }
  }

  lemma {:induction false} DrawMembers(remaining: seq<Coordinate>, need: int, draws: nat -> int, cursor: nat, skipSingletonDraw: bool)
    ensures forall x :: x in Draw(remaining, need, draws, cursor, skipSingletonDraw).0 ==> x in remaining
    decreases |remaining|
  {
    if need > 0 && remaining != [] {
      var pick := PickIndex(|remaining|, draws, cursor, skipSingletonDraw);
      var smaller := remaining[..pick.0] + remaining[pick.0 + 1..];
      RemoveAtSubset(remaining, pick.0);
      DrawMembers(smaller, need - 1, draws, pick.1, skipSingletonDraw);
      DrawUnfold(remaining, need, draws, cursor, skipSingletonDraw);
    }
  }

  lemma {:induction false} DrawSize(remaining: seq<Coordinate>, need: int, draws: nat -> int, cursor: nat, skipSingletonDraw: bool)
    requires Distinct(remaining)
    ensures |Draw(remaining, need, draws, cursor, skipSingletonDraw).0| == Min(Max(0, need), |remaining|)
    decreases |remaining|
  {
    if need > 0 && remaining != [] {
      var pick := PickIndex(|remaining|, draws, cursor, skipSingletonDraw);
      var smaller := remaining[..pick.0] + remaining[pick.0 + 1..];
      assert Distinct(smaller) && |smaller| == |remaining| - 1 by {
        RemoveAtFacts(remaining, pick.0);
      }
      DrawSize(smaller, need - 1, draws, pick.1, skipSingletonDraw);
      DrawSizeStep(remaining, need, draws, cursor, skipSingletonDraw);
    }
  }

  /** The step of DrawSize: one candidate not in the rest of the draw, added to it. */
  lemma DrawSizeStep(remaining: seq<Coordinate>, need: int, draws: nat -> int, cursor: nat, skipSingletonDraw: bool)
    requires Distinct(remaining) && need > 0 && remaining != []
    requires var pick := PickIndex(|remaining|, draws, cursor, skipSingletonDraw);
             |Draw(remaining[..pick.0] + remaining[pick.0 + 1..], need - 1, draws, pick.1, skipSingletonDraw).0|
             == Min(Max(0, need - 1), |remaining| - 1)
    ensures |Draw(remaining, need, draws, cursor, skipSingletonDraw).0| == Min(Max(0, need), |remaining|)
  {
    var pick := PickIndex(|remaining|, draws, cursor, skipSingletonDraw);
    var smaller := remaining[..pick.0] + remaining[pick.0 + 1..];
    var chosen := remaining[pick.0];
    var rest := Draw(smaller, need - 1, draws, pick.1, skipSingletonDraw).0;
    assert chosen !in rest by {
      RemovedNotIn(remaining, pick.0);
      DrawMembers(smaller, need - 1, draws, pick.1, skipSingletonDraw);
    }
    DrawUnfold(remaining, need, draws, cursor, skipSingletonDraw);
    FreshAdditionCount(chosen, rest);
  }

  /** Adding an element not yet present grows a set by one. */
  lemma FreshAdditionCount(x: Coordinate, s: set<Coordinate>)
    requires x !in s
    ensures |{x} + s| == 1 + |s|
  {
  }

  lemma {:induction false} DrawCursor(remaining: seq<Coordinate>, need: int, draws: nat -> int, cursor: nat, skipSingletonDraw: bool)
    ensures var m := Min(Max(0, need), |remaining|);
            Draw(remaining, need, draws, cursor, skipSingletonDraw).1
            == cursor + m - (if skipSingletonDraw && m == |remaining| && m > 0 then 1 else 0)
    decreases |remaining|
  {
    if need > 0 && remaining != [] {
      var pick := PickIndex(|remaining|, draws, cursor, skipSingletonDraw);
      var smaller := remaining[..pick.0] + remaining[pick.0 + 1..];
      assert |smaller| == |remaining| - 1;
      DrawCursor(smaller, need - 1, draws, pick.1, skipSingletonDraw);
      DrawUnfold(remaining, need, draws, cursor, skipSingletonDraw);
    }
  }

  /** One iteration of the draw loop: keeping the picked candidate leaves the rest of the draw to do. */
  lemma DrawLoopStep(picked: set<Coordinate>, remaining: seq<Coordinate>, need: int, draws: nat -> int, cursor: nat, skipSingletonDraw: bool)
    requires need > 0 && remaining != [] && Distinct(remaining)
    requires forall x :: x in remaining ==> x !in picked
    ensures var pick := PickIndex(|remaining|, draws, cursor, skipSingletonDraw);
            var chosen := remaining[pick.0];
            var smaller := remaining[..pick.0] + remaining[pick.0 + 1..];
            var whole := Draw(remaining, need, draws, cursor, skipSingletonDraw);
            var rest := Draw(smaller, need - 1, draws, pick.1, skipSingletonDraw);
            && (picked + {chosen}) + rest.0 == picked + whole.0 && rest.1 == whole.1
            && |picked + {chosen}| == |picked| + 1
            && Distinct(smaller) && (forall x :: x in smaller ==> x !in picked + {chosen})
  {
    var pick := PickIndex(|remaining|, draws, cursor, skipSingletonDraw);
    var chosen := remaining[pick.0];
    var smaller := remaining[..pick.0] + remaining[pick.0 + 1..];
    RemoveAtFacts(remaining, pick.0);
    var rest := Draw(smaller, need - 1, draws, pick.1, skipSingletonDraw);
    assert Draw(remaining, need, draws, cursor, skipSingletonDraw) == ({chosen} + rest.0, rest.1);
    assert chosen !in picked;
  }

  /** One iteration of the draw loop: the candidate at the picked index moves from remaining to picked. */
  method DrawOne(picked: set<Coordinate>, remaining: seq<Coordinate>, ghost target: int, draws: nat -> int, cursor: nat, skipSingletonDraw: bool)
    returns (picked': set<Coordinate>, remaining': seq<Coordinate>, next: nat)
    requires |picked| < target && remaining != [] && Distinct(remaining)
    requires forall x :: x in remaining ==> x !in picked
    ensures picked' + Draw(remaining', target - |picked'|, draws, next, skipSingletonDraw).0
            == picked + Draw(remaining, target - |picked|, draws, cursor, skipSingletonDraw).0
    ensures Draw(remaining', target - |picked'|, draws, next, skipSingletonDraw).1
            == Draw(remaining, target - |picked|, draws, cursor, skipSingletonDraw).1
    ensures |remaining'| == |remaining| - 1
    ensures Distinct(remaining') && forall x :: x in remaining' ==> x !in picked'
  {
    var pick := PickIndex(|remaining|, draws, cursor, skipSingletonDraw);
    DrawLoopStep(picked, remaining, target - |picked|, draws, cursor, skipSingletonDraw);
    picked' := picked + {remaining[pick.0]};
    remaining' := remaining[..pick.0] + remaining[pick.0 + 1..];
    next := pick.1;
    assert target - |picked'| == target - |picked| - 1;
    assert Draw(remaining', target - |picked'|, draws, next, skipSingletonDraw)
        == Draw(remaining', target - |picked| - 1, draws, next, skipSingletonDraw);
  }

  /**
   * The draw-without-replacement loop of mine placement (Board.swift:203-209) and of clown placement
   * (SpecialModeReducer.swift:228-232). Mine placement reads its index through BoundedRandomInt
   * (skipSingletonDraw); clown placement always calls `randomInt`.
   */
  method DrawWithoutReplacement(candidates: seq<Coordinate>, target: int, draws: nat -> int, cursor: nat, skipSingletonDraw: bool)
    returns (picked: set<Coordinate>, next: nat)
    requires Distinct(candidates)
    ensures (picked, next) == Draw(candidates, target, draws, cursor, skipSingletonDraw)
    ensures forall x :: x in picked ==> x in candidates
    ensures |picked| == Min(Max(0, target), |candidates|)
  {
    var remaining := candidates;
    picked := {};
    next := cursor;
    while |picked| < target && remaining != []
      invariant Distinct(remaining)
      invariant forall x :: x in remaining ==> x !in picked
      invariant picked + Draw(remaining, target - |picked|, draws, next, skipSingletonDraw).0 == Draw(candidates, target, draws, cursor, skipSingletonDraw).0
      invariant Draw(remaining, target - |picked|, draws, next, skipSingletonDraw).1 == Draw(candidates, target, draws, cursor, skipSingletonDraw).1
      decreases |remaining|
    {
      picked, remaining, next := DrawOne(picked, remaining, target, draws, next, skipSingletonDraw);
    }
    assert Draw(remaining, target - |picked|, draws, next, skipSingletonDraw) == ({}, next);
    DrawFacts(candidates, target, draws, cursor, skipSingletonDraw);
  }

  /** The cells outside the 3 × 3 zone around safe (Board.swift:196-197). */
  function OutsideSafeZone(d: Dimensions, safe: Coordinate): seq<Coordinate> {
    Without(RowMajor(d), {safe} + set x | x in NeighborList(d, safe))
  }

  /** The candidate list of `generate`: outside the safe zone, or every cell but safe when that leaves too few (Board.swift:196-201). */
  function MineCandidates(d: Dimensions, mineCount: int, safe: Coordinate): seq<Coordinate> {
    if mineCount >= |OutsideSafeZone(d, safe)| then Without(RowMajor(d), {safe}) else OutsideSafeZone(d, safe)
  }

  lemma MineCandidatesFacts(d: Dimensions, mineCount: int, safe: Coordinate)
    ensures Distinct(MineCandidates(d, mineCount, safe))
    ensures forall x :: x in MineCandidates(d, mineCount, safe) ==> IsValid(d, x) && x != safe
    ensures mineCount < |OutsideSafeZone(d, safe)| ==>
              forall x :: x in MineCandidates(d, mineCount, safe) ==> !Adjacent(x, safe)
    ensures IsValid(d, safe) && mineCount <= CellCount(d) - 1 ==> mineCount <= |MineCandidates(d, mineCount, safe)|
  {
    RowMajorFacts(d);
    NeighborFacts(d, safe);
    WithoutFacts(RowMajor(d), {safe} + set x | x in NeighborList(d, safe));
    WithoutFacts(RowMajor(d), {safe});
  }

  /** The adjacency map of `generate`: an entry for every cell, counting its mined neighbours. */
  function AdjacencyFor(d: Dimensions, mines: set<Coordinate>): map<Coordinate, int> {
    map x | x in AllCells(d) :: CountIn(NeighborList(d, x), mines)
  }

  /** The adjacency loop of `generate` (Board.swift:211-219). */
  method AdjacencyMap(d: Dimensions, mines: set<Coordinate>) returns (adjacency: map<Coordinate, int>)
    ensures adjacency == AdjacencyFor(d, mines)
  {
    var all := AllCoordinates(d);
    adjacency := map[];
    for i := 0 to |all|
      invariant adjacency.Keys == set x | x in all[..i]
      invariant forall x :: x in adjacency ==> adjacency[x] == CountIn(NeighborList(d, x), mines)
    {
      var around := Neighbors(d, all[i]);
      assert all[..i + 1] == all[..i] + [all[i]];
      adjacency := adjacency[all[i] := CountIn(around, mines)];
    }
    assert all[..|all|] == all;
    RowMajorFacts(d);
  }

  /** What `generate` computes once the dimensions and the mine count are known, and the cursor after it. */
  function PlaceMinesSpec(d: Dimensions, mineCount: int, safe: Coordinate, draws: nat -> int, cursor: nat): (GameBoard, nat) {
    var candidates := MineCandidates(d, mineCount, safe);
    var drawn := Draw(candidates, Min(mineCount, |candidates|), draws, cursor, true);
    (GameBoard(d, drawn.0, AdjacencyFor(d, drawn.0)), drawn.1)
  }

  /**
   * Mine placement yields a consistent board of the given dimensions with min(mineCount, |candidates|)
   * mines, all candidates: never the safe cell, never next to it when enough cells lie outside its
   * zone, and exactly mineCount of them when the safe cell is on the board and mineCount leaves it free.
   */
  lemma PlaceMinesFacts(d: Dimensions, mineCount: int, safe: Coordinate, draws: nat -> int, cursor: nat)
    ensures var (board, next) := PlaceMinesSpec(d, mineCount, safe, draws, cursor);
            && board.dimensions == d && Consistent(board)
            && safe !in board.mines
            && (forall x :: x in board.mines ==> x in MineCandidates(d, mineCount, safe))
            && |board.mines| == Min(Max(0, mineCount), |MineCandidates(d, mineCount, safe)|)
            && (mineCount < |OutsideSafeZone(d, safe)| ==> forall x :: x in board.mines ==> !Adjacent(x, safe))
            && (IsValid(d, safe) && mineCount <= CellCount(d) - 1 ==> |board.mines| == Max(0, mineCount))
            && cursor <= next <= cursor + |board.mines|
  {
    var candidates := MineCandidates(d, mineCount, safe);
    MineCandidatesFacts(d, mineCount, safe);
    DrawFacts(candidates, Min(mineCount, |candidates|), draws, cursor, true);
    var mines := Draw(candidates, Min(mineCount, |candidates|), draws, cursor, true).0;
    AllCellsSubset(d, mines);
  }

  /** The body of `generate` once the preset's dimensions and mine count are known (Board.swift:194-221). */
  method PlaceMines(d: Dimensions, mineCount: int, safe: Coordinate, draws: nat -> int, cursor: nat)
    returns (board: GameBoard, next: nat)
    ensures (board, next) == PlaceMinesSpec(d, mineCount, safe, draws, cursor)
  {
    var all := AllCoordinates(d);
    var around := Neighbors(d, safe);
    var forbidden := {safe} + set x | x in around;
    var candidates := Without(all, forbidden);
    if mineCount >= |candidates| {
      candidates := Without(all, {safe});
    }
    assert candidates == MineCandidates(d, mineCount, safe);
    MineCandidatesFacts(d, mineCount, safe);
    var target := Min(mineCount, |candidates|);
    var mines;
    mines, next := DrawWithoutReplacement(candidates, target, draws, cursor, true);
    var adjacency := AdjacencyMap(d, mines);
    board := GameBoard(d, mines, adjacency);
  }

  lemma AllCellsSubset(d: Dimensions, s: set<Coordinate>)
    requires forall x :: x in s ==> IsValid(d, x)
    ensures s <= AllCells(d)
  {
    forall x | x in s ensures x in AllCells(d) {
      AllCellsAreTheValidOnes(d, x);
    }
  }

  /** `GameBoard.generate(settings:safeCoordinate:randomInt:)`. */
  function GenerateSpec(settings: GameSettings, safe: Coordinate, draws: nat -> int, cursor: nat): (GameBoard, nat) {
    PlaceMinesSpec(PresetDimensions(settings.boardSize), MineCount(settings), safe, draws, cursor)
  }

  /**
   * A generated board has the preset's dimensions, is consistent, is never mined at the safe
   * coordinate, and carries exactly the settings' mine count when that coordinate is on the board.
   */
  lemma GenerateFacts(settings: GameSettings, safe: Coordinate, draws: nat -> int, cursor: nat)
    ensures var (board, next) := GenerateSpec(settings, safe, draws, cursor);
            && board.dimensions == PresetDimensions(settings.boardSize) && Consistent(board)
            && safe !in board.mines
            && (IsValid(board.dimensions, safe) ==> |board.mines| == MineCount(settings))
            && cursor <= next
  {
    PlaceMinesFacts(PresetDimensions(settings.boardSize), MineCount(settings), safe, draws, cursor);
  }

  method Generate(settings: GameSettings, safe: Coordinate, draws: nat -> int, cursor: nat)
    returns (board: GameBoard, next: nat)
    ensures (board, next) == GenerateSpec(settings, safe, draws, cursor)
  {
    board, next := PlaceMines(PresetDimensions(settings.boardSize), MineCount(settings), safe, draws, cursor);
  }
}
