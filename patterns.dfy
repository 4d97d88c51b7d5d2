/** Concrete boards: the board the program starts from and its whole run,
    and the classic block still life. A concrete board is described row by
    row by a predicate, so that each proof reasons about a board variable
    whose rows are known rather than about one literal value. Each row of
    each next generation is proved in a lemma of its own, because the
    solver runs out of resources on a whole generation at once. */
module Patterns {
  import opened Wrappers
  import opened Rules
  import opened Engine

  /** The value of cell (row, col) in the next generation follows from the
      cell and its neighbour count. */
  lemma NextCellIs(b: Board, row: nat, col: nat, n: int)
    requires InBounds(b, row, col) && NeighborCount(b, row, col) == n
    ensures NextGeneration(b)[row][col] == NextCellState(b[row][col], n)
  {
    NextGenerationAt(b, row, col);
  }

  /** A row of five cells is determined by its cells. */
  lemma RowOfFive(s: seq<int>, x0: int, x1: int, x2: int, x3: int, x4: int)
    requires |s| == 5 && s[0] == x0 && s[1] == x1 && s[2] == x2 && s[3] == x3 && s[4] == x4
    ensures s == [x0, x1, x2, x3, x4]
  {
  }

  /** A row of four cells is determined by its cells. */
  lemma RowOfFour(s: seq<int>, x0: int, x1: int, x2: int, x3: int)
    requires |s| == 4 && s[0] == x0 && s[1] == x1 && s[2] == x2 && s[3] == x3
    ensures s == [x0, x1, x2, x3]
  {
  }

  /** The board the program starts from. */
  function InitialBoard(): Board {
    [ [0, 1, 0, 0, 0],
      [1, 0, 0, 1, 1],
      [1, 1, 0, 0, 1],
      [0, 1, 0, 0, 0],
      [1, 0, 0, 0, 1] ]
  }

  /** The generation that follows it. */
  function InitialBoardNext(): Board {
    [ [0, 0, 0, 0, 0],
      [1, 0, 1, 1, 1],
      [1, 1, 1, 1, 1],
      [0, 1, 0, 0, 0],
      [0, 0, 0, 0, 0] ]
  }

  /** The starting board, row by row. */
  predicate IsInitialBoard(b: Board) {
    |b| == 5 &&
    b[0] == [0, 1, 0, 0, 0] &&
    b[1] == [1, 0, 0, 1, 1] &&
    b[2] == [1, 1, 0, 0, 1] &&
    b[3] == [0, 1, 0, 0, 0] &&
    b[4] == [1, 0, 0, 0, 1]
  }

  /** The starting board itself meets its row-by-row description. */
  lemma InitialBoardIsInitial()
    ensures IsInitialBoard(InitialBoard())
  {
  }

  /** Generation 1 of the starting board, row by row. */
  predicate IsGeneration1(b: Board) {
    |b| == 5 &&
    b[0] == [0, 0, 0, 0, 0] &&
    b[1] == [1, 0, 1, 1, 1] &&
    b[2] == [1, 1, 1, 1, 1] &&
    b[3] == [0, 1, 0, 0, 0] &&
    b[4] == [0, 0, 0, 0, 0]
  }

  /** Generation 2 of the starting board, row by row. */
  predicate IsGeneration2(b: Board) {
    |b| == 5 &&
    b[0] == [0, 0, 0, 1, 0] &&
    b[1] == [1, 0, 0, 0, 1] &&
    b[2] == [1, 0, 0, 0, 1] &&
    b[3] == [1, 1, 0, 1, 0] &&
    b[4] == [0, 0, 0, 0, 0]
  }

  /** Generation 3 of the starting board, row by row. */
  predicate IsGeneration3(b: Board) {
    |b| == 5 &&
    b[0] == [0, 0, 0, 0, 0] &&
    b[1] == [0, 0, 0, 1, 1] &&
    b[2] == [1, 0, 0, 1, 1] &&
    b[3] == [1, 1, 0, 0, 0] &&
    b[4] == [0, 0, 0, 0, 0]
  }

  /** Generation 4 of the starting board, row by row. */
  predicate IsGeneration4(b: Board) {
    |b| == 5 &&
    b[0] == [0, 0, 0, 0, 0] &&
    b[1] == [0, 0, 0, 1, 1] &&
    b[2] == [1, 1, 1, 1, 1] &&
    b[3] == [1, 1, 0, 0, 0] &&
    b[4] == [0, 0, 0, 0, 0]
  }

  /** Generation 5 of the starting board, row by row. */
  predicate IsGeneration5(b: Board) {
    |b| == 5 &&
    b[0] == [0, 0, 0, 0, 0] &&
    b[1] == [0, 1, 0, 0, 1] &&
    b[2] == [1, 0, 0, 0, 1] &&
    b[3] == [1, 0, 0, 1, 0] &&
    b[4] == [0, 0, 0, 0, 0]
  }

  /** Generation 6 of the starting board, row by row. */
  predicate IsGeneration6(b: Board) {
    |b| == 5 &&
    b[0] == [0, 0, 0, 0, 0] &&
    b[1] == [0, 0, 0, 0, 0] &&
    b[2] == [1, 1, 0, 1, 1] &&
    b[3] == [0, 0, 0, 0, 0] &&
    b[4] == [0, 0, 0, 0, 0]
  }

  /** Generation 7 of the starting board, row by row. */
  predicate IsGeneration7(b: Board) {
    |b| == 5 &&
    b[0] == [0, 0, 0, 0, 0] &&
    b[1] == [0, 0, 0, 0, 0] &&
    b[2] == [0, 0, 0, 0, 0] &&
    b[3] == [0, 0, 0, 0, 0] &&
    b[4] == [0, 0, 0, 0, 0]
  }

  /** Row 0 of the generation after the starting board. */
  lemma IsInitialBoardRow0(b: Board)
    requires IsInitialBoard(b)
    ensures NextGeneration(b)[0] == [0, 0, 0, 0, 0]
  {
    assert NeighborCount(b, 0, 0) == 2;
    assert NeighborCount(b, 0, 1) == 1;
    assert NeighborCount(b, 0, 2) == 2;
    assert NeighborCount(b, 0, 3) == 2;
    assert NeighborCount(b, 0, 4) == 2;
    NextCellIs(b, 0, 0, 2);
    NextCellIs(b, 0, 1, 1);
    NextCellIs(b, 0, 2, 2);
    NextCellIs(b, 0, 3, 2);
    NextCellIs(b, 0, 4, 2);
    RowOfFive(NextGeneration(b)[0], 0, 0, 0, 0, 0);
  }

  /** Row 1 of the generation after the starting board. */
  lemma IsInitialBoardRow1(b: Board)
    requires IsInitialBoard(b)
    ensures NextGeneration(b)[1] == [1, 0, 1, 1, 1]
  {
    assert NeighborCount(b, 1, 0) == 3;
    assert NeighborCount(b, 1, 1) == 4;
    assert NeighborCount(b, 1, 2) == 3;
    assert NeighborCount(b, 1, 3) == 2;
    assert NeighborCount(b, 1, 4) == 2;
    NextCellIs(b, 1, 0, 3);
    NextCellIs(b, 1, 1, 4);
    NextCellIs(b, 1, 2, 3);
    NextCellIs(b, 1, 3, 2);
    NextCellIs(b, 1, 4, 2);
    RowOfFive(NextGeneration(b)[1], 1, 0, 1, 1, 1);
  }

  /** Row 2 of the generation after the starting board. */
  lemma IsInitialBoardRow2(b: Board)
    requires IsInitialBoard(b)
    ensures NextGeneration(b)[2] == [1, 1, 1, 1, 1]
  {
    assert NeighborCount(b, 2, 0) == 3;
    assert NeighborCount(b, 2, 1) == 3;
    assert NeighborCount(b, 2, 2) == 3;
    assert NeighborCount(b, 2, 3) == 3;
    assert NeighborCount(b, 2, 4) == 2;
    NextCellIs(b, 2, 0, 3);
    NextCellIs(b, 2, 1, 3);
    NextCellIs(b, 2, 2, 3);
    NextCellIs(b, 2, 3, 3);
    NextCellIs(b, 2, 4, 2);
    RowOfFive(NextGeneration(b)[2], 1, 1, 1, 1, 1);
  }

  /** Row 3 of the generation after the starting board. */
  lemma IsInitialBoardRow3(b: Board)
    requires IsInitialBoard(b)
    ensures NextGeneration(b)[3] == [0, 1, 0, 0, 0]
  {
    assert NeighborCount(b, 3, 0) == 4;
    assert NeighborCount(b, 3, 1) == 3;
    assert NeighborCount(b, 3, 2) == 2;
    assert NeighborCount(b, 3, 3) == 2;
    assert NeighborCount(b, 3, 4) == 2;
    NextCellIs(b, 3, 0, 4);
    NextCellIs(b, 3, 1, 3);
    NextCellIs(b, 3, 2, 2);
    NextCellIs(b, 3, 3, 2);
    NextCellIs(b, 3, 4, 2);
    RowOfFive(NextGeneration(b)[3], 0, 1, 0, 0, 0);
  }

  /** Row 4 of the generation after the starting board. */
  lemma IsInitialBoardRow4(b: Board)
    requires IsInitialBoard(b)
    ensures NextGeneration(b)[4] == [0, 0, 0, 0, 0]
  {
    assert NeighborCount(b, 4, 0) == 1;
    assert NeighborCount(b, 4, 1) == 2;
    assert NeighborCount(b, 4, 2) == 1;
    assert NeighborCount(b, 4, 3) == 1;
    assert NeighborCount(b, 4, 4) == 0;
    NextCellIs(b, 4, 0, 1);
    NextCellIs(b, 4, 1, 2);
    NextCellIs(b, 4, 2, 1);
    NextCellIs(b, 4, 3, 1);
    NextCellIs(b, 4, 4, 0);
    RowOfFive(NextGeneration(b)[4], 0, 0, 0, 0, 0);
  }

  /** The starting board evolves to generation 1. */
  lemma InitialBoardStep(b: Board)
    requires IsInitialBoard(b)
    ensures IsGeneration1(NextGeneration(b))
  {
    IsInitialBoardRow0(b);
    IsInitialBoardRow1(b);
    IsInitialBoardRow2(b);
    IsInitialBoardRow3(b);
    IsInitialBoardRow4(b);
  }

  /** Row 0 of the generation after generation 1. */
  lemma IsGeneration1Row0(b: Board)
    requires IsGeneration1(b)
    ensures NextGeneration(b)[0] == [0, 0, 0, 1, 0]
  {
    assert NeighborCount(b, 0, 0) == 1;
    assert NeighborCount(b, 0, 1) == 2;
    assert NeighborCount(b, 0, 2) == 2;
    assert NeighborCount(b, 0, 3) == 3;
    assert NeighborCount(b, 0, 4) == 2;
    NextCellIs(b, 0, 0, 1);
    NextCellIs(b, 0, 1, 2);
    NextCellIs(b, 0, 2, 2);
    NextCellIs(b, 0, 3, 3);
    NextCellIs(b, 0, 4, 2);
    RowOfFive(NextGeneration(b)[0], 0, 0, 0, 1, 0);
  }

  /** Row 1 of the generation after generation 1. */
  lemma IsGeneration1Row1(b: Board)
    requires IsGeneration1(b)
    ensures NextGeneration(b)[1] == [1, 0, 0, 0, 1]
  {
    assert NeighborCount(b, 1, 0) == 2;
    assert NeighborCount(b, 1, 1) == 5;
    assert NeighborCount(b, 1, 2) == 4;
    assert NeighborCount(b, 1, 3) == 5;
    assert NeighborCount(b, 1, 4) == 3;
    NextCellIs(b, 1, 0, 2);
    NextCellIs(b, 1, 1, 5);
    NextCellIs(b, 1, 2, 4);
    NextCellIs(b, 1, 3, 5);
    NextCellIs(b, 1, 4, 3);
    RowOfFive(NextGeneration(b)[1], 1, 0, 0, 0, 1);
  }

  /** Row 2 of the generation after generation 1. */
  lemma IsGeneration1Row2(b: Board)
    requires IsGeneration1(b)
    ensures NextGeneration(b)[2] == [1, 0, 0, 0, 1]
  {
    assert NeighborCount(b, 2, 0) == 3;
    assert NeighborCount(b, 2, 1) == 5;
    assert NeighborCount(b, 2, 2) == 5;
    assert NeighborCount(b, 2, 3) == 5;
    assert NeighborCount(b, 2, 4) == 3;
    NextCellIs(b, 2, 0, 3);
    NextCellIs(b, 2, 1, 5);
    NextCellIs(b, 2, 2, 5);
    NextCellIs(b, 2, 3, 5);
    NextCellIs(b, 2, 4, 3);
    RowOfFive(NextGeneration(b)[2], 1, 0, 0, 0, 1);
  }

  /** Row 3 of the generation after generation 1. */
  lemma IsGeneration1Row3(b: Board)
    requires IsGeneration1(b)
    ensures NextGeneration(b)[3] == [1, 1, 0, 1, 0]
  {
    assert NeighborCount(b, 3, 0) == 3;
    assert NeighborCount(b, 3, 1) == 3;
    assert NeighborCount(b, 3, 2) == 4;
    assert NeighborCount(b, 3, 3) == 3;
    assert NeighborCount(b, 3, 4) == 2;
    NextCellIs(b, 3, 0, 3);
    NextCellIs(b, 3, 1, 3);
    NextCellIs(b, 3, 2, 4);
    NextCellIs(b, 3, 3, 3);
    NextCellIs(b, 3, 4, 2);
    RowOfFive(NextGeneration(b)[3], 1, 1, 0, 1, 0);
  }

  /** Row 4 of the generation after generation 1. */
  lemma IsGeneration1Row4(b: Board)
    requires IsGeneration1(b)
    ensures NextGeneration(b)[4] == [0, 0, 0, 0, 0]
  {
    assert NeighborCount(b, 4, 0) == 1;
    assert NeighborCount(b, 4, 1) == 1;
    assert NeighborCount(b, 4, 2) == 1;
    assert NeighborCount(b, 4, 3) == 0;
    assert NeighborCount(b, 4, 4) == 0;
    NextCellIs(b, 4, 0, 1);
    NextCellIs(b, 4, 1, 1);
    NextCellIs(b, 4, 2, 1);
    NextCellIs(b, 4, 3, 0);
    NextCellIs(b, 4, 4, 0);
    RowOfFive(NextGeneration(b)[4], 0, 0, 0, 0, 0);
  }

  /** Generation 1 evolves to generation 2. */
  lemma Generation1Step(b: Board)
    requires IsGeneration1(b)
    ensures IsGeneration2(NextGeneration(b))
  {
    IsGeneration1Row0(b);
    IsGeneration1Row1(b);
    IsGeneration1Row2(b);
    IsGeneration1Row3(b);
    IsGeneration1Row4(b);
  }

  /** Row 0 of the generation after generation 2. */
  lemma IsGeneration2Row0(b: Board)
    requires IsGeneration2(b)
    ensures NextGeneration(b)[0] == [0, 0, 0, 0, 0]
  {
    assert NeighborCount(b, 0, 0) == 1;
    assert NeighborCount(b, 0, 1) == 1;
    assert NeighborCount(b, 0, 2) == 1;
    assert NeighborCount(b, 0, 3) == 1;
    assert NeighborCount(b, 0, 4) == 2;
    NextCellIs(b, 0, 0, 1);
    NextCellIs(b, 0, 1, 1);
    NextCellIs(b, 0, 2, 1);
    NextCellIs(b, 0, 3, 1);
    NextCellIs(b, 0, 4, 2);
    RowOfFive(NextGeneration(b)[0], 0, 0, 0, 0, 0);
  }

  /** Row 1 of the generation after generation 2. */
  lemma IsGeneration2Row1(b: Board)
    requires IsGeneration2(b)
    ensures NextGeneration(b)[1] == [0, 0, 0, 1, 1]
  {
    assert NeighborCount(b, 1, 0) == 1;
    assert NeighborCount(b, 1, 1) == 2;
    assert NeighborCount(b, 1, 2) == 1;
    assert NeighborCount(b, 1, 3) == 3;
    assert NeighborCount(b, 1, 4) == 2;
    NextCellIs(b, 1, 0, 1);
    NextCellIs(b, 1, 1, 2);
    NextCellIs(b, 1, 2, 1);
    NextCellIs(b, 1, 3, 3);
    NextCellIs(b, 1, 4, 2);
    RowOfFive(NextGeneration(b)[1], 0, 0, 0, 1, 1);
  }

  /** Row 2 of the generation after generation 2. */
  lemma IsGeneration2Row2(b: Board)
    requires IsGeneration2(b)
    ensures NextGeneration(b)[2] == [1, 0, 0, 1, 1]
  {
    assert NeighborCount(b, 2, 0) == 3;
    assert NeighborCount(b, 2, 1) == 4;
    assert NeighborCount(b, 2, 2) == 2;
    assert NeighborCount(b, 2, 3) == 3;
    assert NeighborCount(b, 2, 4) == 2;
    NextCellIs(b, 2, 0, 3);
    NextCellIs(b, 2, 1, 4);
    NextCellIs(b, 2, 2, 2);
    NextCellIs(b, 2, 3, 3);
    NextCellIs(b, 2, 4, 2);
    RowOfFive(NextGeneration(b)[2], 1, 0, 0, 1, 1);
  }

  /** Row 3 of the generation after generation 2. */
  lemma IsGeneration2Row3(b: Board)
    requires IsGeneration2(b)
    ensures NextGeneration(b)[3] == [1, 1, 0, 0, 0]
  {
    assert NeighborCount(b, 3, 0) == 2;
    assert NeighborCount(b, 3, 1) == 2;
    assert NeighborCount(b, 3, 2) == 2;
    assert NeighborCount(b, 3, 3) == 1;
    assert NeighborCount(b, 3, 4) == 2;
    NextCellIs(b, 3, 0, 2);
    NextCellIs(b, 3, 1, 2);
    NextCellIs(b, 3, 2, 2);
    NextCellIs(b, 3, 3, 1);
    NextCellIs(b, 3, 4, 2);
    RowOfFive(NextGeneration(b)[3], 1, 1, 0, 0, 0);
  }

  /** Row 4 of the generation after generation 2. */
  lemma IsGeneration2Row4(b: Board)
    requires IsGeneration2(b)
    ensures NextGeneration(b)[4] == [0, 0, 0, 0, 0]
  {
    assert NeighborCount(b, 4, 0) == 2;
    assert NeighborCount(b, 4, 1) == 2;
    assert NeighborCount(b, 4, 2) == 2;
    assert NeighborCount(b, 4, 3) == 1;
    assert NeighborCount(b, 4, 4) == 1;
    NextCellIs(b, 4, 0, 2);
    NextCellIs(b, 4, 1, 2);
    NextCellIs(b, 4, 2, 2);
    NextCellIs(b, 4, 3, 1);
    NextCellIs(b, 4, 4, 1);
    RowOfFive(NextGeneration(b)[4], 0, 0, 0, 0, 0);
  }

  /** Generation 2 evolves to generation 3. */
  lemma Generation2Step(b: Board)
    requires IsGeneration2(b)
    ensures IsGeneration3(NextGeneration(b))
  {
    IsGeneration2Row0(b);
    IsGeneration2Row1(b);
    IsGeneration2Row2(b);
    IsGeneration2Row3(b);
    IsGeneration2Row4(b);
  }

  /** Row 0 of the generation after generation 3. */
  lemma IsGeneration3Row0(b: Board)
    requires IsGeneration3(b)
    ensures NextGeneration(b)[0] == [0, 0, 0, 0, 0]
  {
    assert NeighborCount(b, 0, 0) == 0;
    assert NeighborCount(b, 0, 1) == 0;
    assert NeighborCount(b, 0, 2) == 1;
    assert NeighborCount(b, 0, 3) == 2;
    assert NeighborCount(b, 0, 4) == 2;
    NextCellIs(b, 0, 0, 0);
    NextCellIs(b, 0, 1, 0);
    NextCellIs(b, 0, 2, 1);
    NextCellIs(b, 0, 3, 2);
    NextCellIs(b, 0, 4, 2);
    RowOfFive(NextGeneration(b)[0], 0, 0, 0, 0, 0);
  }

  /** Row 1 of the generation after generation 3. */
  lemma IsGeneration3Row1(b: Board)
    requires IsGeneration3(b)
    ensures NextGeneration(b)[1] == [0, 0, 0, 1, 1]
  {
    assert NeighborCount(b, 1, 0) == 1;
    assert NeighborCount(b, 1, 1) == 1;
    assert NeighborCount(b, 1, 2) == 2;
    assert NeighborCount(b, 1, 3) == 3;
    assert NeighborCount(b, 1, 4) == 3;
    NextCellIs(b, 1, 0, 1);
    NextCellIs(b, 1, 1, 1);
    NextCellIs(b, 1, 2, 2);
    NextCellIs(b, 1, 3, 3);
    NextCellIs(b, 1, 4, 3);
    RowOfFive(NextGeneration(b)[1], 0, 0, 0, 1, 1);
  }

  /** Row 2 of the generation after generation 3. */
  lemma IsGeneration3Row2(b: Board)
    requires IsGeneration3(b)
    ensures NextGeneration(b)[2] == [1, 1, 1, 1, 1]
  {
    assert NeighborCount(b, 2, 0) == 2;
    assert NeighborCount(b, 2, 1) == 3;
    assert NeighborCount(b, 2, 2) == 3;
    assert NeighborCount(b, 2, 3) == 3;
    assert NeighborCount(b, 2, 4) == 3;
    NextCellIs(b, 2, 0, 2);
    NextCellIs(b, 2, 1, 3);
    NextCellIs(b, 2, 2, 3);
    NextCellIs(b, 2, 3, 3);
    NextCellIs(b, 2, 4, 3);
    RowOfFive(NextGeneration(b)[2], 1, 1, 1, 1, 1);
  }

  /** Row 3 of the generation after generation 3. */
  lemma IsGeneration3Row3(b: Board)
    requires IsGeneration3(b)
    ensures NextGeneration(b)[3] == [1, 1, 0, 0, 0]
  {
    assert NeighborCount(b, 3, 0) == 2;
    assert NeighborCount(b, 3, 1) == 2;
    assert NeighborCount(b, 3, 2) == 2;
    assert NeighborCount(b, 3, 3) == 2;
    assert NeighborCount(b, 3, 4) == 2;
    NextCellIs(b, 3, 0, 2);
    NextCellIs(b, 3, 1, 2);
    NextCellIs(b, 3, 2, 2);
    NextCellIs(b, 3, 3, 2);
    NextCellIs(b, 3, 4, 2);
    RowOfFive(NextGeneration(b)[3], 1, 1, 0, 0, 0);
  }

  /** Row 4 of the generation after generation 3. */
  lemma IsGeneration3Row4(b: Board)
    requires IsGeneration3(b)
    ensures NextGeneration(b)[4] == [0, 0, 0, 0, 0]
  {
    assert NeighborCount(b, 4, 0) == 2;
    assert NeighborCount(b, 4, 1) == 2;
    assert NeighborCount(b, 4, 2) == 1;
    assert NeighborCount(b, 4, 3) == 0;
    assert NeighborCount(b, 4, 4) == 0;
    NextCellIs(b, 4, 0, 2);
    NextCellIs(b, 4, 1, 2);
    NextCellIs(b, 4, 2, 1);
    NextCellIs(b, 4, 3, 0);
    NextCellIs(b, 4, 4, 0);
    RowOfFive(NextGeneration(b)[4], 0, 0, 0, 0, 0);
  }

  /** Generation 3 evolves to generation 4. */
  lemma Generation3Step(b: Board)
    requires IsGeneration3(b)
    ensures IsGeneration4(NextGeneration(b))
  {
    IsGeneration3Row0(b);
    IsGeneration3Row1(b);
    IsGeneration3Row2(b);
    IsGeneration3Row3(b);
    IsGeneration3Row4(b);
  }

  /** Row 0 of the generation after generation 4. */
  lemma IsGeneration4Row0(b: Board)
    requires IsGeneration4(b)
    ensures NextGeneration(b)[0] == [0, 0, 0, 0, 0]
  {
    assert NeighborCount(b, 0, 0) == 0;
    assert NeighborCount(b, 0, 1) == 0;
    assert NeighborCount(b, 0, 2) == 1;
    assert NeighborCount(b, 0, 3) == 2;
    assert NeighborCount(b, 0, 4) == 2;
    NextCellIs(b, 0, 0, 0);
    NextCellIs(b, 0, 1, 0);
    NextCellIs(b, 0, 2, 1);
    NextCellIs(b, 0, 3, 2);
    NextCellIs(b, 0, 4, 2);
    RowOfFive(NextGeneration(b)[0], 0, 0, 0, 0, 0);
  }

  /** Row 1 of the generation after generation 4. */
  lemma IsGeneration4Row1(b: Board)
    requires IsGeneration4(b)
    ensures NextGeneration(b)[1] == [0, 1, 0, 0, 1]
  {
    assert NeighborCount(b, 1, 0) == 2;
    assert NeighborCount(b, 1, 1) == 3;
    assert NeighborCount(b, 1, 2) == 4;
    assert NeighborCount(b, 1, 3) == 4;
    assert NeighborCount(b, 1, 4) == 3;
    NextCellIs(b, 1, 0, 2);
    NextCellIs(b, 1, 1, 3);
    NextCellIs(b, 1, 2, 4);
    NextCellIs(b, 1, 3, 4);
    NextCellIs(b, 1, 4, 3);
    RowOfFive(NextGeneration(b)[1], 0, 1, 0, 0, 1);
  }

  /** Row 2 of the generation after generation 4. */
  lemma IsGeneration4Row2(b: Board)
    requires IsGeneration4(b)
    ensures NextGeneration(b)[2] == [1, 0, 0, 0, 1]
  {
    assert NeighborCount(b, 2, 0) == 3;
    assert NeighborCount(b, 2, 1) == 4;
    assert NeighborCount(b, 2, 2) == 4;
    assert NeighborCount(b, 2, 3) == 4;
    assert NeighborCount(b, 2, 4) == 3;
    NextCellIs(b, 2, 0, 3);
    NextCellIs(b, 2, 1, 4);
    NextCellIs(b, 2, 2, 4);
    NextCellIs(b, 2, 3, 4);
    NextCellIs(b, 2, 4, 3);
    RowOfFive(NextGeneration(b)[2], 1, 0, 0, 0, 1);
  }

  /** Row 3 of the generation after generation 4. */
  lemma IsGeneration4Row3(b: Board)
    requires IsGeneration4(b)
    ensures NextGeneration(b)[3] == [1, 0, 0, 1, 0]
  {
    assert NeighborCount(b, 3, 0) == 3;
    assert NeighborCount(b, 3, 1) == 4;
    assert NeighborCount(b, 3, 2) == 4;
    assert NeighborCount(b, 3, 3) == 3;
    assert NeighborCount(b, 3, 4) == 2;
    NextCellIs(b, 3, 0, 3);
    NextCellIs(b, 3, 1, 4);
    NextCellIs(b, 3, 2, 4);
    NextCellIs(b, 3, 3, 3);
    NextCellIs(b, 3, 4, 2);
    RowOfFive(NextGeneration(b)[3], 1, 0, 0, 1, 0);
  }

  /** Row 4 of the generation after generation 4. */
  lemma IsGeneration4Row4(b: Board)
    requires IsGeneration4(b)
    ensures NextGeneration(b)[4] == [0, 0, 0, 0, 0]
  {
    assert NeighborCount(b, 4, 0) == 2;
    assert NeighborCount(b, 4, 1) == 2;
    assert NeighborCount(b, 4, 2) == 1;
    assert NeighborCount(b, 4, 3) == 0;
    assert NeighborCount(b, 4, 4) == 0;
    NextCellIs(b, 4, 0, 2);
    NextCellIs(b, 4, 1, 2);
    NextCellIs(b, 4, 2, 1);
    NextCellIs(b, 4, 3, 0);
    NextCellIs(b, 4, 4, 0);
    RowOfFive(NextGeneration(b)[4], 0, 0, 0, 0, 0);
  }

  /** Generation 4 evolves to generation 5. */
  lemma Generation4Step(b: Board)
    requires IsGeneration4(b)
    ensures IsGeneration5(NextGeneration(b))
  {
    IsGeneration4Row0(b);
    IsGeneration4Row1(b);
    IsGeneration4Row2(b);
    IsGeneration4Row3(b);
    IsGeneration4Row4(b);
  }

  /** Row 0 of the generation after generation 5. */
  lemma IsGeneration5Row0(b: Board)
    requires IsGeneration5(b)
    ensures NextGeneration(b)[0] == [0, 0, 0, 0, 0]
  {
    assert NeighborCount(b, 0, 0) == 1;
    assert NeighborCount(b, 0, 1) == 1;
    assert NeighborCount(b, 0, 2) == 1;
    assert NeighborCount(b, 0, 3) == 1;
    assert NeighborCount(b, 0, 4) == 1;
    NextCellIs(b, 0, 0, 1);
    NextCellIs(b, 0, 1, 1);
    NextCellIs(b, 0, 2, 1);
    NextCellIs(b, 0, 3, 1);
    NextCellIs(b, 0, 4, 1);
    RowOfFive(NextGeneration(b)[0], 0, 0, 0, 0, 0);
  }

  /** Row 1 of the generation after generation 5. */
  lemma IsGeneration5Row1(b: Board)
    requires IsGeneration5(b)
    ensures NextGeneration(b)[1] == [0, 0, 0, 0, 0]
  {
    assert NeighborCount(b, 1, 0) == 2;
    assert NeighborCount(b, 1, 1) == 1;
    assert NeighborCount(b, 1, 2) == 1;
    assert NeighborCount(b, 1, 3) == 2;
    assert NeighborCount(b, 1, 4) == 1;
    NextCellIs(b, 1, 0, 2);
    NextCellIs(b, 1, 1, 1);
    NextCellIs(b, 1, 2, 1);
    NextCellIs(b, 1, 3, 2);
    NextCellIs(b, 1, 4, 1);
    RowOfFive(NextGeneration(b)[1], 0, 0, 0, 0, 0);
  }

  /** Row 2 of the generation after generation 5. */
  lemma IsGeneration5Row2(b: Board)
    requires IsGeneration5(b)
    ensures NextGeneration(b)[2] == [1, 1, 0, 1, 1]
  {
    assert NeighborCount(b, 2, 0) == 2;
    assert NeighborCount(b, 2, 1) == 3;
    assert NeighborCount(b, 2, 2) == 2;
    assert NeighborCount(b, 2, 3) == 3;
    assert NeighborCount(b, 2, 4) == 2;
    NextCellIs(b, 2, 0, 2);
    NextCellIs(b, 2, 1, 3);
    NextCellIs(b, 2, 2, 2);
    NextCellIs(b, 2, 3, 3);
    NextCellIs(b, 2, 4, 2);
    RowOfFive(NextGeneration(b)[2], 1, 1, 0, 1, 1);
  }

  /** Row 3 of the generation after generation 5. */
  lemma IsGeneration5Row3(b: Board)
    requires IsGeneration5(b)
    ensures NextGeneration(b)[3] == [0, 0, 0, 0, 0]
  {
    assert NeighborCount(b, 3, 0) == 1;
    assert NeighborCount(b, 3, 1) == 2;
    assert NeighborCount(b, 3, 2) == 1;
    assert NeighborCount(b, 3, 3) == 1;
    assert NeighborCount(b, 3, 4) == 2;
    NextCellIs(b, 3, 0, 1);
    NextCellIs(b, 3, 1, 2);
    NextCellIs(b, 3, 2, 1);
    NextCellIs(b, 3, 3, 1);
    NextCellIs(b, 3, 4, 2);
    RowOfFive(NextGeneration(b)[3], 0, 0, 0, 0, 0);
  }

  /** Row 4 of the generation after generation 5. */
  lemma IsGeneration5Row4(b: Board)
    requires IsGeneration5(b)
    ensures NextGeneration(b)[4] == [0, 0, 0, 0, 0]
  {
    assert NeighborCount(b, 4, 0) == 1;
    assert NeighborCount(b, 4, 1) == 1;
    assert NeighborCount(b, 4, 2) == 1;
    assert NeighborCount(b, 4, 3) == 1;
    assert NeighborCount(b, 4, 4) == 1;
    NextCellIs(b, 4, 0, 1);
    NextCellIs(b, 4, 1, 1);
    NextCellIs(b, 4, 2, 1);
    NextCellIs(b, 4, 3, 1);
    NextCellIs(b, 4, 4, 1);
    RowOfFive(NextGeneration(b)[4], 0, 0, 0, 0, 0);
  }

  /** Generation 5 evolves to generation 6. */
  lemma Generation5Step(b: Board)
    requires IsGeneration5(b)
    ensures IsGeneration6(NextGeneration(b))
  {
    IsGeneration5Row0(b);
    IsGeneration5Row1(b);
    IsGeneration5Row2(b);
    IsGeneration5Row3(b);
    IsGeneration5Row4(b);
  }

  /** Row 0 of the generation after generation 6. */
  lemma IsGeneration6Row0(b: Board)
    requires IsGeneration6(b)
    ensures NextGeneration(b)[0] == [0, 0, 0, 0, 0]
  {
    assert NeighborCount(b, 0, 0) == 0;
    assert NeighborCount(b, 0, 1) == 0;
    assert NeighborCount(b, 0, 2) == 0;
    assert NeighborCount(b, 0, 3) == 0;
    assert NeighborCount(b, 0, 4) == 0;
    NextCellIs(b, 0, 0, 0);
    NextCellIs(b, 0, 1, 0);
    NextCellIs(b, 0, 2, 0);
    NextCellIs(b, 0, 3, 0);
    NextCellIs(b, 0, 4, 0);
    RowOfFive(NextGeneration(b)[0], 0, 0, 0, 0, 0);
  }

  /** Row 1 of the generation after generation 6. */
  lemma IsGeneration6Row1(b: Board)
    requires IsGeneration6(b)
    ensures NextGeneration(b)[1] == [0, 0, 0, 0, 0]
  {
    assert NeighborCount(b, 1, 0) == 2;
    assert NeighborCount(b, 1, 1) == 2;
    assert NeighborCount(b, 1, 2) == 2;
    assert NeighborCount(b, 1, 3) == 2;
    assert NeighborCount(b, 1, 4) == 2;
    NextCellIs(b, 1, 0, 2);
    NextCellIs(b, 1, 1, 2);
    NextCellIs(b, 1, 2, 2);
    NextCellIs(b, 1, 3, 2);
    NextCellIs(b, 1, 4, 2);
    RowOfFive(NextGeneration(b)[1], 0, 0, 0, 0, 0);
  }

  /** Row 2 of the generation after generation 6. */
  lemma IsGeneration6Row2(b: Board)
    requires IsGeneration6(b)
    ensures NextGeneration(b)[2] == [0, 0, 0, 0, 0]
  {
    assert NeighborCount(b, 2, 0) == 1;
    assert NeighborCount(b, 2, 1) == 1;
    assert NeighborCount(b, 2, 2) == 2;
    assert NeighborCount(b, 2, 3) == 1;
    assert NeighborCount(b, 2, 4) == 1;
    NextCellIs(b, 2, 0, 1);
    NextCellIs(b, 2, 1, 1);
    NextCellIs(b, 2, 2, 2);
    NextCellIs(b, 2, 3, 1);
    NextCellIs(b, 2, 4, 1);
    RowOfFive(NextGeneration(b)[2], 0, 0, 0, 0, 0);
  }

  /** Row 3 of the generation after generation 6. */
  lemma IsGeneration6Row3(b: Board)
    requires IsGeneration6(b)
    ensures NextGeneration(b)[3] == [0, 0, 0, 0, 0]
  {
    assert NeighborCount(b, 3, 0) == 2;
    assert NeighborCount(b, 3, 1) == 2;
    assert NeighborCount(b, 3, 2) == 2;
    assert NeighborCount(b, 3, 3) == 2;
    assert NeighborCount(b, 3, 4) == 2;
    NextCellIs(b, 3, 0, 2);
    NextCellIs(b, 3, 1, 2);
    NextCellIs(b, 3, 2, 2);
    NextCellIs(b, 3, 3, 2);
    NextCellIs(b, 3, 4, 2);
    RowOfFive(NextGeneration(b)[3], 0, 0, 0, 0, 0);
  }

  /** Row 4 of the generation after generation 6. */
  lemma IsGeneration6Row4(b: Board)
    requires IsGeneration6(b)
    ensures NextGeneration(b)[4] == [0, 0, 0, 0, 0]
  {
    assert NeighborCount(b, 4, 0) == 0;
    assert NeighborCount(b, 4, 1) == 0;
    assert NeighborCount(b, 4, 2) == 0;
    assert NeighborCount(b, 4, 3) == 0;
    assert NeighborCount(b, 4, 4) == 0;
    NextCellIs(b, 4, 0, 0);
    NextCellIs(b, 4, 1, 0);
    NextCellIs(b, 4, 2, 0);
    NextCellIs(b, 4, 3, 0);
    NextCellIs(b, 4, 4, 0);
    RowOfFive(NextGeneration(b)[4], 0, 0, 0, 0, 0);
  }

  /** Generation 6 evolves to generation 7. */
  lemma Generation6Step(b: Board)
    requires IsGeneration6(b)
    ensures IsGeneration7(NextGeneration(b))
  {
    IsGeneration6Row0(b);
    IsGeneration6Row1(b);
    IsGeneration6Row2(b);
    IsGeneration6Row3(b);
    IsGeneration6Row4(b);
  }

  /** The engine's rule takes the starting board to InitialBoardNext. */
  lemma InitialBoardGeneration1(b: Board)
    requires IsInitialBoard(b)
    ensures NextGeneration(b) == InitialBoardNext()
  {
    InitialBoardStep(b);
    var next, expected := NextGeneration(b), InitialBoardNext();
    forall r | 0 <= r < 5 ensures next[r] == expected[r] {
    }
  }

  /** The board after n evolutions. */
  ghost function Evolved(b: Board, n: nat): Board {
    if n == 0 then b else NextGeneration(Evolved(b, n - 1))
  }

  /** After 1 evolution the starting board is generation 1. */
  lemma EvolvedIsGeneration1(b: Board)
    requires IsInitialBoard(b)
    ensures IsGeneration1(Evolved(b, 1))
  {
    InitialBoardStep(Evolved(b, 0));
  }

  /** After 2 evolutions the starting board is generation 2. */
  lemma EvolvedIsGeneration2(b: Board)
    requires IsInitialBoard(b)
    ensures IsGeneration2(Evolved(b, 2))
  {
    EvolvedIsGeneration1(b);
    Generation1Step(Evolved(b, 1));
  }

  /** After 3 evolutions the starting board is generation 3. */
  lemma EvolvedIsGeneration3(b: Board)
    requires IsInitialBoard(b)
    ensures IsGeneration3(Evolved(b, 3))
  {
    EvolvedIsGeneration2(b);
    Generation2Step(Evolved(b, 2));
  }

  /** After 4 evolutions the starting board is generation 4. */
  lemma EvolvedIsGeneration4(b: Board)
    requires IsInitialBoard(b)
    ensures IsGeneration4(Evolved(b, 4))
  {
    EvolvedIsGeneration3(b);
    Generation3Step(Evolved(b, 3));
  }

  /** After 5 evolutions the starting board is generation 5. */
  lemma EvolvedIsGeneration5(b: Board)
    requires IsInitialBoard(b)
    ensures IsGeneration5(Evolved(b, 5))
  {
    EvolvedIsGeneration4(b);
    Generation4Step(Evolved(b, 4));
  }

  /** After 6 evolutions the starting board is generation 6. */
  lemma EvolvedIsGeneration6(b: Board)
    requires IsInitialBoard(b)
    ensures IsGeneration6(Evolved(b, 6))
  {
    EvolvedIsGeneration5(b);
    Generation5Step(Evolved(b, 5));
  }

  /** After 7 evolutions the starting board is generation 7. */
  lemma EvolvedIsGeneration7(b: Board)
    requires IsInitialBoard(b)
    ensures IsGeneration7(Evolved(b, 7))
  {
    EvolvedIsGeneration6(b);
    Generation6Step(Evolved(b, 6));
  }

  /** Generation 7 has no live cell. */
  lemma Generation7IsDead(b: Board)
    requires IsGeneration7(b)
    ensures AllDead(b)
  {
  }

  /** The run of the starting board: generations 1 to 6 each have a live
      cell, and generation 7 is all dead, so the game ends after exactly
      seven evolutions. */
  lemma InitialBoardDiesOutAtGeneration7(b: Board)
    requires IsInitialBoard(b)
    ensures forall n :: 1 <= n < 7 ==> !AllDead(Evolved(b, n))
    ensures AllDead(Evolved(b, 7))
  {
    forall n | 1 <= n < 7 ensures !AllDead(Evolved(b, n)) {
      if n == 1 {
        EvolvedIsGeneration1(b);
        assert Evolved(b, 1)[1][0] == 1;
      } else if n == 2 {
        EvolvedIsGeneration2(b);
        assert Evolved(b, 2)[0][3] == 1;
      } else if n == 3 {
        EvolvedIsGeneration3(b);
        assert Evolved(b, 3)[1][3] == 1;
      } else if n == 4 {
        EvolvedIsGeneration4(b);
        assert Evolved(b, 4)[1][3] == 1;
      } else if n == 5 {
        EvolvedIsGeneration5(b);
        assert Evolved(b, 5)[1][1] == 1;
      } else if n == 6 {
        EvolvedIsGeneration6(b);
        assert Evolved(b, 6)[2][0] == 1;
      }
    }
    EvolvedIsGeneration7(b);
    Generation7IsDead(Evolved(b, 7));
  }

  /** A 2-by-2 block of live cells in the middle of a 4-by-4 board of dead cells. */
  predicate IsBlock(b: Board) {
    |b| == 4 &&
    b[0] == [0, 0, 0, 0] &&
    b[1] == [0, 1, 1, 0] &&
    b[2] == [0, 1, 1, 0] &&
    b[3] == [0, 0, 0, 0]
  }

  /** Row 0 of the generation after the block. */
  lemma IsBlockRow0(b: Board)
    requires IsBlock(b)
    ensures NextGeneration(b)[0] == [0, 0, 0, 0]
  {
    assert NeighborCount(b, 0, 0) == 1;
    assert NeighborCount(b, 0, 1) == 2;
    assert NeighborCount(b, 0, 2) == 2;
    assert NeighborCount(b, 0, 3) == 1;
    NextCellIs(b, 0, 0, 1);
    NextCellIs(b, 0, 1, 2);
    NextCellIs(b, 0, 2, 2);
    NextCellIs(b, 0, 3, 1);
    RowOfFour(NextGeneration(b)[0], 0, 0, 0, 0);
  }

  /** Row 1 of the generation after the block. */
  lemma IsBlockRow1(b: Board)
    requires IsBlock(b)
    ensures NextGeneration(b)[1] == [0, 1, 1, 0]
  {
    assert NeighborCount(b, 1, 0) == 2;
    assert NeighborCount(b, 1, 1) == 3;
    assert NeighborCount(b, 1, 2) == 3;
    assert NeighborCount(b, 1, 3) == 2;
    NextCellIs(b, 1, 0, 2);
    NextCellIs(b, 1, 1, 3);
    NextCellIs(b, 1, 2, 3);
    NextCellIs(b, 1, 3, 2);
    RowOfFour(NextGeneration(b)[1], 0, 1, 1, 0);
  }

  /** Row 2 of the generation after the block. */
  lemma IsBlockRow2(b: Board)
    requires IsBlock(b)
    ensures NextGeneration(b)[2] == [0, 1, 1, 0]
  {
    assert NeighborCount(b, 2, 0) == 2;
    assert NeighborCount(b, 2, 1) == 3;
    assert NeighborCount(b, 2, 2) == 3;
    assert NeighborCount(b, 2, 3) == 2;
    NextCellIs(b, 2, 0, 2);
    NextCellIs(b, 2, 1, 3);
    NextCellIs(b, 2, 2, 3);
    NextCellIs(b, 2, 3, 2);
    RowOfFour(NextGeneration(b)[2], 0, 1, 1, 0);
  }

  /** Row 3 of the generation after the block. */
  lemma IsBlockRow3(b: Board)
    requires IsBlock(b)
    ensures NextGeneration(b)[3] == [0, 0, 0, 0]
  {
    assert NeighborCount(b, 3, 0) == 1;
    assert NeighborCount(b, 3, 1) == 2;
    assert NeighborCount(b, 3, 2) == 2;
    assert NeighborCount(b, 3, 3) == 1;
    NextCellIs(b, 3, 0, 1);
    NextCellIs(b, 3, 1, 2);
    NextCellIs(b, 3, 2, 2);
    NextCellIs(b, 3, 3, 1);
    RowOfFour(NextGeneration(b)[3], 0, 0, 0, 0);
  }

  /** The block is a still life: it evolves to itself, so a game holding it
      never ends. */
  lemma BlockIsStillLife(b: Board)
    requires IsBlock(b)
    ensures NextGeneration(b) == b
    ensures !AllDead(NextGeneration(b))
  {
    IsBlockRow0(b);
    IsBlockRow1(b);
    IsBlockRow2(b);
    IsBlockRow3(b);
    assert NextGeneration(b)[1][1] == 1;
  }

  /** The program's driver loop on its own starting board: evolve while the
      game is not over. The loop stops after seven evolutions, with the
      all-dead generation as the last board. */
  method PlayGameOfLife(engine: GameEngine, gameBoard: Board) returns (finalBoard: Option<Board>, evolutions: nat)
    requires IsInitialBoard(gameBoard) && !engine.gameOver
    modifies engine
    ensures evolutions == 7 && engine.gameOver
    ensures finalBoard == Some(Evolved(gameBoard, 7)) && AllDead(finalBoard.value)
  {
    InitialBoardDiesOutAtGeneration7(gameBoard);
    var board := Some(gameBoard);
    evolutions := 0;
    while !engine.gameOver
      invariant 0 <= evolutions <= 7
      invariant board == Some(Evolved(gameBoard, evolutions))
      invariant engine.gameOver == (evolutions == 7)
      decreases 7 - evolutions
    {
      board := engine.EvolveGameBoard(board);
      evolutions := evolutions + 1;
    }
    finalBoard := board;
  }

  /** A caller's view of one evolution from the starting board: it yields
      InitialBoardNext and does not end the game. */
  method FirstStepFromStartingBoard() returns (next: Option<Board>, gameOver: bool)
    ensures next == Some(InitialBoardNext())
    ensures !gameOver
  {
    var engine := new GameEngine();
    InitialBoardIsInitial();
    InitialBoardGeneration1(InitialBoard());
    next := engine.EvolveGameBoard(Some(InitialBoard()));
    assert next.value[1][0] == 1;
    gameOver := engine.gameOver;
  }
}
