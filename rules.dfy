/** The evolution rule of the Game of Life, stated as functions on values.
    A board is a sequence of rows; a row is a sequence of cells. Rows may in
    principle have different lengths, so every bounds test is made per row. */
module Rules {

  type Board = seq<seq<int>>

  /** A cell is alive when its value is non-zero, as a number is truthy. */
  predicate IsAlive(state: int) { state != 0 }

  /** Every cell is DEAD (0) or ALIVE (1). */
  ghost predicate IsBinary(board: Board) {
    forall r, c :: 0 <= r < |board| && 0 <= c < |board[r]| ==> board[r][c] == 0 || board[r][c] == 1
  }

  /** Every cell of the board is 0: the terminal generation. */
  predicate AllDead(board: Board) {
    forall r, c :: 0 <= r < |board| && 0 <= c < |board[r]| ==> board[r][c] == 0
  }

  /** Two boards have the same number of rows and each row the same length. */
  predicate SameShape<T, U>(a: seq<seq<T>>, b: seq<seq<U>>) {
    |a| == |b| && forall r :: 0 <= r < |a| ==> |a[r]| == |b[r]|
  }

  /** (row, col) names a cell that exists; a negative index or one past the
      end of its own row does not. */
  predicate InBounds(board: Board, row: int, col: int) {
    0 <= row < |board| && 0 <= col < |board[row]|
  }

  /** The value a neighbour contributes: its state when it exists, else 0. */
  function CellAt(board: Board, row: int, col: int): int {
    if InBounds(board, row, col) then board[row][col] else 0
  }

  /** Reference definition of the neighbour count: the eight positions around
      (row, col), clipped at the edges, without wrap-around. */
  function NeighborCount(board: Board, row: int, col: int): int {
    CellAt(board, row - 1, col - 1) + CellAt(board, row - 1, col) + CellAt(board, row - 1, col + 1) +
    CellAt(board, row, col - 1)                                    + CellAt(board, row, col + 1) +
    CellAt(board, row + 1, col - 1) + CellAt(board, row + 1, col) + CellAt(board, row + 1, col + 1)
  }

  /** The next state of one cell, branch for branch as the engine decides it. */
  function NextCellState(state: int, aliveNeighbors: int): (next: int)
    ensures next == 0 || next == 1
  {
    if IsAlive(state) then
      if aliveNeighbors < 2 || aliveNeighbors > 3 then 0 else 1
    else
      if aliveNeighbors == 3 then 1 else 0
  }

  /** Conway's rule in its usual compact form B3/S23: a cell is alive in the
      next generation iff it has three live neighbours, or it is alive and has
      two. */
  predicate BornOrSurvives(alive: bool, aliveNeighbors: int) {
    aliveNeighbors == 3 || (alive && aliveNeighbors == 2)
  }

  /** The next generation: a board of the same shape, each cell computed from
      the input board alone. */
  function NextGeneration(board: Board): (next: Board)
    ensures SameShape(next, board)
    ensures IsBinary(next)
  {
    seq(|board|, r requires 0 <= r < |board| =>
      seq(|board[r]|, c requires 0 <= c < |board[r]| =>
        NextCellState(board[r][c], NeighborCount(board, r, c))))
  }

  /** Unfolding helper: cell (row, col) of the next generation is the rule
      applied to the cell and its neighbour count in the input board. */
  lemma NextGenerationAt(board: Board, row: nat, col: nat)
    requires InBounds(board, row, col)
    ensures NextGeneration(board)[row][col] == NextCellState(board[row][col], NeighborCount(board, row, col))
  {
  }

  // ---------------------------------------------------------------------
  // Properties of the rule

  /** The branchy rule and the compact B3/S23 rule agree, in both directions. */
  lemma NextCellStateIsConway(state: int, aliveNeighbors: int)
    ensures NextCellState(state, aliveNeighbors) == 1 <==> BornOrSurvives(IsAlive(state), aliveNeighbors)
    ensures NextCellState(state, aliveNeighbors) == 0 <==> !BornOrSurvives(IsAlive(state), aliveNeighbors)
  {
  }

  /** Each cell of the next generation follows Conway's B3/S23 rule on the
      input board: it is 1 iff it has three live neighbours, or is alive and
      has two, and 0 otherwise. */
  lemma NextGenerationIsConway(board: Board, row: nat, col: nat)
    requires InBounds(board, row, col)
    ensures NextGeneration(board)[row][col] == 1 <==> BornOrSurvives(IsAlive(board[row][col]), NeighborCount(board, row, col))
    ensures NextGeneration(board)[row][col] == 0 <==> !BornOrSurvives(IsAlive(board[row][col]), NeighborCount(board, row, col))
  {
    NextCellStateIsConway(board[row][col], NeighborCount(board, row, col));
  }

  /** A live cell stays alive iff it has 2 or 3 live neighbours, else it dies. */
  lemma SurvivalRule(board: Board, row: nat, col: nat)
    requires InBounds(board, row, col) && IsAlive(board[row][col])
    ensures NextGeneration(board)[row][col] == 1 <==> NeighborCount(board, row, col) in {2, 3}
    ensures NextGeneration(board)[row][col] == 0 <==> NeighborCount(board, row, col) !in {2, 3}
  {
  }

  /** A dead cell comes alive iff it has exactly 3 live neighbours, else it stays dead. */
  lemma BirthRule(board: Board, row: nat, col: nat)
    requires InBounds(board, row, col) && !IsAlive(board[row][col])
    ensures NextGeneration(board)[row][col] == 1 <==> NeighborCount(board, row, col) == 3
    ensures NextGeneration(board)[row][col] == 0 <==> NeighborCount(board, row, col) != 3
  {
  }

  /** On a board of 0s and 1s the count lies between 0 and 8. */
  lemma NeighborCountRange(board: Board, row: int, col: int)
    requires IsBinary(board)
    ensures 0 <= NeighborCount(board, row, col) <= 8
  {
  }

  /** The corner (0, 0) sees only its right, lower and lower-right neighbours:
      nothing wraps around from the last row or the last column. */
  lemma CornerNeighbors(board: Board)
    requires |board| >= 2 && |board[0]| >= 2 && |board[1]| >= 2
    ensures NeighborCount(board, 0, 0) == board[0][1] + board[1][0] + board[1][1]
  {
  }

  /** The cell itself is not one of its neighbours: changing it leaves its
      count as it was. */
  lemma NeighborCountExcludesSelf(board: Board, row: nat, col: nat, v: int)
    requires InBounds(board, row, col)
    ensures NeighborCount(board[row := board[row][col := v]], row, col) == NeighborCount(board, row, col)
  {
    var b' := board[row := board[row][col := v]];
    forall dr, dc | -1 <= dr <= 1 && -1 <= dc <= 1 && (dr, dc) != (0, 0)
      ensures CellAt(b', row + dr, col + dc) == CellAt(board, row + dr, col + dc)
    {
    }
  }

  /** Two boards whose cells agree on the 3-by-3 window around (row, col),
      where a missing position reads as 0, give that cell the same next
      state: each output cell depends on nothing else of the input. */
  lemma NextStateIsLocal(b1: Board, b2: Board, row: nat, col: nat)
    requires InBounds(b1, row, col) && InBounds(b2, row, col)
    requires forall r, c :: row - 1 <= r <= row + 1 && col - 1 <= c <= col + 1 ==> CellAt(b1, r, c) == CellAt(b2, r, c)
    ensures NextGeneration(b1)[row][col] == NextGeneration(b2)[row][col]
  {
    assert CellAt(b1, row, col) == CellAt(b2, row, col);
    assert NeighborCount(b1, row, col) == NeighborCount(b2, row, col) by {
      assert CellAt(b1, row - 1, col - 1) == CellAt(b2, row - 1, col - 1);
      assert CellAt(b1, row - 1, col) == CellAt(b2, row - 1, col);
      assert CellAt(b1, row - 1, col + 1) == CellAt(b2, row - 1, col + 1);
      assert CellAt(b1, row, col - 1) == CellAt(b2, row, col - 1);
      assert CellAt(b1, row, col + 1) == CellAt(b2, row, col + 1);
      assert CellAt(b1, row + 1, col - 1) == CellAt(b2, row + 1, col - 1);
      assert CellAt(b1, row + 1, col) == CellAt(b2, row + 1, col);
      assert CellAt(b1, row + 1, col + 1) == CellAt(b2, row + 1, col + 1);
    }
  }

  /** A board of dead cells evolves to a board of dead cells of the same shape. */
  lemma DeadBoardStaysDead(board: Board)
    requires AllDead(board)
    ensures AllDead(NextGeneration(board)) && SameShape(NextGeneration(board), board)
  {
    forall r, c | 0 <= r < |board| && 0 <= c < |board[r]|
      ensures NeighborCount(board, r, c) == 0
    {
    }
  }
}
