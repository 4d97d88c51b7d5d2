/** Option for the board the engine may be handed or may hand back: `None`
    stands for an absent (null or undefined) board. */
module Wrappers {
  datatype Option<+T> = None | Some(value: T)
}

/** The evolution engine: counting neighbours, allocating the next board and
    computing the next generation, with the process-wide game-over flag held
    as a field of the engine. */
module Engine {
  import opened Wrappers
  import opened Rules

  /** A position of a freshly allocated board: still empty (null) or holding
      the value the evolution step stored there. */
  datatype Slot = Null | Filled(state: int)

  // ---------------------------------------------------------------------
  // The neighbour count, in the order the double loop visits the 3-by-3 window

  /** What position (row, col) adds to the count of (cellRow, cellCol): its
      value if it exists and is not the cell itself, else nothing. */
  function Contribution(board: Board, cellRow: int, cellCol: int, row: int, col: int): int {
    if !(row == cellRow && col == cellCol) && InBounds(board, row, col) then board[row][col] else 0
  }

  /** Sum of the contributions of columns cellCol - 1 .. col - 1 of `row`. */
  ghost function RowScan(board: Board, cellRow: int, cellCol: int, row: int, col: int): int
    decreases col - cellCol
  {
    if col <= cellCol - 1 then 0
    else RowScan(board, cellRow, cellCol, row, col - 1) + Contribution(board, cellRow, cellCol, row, col - 1)
  }

  /** Sum of the contributions of the three columns of rows cellRow - 1 .. row - 1. */
  ghost function WindowScan(board: Board, cellRow: int, cellCol: int, row: int): int
    decreases row - cellRow
  {
    if row <= cellRow - 1 then 0
    else WindowScan(board, cellRow, cellCol, row - 1) + RowScan(board, cellRow, cellCol, row - 1, cellCol + 2)
  }

  /** Scanning the whole window adds up exactly the eight clipped neighbours. */
  lemma {:induction false} WindowScanIsNeighborCount(board: Board, cellRow: int, cellCol: int)
    ensures WindowScan(board, cellRow, cellCol, cellRow + 2) == NeighborCount(board, cellRow, cellCol)
  {
    forall row | cellRow - 1 <= row <= cellRow + 1
      ensures RowScan(board, cellRow, cellCol, row, cellCol + 2) ==
              Contribution(board, cellRow, cellCol, row, cellCol - 1) +
              Contribution(board, cellRow, cellCol, row, cellCol) +
              Contribution(board, cellRow, cellCol, row, cellCol + 1)
    {
      assert RowScan(board, cellRow, cellCol, row, cellCol - 1) == 0;
      assert RowScan(board, cellRow, cellCol, row, cellCol) == Contribution(board, cellRow, cellCol, row, cellCol - 1);
      assert RowScan(board, cellRow, cellCol, row, cellCol + 1) == RowScan(board, cellRow, cellCol, row, cellCol) + Contribution(board, cellRow, cellCol, row, cellCol);
    }
    assert WindowScan(board, cellRow, cellCol, cellRow - 1) == 0;
    assert WindowScan(board, cellRow, cellCol, cellRow) == RowScan(board, cellRow, cellCol, cellRow - 1, cellCol + 2);
    assert WindowScan(board, cellRow, cellCol, cellRow + 1) == WindowScan(board, cellRow, cellCol, cellRow) + RowScan(board, cellRow, cellCol, cellRow, cellCol + 2);
    assert WindowScan(board, cellRow, cellCol, cellRow + 2) == WindowScan(board, cellRow, cellCol, cellRow + 1) + RowScan(board, cellRow, cellCol, cellRow + 1, cellCol + 2);
    assert Contribution(board, cellRow, cellCol, cellRow, cellCol) == 0;
    forall row, col | (row, col) != (cellRow, cellCol)
      ensures Contribution(board, cellRow, cellCol, row, col) == CellAt(board, row, col)
    {
    }
  }

  /** Counts the live neighbours of (cellRow, cellCol) with the source's double
      loop over rows cellRow - 1 .. cellRow + 1 and columns cellCol - 1 ..
      cellCol + 1, skipping the cell itself and every position that does not
      exist in the board. */
  method CountAliveNeighbors(board: Board, cellRow: int, cellCol: int) returns (aliveNeighbors: int)
    ensures aliveNeighbors == NeighborCount(board, cellRow, cellCol)
    ensures IsBinary(board) ==> 0 <= aliveNeighbors <= 8
  {
    aliveNeighbors := 0;
    var row := cellRow - 1;
    while row <= cellRow + 1
      invariant cellRow - 1 <= row <= cellRow + 2
      invariant aliveNeighbors == WindowScan(board, cellRow, cellCol, row)
    {
      var col := cellCol - 1;
      while col <= cellCol + 1
        invariant cellCol - 1 <= col <= cellCol + 2
        invariant aliveNeighbors == WindowScan(board, cellRow, cellCol, row) + RowScan(board, cellRow, cellCol, row, col)
      {
        if !(row == cellRow && col == cellCol) && 0 <= row < |board| && 0 <= col < |board[row]| {
          aliveNeighbors := aliveNeighbors + board[row][col];
        }
        col := col + 1;
      }
      row := row + 1;
    }
    WindowScanIsNeighborCount(board, cellRow, cellCol);
    if IsBinary(board) {
      NeighborCountRange(board, cellRow, cellCol);
    }
  }

  /** Allocates a board of the same shape as `board`, every position null,
      pushing one row at a time and one null at a time. */
  method CreateEmptyGameBoard(board: Board) returns (newBoard: seq<seq<Slot>>)
    ensures SameShape(newBoard, board)
    ensures forall r, c :: 0 <= r < |newBoard| && 0 <= c < |newBoard[r]| ==> newBoard[r][c] == Null
  {
    newBoard := [];
    var row := 0;
    while row < |board|
      invariant 0 <= row <= |board|
      invariant |newBoard| == row
      invariant forall r :: 0 <= r < row ==> newBoard[r] == seq(|board[r]|, _ => Null)
    {
      newBoard := newBoard + [[]];
      var col := 0;
      while col < |board[row]|
        invariant 0 <= col <= |board[row]|
        invariant |newBoard| == row + 1
        invariant forall r :: 0 <= r < row ==> newBoard[r] == seq(|board[r]|, _ => Null)
        invariant newBoard[row] == seq(col, _ => Null)
      {
        newBoard := newBoard[row := newBoard[row] + [Null]];
        col := col + 1;
      }
      row := row + 1;
    }
  }

  /** Every position of `slots` has been filled with the next state of the
      matching cell of `board`, for rows before `row`, and for columns before
      `col` of row `row`. */
  ghost predicate FilledUpTo(slots: seq<seq<Slot>>, board: Board, row: int, col: int)
    requires SameShape(slots, board)
  {
    forall r, c :: 0 <= r < |board| && 0 <= c < |board[r]| && (r < row || (r == row && c < col)) ==>
      slots[r][c] == Filled(NextGeneration(board)[r][c])
  }

  /** No cell of the next generation filled so far (in the sense of
      FilledUpTo) is alive. */
  ghost predicate DeadUpTo(board: Board, row: int, col: int) {
    forall r, c :: 0 <= r < |board| && 0 <= c < |board[r]| && (r < row || (r == row && c < col)) ==>
      NextGeneration(board)[r][c] == 0
  }

  /** Filling position (row, col) extends the filled region by one cell, and
      the dead region by one cell exactly when the new cell is dead. */
  lemma FillStep(slots: seq<seq<Slot>>, board: Board, row: nat, col: nat)
    requires SameShape(slots, board) && InBounds(board, row, col)
    requires FilledUpTo(slots, board, row, col)
    ensures var slots' := slots[row := slots[row][col := Filled(NextGeneration(board)[row][col])]];
      SameShape(slots', board) && FilledUpTo(slots', board, row, col + 1)
    ensures DeadUpTo(board, row, col + 1) == (DeadUpTo(board, row, col) && NextGeneration(board)[row][col] == 0)
  {
  }

  /** A completely filled row counts as the start of the next row. */
  lemma NextRow(slots: seq<seq<Slot>>, board: Board, row: nat)
    requires SameShape(slots, board) && row < |board|
    requires FilledUpTo(slots, board, row, |board[row]|)
    ensures FilledUpTo(slots, board, row + 1, 0)
    ensures DeadUpTo(board, row, |board[row]|) == DeadUpTo(board, row + 1, 0)
  {
  }

  /** The values stored in a board of slots, a null read as 0. */
  function States(slots: seq<seq<Slot>>): Board {
    seq(|slots|, r requires 0 <= r < |slots| =>
      seq(|slots[r]|, c requires 0 <= c < |slots[r]| =>
        if slots[r][c].Filled? then slots[r][c].state else 0))
  }

  /** Reading the states out of a completely filled board gives the next
      generation. */
  lemma ReadOut(slots: seq<seq<Slot>>, board: Board)
    requires SameShape(slots, board) && FilledUpTo(slots, board, |board|, 0)
    ensures States(slots) == NextGeneration(board)
    ensures DeadUpTo(board, |board|, 0) == AllDead(States(slots))
  {
    var next, result := NextGeneration(board), States(slots);
    forall r | 0 <= r < |board| ensures result[r] == next[r] {
      forall c | 0 <= c < |board[r]| ensures result[r][c] == next[r][c] {
        assert slots[r][c] == Filled(next[r][c]);
      }
    }
  }

  class GameEngine {
    /** Set once a generation with no live cell has been produced, or an
        absent board has been handed in; never reset. */
    var gameOver: bool

    constructor ()
      ensures !gameOver
    {
      gameOver := false;
    }

    /** One evolution step. An absent board ends the game and yields no board.
        Otherwise the result is a new board of the same shape holding the next
        generation, each cell decided from the input board only, and the
        game is over afterwards iff it was over before or the new generation
        has no live cell. */
    method EvolveGameBoard(gameBoard: Option<Board>) returns (next: Option<Board>)
      modifies this
      ensures gameBoard.None? ==> next.None? && gameOver
      ensures gameBoard.Some? ==> next == Some(NextGeneration(gameBoard.value))
      ensures gameBoard.Some? ==> gameOver == (old(gameOver) || AllDead(next.value))
    {
      if gameBoard.None? {
        gameOver := true;
        return None;
      }
      var board := gameBoard.value;

      var newBoard := CreateEmptyGameBoard(board);
      var allCellsDead := true;

      var row := 0;
      while row < |board|
        invariant 0 <= row <= |board|
        invariant SameShape(newBoard, board)
        invariant FilledUpTo(newBoard, board, row, 0)
        invariant allCellsDead == DeadUpTo(board, row, 0)
        invariant gameOver == old(gameOver)
      {
        var col := 0;
        while col < |board[row]|
          invariant 0 <= col <= |board[row]|
          invariant SameShape(newBoard, board)
          invariant FilledUpTo(newBoard, board, row, col)
          invariant allCellsDead == DeadUpTo(board, row, col)
          invariant gameOver == old(gameOver)
        {
          var numAliveNeighbors := CountAliveNeighbors(board, row, col);
          ghost var before := newBoard;
          ghost var expected := NextGeneration(board)[row][col];
          NextGenerationAt(board, row, col);

          if IsAlive(board[row][col]) {
            if numAliveNeighbors < 2 || numAliveNeighbors > 3 {
              newBoard := newBoard[row := newBoard[row][col := Filled(0)]];
            } else {
              newBoard := newBoard[row := newBoard[row][col := Filled(1)]];
              if allCellsDead {
                allCellsDead := false;
              }
            }
          } else {
            if numAliveNeighbors == 3 {
              newBoard := newBoard[row := newBoard[row][col := Filled(1)]];
              if allCellsDead {
                allCellsDead := false;
              }
            } else {
              newBoard := newBoard[row := newBoard[row][col := Filled(0)]];
            }
          }
          assert newBoard == before[row := before[row][col := Filled(expected)]];
          FillStep(before, board, row, col);
          col := col + 1;
        }
        NextRow(newBoard, board, row);
        row := row + 1;
      }

      if allCellsDead {
        gameOver := true;
      }

      var result := States(newBoard);
      ReadOut(newBoard, board);
      assert allCellsDead == AllDead(result);
      return Some(result);
    }
  }
}
