# Game of Life evolution engine in Dafny

This project models the evolution engine of a small JavaScript Game of Life
program (`game_of_life.js`). The engine has three parts:

- It counts the live neighbours of a cell. The count covers the eight
  surrounding positions, clipped at the edges of the board, with no
  wrap-around.
- It allocates a new board with the same shape as the current one.
- It computes the next generation. Every cell follows Conway's
  birth/survival rule, and the rule reads only the current board.

The program keeps a process-wide `gameOver` flag. The engine sets it when the
new generation has no live cell, or when it is handed no board at all.

Layout:

- `rules.dfy`, module `Rules`: the rule as functions on values. A board is
  `seq<seq<int>>`, and every bounds test is made per row, as the source does
  it. Properties of the rule are proved as lemmas.
- `engine.dfy`, module `Engine` (with a one-type `Wrappers` module for
  `Option`): the source's loops as methods. `CountAliveNeighbors` runs the
  3-by-3 double loop. `CreateEmptyGameBoard` pushes null slots row by row.
  Class `GameEngine` holds the `gameOver` field, and its `EvolveGameBoard`
  fills the new board cell by cell. Each method is proved against the
  functions of `Rules`.
- `patterns.dfy`, module `Patterns`: concrete boards. These are the program's
  5-by-5 starting board with each generation of its run, and the 2-by-2 block
  still life. The driver loop `PlayGameOfLife` is modelled on that starting
  board, where it stops after seven evolutions.

Modelling decisions:

- An absent board (JavaScript `null` or `undefined`) is `Option.None`.
- The null cells of a freshly allocated board are the `Slot.Null` value.
  `EvolveGameBoard` fills every slot and then reads the states out.
- A cell is alive when its value is non-zero, which is how JavaScript tests
  a number for truth. The neighbour count adds the raw values, as the source
  does, but with exact (unbounded) integers. The model therefore agrees with
  the source on boards of 0s and 1s, and on any integer board whose partial
  neighbour sums stay within 2^53 in magnitude. Properties that
  hold only for boards of 0s and 1s (the count lies in 0..8) say so with
  `IsBinary`.
- Two modelling choices follow the source. First, the flag is a global that
  is set and never reset: `EvolveGameBoard` ensures
  `gameOver == old(gameOver) || AllDead(next)`. Second, an empty board (no
  rows) is accepted. It evolves to an empty board, which counts as all-dead
  and ends the game.

## Model

| member | source | states |
|---|---|---|
| `Rules.NextCellState` | game_of_life.js:59-80 | the next state of a cell is always 0 or 1, whatever the cell value and count |
| `Rules.NextGeneration` | game_of_life.js:50-56 | the next generation has the same number of rows as the input, each of the same length, and holds only 0s and 1s |
| `Rules.NextGenerationIsConway` | game_of_life.js:55-81 | each cell of the next generation is 1 iff, in the input, it has 3 live neighbours or is alive with 2, and 0 otherwise (Conway's B3/S23, both directions) |
| `Rules.NextCellStateIsConway` | game_of_life.js:59-80 | the branch-by-branch rule agrees with Conway's B3/S23 rule in both directions: alive next iff 3 live neighbours, or alive now with 2 |
| `Rules.SurvivalRule` | game_of_life.js:59-69 | a live cell is 1 in the next generation iff its count is 2 or 3, and 0 otherwise |
| `Rules.BirthRule` | game_of_life.js:70-80 | a dead cell is 1 in the next generation iff its count is exactly 3, and 0 otherwise |
| `Rules.NeighborCountRange` | game_of_life.js:153-166 | on a board of 0s and 1s the neighbour count lies between 0 and 8 |
| `Rules.CornerNeighbors` | game_of_life.js:156-161 | corner (0, 0) sees only (0, 1), (1, 0) and (1, 1); nothing wraps around from the far edges |
| `Rules.NeighborCountExcludesSelf` | game_of_life.js:159 | changing a cell's own value does not change its neighbour count |
| `Rules.NextStateIsLocal` | game_of_life.js:30-34 | two input boards that agree on a cell's 3-by-3 window give that cell the same next state, so the cell depends on nothing else |
| `Rules.DeadBoardStaysDead` | game_of_life.js:70-80 | an all-dead board evolves to an all-dead board of the same shape |
| `Engine.WindowScanIsNeighborCount` | game_of_life.js:156-163 | visiting the 3-by-3 window row by row, skipping the cell itself, adds up exactly the eight clipped neighbours |
| `Engine.CountAliveNeighbors` | game_of_life.js:153-166 | the double loop returns the clipped eight-neighbour count, which lies in 0..8 on a board of 0s and 1s |
| `Engine.CreateEmptyGameBoard` | game_of_life.js:125-136 | the new board has the input's row count and per-row lengths, and every position is null |
| `Engine.GameEngine.constructor` | game_of_life.js:8 | the game starts not over |
| `Engine.GameEngine.EvolveGameBoard` | game_of_life.js:43-93 | an absent board sets the flag and yields no board; otherwise the result is the next generation of the input, computed from the input only, and the flag afterwards is its old value or "every new cell is 0", so it is never reset |
| `Patterns.InitialBoardIsInitial` | game_of_life.js:1-7 | bridge: the starting board's literal value meets the row-by-row description the other pattern lemmas reason about |
| `Patterns.InitialBoardGeneration1` | game_of_life.js:1-7 | the starting board evolves to 00000 / 10111 / 11111 / 01000 / 00000 |
| `Patterns.InitialBoardDiesOutAtGeneration7` | game_of_life.js:1-7 | generations 1 to 6 of the starting board each hold a live cell, and generation 7 is all dead |
| `Patterns.PlayGameOfLife` | game_of_life.js:20-28 | the driver loop, started on the starting board with the flag clear, stops after exactly 7 evolutions with the flag set and the all-dead generation 7 as its last board |
| `Patterns.BlockIsStillLife` | game_of_life.js:59-80 | a 2-by-2 block centred in a 4-by-4 dead board evolves to itself and is not all dead |
| `Patterns.FirstStepFromStartingBoard` | game_of_life.js:20-23 | the driver's first evolution of the starting board yields that generation and does not end the game |

## Left out

- `logGameBoard` (game_of_life.js:102-114) is not modelled. It only builds a
  string and writes it to the console.
- PlayGameOfLife: modelled only for the program's own starting board. For
  other boards the loop has no bound: a still life or an oscillator runs
  forever, so there is no termination measure for it.
- JavaScript coercions on malformed boards are not modelled: non-number
  cells, `null` or `undefined` cells (skipped by the `!= undefined` test),
  `NaN`, and rows that are not arrays. Cells are integers.
- Floating-point rounding of the neighbour sum is not modelled. JavaScript
  numbers are doubles, so a running sum beyond 2^53 rounds. For example, a
  window holding 2^53, 1, -2^53 and 3 sums to 3 in the source and to 4 here.
  Boards of 0s and 1s, the only boards the program builds, are unaffected.
- Aliasing between boards is not modelled. Boards are values, so the engine
  cannot change its input, and the new board cannot share rows with it.
