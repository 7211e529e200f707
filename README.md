# Conway's Game of Life board, modelled in Dafny

This project models the core of a console Game of Life. It covers:

- the board, a grid of boolean cells that is updated in place one generation per tick;
- its neighbour count, which truncates at the edges (there is no wrap-around);
- its two text renderings;
- the setup dialogue. Before the game runs, the player toggles cells by entering a column and a row, randomizes the board with `r`, or continues with `c`.

Modules:

- `Life` (life.dfy) is the reference definition. It holds the grid type, the
  declarative neighbour count `LiveNeighbours`, Conway's rule (`Survives`), the board's
  shortened flip rule (`Flips`, `FlipsAt`) and one generation `Next`, plus the
  lemmas about them.
- `Text` (text.dfy) holds the renderings as functions. Cells are written as ` X ` and
  ` - `, with newlines between rows. It also holds the decimal printing and parsing
  of `usize` that the indexed rendering and the setup prompts use. A decoder shows
  that the plain rendering can be read back.
- `Board` (board.dfy) is the `Board` class: fields `positions` and `iter`. Its
  methods mirror the Rust program's loops: the 8-slot edge mask, the slot-by-slot count
  with its early exit, the flip decision, the two-phase tick and the
  string-building renderings. Each is proved against `Life` and `Text`.
- `Game` (game.dfy) is the `Game` class, which owns a `Board`. Its methods are the
  bounds-checked toggle, the randomizer and the setup loop over a sequence of
  input tokens. The loop is proved against the function `SetupFrom`, which states
  the dialogue round by round.

Points where the code's behaviour is easy to misread:

- The first number entered (at the "Col" prompt) selects the OUTER index of
  `positions`. The indexed rendering labels that index as a row. Entering column
  `0` and then row `1` therefore flips the cell shown in row 0, column 1. The
  model keeps this exactly as written (`SetupTogglesPair`).
- A board of a single row does not always die out. Three live cells in a row
  keep their middle cell, and `SingleRowCanSurvive` proves it. What does hold is
  that no cell of a single row is ever born (`SingleRowHasNoBirths`).
- The neighbour count may stop early once it has passed 3. Its result is exact
  only up to 3; above that it is some value in (3, true count]. Every count above
  3 leads to the same decision (`FlipsSaturates`), so `Tick` still computes exactly
  `Next`.
- `Tick` and `SumNeighbours` require a rectangular board (`Board.Valid`). On
  ragged rows the edge mask uses the current row's width for the rows above and
  below. Every board the game builds is square, and every edit keeps the shape
  (`SetupKeepsShape`, the `ensures` of `Toggle` and `Randomized`).

## Model

| member | source | states |
|---|---|---|
| Life.Next | src/board.rs:9-23 | one generation keeps the board's shape: the same number of rows, each of the same length |
| Life.NextIsFlipOf | src/board.rs:35-42 | each cell of the next generation is the old cell XOR the board's flip decision for it |
| Life.NextFlipsEveryCell | src/board.rs:12-22 | the XOR-with-flip-decision property for every cell at once |
| Life.FlipsIffChanges | src/board.rs:27-42 | the board's shortened rule (flip a live cell outside 2..=3, a dead cell at exactly 3) flips exactly the cells whose state Conway's rule changes |
| Life.FlipsSaturates | src/board.rs:88-91 | any two neighbour counts above 3 give the same flip decision, so stopping the count early is sound |
| Life.NeighbourBound | src/board.rs:44-94 | no cell has more than 8 live neighbours; a corner has at most 3 and an edge cell at most 5, because edges truncate |
| Life.AllDeadIsFixed | src/board.rs:39 | a board with no live cell is unchanged by a generation |
| Life.LoneCellDies | src/board.rs:39 | a live cell with no live neighbour dies |
| Life.SingleRowHasNoBirths | src/board.rs:44-94 | on a one-row board no dead cell comes alive |
| Life.SingleRowCanSurvive | src/board.rs:44-94 | the one-row board X X X becomes - X -, so one-row boards need not die out |
| Life.BlinkerTurns | src/board.rs:9-23 | on any rectangular board of at least 3 by 3 whose only live cells are (1,0), (1,1), (1,2), the next generation's only live cells are (0,1), (1,1), (2,1) |
| Life.BlinkerTurnsBack | src/board.rs:9-23 | on the same boards the vertical blinker (0,1), (1,1), (2,1) turns back into the horizontal one, so the blinker has period 2 |
| Life.BlockIsStill | src/board.rs:9-23 | a board whose only live cells are a 2 by 2 block, at any position on the board, is unchanged by a generation |
| Life.BlockCellStays | src/board.rs:35-42 | on such a board every cell keeps its state: block cells have 3 live neighbours, the others at most 2 |
| Life.SameShapeRectangular | src/board.rs:20-22 | boards of the same shape are rectangular alike, so shape-preserving edits keep a board valid |
| Board.SlotSumIsNeighbourCount | src/board.rs:71-87 | summing the eight neighbour slots in the board's order gives the declarative neighbour count |
| Board.CountSoFar | src/board.rs:88-93 | a count that stopped early above 3, or ran through all 8 slots, is exact up to 3 and otherwise in (3, true count] |
| Board.MaskIsOnBoard | src/board.rs:45-69 | on a rectangular board the four edge tests switch off exactly the slots whose neighbour lies off the board |
| Board.AppliedFlipsGiveNext | src/board.rs:12-22 | flipping, in a copy of the old board, exactly the cells the rule marks gives the next generation |
| Board.Board.constructor | src/board.rs:138-145 | a board built from rows holds those rows and has counted no tick |
| Board.Board.GetValue | src/board.rs:96-111 | returns 1 exactly when the indices are on the board and the cell is live, and 0 otherwise, including any out-of-range index |
| Board.Board.SquaresToCheck | src/board.rs:45-69 | the mask has 8 slots, and slot k is on exactly when neighbour k is on the board |
| Board.Board.SumNeighbours | src/board.rs:44-94 | at most 8; equals the number of live neighbours when that is at most 3, and lies in (3, that number] otherwise; never reads index i-1 or j-1 at 0 (the indices are naturals) |
| Board.Board.FlipsState | src/board.rs:27-43 | true exactly when the cell is live with a neighbour count outside 2..=3, or dead with exactly 3 |
| Board.Board.CollectFlips | src/board.rs:12-19 | the flip list holds exactly the cells the rule marks, each once, all decided on the unchanged board |
| Board.Board.ApplyFlips | src/board.rs:20-22 | flipping the listed cells in place toggles exactly those cells and writes only to cells that exist |
| Board.Board.Tick | src/board.rs:9-23 | the new board is `Next` of the old board, each cell being the old cell XOR the flip decision taken on the old board; the shape is kept and iter goes up by exactly 1 |
| Board.Board.Fmt | src/board.rs:146-163 | the text built is the plain rendering of the board |
| Board.Board.AppendRow | src/board.rs:127-133 | appends the glyphs of one row, ` X ` for live and ` - ` for dead |
| Board.Board.PrintWithIdx | src/board.rs:112-136 | the text built is the header of column labels, sized by the first row, followed by each row behind its label |
| Board.Board.AppendLabel | src/board.rs:115-117 | appends an index in decimal between two spaces |
| Text.RowText | src/board.rs:153-159 | a row renders as 3 characters per cell and contains no newline |
| Text.RenderLines | src/board.rs:146-162 | the rendering has one line per row, rows are separated by a newline with none after the last, and line k is 3 times as long as row k |
| Text.RenderRoundTrip | src/board.rs:146-162 | a rendered board with at least one row reads back as the same board |
| Text.RenderEmptyAmbiguous | src/board.rs:146-162 | the board with no rows and the board of one empty row both render as the empty text |
| Text.IndexedRenderLines | src/board.rs:112-136 | the indexed rendering is the header line followed by exactly one labelled line per row |
| Text.DecimalString | src/board.rs:116 | an index prints as at least one decimal digit with no leading zero |
| Text.ParseUsize | src/game.rs:57-60 | a parsed number never exceeds the largest 64-bit usize |
| Text.ParseUsizeMeaning | src/game.rs:57-60 | a token parses exactly when it is an optional '+' followed by one or more digits whose value fits in a 64-bit usize, and the result is that value |
| Text.ParseDecimal | src/game.rs:57-60 | a printed number parses back to itself when it fits in a usize and is rejected when it does not |
| Text.ParseIgnoresPlusAndZero | src/game.rs:57-60 | a leading '+' or a leading zero in front of a run of digits does not change the parse |
| Text.SignedAndPaddedSeven | src/game.rs:57-60 | the tokens "+7" and "07" both parse as 7 |
| Text.ParseRejectsOverflow | src/game.rs:57-60 | the decimal text of 2^64 is rejected, so a number above the largest usize is ignored like any other bad token |
| Text.CommandsAreNotNumbers | src/game.rs:52-60 | "c", "r", the empty token, "-1" and "+" do not parse as numbers |
| Game.Blank | src/game.rs:19 | the starting board is size by size, rectangular and all dead |
| Game.Toggle | src/game.rs:33-44 | the toggled board has the shape of the original |
| Game.ToggleCells | src/game.rs:33-44 | toggling flips exactly the addressed cell when it exists and leaves every other cell unchanged |
| Game.ToggleOutOfRange | src/game.rs:35-42 | an index off the board leaves the board completely unchanged |
| Game.ToggleTwice | src/game.rs:43 | toggling the same cell twice restores the board |
| Game.Randomized | src/game.rs:79-85 | a randomization keeps the board's shape |
| Game.RandomizedForgetsCells | src/game.rs:79-85 | the result of a randomization depends only on the board's shape, not on its cells |
| Game.RandomizedReachesAll | src/game.rs:79-85 | for each board of the same shape, some source of random cells produces it |
| Game.SetupKeepsShape | src/game.rs:45-73 | the whole setup dialogue never changes the board's shape |
| Game.SetupFinishesIffC | src/game.rs:45-73 | setup reports that the player continued exactly when a "c" token was entered, since every token is compared with "c" before the dialogue moves past it |
| Game.SetupStopsAtColumnC | src/game.rs:52-53 | "c" at the column prompt ends setup with the board unchanged |
| Game.SetupStopsAtRowC | src/game.rs:62-63 | "c" at the row prompt ends setup and drops the column already read |
| Game.SetupRandomizesAtColumn | src/game.rs:54-60 | "r" at the column prompt randomizes the board and then starts the next round without a toggle |
| Game.SetupRandomizesAtRow | src/game.rs:64-70 | "r" at the row prompt randomizes the board, drops the column and starts the next round |
| Game.SetupSkipsBadColumn | src/game.rs:57-60 | a column token that is neither a command nor a number changes nothing and starts the next round |
| Game.SetupSkipsBadRow | src/game.rs:67-70 | a row token that is neither a command nor a number drops the pending column and changes nothing |
| Game.SetupTogglesPair | src/game.rs:71 | two numbers (col, row) toggle positions[col][row]; the first number picks the outer index |
| Game.SetupRepeatedPairCancels | src/game.rs:71 | entering the same pair twice in a row leaves the board as it was |
| Game.SetupDanglingColumn | src/game.rs:57-61 | a number at the column prompt with no input after it changes nothing, and setup does not report that the player continued |
| Game.Game.constructor | src/game.rs:19-23 | a new game owns a fresh size by size board of dead cells that has counted no tick |
| Game.Game.ChangeValue | src/game.rs:33-44 | the board becomes `Toggle` of the old board; the tick count is unchanged and a rectangular board stays rectangular |
| Game.Game.RandomSetup | src/game.rs:79-85 | every cell is overwritten with that round's draw; the shape is kept, so a rectangular board stays rectangular |
| Game.Game.SetupBoard | src/game.rs:45-73 | the final board, and whether the player continued, are what `SetupFrom` gives for the token sequence; a rectangular board stays rectangular, ready for `Tick` |

## Left out

- Argument parsing in `src/main.rs` and in `Game::new` (src/game.rs:11-18) is left out: it is process entry and panic plumbing. `Game.Game.constructor` takes the size and the pause as parameters.
- `start_game` (src/game.rs:25-32) is left out: it loops forever, clearing the console, printing, ticking and sleeping. `Board.Board.Tick` and `Board.Board.Fmt` model what each round computes.
- All console I/O is left out: `print_tick_iter` (src/board.rs:24-26), the `println!` in `print_with_idx`, and the prompts of `setup_board`. The renderings return their text instead of printing it.
- `read_value` (src/game.rs:74-78) is left out. `Game.Game.SetupBoard` takes the already-trimmed input lines as a sequence of tokens.
- Game.Game.SetupBoard: when the input ends, the Rust program keeps reading empty lines forever. The model stops and returns false.
- `rand::random()` is a parameter `coin(round, i, j)`. The round is the position of the `r` token that triggered the randomization. The model says nothing about the distribution.
- Board.Board.Tick: `iter` is a `u32` in the Rust program. The model counts with an unbounded natural, so wrap-around after 2^32 ticks is not modelled.
- Text.ParseUsize: a 64-bit `usize` is assumed.
- Board.Board.SumNeighbours: the count is a `u8` in the Rust program. It never exceeds 8, so no overflow can happen.
- Board.Board.Tick: requires a rectangular board, and so do `SumNeighbours`, `FlipsState` and `CollectFlips`. The behaviour on ragged rows is not modelled.
- Game.Game.SetupBoard: requires a board with at least one row. The Rust program's indexed rendering unwraps the first row and would panic on an empty board.
- The `Display` delegation of `Game` to its board (src/game.rs:87-91) is not modelled separately.
- `src/point.rs` becomes the datatype `Board.Point`: x is the column, y the row.
