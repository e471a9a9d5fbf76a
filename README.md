# Tic-tac-toe engine

A Dafny model of the `Game` engine of a console tic-tac-toe game (human plays
`X`, the computer plays `O`). The engine is a 3x3 board stored as nine cells in
row-major order, plus a score of three counters. The board does not exist
until a round is started. Its operations are:

- refuse or place a human move;
- place the CPU's move in some empty cell;
- check one mark for a win over the eight lines, then for a tie;
- reset the board between rounds, keeping the score;
- record the outcome of a round in one counter.

Everything is in `game.dfy`, module `TicTacToe`. The pure part holds the
cells, the winning lines, the outcome of a check, the effect of a human move on
a board value, and the score arithmetic. Class `TicTacToe.Game` holds the
board in an `array<State>`, a `started` flag standing for the source's
`Option` around the array, and the score. Its methods update that state in
place and are proved against the pure definitions. `PlayTurn` is one
iteration of the game loop in `start`, with the console I/O removed. It takes
the human's already parsed index.

The source names the third check result `Contine`; the model calls it `Continue`.

## Model

| member | source | states |
|---|---|---|
| TicTacToe.Game.constructor | src/game.rs:83-92 | a new engine has no board and all three counters at zero |
| TicTacToe.Game.IncreaseScore | src/game.rs:181-188 | the score becomes `Bumped` of the old score; board untouched |
| TicTacToe.Bumped | src/game.rs:181-188 | selector 0, 1, 2 raises the tie, player or cpu counter respectively, and only that one; the total grows by exactly one; any other selector changes nothing; no counter decreases |
| TicTacToe.RepeatedOutcomes | src/game.rs:181-188 | recording the same outcome n times raises exactly its counter by n and leaves the other two as they were |
| TicTacToe.Game.Reset | src/game.rs:191-193 | afterwards the board is present with all nine cells empty, and the score is unchanged |
| TicTacToe.AllMarked | src/game.rs:202 | the cell-by-cell walk is true iff no cell is `Empty` |
| TicTacToe.Game.IsFull | src/game.rs:198-206 | false on an absent board; on a present board true iff no cell is `Empty` |
| TicTacToe.Game.PickCpu | src/game.rs:238-261 | on a full board nothing changes; otherwise exactly one previously empty cell becomes `O` and every other cell keeps its value; requires a present board |
| TicTacToe.ForcedCpuMove | src/game.rs:248-258 | with exactly one empty cell, the CPU move fills exactly that cell |
| TicTacToe.PlayerMove | src/game.rs:267-290 | `OutOfBounds` iff index > 8, whatever the board; `MovesMapNotInitialized` iff the index is in range and the board is absent; `AreaOccupied` iff in range, present and the cell is not empty; success iff none of these; a refusal leaves the board as it was; a success puts `X` at the index and keeps the other eight cells |
| TicTacToe.Game.PickPlayer | src/game.rs:267-290 | result and new board are those of `PlayerMove` on the old board; the score and the started flag are untouched |
| TicTacToe.SecondPickOccupied | src/game.rs:274-281 | repeating a successful move at the same index fails with `AreaOccupied` and leaves the board unchanged |
| TicTacToe.FirstMoveOnEmptyBoard | src/game.rs:269-277 | on an empty board every index 0..8 succeeds, the cell becomes `X` and the other eight cells stay empty |
| TicTacToe.Game.Check | src/game.rs:295-345 | `Win` iff the board is present and one of the eight lines (columns, rows, diagonals) is all the queried mark; `Tie` iff present, no such line, and no empty cell; otherwise `Continue`, in particular on an absent board; nothing is modified |
| TicTacToe.LineWinsForItsMarkOnly | src/game.rs:301-335 | a board holding one mark on any one of the eight lines and nothing else is a `Win` for that mark and `Continue` for the other mark |
| TicTacToe.FullBoardWithoutLineTies | src/game.rs:337-341 | a full board with no line of either mark is a `Tie` for both marks |
| TicTacToe.DrawnBoardTies | src/game.rs:295-345 | the full board X O X / X O O / O X X is a `Tie` for both marks |
| TicTacToe.EmptyBoardContinues | src/game.rs:297-344 | an empty present board is `Continue` for either mark |
| TicTacToe.Game.PlayTurn | src/game.rs:121-171 | a refused human move (`OutOfBounds`, `AreaOccupied`) changes nothing; a human win or tie bumps the player or tie counter and resets the board; otherwise the CPU moves into an empty cell, and its win or tie bumps the cpu or tie counter and resets the board; when nobody wins, the score is unchanged and the board holds both new marks |

## Left out

- Console I/O in `start`: the prompt, reading and parsing the line (a non-numeric line panics there), and the messages printed for each outcome. `PlayTurn` receives the parsed index instead.
- The unbounded loop of `start` itself. `PlayTurn` is one iteration of it. The line that creates the board before the loop has the same effect as `Reset`, so it is not modelled separately.
- `print_info`: it only renders the board and score as text.
- The random number generator in `pick_cpu`. It is an external library. The model picks the CPU's cell by a nondeterministic choice among the empty cells.
- PickCpu: the retry loop of the source is collapsed into a single choice of an empty cell. Uniformity of the random choice, and termination with probability 1, cannot be stated here. On an absent board the source loops forever. The model instead requires a present board.
- PlayTurn: requires a started board, as the game loop always has one. On an absent board, an index 0..8 gets `MovesMapNotInitialized`, and the loop then calls `pick_cpu`, which never returns. An index above 8 gets `OutOfBounds`, as on any board.
- IncreaseScore: the counters are unbounded naturals. The source's `u16` fields would overflow on the next increment of a counter that has already recorded 65535 rounds. That panics in a debug build and wraps in a release build.
- Negative indices: the source takes a `usize`, so a negative index cannot reach the engine. The driver's parse rejects it. The model uses `nat`.
- Check: like the source, it accepts `Empty` as the queried mark. Only `X` and `O` are ever passed.
