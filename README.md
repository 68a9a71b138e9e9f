# Tic-Tac-Toe game model in Dafny

This project models `ttt.Game`, the model object of a browser Tic-Tac-Toe
game. It owns a 3x3 board of marks (`EMPTY`, `X_MARK`, `O_MARK`) and a game
state (`X_TURN`, `O_TURN`, `X_WIN`, `O_WIN`, `TIE`). `reset` clears the board
and gives X the first turn. `pressAtLocation(row, col)` rejects an off-board or
occupied square, writes the current player's mark, passes the turn and runs
`checkForGameOver`. That check looks for an X line, then an O line (columns,
rows, two diagonals, via `hasMarkWon`), then a full board (`isBoardFull`), and
moves the game into `X_WIN`, `O_WIN` or `TIE`. Once there, the game stays
there until `reset`.

Files:

- `marks.dfy` (module `Marks`): the two enumerations as datatypes `Mark` and
  `GameState`. Their display strings are not modelled.
- `rules.dfy` (module `Rules`): the rules on board values (`seq<seq<Mark>>`).
  - `HasWon`, `IsFull`, `GameOver` and `Press` define the game.
  - Each has an independent partner. `HasWon` is checked against an explicit
    list of the eight lines. `IsFull` is checked against "no square is empty"
    and against the X and O counts.
  - `Consistent` is an invariant proved to hold in every game reachable from
    reset: the mark counts, whose turn it is and who has a line all agree.
- `game.dfy` (module `TicTacToe`): class `Game` with fields `board: array2<Mark>`
  and `state: GameState`.
  - The methods follow the source's loops and early returns.
  - Each method is proved against the functions of `Rules`, applied to the
    board's contents (`Cells()`, `Current()`).
  - `Reset` allocates a fresh board and fills it in nested loops, as the
    source rebuilds `board_`.
- `scenarios.dfy` (module `Scenarios`): the unit-test scenarios.
  - X wins on the diagonal, and nine moves end in a tie.
  - The first move is checked, and a new game starts reset.
  - Off-board presses and presses after a win are rejected.
  - The X-win and tie tests are proved twice: on snapshots, press by press
    (`XWinGameSteps`, `TieGameOpening`, `TieGameEnding`), and as clients of the
    class (`CompleteXWin`, `CompleteTie`).
  - The other scenarios are clients of the class only. They rely on the
    methods' contracts and on the general `Press` lemmas.
- `unreachable_tie.dfy` (module `UnreachableTie`): a board no game reaches, on
  which a press made in O's turn ends in `Tie`.

Deliberate modelling decisions:

- A rejected press is modelled as a no-op. The source would log it, but the
  logger `this.logger` is never defined on `ttt.Game`, so every rejection
  branch (game.js:72, game.js:76) would throw a `TypeError` before any write.
  Either way board and state are unchanged.
- The bounds check at game.js:70-71 uses `> NUM_ROWS` / `> NUM_COLS`. So
  `row == 3` or `col == 3` gets past it.
  - With `row == 3`, indexing the missing row throws.
  - With `col == 3`, the square reads as `undefined` and the press takes the
    occupied-square branch.
  - Neither writes, so the model rejects every off-board press. The guard as
    written is kept as `Rules.PassesGuardAsWritten` (see Findings).
- `getMarkForLocation` has no bounds check in the source, so
  `Game.GetMarkForLocation` requires an on-board square.
- A press made in `O_TURN` can also end in `TIE`. When O writes the ninth
  mark, game.js:84 sets `X_TURN`, and `checkForGameOver` then finds a full
  board with no line. `UnreachableTie.OTurnTieOnlyWhenInconsistent` exhibits
  such a press, from a board that is not consistent. `Rules.PressTransitions`
  proves that no consistent game does this, so no game reachable from reset
  does either: a tie is always completed by X's ninth mark.

## Model

| member | source | states |
|---|---|---|
| `Rules.EmptyBoard` | TicTacToe_Solution/js/game.js:56-63 | the board reset builds is 3x3 with every square `Empty` |
| `Rules.Place` | TicTacToe_Solution/js/game.js:80-83 | writing a square keeps the 3x3 shape, sets that square and leaves the other eight unchanged |
| `Rules.HasWonIffHasLine` | TicTacToe_Solution/js/game.js:114-153 | the columns/rows/diagonals test of `hasMarkWon` holds exactly when the mark fills one of the eight lines listed square by square |
| `Rules.PlaceKeepsOtherLines` | TicTacToe_Solution/js/game.js:98-101 | writing one mark into an empty square never completes a line of the other mark |
| `Rules.FullIffNoEmptySquare` | TicTacToe_Solution/js/game.js:161-170 | the board is full exactly when no square is `Empty` |
| `Rules.FullIffNineMarks` | TicTacToe_Solution/js/game.js:161-170 | the board is full exactly when the X and O counts add up to nine |
| `Rules.PlaceCounts` | TicTacToe_Solution/js/game.js:79-85 | an accepted move adds exactly one of the mover's marks and leaves the other player's count unchanged |
| `Rules.PlaceRemovesOneEmpty` | TicTacToe_Solution/js/game.js:79-85 | an accepted move removes exactly one `Empty` square |
| `Rules.GameOver` | TicTacToe_Solution/js/game.js:93-105 | a terminal state is kept; from a turn state an X line gives `XWin`, else an O line gives `OWin`, else a full board gives `Tie`, else the state is unchanged |
| `Rules.Press` | TicTacToe_Solution/js/game.js:69-87 | a press keeps the board 3x3 |
| `Rules.PressOffBoardIsNoop` | TicTacToe_Solution/js/game.js:70-74 | an off-board press changes neither board nor state |
| `Rules.PressOccupiedIsNoop` | TicTacToe_Solution/js/game.js:75-78 | pressing an occupied square changes neither board nor state |
| `Rules.PressTerminalIsNoop` | TicTacToe_Solution/js/game.js:79-97 | once the state is `XWin`, `OWin` or `Tie`, no press changes board or state |
| `Rules.PressRejectedIsNoop` | TicTacToe_Solution/js/game.js:69-97 | every press that is off the board, on an occupied square or made after the game has ended changes neither board nor state |
| `Rules.PressWritesAtMostOneSquare` | TicTacToe_Solution/js/game.js:69-87 | a press changes at most the pressed square; it changes the board exactly when the square is on the board, empty and the game is in progress, and then writes the mover's mark |
| `Rules.PressPassesTurn` | TicTacToe_Solution/js/game.js:79-86 | an accepted move writes the mover's mark and gives the other player's turn exactly when nobody has a line and the board is not full; otherwise the state is terminal |
| `Rules.ResetIsConsistent` | TicTacToe_Solution/js/game.js:55-65 | the reset game satisfies the invariant `Consistent` |
| `Rules.XMoveKeepsConsistent` | TicTacToe_Solution/js/game.js:79-104 | X's accepted move keeps a consistent game consistent and leads to `OTurn`, `XWin` or `Tie` |
| `Rules.OMoveKeepsConsistent` | TicTacToe_Solution/js/game.js:82-104 | O's accepted move keeps a consistent game consistent and leads to `XTurn` or `OWin` |
| `Rules.PressKeepsConsistent` | TicTacToe_Solution/js/game.js:69-105 | every press keeps a consistent game consistent |
| `Rules.PressTransitions` | TicTacToe_Solution/js/game.js:69-105 | in a consistent game a press from `XTurn` leads to `XTurn`, `OTurn`, `XWin` or `Tie`, one from `OTurn` to `OTurn`, `XTurn` or `OWin`, and a terminal state is kept |
| `Rules.PlayFrom` | TicTacToe_Solution/js/game.js:69-87 | any sequence of presses keeps the board 3x3 |
| `Rules.TerminalIsFinal` | TicTacToe_Solution/js/game.js:93-97 | no sequence of presses leaves a terminal state |
| `Rules.PlayKeepsConsistent` | TicTacToe_Solution/js/game.js:69-105 | any sequence of presses keeps a consistent game consistent |
| `Rules.ReachableIsConsistent` | TicTacToe_Solution/js/game.js:55-105 | every game reachable from reset is consistent, never has an X line and an O line at once, and holds as many X as O or one X more |
| `Rules.GuardAsWrittenAdmitsOffBoard` | TicTacToe_Solution/js/game.js:70-71 | the guard as written passes (3, 0) and (0, 3), which name no square |
| `Rules.InBoundsIsExactlyTheSquares` | TicTacToe_Solution/js/game.js:70-71 | the corrected guard admits exactly the squares of a 3x3 board and is stricter than the written one |
| `TicTacToe.Game.constructor` | TicTacToe_Solution/js/game.js:20-35 | a new game has a fresh empty 3x3 board and `XTurn` |
| `TicTacToe.Game.Reset` | TicTacToe_Solution/js/game.js:55-65 | whatever the game was before, the board is a fresh 3x3 board of `Empty` and the state is `XTurn` |
| `TicTacToe.Game.PressAtLocation` | TicTacToe_Solution/js/game.js:69-87 | board and state become `Press` of the old ones; the board array keeps its identity and shape; a consistent game stays consistent |
| `TicTacToe.Game.CheckForGameOver` | TicTacToe_Solution/js/game.js:93-105 | the new state is `GameOver` of the board and the old state; the board is unchanged |
| `TicTacToe.Game.HasMarkWon` | TicTacToe_Solution/js/game.js:114-153 | the column, row and diagonal scans return true exactly when `HasWon` holds of the board |
| `TicTacToe.Game.IsBoardFull` | TicTacToe_Solution/js/game.js:161-170 | the row-by-row scan returns true exactly when the board is full |
| `TicTacToe.Game.GetMarkForLocation` | TicTacToe_Solution/js/game.js:174-176 | returns the mark in the given on-board square |
| `TicTacToe.Game.GetGameState` | TicTacToe_Solution/js/game.js:180-182 | returns the current state |
| `Scenarios.XWinGameSteps` | TicTacToe_Solution/tests/game_test.js:49-65 | the X-win test's five presses lead from the reset board to X's diagonal and `XWin`, with the test's intermediate marks and states |
| `Scenarios.TieGameOpening` | TicTacToe_Solution/tests/game_test.js:67-72 | the tie test's first five presses give the listed boards and alternate the turn |
| `Scenarios.TieGameEnding` | TicTacToe_Solution/tests/game_test.js:73-78 | the tie test's last four presses fill the board without a line and end in `Tie` |
| `UnreachableTie.OTurnTieOnlyWhenInconsistent` | TicTacToe_Solution/js/game.js:82-105 | with O to move on the board `X O X / X O O / O X _`, pressing (2, 2) gives `Tie`, and that snapshot is not consistent (four X and four O marks) |
| `Scenarios.NewGameIsReset` | TicTacToe_Solution/tests/game_test.js:28-40 | a new game reads nine `Empty` squares and `XTurn` |
| `Scenarios.OneMove` | TicTacToe_Solution/tests/game_test.js:94-104 | (0,0) is `Empty` before and `XMark` after the first press, and the state becomes `OTurn` |
| `Scenarios.CompleteXWin` | TicTacToe_Solution/tests/game_test.js:49-65 | the X-win test on the class ends in `XWin` |
| `Scenarios.CompleteTie` | TicTacToe_Solution/tests/game_test.js:67-78 | the tie test on the class ends in `Tie` |
| `Scenarios.PressOffBoard` | TicTacToe_Solution/js/game.js:70-74 | pressing (5, 5) on a new game leaves nine `Empty` squares and `XTurn` |
| `Scenarios.PressAfterWin` | TicTacToe_Solution/js/game.js:75-97 | after X's win, pressing an occupied square or an empty one changes nothing |
| `Scenarios.ResetTwice` | TicTacToe_Solution/js/game.js:55-65 | resetting a game in progress twice gives nine `Empty` squares and `XTurn`, as one reset does |

## Left out

- The view controller (tictactoe_controller.js) is not part of this model. It
  only wires DOM clicks to `pressAtLocation` and redraws squares and the status
  banner.
- The bootstrap file (main.js) is not part of this model. It only sets up the
  page and the logger.
- The empty `@interface` in game_interface.js is not modelled. It declares
  the operations without behaviour, and the enums' display strings are
  presentation only.
- The log calls in the rejection branches, and the `TypeError` they raise
  because the logger is undefined, are not modelled. Rejection is modelled as
  "no change".
- The `TypeError` for `row == 3` is not modelled either. No write happens
  before it, so it is also a no-op here.
- The empty tests `testCheckForGameOver`, `testHasMarkWon` and
  `testIsBoardFull` assert nothing and have no counterpart.
- JavaScript's dynamic typing is not modelled: non-integer or non-numeric
  `row`/`col` are outside the model, where coordinates are `int`.

## Findings

| source | as written | input that shows it | evidently intended | confidence | as-written member | corrected member |
|---|---|---|---|---|---|---|
| TicTacToe_Solution/js/game.js:70-71 | `row > ttt.Game.NUM_ROWS` and `col > ttt.Game.NUM_COLS` reject only indices above 3 | `pressAtLocation(3, 0)` passes the guard, then `this.board_[3][0]` throws; `pressAtLocation(0, 3)` passes and takes the occupied-square branch | reject `row >= 3` and `col >= 3`, so that only the nine squares pass | high (not executed) | `Rules.GuardAsWrittenAdmitsOffBoard` | `Rules.InBoundsIsExactlyTheSquares` |
