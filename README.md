# Tic-tac-toe game state machine

A Dafny model of the game logic of a browser tic-tac-toe page (`index.js`).
The page keeps one mutable object, `gameState`: a nine-cell board, the
player to move, the winner (`null`, `'X'`, `'O'` or `'DRAW'`), the winning
combination, the last move and three score counters. Three handlers change
it in place: a click on a cell (`handleCellClick`), the win/draw check run
after each accepted move (`checkWinner`), and the reset that starts a new
game (`resetGame`).

The project has four modules:

- `Rules` (`rules.dfy`): players, cells, the outcome (`Ongoing`, `Won(p)`,
  `Draw` for `null`, `'X'`/`'O'`, `'DRAW'`), the eight winning combinations
  in the order the code scans them, and win/draw detection on a board
  (`FirstUniform`, `Evaluate`), with mark counting.
- `Session` (`session.dfy`): the object's fields as a value `State` and the
  three handlers as functions (`Click`, `CheckWinner`, `Reset`). This is
  the reference the class is proved against. It is also where properties
  that span several operations are stated: the reachable-state invariant
  `Consistent`, runs of clicks and resets (`Run`), and counter monotonicity.
- `TicTacToe` (`game.dfy`): the class `GameState` with `board: array<Cell>`
  and the other fields. Its methods `HandleCellClick`, `CheckWinner`
  (a `for` loop over the combinations with an early `return`) and
  `ResetGame` update the fields in place. Each is proved to leave the
  object exactly as the matching `Session` function says.
  `HandleCellClick` and `ResetGame` are also proved to keep `Consistent`.
  `CheckWinner` runs between the write of a mark and the turn change,
  where the invariant does not hold yet, so it has no such clause.
- `Games` (`games.dfy`): three complete games played from a reset, each
  stepped move by move: a top-row win, a drawn game, and a game whose last
  move completes two combinations at once. It also shows that a second
  click on the same cell is ignored.

Two points of the code's behaviour shape the model:

- One move can complete two combinations; the first in list order is
  recorded. For example, X holds 1, 2, 3, 6 and O holds 4, 5, 7, 8; X
  plays 0 and completes both the top row and the left column, and the
  top row is recorded. `Rules.TwoLinesAtOnce` and
  `Games.DoubleLineGame` prove this.
- The code never checks the cell index. The model makes the range a
  precondition through the type `Index` (0 to 8).

## Model

| member | source | states |
|---|---|---|
| Rules.FirstUniform | index.js:195-203 | The result is the position of the first combination, in list order, whose three cells hold the same marker; every combination before it (all of them when the result is `None`) is not uniform |
| Rules.Evaluate | index.js:193-226 | A board is won iff some combination is uniform, and the winner owns the first uniform combination in list order; it is a draw iff no combination is uniform and no cell is empty; it is ongoing iff no combination is uniform and some cell is empty |
| Rules.Count | index.js:95-106 | Helper for the reachable-state invariant: the number of cells holding a given value is at most the board size, and is zero exactly when the value does not occur |
| Rules.CountPartition | index.js:95-106 | Helper for the reachable-state invariant: every cell is empty or holds X or O, so the three counts add up to the board size |
| Rules.CountPlace | index.js:95 | Writing a marker into an empty cell raises that marker's count by one and leaves the other marker's count alone |
| Rules.LineThroughMove | index.js:95-102 | A combination that becomes uniform when one empty cell is filled runs through that cell and belongs to the marker just written |
| Rules.TwoLinesAtOnce | index.js:14-23 | With X on 1, 2, 3, 6 and O on 4, 5, 7, 8 the game is ongoing; X playing 0 makes both the top row and the left column uniform, the top row is the first uniform combination, and X wins |
| Session.ClickRejected | index.js:90-92 | A click on an occupied cell, or any click once the winner is set (a draw included), leaves every field unchanged |
| Session.ClickPlaces | index.js:95-106 | An accepted click writes the current player's marker into the clicked cell and into no other, records the cell as the last move, sets the winner to what the new board shows, and passes the turn exactly when the game goes on |
| Session.CheckWinnerWin | index.js:195-216 | When some combination is uniform, the recorded combination is the first uniform one in list order and its owner is the winner; only the winner's counter rises, by one; draws, board, turn and last move are untouched |
| Session.CheckWinnerFound | index.js:195-216 | When combination k is uniform and none before it is, the check records k, declares its owner the winner and raises that owner's counter alone |
| Session.CheckWinnerNoWin | index.js:219-225 | With no uniform combination, a full board becomes a draw with `draws` raised by one; a board with an empty cell leaves every field unchanged |
| Session.ResetClears | index.js:324-329 | A reset gives an empty board, X to move, no winner, no winning combination and no last move, keeps the three counters, and applying it twice is the same as once |
| Session.ResetConsistent | index.js:324-329 | The state after a reset satisfies the reachable-state invariant |
| Session.StartConsistent | index.js:2-11 | The initial state satisfies the reachable-state invariant |
| Session.ClickJudges | index.js:95-106 | An accepted click on a board with no uniform combination sets the winner to what the new board shows; a winner is the player who moved, and the recorded combination is the first uniform one |
| Session.ClickConsistent | index.js:85-110 | A click keeps the reachable-state invariant: the X/O count difference matches whose turn it is, the winner matches the board, a combination is recorded only for a win and is then the first uniform one, and the last move holds the last mover's mark |
| Session.ClickScores | index.js:207-222 | A click never lowers a counter, and the number of finished games rises by one exactly when the click ends the game |
| Session.RunConsistent | index.js:85-110 | Any sequence of clicks and resets from a consistent state ends in a consistent state with no counter lowered |
| Session.ReachableConsistent | index.js:2-11 | Every state reachable from the initial state by clicks and resets satisfies the invariant |
| Session.RunAppend | index.js:85-110 | Clicks and resets compose: running two sequences of actions one after the other is the same as running their concatenation |
| Session.ResetForgets | index.js:324-329 | A reset anywhere in a sequence of clicks and resets forgets the game so far: the rest of the run is the same as from the initial state carrying only the three counters reached before the reset |
| Session.ConsistentFacts | index.js:95-106 | In a consistent state X has as many marks as O or one more, at most nine cells are filled, a full board without a uniform combination is a draw, a combination is recorded only for a win, and a recorded winning combination is uniform and holds the winner's marker |
| Session.ConsistentOutcome | index.js:195-225 | In a consistent state a full board without a uniform combination is a draw, and a win records a uniform combination holding the winner's marker |
| Session.ReachableMarks | index.js:95 | After any clicks and resets from the start, X has as many marks as O or one more, and at most nine cells are filled |
| Session.QuietMove | index.js:95-108 | A move that leaves no uniform combination and an empty cell writes the mark, records the move and passes the turn, and changes nothing else |
| Session.DrawingMove | index.js:219-223 | A move that fills the last empty cell without completing a combination is a draw: `draws` rises by one and the turn stays |
| Session.WinningMove | index.js:195-210 | A move that completes a combination records the first uniform one, credits its owner and keeps the turn |
| Games.TopRowGame | index.js:85-110 | After a reset, X on 0, 1, 2 and O on 3, 4 gives a win for X on the top row, X still to move, X's counter alone up by one |
| Games.DrawnGame | index.js:219-225 | After a reset, a game that fills the board with no uniform combination is a draw; `draws` alone rises by one, the turn stays with X, the final board is X O X / X O O / O X X and the last move is cell 8 |
| Games.DoubleLineGame | index.js:195-203 | After a reset, X on 1, 2, 3, 6 and O on 4, 5, 7, 8, then X on 0: X wins, the recorded combination is the top row and not the left column, the board is full, the game is a win, not a draw, X is still to move and the last move is cell 0 |
| Games.SameCellTwice | index.js:90-92 | A second click on a cell already taken has no effect |
| TicTacToe.GameState.constructor | index.js:2-11 | A new object has a fresh nine-cell board, every cell empty, X to move, no winner, no winning combination, no last move and all counters at zero, and satisfies the invariant |
| TicTacToe.GameState.HandleCellClick | index.js:85-110 | The fields after the handler are exactly `Session.Click` of the fields before; the board array is updated in place; a consistent state stays consistent |
| TicTacToe.GameState.CheckWinner | index.js:193-226 | The fields after the scan are exactly `Session.CheckWinner` of the fields before; the board is not changed |
| TicTacToe.GameState.ResetGame | index.js:324-329 | The fields after the reset are exactly `Session.Reset` of the fields before, on a freshly allocated board, and the state is consistent |

## Left out

- All DOM and presentation work: building the cells, updating a cell, the
  hover symbols, the player status, highlighting the winning
  combination, the winner message, the score display and the event
  wiring. These have no state of their own to model.
- The toast and its timer: asynchronous display only.
- Reading the clicked cell's index from the page with `parseInt`: the
  model receives the index directly, as a value of type `Index` (0 to 8).
  The code never checks the range, so the model states it as a
  precondition rather than an error path.
- The score counters are JavaScript numbers and lose precision above
  2^53; the model uses unbounded `nat`.
- `winningCombination` refers to the same array object as the entry in the
  list of combinations; the model stores the combination as a value, so
  this sharing is not modelled.
- `lastMove` is read only by the presentation code, to mark the newest
  cell; the model records it, and the invariant ties it to the last
  mover's mark.
