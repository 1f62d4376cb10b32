/** The game state object and the three handlers that update it in place:
    a click on a cell, the win/draw check run after each accepted move,
    and the reset that starts a new game. Each handler is proved to do
    exactly what the matching function of module Session does to the
    object's fields. `HandleCellClick` and `ResetGame` also keep the
    reachable-state invariant `Session.Consistent`; `CheckWinner` runs on
    the intermediate state between the write of a mark and the turn
    change, where that invariant does not hold. */
module TicTacToe {
  import opened Rules
  import Session

  class GameState {
    var board: array<Cell>
    var currentPlayer: Player
    var winner: Outcome
    var winningCombination: Option<Line>
    var lastMove: Option<Index>
    var playerXWins: nat
    var playerOWins: nat
    var draws: nat

    ghost predicate Valid()
      reads this
    {
      board.Length == 9
    }

    /** The object's fields as a value. */
    ghost function Snapshot(): Session.State
      reads this, board
      requires Valid()
    {
      Session.State(board[..], currentPlayer, winner, winningCombination, lastMove,
                    playerXWins, playerOWins, draws)
    }

    /** The state when the page loads: an empty board, X to move, no
        winner, no scores. */
    constructor ()
      ensures Valid() && fresh(board)
      ensures Snapshot() == Session.Start()
      ensures Session.Consistent(Snapshot())
    {
      board := new Cell[9](_ => Empty);
      currentPlayer := X;
      winner := Ongoing;
      winningCombination := None;
      lastMove := None;
      playerXWins, playerOWins, draws := 0, 0, 0;
      new;
      assert board[..] == EmptyBoard;
      assert Snapshot() == Session.Start();
      Session.StartConsistent();
    }

    /** A click on cell `index`: ignored when the cell is taken or the
        game is over; otherwise the current player's marker is written,
        the move recorded, the board checked, and the turn passes unless
        the game has just ended. */
    method HandleCellClick(index: Index)
      requires Valid()
      modifies this, board
      ensures Valid() && board == old(board)
      ensures Snapshot() == Session.Click(old(Snapshot()), index)
      ensures old(Session.Consistent(Snapshot())) ==> Session.Consistent(Snapshot())
    {
      ghost var before := Snapshot();
      if board[index] != Empty || winner != Ongoing {
        return;
      }
      board[index] := Mark(currentPlayer);
      lastMove := Some(index);
      ghost var placed := Snapshot();
      assert placed == before.(board := before.board[index := Mark(before.currentPlayer)], lastMove := Some(index));
      CheckWinner();
      assert Snapshot() == Session.CheckWinner(placed);
      if winner == Ongoing {
        currentPlayer := Other(currentPlayer);
      }
      assert Snapshot() == Session.Click(before, index);
      if Session.Consistent(before) {
        Session.ClickConsistent(before, index);
      }
    }

    /** Scan the winning combinations in order and stop at the first whose
        three cells hold the same marker: its owner wins, it is recorded
        and its owner's counter rises. If none is uniform and no cell is
        empty, the game is a draw and `draws` rises. */
    method CheckWinner()
      requires Valid()
      modifies this
      ensures Valid() && board == old(board)
      ensures Snapshot() == Session.CheckWinner(old(Snapshot()))
    {
      ghost var before := Snapshot();
      for k := 0 to |WinningCombinations|
        invariant unchanged(this)
        invariant forall j :: 0 <= j < k ==> !Uniform(board[..], WinningCombinations[j])
      {
        var line := WinningCombinations[k];
        if board[line.a] != Empty && board[line.a] == board[line.b] && board[line.a] == board[line.c] {
          assert Uniform(board[..], line);
          winner := Won(board[line.a].player);
          winningCombination := Some(line);
          if winner.player == X {
            playerXWins := playerXWins + 1;
          } else {
            playerOWins := playerOWins + 1;
          }
          Session.CheckWinnerFound(before, k);
          return;
        }
      }
      Session.CheckWinnerNoWin(before);
      if Empty !in board[..] {
        winner := Draw;
        draws := draws + 1;
      }
    }

    /** A new game on a fresh board; the scores are kept. */
    method ResetGame()
      requires Valid()
      modifies this
      ensures Valid() && fresh(board)
      ensures Snapshot() == Session.Reset(old(Snapshot()))
      ensures Session.Consistent(Snapshot())
    {
      ghost var before := Snapshot();
      board := new Cell[9](_ => Empty);
      currentPlayer := X;
      winner := Ongoing;
      winningCombination := None;
      lastMove := None;
      assert board[..] == EmptyBoard;
      assert Snapshot() == Session.Reset(before);
      Session.ResetConsistent(before);
    }
  }
}
