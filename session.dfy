/** The game state as a value, and the three operations on it as
    functions: the reference the class in module TicTacToe is proved
    against, and the level at which properties spanning several
    operations are stated. */
module Session {
  import opened Rules

  /** Every field of the game state object. */
  datatype State = State(
    board: Board,
    currentPlayer: Player,
    winner: Outcome,
    winningCombination: Option<Line>,
    lastMove: Option<Index>,
    playerXWins: nat,
    playerOWins: nat,
    draws: nat)

  /** The state when the page loads. */
  function Start(): State {
    State(EmptyBoard, X, Ongoing, None, None, 0, 0, 0)
  }

  /** A click on cell `i` is accepted: the cell is empty and nobody has
      won or drawn yet. */
  predicate CanPlay(s: State, i: Index) {
    s.board[i] == Empty && s.winner == Ongoing
  }

  /** Scan the combinations in order; the first uniform one wins and
      credits its owner; otherwise a board without an empty cell is a
      draw; otherwise nothing changes. */
  function CheckWinner(s: State): State {
    match FirstUniform(s.board, 0)
    case Some(k) =>
      var l := WinningCombinations[k];
      var p := s.board[l.a].player;
      s.(winner := Won(p), winningCombination := Some(l),
         playerXWins := if p == X then s.playerXWins + 1 else s.playerXWins,
         playerOWins := if p == O then s.playerOWins + 1 else s.playerOWins)
    case None =>
      if Empty in s.board then s
      else s.(winner := Draw, draws := s.draws + 1)
  }

  /** A click on cell `i`: ignored unless accepted; otherwise the mark is
      written, the last move recorded, the board checked, and the turn
      passes only if the game goes on. */
  function Click(s: State, i: Index): State {
    if !CanPlay(s, i) then s
    else
      var placed := s.(board := s.board[i := Mark(s.currentPlayer)], lastMove := Some(i));
      var checked := CheckWinner(placed);
      if checked.winner == Ongoing then checked.(currentPlayer := Other(checked.currentPlayer))
      else checked
  }

  /** A new game: the per-game fields are cleared, the scores kept. */
  function Reset(s: State): State {
    s.(board := EmptyBoard, currentPlayer := X, winner := Ongoing,
       winningCombination := None, lastMove := None)
  }

  function Played(s: State): nat {
    s.playerXWins + s.playerOWins + s.draws
  }

  // ---------------------------------------------------------------
  // One operation at a time
  // ---------------------------------------------------------------

  /** A click on an occupied cell, or any click once the game is over,
      changes nothing. */
  lemma ClickRejected(s: State, i: Index)
    requires s.board[i] != Empty || s.winner != Ongoing
    ensures Click(s, i) == s
  {
  }

  /** An accepted click writes the current player's marker into cell `i`
      and nowhere else, records `i` as the last move, and passes the turn
      exactly when the game goes on. */
  lemma ClickPlaces(s: State, i: Index)
    requires CanPlay(s, i)
    ensures var r := Click(s, i);
            && r.board[i] == Mark(s.currentPlayer)
            && (forall j: Index :: j != i ==> r.board[j] == s.board[j])
            && r.lastMove == Some(i)
            && r.winner == Evaluate(r.board)
            && r.currentPlayer == (if r.winner == Ongoing then Other(s.currentPlayer) else s.currentPlayer)
  {
  }

  /** A win is declared exactly when some combination is uniform; the
      winner owns the FIRST uniform combination in list order, which is
      the one recorded; the winner's counter alone rises by one and the
      draw check is skipped. */
  lemma CheckWinnerWin(s: State)
    requires exists k :: 0 <= k < |WinningCombinations| && Uniform(s.board, WinningCombinations[k])
    ensures var r := CheckWinner(s);
            exists k ::
              && 0 <= k < |WinningCombinations|
              && Uniform(s.board, WinningCombinations[k])
              && (forall j :: 0 <= j < k ==> !Uniform(s.board, WinningCombinations[j]))
              && r.winningCombination == Some(WinningCombinations[k])
              && r.winner == Won(s.board[WinningCombinations[k].a].player)
    ensures var r := CheckWinner(s);
            && r.winner.Won?
            && r.playerXWins == s.playerXWins + (if r.winner.player == X then 1 else 0)
            && r.playerOWins == s.playerOWins + (if r.winner.player == O then 1 else 0)
            && r.draws == s.draws
            && r.board == s.board && r.currentPlayer == s.currentPlayer && r.lastMove == s.lastMove
  {
    var k := FirstUniform(s.board, 0).value;
  }

  /** The scan stops at the first uniform combination: when `k` is
      uniform and no earlier one is, `k` is recorded, its owner wins and
      that owner's counter alone rises. */
  lemma CheckWinnerFound(s: State, k: nat)
    requires k < |WinningCombinations| && Uniform(s.board, WinningCombinations[k])
    requires forall j :: 0 <= j < k ==> !Uniform(s.board, WinningCombinations[j])
    ensures var p := s.board[WinningCombinations[k].a].player;
            CheckWinner(s)
            == s.(winner := Won(p), winningCombination := Some(WinningCombinations[k]),
                  playerXWins := s.playerXWins + (if p == X then 1 else 0),
                  playerOWins := s.playerOWins + (if p == O then 1 else 0))
  {
    assert FirstUniform(s.board, 0) == Some(k);
  }

  /** Without a uniform combination, a full board is a draw that raises
      `draws` by one, and a board with an empty cell changes nothing. */
  lemma CheckWinnerNoWin(s: State)
    requires forall k :: 0 <= k < |WinningCombinations| ==> !Uniform(s.board, WinningCombinations[k])
    ensures Empty !in s.board ==> CheckWinner(s) == s.(winner := Draw, draws := s.draws + 1)
    ensures Empty in s.board ==> CheckWinner(s) == s
  {
  }

  /** Reset yields the start position whatever came before, keeps the
      three counters and is idempotent. */
  lemma ResetClears(s: State)
    ensures Reset(s) == Start().(playerXWins := s.playerXWins, playerOWins := s.playerOWins, draws := s.draws)
    ensures Reset(Reset(s)) == Reset(s)
  {
  }

  // ---------------------------------------------------------------
  // Reachable states
  // ---------------------------------------------------------------

  /** The player whose marker went down last (the first player's opponent
      before any move). */
  function LastMover(s: State): Player {
    if s.winner == Ongoing then Other(s.currentPlayer) else s.currentPlayer
  }

  /** What holds of every state reachable from the start by clicks and
      resets: X is never behind O and at most one ahead, in step with
      whose turn it is; the winner field agrees with the board; a
      combination is recorded only for a win; a winner is the player who
      moved last and the recorded combination is the first uniform one; the last move holds the last mover's marker. */
  predicate Consistent(s: State) {
    var b := s.board;
    && Count(b, Mark(X)) - Count(b, Mark(O)) == (if LastMover(s) == X then 1 else 0)
    && Evaluate(b) == s.winner
    && (s.winningCombination.Some? ==> s.winner.Won?)
    && (s.winner.Won? ==> s.winner.player == s.currentPlayer
                          && FirstUniform(b, 0).Some?
                          && s.winningCombination == Some(WinningCombinations[FirstUniform(b, 0).value]))
    && (s.lastMove.Some? ==> b[s.lastMove.value] == Mark(LastMover(s)))
    && (s.lastMove.None? ==> b == EmptyBoard)
  }

  lemma ResetConsistent(s: State)
    ensures Consistent(Reset(s))
  {
    var b := EmptyBoard;
    assert Mark(X) !in b && Mark(O) !in b;
    assert Empty in b by { assert b[0] == Empty; }
  }

  lemma StartConsistent()
    ensures Consistent(Start())
  {
    var s := Start();
    assert Count(s.board, Mark(X)) == 0;
    assert Count(s.board, Mark(O)) == 0;
    assert LastMover(s) == O;
    assert Evaluate(s.board) == Ongoing;
  }

  /** An accepted click on a board with no uniform combination: the
      winner field becomes what the new board shows, a winner is the
      player who moved and the recorded combination is the first uniform
      one. */
  lemma ClickJudges(s: State, i: Index)
    requires CanPlay(s, i) && Evaluate(s.board) == Ongoing && s.winningCombination == None
    ensures var r := Click(s, i);
            && r.board == s.board[i := Mark(s.currentPlayer)] && r.lastMove == Some(i)
            && r.winner == Evaluate(r.board)
            && r.currentPlayer == (if r.winner == Ongoing then Other(s.currentPlayer) else s.currentPlayer)
            && (!r.winner.Won? ==> r.winningCombination == None)
            && (r.winner.Won? ==> r.winner.player == s.currentPlayer
                                  && FirstUniform(r.board, 0).Some?
                                  && r.winningCombination == Some(WinningCombinations[FirstUniform(r.board, 0).value]))
  {
    var b' := s.board[i := Mark(s.currentPlayer)];
    match FirstUniform(b', 0)
    case Some(k) =>
      assert !Uniform(s.board, WinningCombinations[k]);
      LineThroughMove(s.board, i, s.currentPlayer, WinningCombinations[k]);
    case None =>
  }

  /** A click keeps the invariant. */
  lemma ClickConsistent(s: State, i: Index)
    requires Consistent(s)
    ensures Consistent(Click(s, i))
  {
    if CanPlay(s, i) {
      var p := s.currentPlayer;
      var b := s.board;
      var r := Click(s, i);
      ClickJudges(s, i);
      CountPlace(b, i, Mark(p), Mark(Other(p)));
      assert LastMover(r) == p;
      assert Count(r.board, Mark(X)) - Count(r.board, Mark(O)) == (if p == X then 1 else 0);
    }
  }

  /** Counters only move up, and by at most one per click. */
  lemma ClickScores(s: State, i: Index)
    ensures var r := Click(s, i);
            && r.playerXWins >= s.playerXWins && r.playerOWins >= s.playerOWins && r.draws >= s.draws
            && Played(r) == Played(s) + (if s.winner == Ongoing && r.winner != Ongoing then 1 else 0)
  {
  }

  /** What the presentation layer can ask of the game. */
  datatype Action = ClickCell(index: Index) | ResetGame

  function Apply(s: State, a: Action): State {
    match a
    case ClickCell(i) => Click(s, i)
    case ResetGame => Reset(s)
  }

  function Run(s: State, actions: seq<Action>): State
    decreases |actions|
  {
    if actions == [] then s else Run(Apply(s, actions[0]), actions[1..])
  }

  /** Any run of clicks and resets from a consistent state keeps the
      invariant and never lowers a counter. */
  lemma {:induction false} RunConsistent(s: State, actions: seq<Action>)
    requires Consistent(s)
    ensures var r := Run(s, actions);
            && Consistent(r)
            && r.playerXWins >= s.playerXWins && r.playerOWins >= s.playerOWins && r.draws >= s.draws
    decreases |actions|
  {
    if actions != [] {
      var s' := Apply(s, actions[0]);
      match actions[0] {
        case ClickCell(i) => ClickConsistent(s, i); ClickScores(s, i);
        case ResetGame => ResetConsistent(s);
      }
      RunConsistent(s', actions[1..]);
    }
  }

  /** Every state reachable from the start is consistent. */
  lemma ReachableConsistent(actions: seq<Action>)
    ensures Consistent(Run(Start(), actions))
  {
    StartConsistent();
    RunConsistent(Start(), actions);
  }

  /** Clicks and resets compose: running two lists of actions one after
      the other is running their concatenation. */
  lemma {:induction false} RunAppend(s: State, first: seq<Action>, rest: seq<Action>)
    ensures Run(s, first + rest) == Run(Run(s, first), rest)
    decreases |first|
  {
    if first != [] {
      assert (first + rest)[0] == first[0];
      assert (first + rest)[1..] == first[1..] + rest;
      RunAppend(Apply(s, first[0]), first[1..], rest);
    } else {
      assert first + rest == rest;
    }
  }

  /** In a consistent state X has as many marks as O or one more, at most
      nine cells are filled, a full board without a uniform combination
      is a draw, a combination is recorded only for a win, and the
      recorded combination of a win is uniform and holds the winner's
      marker. */
  lemma ConsistentFacts(s: State)
    requires Consistent(s)
    ensures var xs, os := Count(s.board, Mark(X)), Count(s.board, Mark(O));
            && (xs == os || xs == os + 1)
            && xs + os <= 9
            && ((Empty !in s.board && forall k :: 0 <= k < |WinningCombinations| ==> !Uniform(s.board, WinningCombinations[k]))
                ==> s.winner == Draw)
            && (s.winningCombination.Some? ==> s.winner.Won?)
            && (s.winner.Won? ==> s.winningCombination.Some? && Uniform(s.board, s.winningCombination.value)
                                  && s.board[s.winningCombination.value.a] == Mark(s.winner.player))
  {
    CountPartition(s.board);
    ConsistentOutcome(s);
  }

  /** The outcome half of `ConsistentFacts`. */
  lemma ConsistentOutcome(s: State)
    requires Consistent(s)
    ensures (Empty !in s.board && forall k :: 0 <= k < |WinningCombinations| ==> !Uniform(s.board, WinningCombinations[k]))
            ==> s.winner == Draw
    ensures s.winner.Won? ==> s.winningCombination.Some? && Uniform(s.board, s.winningCombination.value)
                              && s.board[s.winningCombination.value.a] == Mark(s.winner.player)
  {
    if s.winner.Won? {
      var k := FirstUniform(s.board, 0).value;
      assert Evaluate(s.board) == Won(s.board[WinningCombinations[k].a].player);
    }
  }

  /** A reset anywhere in a run forgets the game so far: what follows
      it depends only on the three counters reached before it. */
  lemma ResetForgets(s: State, first: seq<Action>, rest: seq<Action>)
    ensures var m := Run(s, first);
            Run(s, first + [ResetGame] + rest)
            == Run(Start().(playerXWins := m.playerXWins, playerOWins := m.playerOWins, draws := m.draws), rest)
  {
    RunAppend(s, first + [ResetGame], rest);
    RunAppend(s, first, [ResetGame]);
    assert Run(Run(s, first), [ResetGame]) == Reset(Run(s, first));
  }

  /** After any sequence of clicks and resets from the start, X has as
      many marks as O or one more, and at most nine cells are filled. */
  lemma ReachableMarks(actions: seq<Action>)
    ensures var r := Run(Start(), actions);
            var xs, os := Count(r.board, Mark(X)), Count(r.board, Mark(O));
            (xs == os || xs == os + 1) && xs + os <= 9
  {
    ReachableConsistent(actions);
    ConsistentFacts(Run(Start(), actions));
  }

  // ---------------------------------------------------------------
  // Concrete games
  // ---------------------------------------------------------------

  /** A move that leaves no uniform combination and an empty cell: the
      mark goes down and the turn passes. */
  lemma QuietMove(s: State, i: Index)
    requires CanPlay(s, i)
    requires Evaluate(s.board[i := Mark(s.currentPlayer)]) == Ongoing
    ensures Click(s, i) == s.(board := s.board[i := Mark(s.currentPlayer)], lastMove := Some(i),
                              currentPlayer := Other(s.currentPlayer))
  {
  }

  /** A move that fills the last empty cell without completing a
      combination: a draw, `draws` rises by one and the turn stays. */
  lemma DrawingMove(s: State, i: Index)
    requires CanPlay(s, i)
    requires Evaluate(s.board[i := Mark(s.currentPlayer)]) == Draw
    ensures Click(s, i) == s.(board := s.board[i := Mark(s.currentPlayer)], lastMove := Some(i),
                              winner := Draw, draws := s.draws + 1)
  {
  }

  /** A move that completes a combination: the first uniform
      combination is recorded, its owner wins and is credited, and the
      turn stays. */
  lemma WinningMove(s: State, i: Index, k: nat)
    requires CanPlay(s, i)
    requires FirstUniform(s.board[i := Mark(s.currentPlayer)], 0) == Some(k)
    ensures var b' := s.board[i := Mark(s.currentPlayer)];
            var p := b'[WinningCombinations[k].a].player;
            Click(s, i) == s.(board := b', lastMove := Some(i), winner := Won(p),
                              winningCombination := Some(WinningCombinations[k]),
                              playerXWins := if p == X then s.playerXWins + 1 else s.playerXWins,
                              playerOWins := if p == O then s.playerOWins + 1 else s.playerOWins)
  {
  }
}
