/** Complete games played from the start position, stepped through
    the reference state machine of module Session. Each game is split
    into short stretches whose end states are written out in full. */
module Games {
  import opened Rules
  import opened Session

  /** Cells clicked in the top-row game, X first. */
  const TopRowMoves: seq<Action> := [ClickCell(0), ClickCell(3), ClickCell(1), ClickCell(4), ClickCell(2)]

  /** The board after move 1 (X plays 0). */
  lemma TopRowBoard1()
    ensures Evaluate([Mark(X), Empty, Empty, Empty, Empty, Empty, Empty, Empty, Empty]) == Ongoing
  {
  }

  /** The board after move 2 (O plays 3). */
  lemma TopRowBoard2()
    ensures Evaluate([Mark(X), Empty, Empty, Mark(O), Empty, Empty, Empty, Empty, Empty]) == Ongoing
  {
  }

  /** X plays 0, O plays 3. */
  lemma TopRow1(g: State)
    ensures Run(Reset(g),
                [ClickCell(0), ClickCell(3), ClickCell(1), ClickCell(4), ClickCell(2)])
            == Run(State([Mark(X), Empty, Empty, Mark(O), Empty, Empty, Empty, Empty, Empty],
                         X, Ongoing, None, Some(3),
                         g.playerXWins, g.playerOWins, g.draws),
                   [ClickCell(1), ClickCell(4), ClickCell(2)])
  {
    TopRowBoard1();
    TopRowBoard2();
    var s0 := Reset(g);
    var s1 := State([Mark(X), Empty, Empty, Empty, Empty, Empty, Empty, Empty, Empty],
                    O, Ongoing, None, Some(0),
                    g.playerXWins, g.playerOWins, g.draws);
    var s2 := State([Mark(X), Empty, Empty, Mark(O), Empty, Empty, Empty, Empty, Empty],
                    X, Ongoing, None, Some(3),
                    g.playerXWins, g.playerOWins, g.draws);
    assert s0.board[0 := Mark(s0.currentPlayer)] == s1.board;
    QuietMove(s0, 0);
    assert s1.board[3 := Mark(s1.currentPlayer)] == s2.board;
    QuietMove(s1, 3);
    assert Run(s0, [ClickCell(0), ClickCell(3), ClickCell(1), ClickCell(4), ClickCell(2)]) == Run(s1, [ClickCell(3), ClickCell(1), ClickCell(4), ClickCell(2)]);
    assert Run(s1, [ClickCell(3), ClickCell(1), ClickCell(4), ClickCell(2)]) == Run(s2, [ClickCell(1), ClickCell(4), ClickCell(2)]);
  }

  /** The board after move 3 (X plays 1). */
  lemma TopRowBoard3()
    ensures Evaluate([Mark(X), Mark(X), Empty, Mark(O), Empty, Empty, Empty, Empty, Empty]) == Ongoing
  {
  }

  /** The board after move 4 (O plays 4). */
  lemma TopRowBoard4()
    ensures Evaluate([Mark(X), Mark(X), Empty, Mark(O), Mark(O), Empty, Empty, Empty, Empty]) == Ongoing
  {
  }

  /** X plays 1, O plays 4. */
  lemma TopRow2(g: State)
    ensures Run(State([Mark(X), Empty, Empty, Mark(O), Empty, Empty, Empty, Empty, Empty],
                      X, Ongoing, None, Some(3),
                      g.playerXWins, g.playerOWins, g.draws),
                [ClickCell(1), ClickCell(4), ClickCell(2)])
            == Run(State([Mark(X), Mark(X), Empty, Mark(O), Mark(O), Empty, Empty, Empty, Empty],
                         X, Ongoing, None, Some(4),
                         g.playerXWins, g.playerOWins, g.draws),
                   [ClickCell(2)])
  {
    TopRowBoard3();
    TopRowBoard4();
    var s0 := State([Mark(X), Empty, Empty, Mark(O), Empty, Empty, Empty, Empty, Empty],
                    X, Ongoing, None, Some(3),
                    g.playerXWins, g.playerOWins, g.draws);
    var s1 := State([Mark(X), Mark(X), Empty, Mark(O), Empty, Empty, Empty, Empty, Empty],
                    O, Ongoing, None, Some(1),
                    g.playerXWins, g.playerOWins, g.draws);
    var s2 := State([Mark(X), Mark(X), Empty, Mark(O), Mark(O), Empty, Empty, Empty, Empty],
                    X, Ongoing, None, Some(4),
                    g.playerXWins, g.playerOWins, g.draws);
    assert s0.board[1 := Mark(s0.currentPlayer)] == s1.board;
    QuietMove(s0, 1);
    assert s1.board[4 := Mark(s1.currentPlayer)] == s2.board;
    QuietMove(s1, 4);
    assert Run(s0, [ClickCell(1), ClickCell(4), ClickCell(2)]) == Run(s1, [ClickCell(4), ClickCell(2)]);
    assert Run(s1, [ClickCell(4), ClickCell(2)]) == Run(s2, [ClickCell(2)]);
  }

  /** The board after move 5 (X plays 2). */
  lemma TopRowBoard5()
    ensures FirstUniform([Mark(X), Mark(X), Mark(X), Mark(O), Mark(O), Empty, Empty, Empty, Empty], 0) == Some(0)
  {
  }

  /** X plays 2 and completes the top row. */
  lemma TopRow3(g: State)
    ensures Run(State([Mark(X), Mark(X), Empty, Mark(O), Mark(O), Empty, Empty, Empty, Empty],
                      X, Ongoing, None, Some(4),
                      g.playerXWins, g.playerOWins, g.draws),
                [ClickCell(2)])
            == State([Mark(X), Mark(X), Mark(X), Mark(O), Mark(O), Empty, Empty, Empty, Empty],
                     X, Won(X), Some(Line(0, 1, 2)), Some(2),
                     g.playerXWins + 1, g.playerOWins, g.draws)
  {
    TopRowBoard5();
    var s0 := State([Mark(X), Mark(X), Empty, Mark(O), Mark(O), Empty, Empty, Empty, Empty],
                    X, Ongoing, None, Some(4),
                    g.playerXWins, g.playerOWins, g.draws);
    var s1 := State([Mark(X), Mark(X), Mark(X), Mark(O), Mark(O), Empty, Empty, Empty, Empty],
                    X, Won(X), Some(Line(0, 1, 2)), Some(2),
                    g.playerXWins + 1, g.playerOWins, g.draws);
    assert s0.board[2 := Mark(s0.currentPlayer)] == s1.board;
    WinningMove(s0, 2, 0);
  }

  /** After a reset, X plays 0, 1, 2 while O plays 3, 4: X wins on the
      top row, the turn stays with X and X's counter alone rises by one. */
  lemma TopRowGame(g: State)
    ensures var r := Run(Reset(g), TopRowMoves);
            && r.winner == Won(X) && r.winningCombination == Some(Line(0, 1, 2))
            && r.playerXWins == g.playerXWins + 1 && r.playerOWins == g.playerOWins && r.draws == g.draws
            && r.currentPlayer == X && r.lastMove == Some(2)
  {
    TopRow1(g);
    TopRow2(g);
    TopRow3(g);
    assert TopRowMoves == [ClickCell(0), ClickCell(3), ClickCell(1), ClickCell(4), ClickCell(2)];
  }

  /** Cells clicked in the drawn game, X first. */
  const DrawnMoves: seq<Action> := [ClickCell(0), ClickCell(1), ClickCell(2), ClickCell(4), ClickCell(3), ClickCell(5), ClickCell(7), ClickCell(6), ClickCell(8)]

  /** The board after move 1 (X plays 0). */
  lemma DrawnBoard1()
    ensures Evaluate([Mark(X), Empty, Empty, Empty, Empty, Empty, Empty, Empty, Empty]) == Ongoing
  {
  }

  /** The board after move 2 (O plays 1). */
  lemma DrawnBoard2()
    ensures Evaluate([Mark(X), Mark(O), Empty, Empty, Empty, Empty, Empty, Empty, Empty]) == Ongoing
  {
  }

  /** X plays 0, O plays 1. */
  lemma Drawn1(g: State)
    ensures Run(Reset(g),
                [ClickCell(0), ClickCell(1), ClickCell(2), ClickCell(4), ClickCell(3), ClickCell(5), ClickCell(7), ClickCell(6), ClickCell(8)])
            == Run(State([Mark(X), Mark(O), Empty, Empty, Empty, Empty, Empty, Empty, Empty],
                         X, Ongoing, None, Some(1),
                         g.playerXWins, g.playerOWins, g.draws),
                   [ClickCell(2), ClickCell(4), ClickCell(3), ClickCell(5), ClickCell(7), ClickCell(6), ClickCell(8)])
  {
    DrawnBoard1();
    DrawnBoard2();
    var s0 := Reset(g);
    var s1 := State([Mark(X), Empty, Empty, Empty, Empty, Empty, Empty, Empty, Empty],
                    O, Ongoing, None, Some(0),
                    g.playerXWins, g.playerOWins, g.draws);
    var s2 := State([Mark(X), Mark(O), Empty, Empty, Empty, Empty, Empty, Empty, Empty],
                    X, Ongoing, None, Some(1),
                    g.playerXWins, g.playerOWins, g.draws);
    assert s0.board[0 := Mark(s0.currentPlayer)] == s1.board;
    QuietMove(s0, 0);
    assert s1.board[1 := Mark(s1.currentPlayer)] == s2.board;
    QuietMove(s1, 1);
    assert Run(s0, [ClickCell(0), ClickCell(1), ClickCell(2), ClickCell(4), ClickCell(3), ClickCell(5), ClickCell(7), ClickCell(6), ClickCell(8)]) == Run(s1, [ClickCell(1), ClickCell(2), ClickCell(4), ClickCell(3), ClickCell(5), ClickCell(7), ClickCell(6), ClickCell(8)]);
    assert Run(s1, [ClickCell(1), ClickCell(2), ClickCell(4), ClickCell(3), ClickCell(5), ClickCell(7), ClickCell(6), ClickCell(8)]) == Run(s2, [ClickCell(2), ClickCell(4), ClickCell(3), ClickCell(5), ClickCell(7), ClickCell(6), ClickCell(8)]);
  }

  /** The board after move 3 (X plays 2). */
  lemma DrawnBoard3()
    ensures Evaluate([Mark(X), Mark(O), Mark(X), Empty, Empty, Empty, Empty, Empty, Empty]) == Ongoing
  {
  }

  /** The board after move 4 (O plays 4). */
  lemma DrawnBoard4()
    ensures Evaluate([Mark(X), Mark(O), Mark(X), Empty, Mark(O), Empty, Empty, Empty, Empty]) == Ongoing
  {
  }

  /** X plays 2, O plays 4. */
  lemma Drawn2(g: State)
    ensures Run(State([Mark(X), Mark(O), Empty, Empty, Empty, Empty, Empty, Empty, Empty],
                      X, Ongoing, None, Some(1),
                      g.playerXWins, g.playerOWins, g.draws),
                [ClickCell(2), ClickCell(4), ClickCell(3), ClickCell(5), ClickCell(7), ClickCell(6), ClickCell(8)])
            == Run(State([Mark(X), Mark(O), Mark(X), Empty, Mark(O), Empty, Empty, Empty, Empty],
                         X, Ongoing, None, Some(4),
                         g.playerXWins, g.playerOWins, g.draws),
                   [ClickCell(3), ClickCell(5), ClickCell(7), ClickCell(6), ClickCell(8)])
  {
    DrawnBoard3();
    DrawnBoard4();
    var s0 := State([Mark(X), Mark(O), Empty, Empty, Empty, Empty, Empty, Empty, Empty],
                    X, Ongoing, None, Some(1),
                    g.playerXWins, g.playerOWins, g.draws);
    var s1 := State([Mark(X), Mark(O), Mark(X), Empty, Empty, Empty, Empty, Empty, Empty],
                    O, Ongoing, None, Some(2),
                    g.playerXWins, g.playerOWins, g.draws);
    var s2 := State([Mark(X), Mark(O), Mark(X), Empty, Mark(O), Empty, Empty, Empty, Empty],
                    X, Ongoing, None, Some(4),
                    g.playerXWins, g.playerOWins, g.draws);
    assert s0.board[2 := Mark(s0.currentPlayer)] == s1.board;
    QuietMove(s0, 2);
    assert s1.board[4 := Mark(s1.currentPlayer)] == s2.board;
    QuietMove(s1, 4);
    assert Run(s0, [ClickCell(2), ClickCell(4), ClickCell(3), ClickCell(5), ClickCell(7), ClickCell(6), ClickCell(8)]) == Run(s1, [ClickCell(4), ClickCell(3), ClickCell(5), ClickCell(7), ClickCell(6), ClickCell(8)]);
    assert Run(s1, [ClickCell(4), ClickCell(3), ClickCell(5), ClickCell(7), ClickCell(6), ClickCell(8)]) == Run(s2, [ClickCell(3), ClickCell(5), ClickCell(7), ClickCell(6), ClickCell(8)]);
  }

  /** The board after move 5 (X plays 3). */
  lemma DrawnBoard5()
    ensures Evaluate([Mark(X), Mark(O), Mark(X), Mark(X), Mark(O), Empty, Empty, Empty, Empty]) == Ongoing
  {
  }

  /** The board after move 6 (O plays 5). */
  lemma DrawnBoard6()
    ensures Evaluate([Mark(X), Mark(O), Mark(X), Mark(X), Mark(O), Mark(O), Empty, Empty, Empty]) == Ongoing
  {
  }

  /** X plays 3, O plays 5. */
  lemma Drawn3(g: State)
    ensures Run(State([Mark(X), Mark(O), Mark(X), Empty, Mark(O), Empty, Empty, Empty, Empty],
                      X, Ongoing, None, Some(4),
                      g.playerXWins, g.playerOWins, g.draws),
                [ClickCell(3), ClickCell(5), ClickCell(7), ClickCell(6), ClickCell(8)])
            == Run(State([Mark(X), Mark(O), Mark(X), Mark(X), Mark(O), Mark(O), Empty, Empty, Empty],
                         X, Ongoing, None, Some(5),
                         g.playerXWins, g.playerOWins, g.draws),
                   [ClickCell(7), ClickCell(6), ClickCell(8)])
  {
    DrawnBoard5();
    DrawnBoard6();
    var s0 := State([Mark(X), Mark(O), Mark(X), Empty, Mark(O), Empty, Empty, Empty, Empty],
                    X, Ongoing, None, Some(4),
                    g.playerXWins, g.playerOWins, g.draws);
    var s1 := State([Mark(X), Mark(O), Mark(X), Mark(X), Mark(O), Empty, Empty, Empty, Empty],
                    O, Ongoing, None, Some(3),
                    g.playerXWins, g.playerOWins, g.draws);
    var s2 := State([Mark(X), Mark(O), Mark(X), Mark(X), Mark(O), Mark(O), Empty, Empty, Empty],
                    X, Ongoing, None, Some(5),
                    g.playerXWins, g.playerOWins, g.draws);
    assert s0.board[3 := Mark(s0.currentPlayer)] == s1.board;
    QuietMove(s0, 3);
    assert s1.board[5 := Mark(s1.currentPlayer)] == s2.board;
    QuietMove(s1, 5);
    assert Run(s0, [ClickCell(3), ClickCell(5), ClickCell(7), ClickCell(6), ClickCell(8)]) == Run(s1, [ClickCell(5), ClickCell(7), ClickCell(6), ClickCell(8)]);
    assert Run(s1, [ClickCell(5), ClickCell(7), ClickCell(6), ClickCell(8)]) == Run(s2, [ClickCell(7), ClickCell(6), ClickCell(8)]);
  }

  /** The board after move 7 (X plays 7). */
  lemma DrawnBoard7()
    ensures Evaluate([Mark(X), Mark(O), Mark(X), Mark(X), Mark(O), Mark(O), Empty, Mark(X), Empty]) == Ongoing
  {
  }

  /** The board after move 8 (O plays 6). */
  lemma DrawnBoard8()
    ensures Evaluate([Mark(X), Mark(O), Mark(X), Mark(X), Mark(O), Mark(O), Mark(O), Mark(X), Empty]) == Ongoing
  {
  }

  /** X plays 7, O plays 6. */
  lemma Drawn4(g: State)
    ensures Run(State([Mark(X), Mark(O), Mark(X), Mark(X), Mark(O), Mark(O), Empty, Empty, Empty],
                      X, Ongoing, None, Some(5),
                      g.playerXWins, g.playerOWins, g.draws),
                [ClickCell(7), ClickCell(6), ClickCell(8)])
            == Run(State([Mark(X), Mark(O), Mark(X), Mark(X), Mark(O), Mark(O), Mark(O), Mark(X), Empty],
                         X, Ongoing, None, Some(6),
                         g.playerXWins, g.playerOWins, g.draws),
                   [ClickCell(8)])
  {
    DrawnBoard7();
    DrawnBoard8();
    var s0 := State([Mark(X), Mark(O), Mark(X), Mark(X), Mark(O), Mark(O), Empty, Empty, Empty],
                    X, Ongoing, None, Some(5),
                    g.playerXWins, g.playerOWins, g.draws);
    var s1 := State([Mark(X), Mark(O), Mark(X), Mark(X), Mark(O), Mark(O), Empty, Mark(X), Empty],
                    O, Ongoing, None, Some(7),
                    g.playerXWins, g.playerOWins, g.draws);
    var s2 := State([Mark(X), Mark(O), Mark(X), Mark(X), Mark(O), Mark(O), Mark(O), Mark(X), Empty],
                    X, Ongoing, None, Some(6),
                    g.playerXWins, g.playerOWins, g.draws);
    assert s0.board[7 := Mark(s0.currentPlayer)] == s1.board;
    QuietMove(s0, 7);
    assert s1.board[6 := Mark(s1.currentPlayer)] == s2.board;
    QuietMove(s1, 6);
    assert Run(s0, [ClickCell(7), ClickCell(6), ClickCell(8)]) == Run(s1, [ClickCell(6), ClickCell(8)]);
    assert Run(s1, [ClickCell(6), ClickCell(8)]) == Run(s2, [ClickCell(8)]);
  }

  /** The board after move 9 (X plays 8). */
  lemma DrawnBoard9()
    ensures Evaluate([Mark(X), Mark(O), Mark(X), Mark(X), Mark(O), Mark(O), Mark(O), Mark(X), Mark(X)]) == Draw
  {
  }

  /** X fills the last cell. */
  lemma Drawn5(g: State)
    ensures Run(State([Mark(X), Mark(O), Mark(X), Mark(X), Mark(O), Mark(O), Mark(O), Mark(X), Empty],
                      X, Ongoing, None, Some(6),
                      g.playerXWins, g.playerOWins, g.draws),
                [ClickCell(8)])
            == State([Mark(X), Mark(O), Mark(X), Mark(X), Mark(O), Mark(O), Mark(O), Mark(X), Mark(X)],
                     X, Draw, None, Some(8),
                     g.playerXWins, g.playerOWins, g.draws + 1)
  {
    DrawnBoard9();
    var s0 := State([Mark(X), Mark(O), Mark(X), Mark(X), Mark(O), Mark(O), Mark(O), Mark(X), Empty],
                    X, Ongoing, None, Some(6),
                    g.playerXWins, g.playerOWins, g.draws);
    var s1 := State([Mark(X), Mark(O), Mark(X), Mark(X), Mark(O), Mark(O), Mark(O), Mark(X), Mark(X)],
                    X, Draw, None, Some(8),
                    g.playerXWins, g.playerOWins, g.draws + 1);
    assert s0.board[8 := Mark(s0.currentPlayer)] == s1.board;
    DrawingMove(s0, 8);
  }

  /** After a reset, the board X O X / X O O / O X X fills up with no
      uniform combination: a draw that raises `draws` by one, with the
      turn left to X, who moved last. */
  lemma DrawnGame(g: State)
    ensures var r := Run(Reset(g), DrawnMoves);
            && r.board == [Mark(X), Mark(O), Mark(X), Mark(X), Mark(O), Mark(O), Mark(O), Mark(X), Mark(X)]
            && r.winner == Draw && r.winningCombination == None && r.currentPlayer == X && r.lastMove == Some(8)
            && r.draws == g.draws + 1 && r.playerXWins == g.playerXWins && r.playerOWins == g.playerOWins
  {
    Drawn1(g);
    Drawn2(g);
    Drawn3(g);
    Drawn4(g);
    Drawn5(g);
    assert DrawnMoves == [ClickCell(0), ClickCell(1), ClickCell(2), ClickCell(4), ClickCell(3), ClickCell(5), ClickCell(7), ClickCell(6), ClickCell(8)];
  }

  /** Cells clicked in the game whose last move completes two combinations. */
  const DoubleLineMoves: seq<Action> := [ClickCell(1), ClickCell(4), ClickCell(2), ClickCell(5), ClickCell(3), ClickCell(7), ClickCell(6), ClickCell(8), ClickCell(0)]

  /** The board after move 1 (X plays 1). */
  lemma DoubleLineBoard1()
    ensures Evaluate([Empty, Mark(X), Empty, Empty, Empty, Empty, Empty, Empty, Empty]) == Ongoing
  {
  }

  /** The board after move 2 (O plays 4). */
  lemma DoubleLineBoard2()
    ensures Evaluate([Empty, Mark(X), Empty, Empty, Mark(O), Empty, Empty, Empty, Empty]) == Ongoing
  {
  }

  /** X plays 1, O plays 4. */
  lemma DoubleLine1(g: State)
    ensures Run(Reset(g),
                [ClickCell(1), ClickCell(4), ClickCell(2), ClickCell(5), ClickCell(3), ClickCell(7), ClickCell(6), ClickCell(8), ClickCell(0)])
            == Run(State([Empty, Mark(X), Empty, Empty, Mark(O), Empty, Empty, Empty, Empty],
                         X, Ongoing, None, Some(4),
                         g.playerXWins, g.playerOWins, g.draws),
                   [ClickCell(2), ClickCell(5), ClickCell(3), ClickCell(7), ClickCell(6), ClickCell(8), ClickCell(0)])
  {
    DoubleLineBoard1();
    DoubleLineBoard2();
    var s0 := Reset(g);
    var s1 := State([Empty, Mark(X), Empty, Empty, Empty, Empty, Empty, Empty, Empty],
                    O, Ongoing, None, Some(1),
                    g.playerXWins, g.playerOWins, g.draws);
    var s2 := State([Empty, Mark(X), Empty, Empty, Mark(O), Empty, Empty, Empty, Empty],
                    X, Ongoing, None, Some(4),
                    g.playerXWins, g.playerOWins, g.draws);
    assert s0.board[1 := Mark(s0.currentPlayer)] == s1.board;
    QuietMove(s0, 1);
    assert s1.board[4 := Mark(s1.currentPlayer)] == s2.board;
    QuietMove(s1, 4);
    assert Run(s0, [ClickCell(1), ClickCell(4), ClickCell(2), ClickCell(5), ClickCell(3), ClickCell(7), ClickCell(6), ClickCell(8), ClickCell(0)]) == Run(s1, [ClickCell(4), ClickCell(2), ClickCell(5), ClickCell(3), ClickCell(7), ClickCell(6), ClickCell(8), ClickCell(0)]);
    assert Run(s1, [ClickCell(4), ClickCell(2), ClickCell(5), ClickCell(3), ClickCell(7), ClickCell(6), ClickCell(8), ClickCell(0)]) == Run(s2, [ClickCell(2), ClickCell(5), ClickCell(3), ClickCell(7), ClickCell(6), ClickCell(8), ClickCell(0)]);
  }

  /** The board after move 3 (X plays 2). */
  lemma DoubleLineBoard3()
    ensures Evaluate([Empty, Mark(X), Mark(X), Empty, Mark(O), Empty, Empty, Empty, Empty]) == Ongoing
  {
  }

  /** The board after move 4 (O plays 5). */
  lemma DoubleLineBoard4()
    ensures Evaluate([Empty, Mark(X), Mark(X), Empty, Mark(O), Mark(O), Empty, Empty, Empty]) == Ongoing
  {
  }

  /** X plays 2, O plays 5. */
  lemma DoubleLine2(g: State)
    ensures Run(State([Empty, Mark(X), Empty, Empty, Mark(O), Empty, Empty, Empty, Empty],
                      X, Ongoing, None, Some(4),
                      g.playerXWins, g.playerOWins, g.draws),
                [ClickCell(2), ClickCell(5), ClickCell(3), ClickCell(7), ClickCell(6), ClickCell(8), ClickCell(0)])
            == Run(State([Empty, Mark(X), Mark(X), Empty, Mark(O), Mark(O), Empty, Empty, Empty],
                         X, Ongoing, None, Some(5),
                         g.playerXWins, g.playerOWins, g.draws),
                   [ClickCell(3), ClickCell(7), ClickCell(6), ClickCell(8), ClickCell(0)])
  {
    DoubleLineBoard3();
    DoubleLineBoard4();
    var s0 := State([Empty, Mark(X), Empty, Empty, Mark(O), Empty, Empty, Empty, Empty],
                    X, Ongoing, None, Some(4),
                    g.playerXWins, g.playerOWins, g.draws);
    var s1 := State([Empty, Mark(X), Mark(X), Empty, Mark(O), Empty, Empty, Empty, Empty],
                    O, Ongoing, None, Some(2),
                    g.playerXWins, g.playerOWins, g.draws);
    var s2 := State([Empty, Mark(X), Mark(X), Empty, Mark(O), Mark(O), Empty, Empty, Empty],
                    X, Ongoing, None, Some(5),
                    g.playerXWins, g.playerOWins, g.draws);
    assert s0.board[2 := Mark(s0.currentPlayer)] == s1.board;
    QuietMove(s0, 2);
    assert s1.board[5 := Mark(s1.currentPlayer)] == s2.board;
    QuietMove(s1, 5);
    assert Run(s0, [ClickCell(2), ClickCell(5), ClickCell(3), ClickCell(7), ClickCell(6), ClickCell(8), ClickCell(0)]) == Run(s1, [ClickCell(5), ClickCell(3), ClickCell(7), ClickCell(6), ClickCell(8), ClickCell(0)]);
    assert Run(s1, [ClickCell(5), ClickCell(3), ClickCell(7), ClickCell(6), ClickCell(8), ClickCell(0)]) == Run(s2, [ClickCell(3), ClickCell(7), ClickCell(6), ClickCell(8), ClickCell(0)]);
  }

  /** The board after move 5 (X plays 3). */
  lemma DoubleLineBoard5()
    ensures Evaluate([Empty, Mark(X), Mark(X), Mark(X), Mark(O), Mark(O), Empty, Empty, Empty]) == Ongoing
  {
  }

  /** The board after move 6 (O plays 7). */
  lemma DoubleLineBoard6()
    ensures Evaluate([Empty, Mark(X), Mark(X), Mark(X), Mark(O), Mark(O), Empty, Mark(O), Empty]) == Ongoing
  {
  }

  /** X plays 3, O plays 7. */
  lemma DoubleLine3(g: State)
    ensures Run(State([Empty, Mark(X), Mark(X), Empty, Mark(O), Mark(O), Empty, Empty, Empty],
                      X, Ongoing, None, Some(5),
                      g.playerXWins, g.playerOWins, g.draws),
                [ClickCell(3), ClickCell(7), ClickCell(6), ClickCell(8), ClickCell(0)])
            == Run(State([Empty, Mark(X), Mark(X), Mark(X), Mark(O), Mark(O), Empty, Mark(O), Empty],
                         X, Ongoing, None, Some(7),
                         g.playerXWins, g.playerOWins, g.draws),
                   [ClickCell(6), ClickCell(8), ClickCell(0)])
  {
    DoubleLineBoard5();
    DoubleLineBoard6();
    var s0 := State([Empty, Mark(X), Mark(X), Empty, Mark(O), Mark(O), Empty, Empty, Empty],
                    X, Ongoing, None, Some(5),
                    g.playerXWins, g.playerOWins, g.draws);
    var s1 := State([Empty, Mark(X), Mark(X), Mark(X), Mark(O), Mark(O), Empty, Empty, Empty],
                    O, Ongoing, None, Some(3),
                    g.playerXWins, g.playerOWins, g.draws);
    var s2 := State([Empty, Mark(X), Mark(X), Mark(X), Mark(O), Mark(O), Empty, Mark(O), Empty],
                    X, Ongoing, None, Some(7),
                    g.playerXWins, g.playerOWins, g.draws);
    assert s0.board[3 := Mark(s0.currentPlayer)] == s1.board;
    QuietMove(s0, 3);
    assert s1.board[7 := Mark(s1.currentPlayer)] == s2.board;
    QuietMove(s1, 7);
    assert Run(s0, [ClickCell(3), ClickCell(7), ClickCell(6), ClickCell(8), ClickCell(0)]) == Run(s1, [ClickCell(7), ClickCell(6), ClickCell(8), ClickCell(0)]);
    assert Run(s1, [ClickCell(7), ClickCell(6), ClickCell(8), ClickCell(0)]) == Run(s2, [ClickCell(6), ClickCell(8), ClickCell(0)]);
  }

  /** The board after move 7 (X plays 6). */
  lemma DoubleLineBoard7()
    ensures Evaluate([Empty, Mark(X), Mark(X), Mark(X), Mark(O), Mark(O), Mark(X), Mark(O), Empty]) == Ongoing
  {
  }

  /** The board after move 8 (O plays 8). */
  lemma DoubleLineBoard8()
    ensures Evaluate([Empty, Mark(X), Mark(X), Mark(X), Mark(O), Mark(O), Mark(X), Mark(O), Mark(O)]) == Ongoing
  {
  }

  /** X plays 6, O plays 8. */
  lemma DoubleLine4(g: State)
    ensures Run(State([Empty, Mark(X), Mark(X), Mark(X), Mark(O), Mark(O), Empty, Mark(O), Empty],
                      X, Ongoing, None, Some(7),
                      g.playerXWins, g.playerOWins, g.draws),
                [ClickCell(6), ClickCell(8), ClickCell(0)])
            == Run(State([Empty, Mark(X), Mark(X), Mark(X), Mark(O), Mark(O), Mark(X), Mark(O), Mark(O)],
                         X, Ongoing, None, Some(8),
                         g.playerXWins, g.playerOWins, g.draws),
                   [ClickCell(0)])
  {
    DoubleLineBoard7();
    DoubleLineBoard8();
    var s0 := State([Empty, Mark(X), Mark(X), Mark(X), Mark(O), Mark(O), Empty, Mark(O), Empty],
                    X, Ongoing, None, Some(7),
                    g.playerXWins, g.playerOWins, g.draws);
    var s1 := State([Empty, Mark(X), Mark(X), Mark(X), Mark(O), Mark(O), Mark(X), Mark(O), Empty],
                    O, Ongoing, None, Some(6),
                    g.playerXWins, g.playerOWins, g.draws);
    var s2 := State([Empty, Mark(X), Mark(X), Mark(X), Mark(O), Mark(O), Mark(X), Mark(O), Mark(O)],
                    X, Ongoing, None, Some(8),
                    g.playerXWins, g.playerOWins, g.draws);
    assert s0.board[6 := Mark(s0.currentPlayer)] == s1.board;
    QuietMove(s0, 6);
    assert s1.board[8 := Mark(s1.currentPlayer)] == s2.board;
    QuietMove(s1, 8);
    assert Run(s0, [ClickCell(6), ClickCell(8), ClickCell(0)]) == Run(s1, [ClickCell(8), ClickCell(0)]);
    assert Run(s1, [ClickCell(8), ClickCell(0)]) == Run(s2, [ClickCell(0)]);
  }

  /** The board after move 9 (X plays 0). */
  lemma DoubleLineBoard9()
    ensures FirstUniform([Mark(X), Mark(X), Mark(X), Mark(X), Mark(O), Mark(O), Mark(X), Mark(O), Mark(O)], 0) == Some(0)
  {
  }

  /** X plays 0 on the last empty cell. */
  lemma DoubleLine5(g: State)
    ensures Run(State([Empty, Mark(X), Mark(X), Mark(X), Mark(O), Mark(O), Mark(X), Mark(O), Mark(O)],
                      X, Ongoing, None, Some(8),
                      g.playerXWins, g.playerOWins, g.draws),
                [ClickCell(0)])
            == State([Mark(X), Mark(X), Mark(X), Mark(X), Mark(O), Mark(O), Mark(X), Mark(O), Mark(O)],
                     X, Won(X), Some(Line(0, 1, 2)), Some(0),
                     g.playerXWins + 1, g.playerOWins, g.draws)
  {
    DoubleLineBoard9();
    var s0 := State([Empty, Mark(X), Mark(X), Mark(X), Mark(O), Mark(O), Mark(X), Mark(O), Mark(O)],
                    X, Ongoing, None, Some(8),
                    g.playerXWins, g.playerOWins, g.draws);
    var s1 := State([Mark(X), Mark(X), Mark(X), Mark(X), Mark(O), Mark(O), Mark(X), Mark(O), Mark(O)],
                    X, Won(X), Some(Line(0, 1, 2)), Some(0),
                    g.playerXWins + 1, g.playerOWins, g.draws);
    assert s0.board[0 := Mark(s0.currentPlayer)] == s1.board;
    WinningMove(s0, 0, 0);
  }

  /** After a reset, X takes 1, 2, 3, 6 and O takes 4, 5, 7, 8; X then plays 0 and
      completes the top row and the left column at once (the final board
      of `TwoLinesAtOnce`). The top row, first in list order, is the one
      recorded, and a win on the last empty cell is a win, not a draw. */
  lemma DoubleLineGame(g: State)
    ensures var r := Run(Reset(g), DoubleLineMoves);
            && r.winner == Won(X) && r.winningCombination == Some(Line(0, 1, 2))
            && r.board == [Mark(X), Mark(X), Mark(X), Mark(X), Mark(O), Mark(O), Mark(X), Mark(O), Mark(O)]
            && r.currentPlayer == X && r.lastMove == Some(0)
            && r.playerXWins == g.playerXWins + 1 && r.playerOWins == g.playerOWins && r.draws == g.draws
  {
    DoubleLine1(g);
    DoubleLine2(g);
    DoubleLine3(g);
    DoubleLine4(g);
    DoubleLine5(g);
    assert DoubleLineMoves == [ClickCell(1), ClickCell(4), ClickCell(2), ClickCell(5), ClickCell(3), ClickCell(7), ClickCell(6), ClickCell(8), ClickCell(0)];
  }

  /** Two clicks on the same cell: the second is ignored. */
  lemma SameCellTwice(g: State)
    ensures Run(Reset(g), [ClickCell(4), ClickCell(4)]) == Run(Reset(g), [ClickCell(4)])
  {
    QuietMove(Reset(g), 4);
    var s1 := Click(Reset(g), 4);
    assert s1.board[4] == Mark(X);
    ClickRejected(s1, 4);
  }
}
