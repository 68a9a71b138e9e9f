// The unit-test scenarios of the game: the snapshots each test passes
// through, proved step by step against Press, and the tests themselves as
// clients of the Game class that rely only on its contracts.
module Scenarios {
  import opened Marks
  import opened Rules
  import opened TicTacToe

  /** The snapshots of the X-win test: X plays (0,0) (1,1) (2,2), O plays
      (0,1) (0,2). */
  const XWin1 := Snapshot([[XMark, Empty, Empty], [Empty, Empty, Empty], [Empty, Empty, Empty]], OTurn)
  const XWin2 := Snapshot([[XMark, OMark, Empty], [Empty, Empty, Empty], [Empty, Empty, Empty]], XTurn)
  const XWin3 := Snapshot([[XMark, OMark, Empty], [Empty, XMark, Empty], [Empty, Empty, Empty]], OTurn)
  const XWin4 := Snapshot([[XMark, OMark, OMark], [Empty, XMark, Empty], [Empty, Empty, Empty]], XTurn)
  const XWin5 := Snapshot([[XMark, OMark, OMark], [Empty, XMark, Empty], [Empty, Empty, XMark]], XWin)

  lemma XWinGameSteps()
    ensures Press(Snapshot(EmptyBoard(), XTurn), 0, 0) == XWin1
    ensures Press(XWin1, 0, 1) == XWin2
    ensures Press(XWin2, 1, 1) == XWin3
    ensures Press(XWin3, 0, 2) == XWin4
    ensures Press(XWin4, 2, 2) == XWin5
  {
    assert Press(Snapshot(EmptyBoard(), XTurn), 0, 0) == XWin1 by {
      assert XWin1.board[0] == EmptyBoard()[0][0 := XMark];
      assert XWin1.board[1][1] == Empty;
      PressStep(Snapshot(EmptyBoard(), XTurn), 0, 0, XWin1);
    }
    assert Press(XWin1, 0, 1) == XWin2 by {
      assert XWin2.board[0] == XWin1.board[0][1 := OMark];
      assert XWin2.board[1][1] == Empty;
      PressStep(XWin1, 0, 1, XWin2);
    }
    assert Press(XWin2, 1, 1) == XWin3 by {
      assert XWin3.board[1] == XWin2.board[1][1 := XMark];
      assert XWin3.board[2][2] == Empty;
      PressStep(XWin2, 1, 1, XWin3);
    }
    assert Press(XWin3, 0, 2) == XWin4 by {
      assert XWin4.board[0] == XWin3.board[0][2 := OMark];
      assert XWin4.board[2][2] == Empty;
      PressStep(XWin3, 0, 2, XWin4);
    }
    assert Press(XWin4, 2, 2) == XWin5 by {
      assert XWin5.board[2] == XWin4.board[2][2 := XMark];
      PressStep(XWin4, 2, 2, XWin5);
    }
  }

  /** The snapshots of the tie test: nine alternating moves that fill the
      board without completing a line. */
  const Tie1 := Snapshot([[XMark, Empty, Empty], [Empty, Empty, Empty], [Empty, Empty, Empty]], OTurn)
  const Tie2 := Snapshot([[XMark, Empty, Empty], [OMark, Empty, Empty], [Empty, Empty, Empty]], XTurn)
  const Tie3 := Snapshot([[XMark, XMark, Empty], [OMark, Empty, Empty], [Empty, Empty, Empty]], OTurn)
  const Tie4 := Snapshot([[XMark, XMark, Empty], [OMark, OMark, Empty], [Empty, Empty, Empty]], XTurn)
  const Tie5 := Snapshot([[XMark, XMark, Empty], [OMark, OMark, XMark], [Empty, Empty, Empty]], OTurn)
  const Tie6 := Snapshot([[XMark, XMark, OMark], [OMark, OMark, XMark], [Empty, Empty, Empty]], XTurn)
  const Tie7 := Snapshot([[XMark, XMark, OMark], [OMark, OMark, XMark], [XMark, Empty, Empty]], OTurn)
  const Tie8 := Snapshot([[XMark, XMark, OMark], [OMark, OMark, XMark], [XMark, OMark, Empty]], XTurn)
  const Tie9 := Snapshot([[XMark, XMark, OMark], [OMark, OMark, XMark], [XMark, OMark, XMark]], Tie)

  /** The first five moves of the tie test. */
  lemma TieGameOpening()
    ensures Press(Snapshot(EmptyBoard(), XTurn), 0, 0) == Tie1
    ensures Press(Tie1, 1, 0) == Tie2
    ensures Press(Tie2, 0, 1) == Tie3
    ensures Press(Tie3, 1, 1) == Tie4
    ensures Press(Tie4, 1, 2) == Tie5
  {
    assert Press(Snapshot(EmptyBoard(), XTurn), 0, 0) == Tie1 by {
      assert Tie1.board[0] == EmptyBoard()[0][0 := XMark];
      PressStep(Snapshot(EmptyBoard(), XTurn), 0, 0, Tie1);
    }
    assert Press(Tie1, 1, 0) == Tie2 by {
      assert Tie2.board[1] == Tie1.board[1][0 := OMark];
      PressStep(Tie1, 1, 0, Tie2);
    }
    assert Press(Tie2, 0, 1) == Tie3 by {
      assert Tie3.board[0] == Tie2.board[0][1 := XMark];
      PressStep(Tie2, 0, 1, Tie3);
    }
    assert Press(Tie3, 1, 1) == Tie4 by {
      assert Tie4.board[1] == Tie3.board[1][1 := OMark];
      PressStep(Tie3, 1, 1, Tie4);
    }
    assert Press(Tie4, 1, 2) == Tie5 by {
      assert Tie5.board[1] == Tie4.board[1][2 := XMark];
      PressStep(Tie4, 1, 2, Tie5);
    }
  }

  /** The last four moves of the tie test; the ninth fills the board. */
  lemma TieGameEnding()
    ensures Press(Tie5, 0, 2) == Tie6
    ensures Press(Tie6, 2, 0) == Tie7
    ensures Press(Tie7, 2, 1) == Tie8
    ensures Press(Tie8, 2, 2) == Tie9
  {
    assert Press(Tie5, 0, 2) == Tie6 by {
      assert Tie6.board[0] == Tie5.board[0][2 := OMark];
      PressStep(Tie5, 0, 2, Tie6);
    }
    assert Press(Tie6, 2, 0) == Tie7 by {
      assert Tie7.board[2] == Tie6.board[2][0 := XMark];
      PressStep(Tie6, 2, 0, Tie7);
    }
    assert Press(Tie7, 2, 1) == Tie8 by {
      assert Tie8.board[2] == Tie7.board[2][1 := OMark];
      PressStep(Tie7, 2, 1, Tie8);
    }
    assert Press(Tie8, 2, 2) == Tie9 by {
      assert Tie9.board[2] == Tie8.board[2][2 := XMark];
      PressStep(Tie8, 2, 2, Tie9);
    }
  }

  /** The nine squares of a game, read through the getter in row-major order. */
  method ReadSquares(g: Game) returns (marks: seq<Mark>)
    requires g.Valid()
    ensures marks == Flatten(g.Cells())
  {
    marks := [];
    var row := 0;
    while row < NumRows
      invariant 0 <= row <= NumRows
      invariant marks == Flatten(g.Cells())[..NumCols * row]
    {
      var col := 0;
      while col < NumCols
        invariant 0 <= col <= NumCols
        invariant marks == Flatten(g.Cells())[..NumCols * row + col]
      {
        var m := g.GetMarkForLocation(row, col);
        FlattenAt(g.Cells(), row, col);
        marks := marks + [m];
        col := col + 1;
      }
      row := row + 1;
    }
  }

  /** A new game has nine empty squares and X to move. */
  method NewGameIsReset() returns (marks: seq<Mark>, s: GameState)
    ensures marks == [Empty, Empty, Empty, Empty, Empty, Empty, Empty, Empty, Empty]
    ensures s == XTurn
  {
    var g := new Game();
    marks := ReadSquares(g);
    s := g.GetGameState();
  }

  /** X's first move at (0,0) puts an X there and hands the turn to O. */
  method OneMove() returns (before: Mark, after: Mark, s: GameState)
    ensures before == Empty && after == XMark && s == OTurn
  {
    var g := new Game();
    before := g.GetMarkForLocation(0, 0);
    g.PressAtLocation(0, 0);
    after := g.GetMarkForLocation(0, 0);
    s := g.GetGameState();
  }

  /** The X-win test on the class: X completes the down-right diagonal. */
  method CompleteXWin() returns (s: GameState)
    ensures s == XWin
  {
    XWinGameSteps();
    var g := new Game();
    g.PressAtLocation(0, 0);
    assert g.Current() == XWin1;
    g.PressAtLocation(0, 1);
    assert g.Current() == XWin2;
    g.PressAtLocation(1, 1);
    assert g.Current() == XWin3;
    g.PressAtLocation(0, 2);
    assert g.Current() == XWin4;
    g.PressAtLocation(2, 2);
    assert g.Current() == XWin5;
    s := g.GetGameState();
  }

  /** The tie test on the class: the ninth move fills the board. */
  method CompleteTie() returns (s: GameState)
    ensures s == Tie
  {
    TieGameOpening();
    TieGameEnding();
    var g := new Game();
    g.PressAtLocation(0, 0);
    g.PressAtLocation(1, 0);
    g.PressAtLocation(0, 1);
    g.PressAtLocation(1, 1);
    g.PressAtLocation(1, 2);
    g.PressAtLocation(0, 2);
    g.PressAtLocation(2, 0);
    g.PressAtLocation(2, 1);
    g.PressAtLocation(2, 2);
    assert g.Current() == Tie9;
    s := g.GetGameState();
  }

  /** A press far off the board on a new game changes nothing. */
  method PressOffBoard() returns (marks: seq<Mark>, s: GameState)
    ensures marks == [Empty, Empty, Empty, Empty, Empty, Empty, Empty, Empty, Empty]
    ensures s == XTurn
  {
    var g := new Game();
    g.PressAtLocation(5, 5);
    PressOffBoardIsNoop(Snapshot(EmptyBoard(), XTurn), 5, 5);
    assert g.Current() == Snapshot(EmptyBoard(), XTurn);
    marks := ReadSquares(g);
    s := g.GetGameState();
  }

  /** After the X win, pressing an occupied square or the empty (2,0)
      changes nothing. */
  method PressAfterWin() returns (m: Mark, s: GameState)
    ensures m == Empty && s == XWin
  {
    XWinGameSteps();
    var g := new Game();
    g.PressAtLocation(0, 0);
    g.PressAtLocation(0, 1);
    g.PressAtLocation(1, 1);
    g.PressAtLocation(0, 2);
    g.PressAtLocation(2, 2);
    assert g.Current() == XWin5;
    g.PressAtLocation(1, 1);
    PressOccupiedIsNoop(XWin5, 1, 1);
    assert g.Current() == XWin5;
    g.PressAtLocation(2, 0);
    PressTerminalIsNoop(XWin5, 2, 0);
    assert g.Current() == XWin5;
    m := g.GetMarkForLocation(2, 0);
    s := g.GetGameState();
  }

  /** Resets a game twice, whatever it held, and reads it back. */
  method ResetAndRead(g: Game) returns (marks: seq<Mark>, s: GameState)
    requires g.Valid()
    modifies g
    ensures marks == [Empty, Empty, Empty, Empty, Empty, Empty, Empty, Empty, Empty]
    ensures s == XTurn
  {
    g.Reset();
    g.Reset();
    marks := ReadSquares(g);
    s := g.GetGameState();
  }

  /** Resetting a game in progress twice leaves it as one reset does: nine
      empty squares and X to move. */
  method ResetTwice() returns (marks: seq<Mark>, s: GameState)
    ensures marks == [Empty, Empty, Empty, Empty, Empty, Empty, Empty, Empty, Empty]
    ensures s == XTurn
  {
    var g := new Game();
    g.PressAtLocation(1, 1);
    marks, s := ResetAndRead(g);
  }
}
