// The game model object: a 3x3 board of marks updated in place and the
// current game state. Every method is proved against the functions of
// module Rules applied to the board's contents.
module TicTacToe {
  import opened Marks
  import opened Rules

  class Game {
    /** The board, indexed [row, col]; reset replaces it with a fresh one. */
    var board: array2<Mark>
    var state: GameState

    /** The board keeps its 3x3 shape. */
    ghost predicate Valid()
      reads this
    {
      board.Length0 == NumRows && board.Length1 == NumCols
    }

    /** The board's contents as a sequence of rows. */
    ghost function Cells(): (b: Board)
      reads this, board
      requires Valid()
      ensures IsGrid(b)
      ensures forall r, c :: InBounds(r, c) ==> b[r][c] == board[r, c]
    {
      [[board[0, 0], board[0, 1], board[0, 2]],
       [board[1, 0], board[1, 1], board[1, 2]],
       [board[2, 0], board[2, 1], board[2, 2]]]
    }

    /** The board's contents together with the state. */
    ghost function Current(): (p: Snapshot)
      reads this, board
      requires Valid()
    {
      Snapshot(Cells(), state)
    }

    /** A new game is reset: an empty board and X to move. */
    constructor ()
      ensures Valid() && fresh(board)
      ensures Current() == Snapshot(EmptyBoard(), XTurn)
    {
      board := new Mark[NumRows, NumCols];
      state := XTurn;
      new;
      Reset();
    }

    /** Builds a new empty board row by row and gives X the first turn,
        whatever the game was before. */
    method Reset()
      modifies this
      ensures Valid() && fresh(board)
      ensures Current() == Snapshot(EmptyBoard(), XTurn)
    {
      var b := new Mark[NumRows, NumCols];
      var row := 0;
      while row < NumRows
        invariant 0 <= row <= NumRows
        invariant forall r, c :: 0 <= r < row && 0 <= c < NumCols ==> b[r, c] == Empty
      {
        var col := 0;
        while col < NumCols
          invariant 0 <= col <= NumCols
          invariant forall r, c :: 0 <= r < row && 0 <= c < NumCols ==> b[r, c] == Empty
          invariant forall c :: 0 <= c < col ==> b[row, c] == Empty
        {
          b[row, col] := Empty;
          col := col + 1;
        }
        row := row + 1;
      }
      board := b;
      state := XTurn;
      assert Cells() == EmptyBoard();
    }

    /** Applies a press as Press specifies: an off-board or occupied square
        changes nothing; otherwise the player to move writes a mark, the
        turn passes and the game-over check runs. The board keeps its shape
        and identity, and a consistent game stays consistent. */
    method PressAtLocation(row: int, col: int)
      requires Valid()
      modifies this`state, board
      ensures Valid() && board == old(board)
      ensures Current() == Press(old(Current()), row, col)
      ensures Consistent(old(Current())) ==> Consistent(Current())
    {
      ghost var before := Current();
      // The source's guard rejects only row > 3 or col > 3. For row == 3 it
      // then fails indexing the missing row, and for col == 3 it reads an
      // undefined square and takes the occupied-square branch; either way
      // it leaves without writing, so every off-board press is a no-op here.
      if !InBounds(row, col) {
        return;
      }
      if board[row, col] != Empty {
        return;
      }
      if state == XTurn {
        board[row, col] := XMark;
        state := OTurn;
      } else if state == OTurn {
        board[row, col] := OMark;
        state := XTurn;
      }
      SameSquaresSameGrid(Cells(), if IsTurn(before.state)
        then Place(before.board, row, col, MarkFor(before.state))
        else before.board);
      CheckForGameOver();
      if Consistent(before) {
        PressKeepsConsistent(before, row, col);
      }
    }

    /** Moves the game into XWin, OWin or Tie as GameOver specifies; a
        terminal state is left alone. */
    method CheckForGameOver()
      requires Valid()
      modifies this`state
      ensures state == GameOver(Cells(), old(state))
    {
      if !(state == XTurn || state == OTurn) {
        return;
      }
      var xWon := HasMarkWon(XMark);
      if xWon {
        state := XWin;
      } else {
        var oWon := HasMarkWon(OMark);
        if oWon {
          state := OWin;
        } else {
          var full := IsBoardFull();
          if full {
            state := Tie;
          }
        }
      }
    }

    /** Scans the three columns, then the three rows, then the two
        diagonals; true exactly when mark fills one of them. */
    method HasMarkWon(mark: Mark) returns (won: bool)
      requires Valid()
      ensures won == HasWon(Cells(), mark)
    {
      ghost var b := Cells();
      var allMarksMatch := true;
      var col := 0;
      while col < NumCols
        invariant 0 <= col <= NumCols
        invariant forall c :: 0 <= c < col ==> !ColumnFilled(b, mark, c)
      {
        allMarksMatch := true;
        var row := 0;
        while row < NumRows
          invariant 0 <= row <= NumRows
          invariant allMarksMatch
          invariant forall r :: 0 <= r < row ==> board[r, col] == mark
        {
          if board[row, col] != mark {
            allMarksMatch := false;
            break;
          }
          row := row + 1;
        }
        if allMarksMatch {
          assert ColumnFilled(b, mark, col);
          return true;
        }
        col := col + 1;
      }
      var row := 0;
      while row < NumRows
        invariant 0 <= row <= NumRows
        invariant forall r :: 0 <= r < row ==> !RowFilled(b, mark, r)
      {
        allMarksMatch := true;
        col := 0;
        while col < NumCols
          invariant 0 <= col <= NumCols
          invariant allMarksMatch
          invariant forall c :: 0 <= c < col ==> board[row, c] == mark
        {
          if board[row, col] != mark {
            allMarksMatch := false;
            break;
          }
          col := col + 1;
        }
        if allMarksMatch {
          assert RowFilled(b, mark, row);
          return true;
        }
        row := row + 1;
      }
      if board[0, 0] == mark && board[1, 1] == mark && board[2, 2] == mark {
        return true;
      }
      if board[2, 0] == mark && board[1, 1] == mark && board[0, 2] == mark {
        return true;
      }
      return false;
    }

    /** True exactly when no square is empty. */
    method IsBoardFull() returns (full: bool)
      requires Valid()
      ensures full == IsFull(Cells())
    {
      var row := 0;
      while row < NumRows
        invariant 0 <= row <= NumRows
        invariant forall r, c :: 0 <= r < row && 0 <= c < NumCols ==> board[r, c] != Empty
      {
        var col := 0;
        while col < NumCols
          invariant 0 <= col <= NumCols
          invariant forall c :: 0 <= c < col ==> board[row, c] != Empty
        {
          if board[row, col] == Empty {
            return false;
          }
          col := col + 1;
        }
        row := row + 1;
      }
      return true;
    }

    /** The mark in a square; the source checks no bounds here, so the
        square must exist. */
    method GetMarkForLocation(row: int, col: int) returns (m: Mark)
      requires Valid() && InBounds(row, col)
      ensures m == Cells()[row][col]
    {
      m := board[row, col];
    }

    method GetGameState() returns (s: GameState)
      ensures s == state
    {
      s := state;
    }
  }
}
