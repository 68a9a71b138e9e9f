// The rules of the game as pure functions over board values: what a line
// is, when a mark has won, when the board is full, how a press changes a
// board and a state, and the invariants every reachable game keeps.
// The class in game.dfy is proved against these definitions.
module Rules {
  import opened Marks

  const NumRows: nat := 3
  const NumCols: nat := 3

  /** A board as a sequence of rows, each a sequence of marks. */
  type Board = seq<seq<Mark>>

  /** A board value together with the game state. */
  datatype Snapshot = Snapshot(board: Board, state: GameState)

  /** The board has the fixed 3x3 shape. */
  predicate IsGrid(b: Board)
  {
    |b| == NumRows && forall r :: 0 <= r < |b| ==> |b[r]| == NumCols
  }

  /** A row/column pair that names a square of the board. */
  predicate InBounds(row: int, col: int)
  {
    0 <= row < NumRows && 0 <= col < NumCols
  }

  /** Two grids with the same mark in every square are the same board. */
  lemma SameSquaresSameGrid(a: Board, b: Board)
    requires IsGrid(a) && IsGrid(b)
    requires forall r, c :: InBounds(r, c) ==> a[r][c] == b[r][c]
    ensures a == b
  {
    forall r | 0 <= r < NumRows
      ensures a[r] == b[r]
    {
      assert forall c :: 0 <= c < NumCols ==> a[r][c] == b[r][c];
    }
  }

  /** The board that reset builds: every square empty. */
  function EmptyBoard(): (b: Board)
    ensures IsGrid(b)
    ensures forall r, c :: InBounds(r, c) ==> b[r][c] == Empty
  {
    [[Empty, Empty, Empty], [Empty, Empty, Empty], [Empty, Empty, Empty]]
  }

  /** The board with square (row, col) set to m. */
  function Place(b: Board, row: int, col: int, m: Mark): (r: Board)
    requires IsGrid(b) && InBounds(row, col)
    ensures IsGrid(r)
    ensures r[row][col] == m
    ensures forall i, j :: InBounds(i, j) && (i, j) != (row, col) ==> r[i][j] == b[i][j]
  {
    b[row := b[row][col := m]]
  }

  // ---------------------------------------------------------------------
  // Winning lines, in the order the game checks them

  /** m fills column col: the three squares (0,col) (1,col) (2,col). */
  predicate ColumnFilled(b: Board, m: Mark, col: int)
    requires IsGrid(b) && 0 <= col < NumCols
  {
    b[0][col] == m && b[1][col] == m && b[2][col] == m
  }

  /** m fills row row: the three squares (row,0) (row,1) (row,2). */
  predicate RowFilled(b: Board, m: Mark, row: int)
    requires IsGrid(b) && 0 <= row < NumRows
  {
    b[row][0] == m && b[row][1] == m && b[row][2] == m
  }

  /** The down-right diagonal (0,0) (1,1) (2,2). */
  predicate MainDiagonalFilled(b: Board, m: Mark)
    requires IsGrid(b)
  {
    b[0][0] == m && b[1][1] == m && b[2][2] == m
  }

  /** The up-right diagonal (2,0) (1,1) (0,2). */
  predicate AntiDiagonalFilled(b: Board, m: Mark)
    requires IsGrid(b)
  {
    b[2][0] == m && b[1][1] == m && b[0][2] == m
  }

  /** m fills a column, a row or one of the two diagonals. */
  predicate HasWon(b: Board, m: Mark)
    requires IsGrid(b)
  {
    ColumnFilled(b, m, 0) || ColumnFilled(b, m, 1) || ColumnFilled(b, m, 2) ||
    RowFilled(b, m, 0) || RowFilled(b, m, 1) || RowFilled(b, m, 2) ||
    MainDiagonalFilled(b, m) ||
    AntiDiagonalFilled(b, m)
  }

  /** The eight lines of the board listed square by square: an independent
      reference for HasWon. */
  const Lines: seq<seq<(int, int)>> := [
    [(0, 0), (1, 0), (2, 0)], [(0, 1), (1, 1), (2, 1)], [(0, 2), (1, 2), (2, 2)],
    [(0, 0), (0, 1), (0, 2)], [(1, 0), (1, 1), (1, 2)], [(2, 0), (2, 1), (2, 2)],
    [(0, 0), (1, 1), (2, 2)], [(2, 0), (1, 1), (0, 2)]
  ]

  predicate LineFilled(b: Board, m: Mark, k: int)
    requires IsGrid(b) && 0 <= k < |Lines|
  {
    forall i :: 0 <= i < |Lines[k]| ==>
      InBounds(Lines[k][i].0, Lines[k][i].1) && b[Lines[k][i].0][Lines[k][i].1] == m
  }

  /** m occupies all three squares of one of the eight lines. */
  predicate HasLine(b: Board, m: Mark)
    requires IsGrid(b)
  {
    exists k :: 0 <= k < |Lines| && LineFilled(b, m, k)
  }

  /** The game's column/row/diagonal test is exactly "some line is all m". */
  lemma HasWonIffHasLine(b: Board, m: Mark)
    requires IsGrid(b)
    ensures HasWon(b, m) <==> HasLine(b, m)
  {
    if HasWon(b, m) {
      if exists col :: 0 <= col < NumCols && ColumnFilled(b, m, col) {
        var col :| 0 <= col < NumCols && ColumnFilled(b, m, col);
        assert LineFilled(b, m, col) by {
          assert b[0][col] == m && b[1][col] == m && b[2][col] == m;
        }
      } else if exists row :: 0 <= row < NumRows && RowFilled(b, m, row) {
        var row :| 0 <= row < NumRows && RowFilled(b, m, row);
        assert LineFilled(b, m, 3 + row) by {
          assert b[row][0] == m && b[row][1] == m && b[row][2] == m;
        }
      } else if MainDiagonalFilled(b, m) {
        assert LineFilled(b, m, 6);
      } else {
        assert LineFilled(b, m, 7);
      }
    }
    if HasLine(b, m) {
      var k :| 0 <= k < |Lines| && LineFilled(b, m, k);
      assert b[Lines[k][0].0][Lines[k][0].1] == m;
      assert b[Lines[k][1].0][Lines[k][1].1] == m;
      assert b[Lines[k][2].0][Lines[k][2].1] == m;
      if k < 3 {
        assert ColumnFilled(b, m, k);
      } else if k < 6 {
        assert RowFilled(b, m, k - 3);
      }
    }
  }

  /** Writing a mark other than m into an empty square does not give m a line. */
  lemma PlaceKeepsOtherLines(b: Board, row: int, col: int, p: Mark, m: Mark)
    requires IsGrid(b) && InBounds(row, col) && b[row][col] == Empty
    requires p != m
    ensures HasWon(Place(b, row, col, p), m) ==> HasWon(b, m)
  {
  }

  // ---------------------------------------------------------------------
  // Full board and mark counts

  /** None of the three rows holds an empty square. */
  predicate IsFull(b: Board)
    requires IsGrid(b)
  {
    Empty !in b[0] && Empty !in b[1] && Empty !in b[2]
  }

  /** The board is full exactly when no square is empty. */
  lemma FullIffNoEmptySquare(b: Board)
    requires IsGrid(b)
    ensures IsFull(b) <==> forall r, c :: InBounds(r, c) ==> b[r][c] != Empty
  {
  }

  /** The nine squares in row-major order. */
  function Flatten(b: Board): (s: seq<Mark>)
    requires IsGrid(b)
    ensures |s| == NumRows * NumCols
  {
    b[0] + b[1] + b[2]
  }

  /** How many squares hold m. */
  function Count(b: Board, m: Mark): (n: nat)
    requires IsGrid(b)
  {
    multiset(Flatten(b))[m]
  }

  /** Every square of a sequence holds one of the three marks. */
  lemma {:induction false} MarkCountsSum(s: seq<Mark>)
    ensures multiset(s)[Empty] + multiset(s)[XMark] + multiset(s)[OMark] == |s|
  {
    if s != [] {
      var t := s[..|s| - 1];
      assert s == t + [s[|s| - 1]];
      var e := s[|s| - 1];
      assert multiset(s) == multiset(t) + multiset{e};
      assert multiset{e}[Empty] + multiset{e}[XMark] + multiset{e}[OMark] == 1 by {
        match e
        case Empty =>
        case XMark =>
        case OMark =>
      }
      MarkCountsSum(t);
    }
  }

  /** Square (r, c) sits at position 3r + c of the flattened board. */
  lemma FlattenAt(b: Board, r: int, c: int)
    requires IsGrid(b) && InBounds(r, c)
    ensures Flatten(b)[NumCols * r + c] == b[r][c]
  {
  }

  /** The board is full exactly when the X and O counts add up to nine. */
  lemma FullIffNineMarks(b: Board)
    requires IsGrid(b)
    ensures IsFull(b) <==> Count(b, XMark) + Count(b, OMark) == NumRows * NumCols
  {
    MarkCountsSum(Flatten(b));
  }

  /** A board with as many X as O holds an even number of marks, never
      nine, so it is not full. */
  lemma EqualCountsNotFull(b: Board)
    requires IsGrid(b) && Count(b, XMark) == Count(b, OMark)
    ensures !IsFull(b)
  {
    FullIffNineMarks(b);
  }

  /** Writing p into an empty square adds one p and leaves the other
      player's count alone. */
  lemma PlaceCounts(b: Board, row: int, col: int, p: Mark)
    requires IsGrid(b) && InBounds(row, col) && b[row][col] == Empty && p != Empty
    ensures Count(Place(b, row, col, p), p) == Count(b, p) + 1
    ensures forall m :: m != p && m != Empty ==> Count(Place(b, row, col, p), m) == Count(b, m)
  {
  }

  /** Writing p into an empty square removes exactly one Empty. */
  lemma PlaceRemovesOneEmpty(b: Board, row: int, col: int, p: Mark)
    requires IsGrid(b) && InBounds(row, col) && b[row][col] == Empty && p != Empty
    ensures Count(Place(b, row, col, p), Empty) + 1 == Count(b, Empty)
  {
  }

  // ---------------------------------------------------------------------
  // One press

  /** The state after a move, as checkForGameOver decides it: a terminal
      state is kept; otherwise an X line, then an O line, then a full board
      end the game, in that order. */
  function GameOver(b: Board, s: GameState): (r: GameState)
    requires IsGrid(b)
    ensures !IsTurn(s) ==> r == s
    ensures r == XWin <==> s == XWin || (IsTurn(s) && HasWon(b, XMark))
    ensures r == OWin <==> s == OWin || (IsTurn(s) && !HasWon(b, XMark) && HasWon(b, OMark))
    ensures r == Tie <==> s == Tie || (IsTurn(s) && !HasWon(b, XMark) && !HasWon(b, OMark) && IsFull(b))
    ensures IsTurn(r) ==> r == s
  {
    if !IsTurn(s) then s
    else if HasWon(b, XMark) then XWin
    else if HasWon(b, OMark) then OWin
    else if IsFull(b) then Tie
    else s
  }

  /** The mark the player whose turn it is writes. */
  function MarkFor(s: GameState): (m: Mark)
    requires IsTurn(s)
  {
    if s == XTurn then XMark else OMark
  }

  /** The state that hands the turn to the other player. */
  function OtherTurn(s: GameState): (t: GameState)
    requires IsTurn(s)
  {
    if s == XTurn then OTurn else XTurn
  }

  /** A press is applied when it names a square, the square is empty and
      the game is in progress; every other press changes nothing. */
  predicate Accepts(p: Snapshot, row: int, col: int)
    requires IsGrid(p.board)
  {
    InBounds(row, col) && p.board[row][col] == Empty && IsTurn(p.state)
  }

  /** pressAtLocation on values: reject an off-board or occupied square;
      in a turn state write the player's mark and pass the turn; then run
      the game-over check. */
  function Press(p: Snapshot, row: int, col: int): (r: Snapshot)
    requires IsGrid(p.board)
    ensures IsGrid(r.board)
  {
    if !InBounds(row, col) then p
    else if p.board[row][col] != Empty then p
    else
      var q :=
        if p.state == XTurn then Snapshot(Place(p.board, row, col, XMark), OTurn)
        else if p.state == OTurn then Snapshot(Place(p.board, row, col, OMark), XTurn)
        else p;
      Snapshot(q.board, GameOver(q.board, q.state))
  }

  /** One accepted press, stated for checking literal snapshots: q is p with the
      mover's mark at (row, col) and the state the game-over check gives. */
  lemma PressStep(p: Snapshot, row: int, col: int, q: Snapshot)
    requires IsGrid(p.board) && Accepts(p, row, col)
    requires q.board == p.board[row := p.board[row][col := MarkFor(p.state)]]
    requires q.state == GameOver(q.board, OtherTurn(p.state))
    ensures Press(p, row, col) == q
  {
  }

  /** Pressing an occupied square changes neither board nor state. */
  lemma PressOccupiedIsNoop(p: Snapshot, row: int, col: int)
    requires IsGrid(p.board) && InBounds(row, col) && p.board[row][col] != Empty
    ensures Press(p, row, col) == p
  {
  }

  /** Pressing outside the board changes neither board nor state. */
  lemma PressOffBoardIsNoop(p: Snapshot, row: int, col: int)
    requires IsGrid(p.board) && !InBounds(row, col)
    ensures Press(p, row, col) == p
  {
  }

  /** Once the game is over, no press changes anything. */
  lemma PressTerminalIsNoop(p: Snapshot, row: int, col: int)
    requires IsGrid(p.board) && IsTerminal(p.state)
    ensures Press(p, row, col) == p
  {
  }

  /** Every press that Accepts turns down changes nothing. */
  lemma PressRejectedIsNoop(p: Snapshot, row: int, col: int)
    requires IsGrid(p.board) && !Accepts(p, row, col)
    ensures Press(p, row, col) == p
  {
    if InBounds(row, col) && p.board[row][col] == Empty {
      PressTerminalIsNoop(p, row, col);
    }
  }

  /** A press writes at most one square, only an empty one, and only with the
      mark of the player whose turn it was; it is applied exactly when
      Accepts holds. */
  lemma PressWritesAtMostOneSquare(p: Snapshot, row: int, col: int)
    requires IsGrid(p.board)
    ensures var r := Press(p, row, col);
      forall i, j :: InBounds(i, j) && (i, j) != (row, col) ==> r.board[i][j] == p.board[i][j]
    ensures var r := Press(p, row, col);
      Accepts(p, row, col) <==> r.board != p.board
    ensures var r := Press(p, row, col);
      Accepts(p, row, col) ==> r.board == Place(p.board, row, col, MarkFor(p.state))
  {
  }

  /** An accepted move passes the turn to the other player unless it ends
      the game: X's move gives OTurn, XWin, OWin or Tie; O's gives XTurn,
      XWin, OWin or Tie. */
  lemma PressPassesTurn(p: Snapshot, row: int, col: int)
    requires IsGrid(p.board) && Accepts(p, row, col)
    ensures var r := Press(p, row, col);
      r.board[row][col] == MarkFor(p.state) &&
      (r.state == OtherTurn(p.state) <==>
         !HasWon(r.board, XMark) && !HasWon(r.board, OMark) && !IsFull(r.board)) &&
      (r.state != OtherTurn(p.state) ==> IsTerminal(r.state))
  {
  }

  // ---------------------------------------------------------------------
  // Invariant of every reachable game

  /** What every game reachable from reset satisfies: X moves first, so X's
      count equals O's or exceeds it by one according to whose turn it is;
      nobody has a line while the game is in progress; the winner is the
      only one with a line; a tie is a full board without lines. */
  predicate Consistent(p: Snapshot)
  {
    IsGrid(p.board) &&
    var x, o := Count(p.board, XMark), Count(p.board, OMark);
    match p.state
    case XTurn =>
      x == o && !HasWon(p.board, XMark) && !HasWon(p.board, OMark) && !IsFull(p.board)
    case OTurn =>
      x == o + 1 && !HasWon(p.board, XMark) && !HasWon(p.board, OMark) && !IsFull(p.board)
    case XWin => x == o + 1 && HasWon(p.board, XMark) && !HasWon(p.board, OMark)
    case OWin => x == o && HasWon(p.board, OMark) && !HasWon(p.board, XMark)
    case Tie =>
      x == o + 1 && IsFull(p.board) && !HasWon(p.board, XMark) && !HasWon(p.board, OMark)
  }

  /** The state reset establishes is consistent. */
  lemma ResetIsConsistent()
    ensures Consistent(Snapshot(EmptyBoard(), XTurn))
  {
  }

  /** X's accepted move keeps the game consistent and leads to OTurn, XWin
      or Tie. */
  lemma XMoveKeepsConsistent(p: Snapshot, row: int, col: int)
    requires Consistent(p) && p.state == XTurn && InBounds(row, col) && p.board[row][col] == Empty
    ensures Consistent(Press(p, row, col))
    ensures Press(p, row, col).state in {OTurn, XWin, Tie}
  {
    var b' := Place(p.board, row, col, XMark);
    assert Press(p, row, col) == Snapshot(b', GameOver(b', OTurn));
    PlaceKeepsOtherLines(p.board, row, col, XMark, OMark);
    PlaceCounts(p.board, row, col, XMark);
  }

  /** O's accepted move keeps the game consistent and leads to XTurn or
      OWin: O never fills the board, since the ninth mark is X's. */
  lemma OMoveKeepsConsistent(p: Snapshot, row: int, col: int)
    requires Consistent(p) && p.state == OTurn && InBounds(row, col) && p.board[row][col] == Empty
    ensures Consistent(Press(p, row, col))
    ensures Press(p, row, col).state in {XTurn, OWin}
  {
    var b' := Place(p.board, row, col, OMark);
    assert Press(p, row, col) == Snapshot(b', GameOver(b', XTurn));
    assert !HasWon(b', XMark) by {
      PlaceKeepsOtherLines(p.board, row, col, OMark, XMark);
    }
    assert Count(b', XMark) == Count(b', OMark) by {
      PlaceCounts(p.board, row, col, OMark);
    }
    EqualCountsNotFull(b');
    assert GameOver(b', XTurn) in {XTurn, OWin};
  }

  /** Every press keeps a consistent game consistent. */
  lemma PressKeepsConsistent(p: Snapshot, row: int, col: int)
    requires Consistent(p)
    ensures Consistent(Press(p, row, col))
  {
    if Accepts(p, row, col) {
      if p.state == XTurn {
        XMoveKeepsConsistent(p, row, col);
      } else {
        OMoveKeepsConsistent(p, row, col);
      }
    }
  }

  /** The transitions of a consistent game: from XTurn a press leads to
      XTurn (rejected), OTurn, XWin or Tie; from OTurn to OTurn (rejected),
      XTurn or OWin. A tie is always completed by X, the ninth mark. */
  lemma PressTransitions(p: Snapshot, row: int, col: int)
    requires Consistent(p)
    ensures var s := Press(p, row, col).state;
      (p.state == XTurn ==> s in {XTurn, OTurn, XWin, Tie}) &&
      (p.state == OTurn ==> s in {OTurn, XTurn, OWin}) &&
      (IsTerminal(p.state) ==> s == p.state)
  {
    if p.state == XTurn {
      XTurnTransitions(p, row, col);
    } else if p.state == OTurn {
      OTurnTransitions(p, row, col);
    } else {
      PressTerminalIsNoop(p, row, col);
    }
  }

  /** From XTurn a consistent game moves to XTurn (rejected), OTurn, XWin or
      Tie. */
  lemma XTurnTransitions(p: Snapshot, row: int, col: int)
    requires Consistent(p) && p.state == XTurn
    ensures Press(p, row, col).state in {XTurn, OTurn, XWin, Tie}
  {
    if Accepts(p, row, col) {
      XMoveKeepsConsistent(p, row, col);
    } else {
      PressRejectedIsNoop(p, row, col);
    }
  }

  /** From OTurn a consistent game moves to OTurn (rejected), XTurn or OWin. */
  lemma OTurnTransitions(p: Snapshot, row: int, col: int)
    requires Consistent(p) && p.state == OTurn
    ensures Press(p, row, col).state in {OTurn, XTurn, OWin}
  {
    if Accepts(p, row, col) {
      OMoveKeepsConsistent(p, row, col);
    } else {
      PressRejectedIsNoop(p, row, col);
    }
  }

  // ---------------------------------------------------------------------
  // Sequences of presses

  /** The snapshot after pressing the squares of moves in order. */
  function PlayFrom(p: Snapshot, moves: seq<(int, int)>): (r: Snapshot)
    requires IsGrid(p.board)
    ensures IsGrid(r.board)
    decreases |moves|
  {
    if moves == [] then p
    else PlayFrom(Press(p, moves[0].0, moves[0].1), moves[1..])
  }

  /** The snapshot after reset followed by the presses in moves. */
  function Play(moves: seq<(int, int)>): (r: Snapshot)
  {
    PlayFrom(Snapshot(EmptyBoard(), XTurn), moves)
  }

  /** A terminal game is never left by any sequence of presses. */
  lemma {:induction false} TerminalIsFinal(p: Snapshot, moves: seq<(int, int)>)
    requires IsGrid(p.board) && IsTerminal(p.state)
    ensures PlayFrom(p, moves) == p
    decreases |moves|
  {
    if moves != [] {
      PressTerminalIsNoop(p, moves[0].0, moves[0].1);
      TerminalIsFinal(p, moves[1..]);
    }
  }

  /** Any sequence of presses keeps a consistent game consistent. */
  lemma {:induction false} PlayKeepsConsistent(p: Snapshot, moves: seq<(int, int)>)
    requires Consistent(p)
    ensures Consistent(PlayFrom(p, moves))
    decreases |moves|
  {
    if moves != [] {
      PressKeepsConsistent(p, moves[0].0, moves[0].1);
      PlayKeepsConsistent(Press(p, moves[0].0, moves[0].1), moves[1..]);
    }
  }

  /** In every game reachable from reset at most one mark has a line, the
      board holds as many X as O or one X more, and the state agrees with
      the board. */
  lemma ReachableIsConsistent(moves: seq<(int, int)>)
    ensures Consistent(Play(moves))
    ensures !(HasWon(Play(moves).board, XMark) && HasWon(Play(moves).board, OMark))
    ensures var b := Play(moves).board;
      Count(b, XMark) == Count(b, OMark) || Count(b, XMark) == Count(b, OMark) + 1
  {
    ResetIsConsistent();
    PlayKeepsConsistent(Snapshot(EmptyBoard(), XTurn), moves);
  }

  // ---------------------------------------------------------------------
  // The bounds check as written

  /** The guard of pressAtLocation as the source writes it: it rejects only
      row > 3 or col > 3, so row 3 or column 3 passes. */
  predicate PassesGuardAsWritten(row: int, col: int)
  {
    !(row < 0 || row > NumRows || col < 0 || col > NumCols)
  }

  /** The written guard lets through presses that name no square. */
  lemma GuardAsWrittenAdmitsOffBoard()
    ensures PassesGuardAsWritten(NumRows, 0) && !InBounds(NumRows, 0)
    ensures PassesGuardAsWritten(0, NumCols) && !InBounds(0, NumCols)
  {
  }

  /** The corrected guard InBounds admits exactly the squares of a board,
      and it is stricter than the written one. */
  lemma InBoundsIsExactlyTheSquares(b: Board, row: int, col: int)
    requires IsGrid(b)
    ensures InBounds(row, col) <==> 0 <= row < |b| && 0 <= col < |b[row]|
    ensures InBounds(row, col) ==> PassesGuardAsWritten(row, col)
  {
  }
}
