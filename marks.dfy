// The two enumerations of the Tic-Tac-Toe model: what a square holds and
// which phase the game is in. Their display strings are not modelled.
module Marks {

  /** The content of one square of the board. */
  datatype Mark = Empty | XMark | OMark

  /** The phase of the game: whose turn it is, or how the game ended. */
  datatype GameState = XTurn | OTurn | XWin | OWin | Tie

  /** The two in-progress states, the only ones in which a move is applied. */
  predicate IsTurn(s: GameState)
  {
    s == XTurn || s == OTurn
  }

  /** The three terminal states. */
  predicate IsTerminal(s: GameState)
  {
    s == XWin || s == OWin || s == Tie
  }
}
