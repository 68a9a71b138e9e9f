// A transition a press allows on some board but no game takes: a press
// made in O's turn ending in a tie.
module UnreachableTie {
  import opened Marks
  import opened Rules

  /** A board no game reaches: four X and four O marks with O to move. */
  const OddBefore := Snapshot([[XMark, OMark, XMark], [XMark, OMark, OMark], [OMark, XMark, Empty]], OTurn)
  const OddAfter := Snapshot([[XMark, OMark, XMark], [XMark, OMark, OMark], [OMark, XMark, OMark]], Tie)

  /** O's press at (2,2) writes the ninth mark: the turn passes to X, and
      the game-over check then finds a full board with no line. */
  lemma OTurnTieStep()
    ensures Press(OddBefore, 2, 2) == OddAfter
  {
    assert OddAfter.board[2] == OddBefore.board[2][2 := OMark];
    PressStep(OddBefore, 2, 2, OddAfter);
  }

  /** The snapshot from which O's press ends in Tie is not consistent: the
      full board after the move holds nine marks, one of them the new O, so
      the board before holds eight, an even count, which O's turn in a
      consistent game (one X more than O) never has. */
  lemma OTurnTieOnlyWhenInconsistent()
    ensures Press(OddBefore, 2, 2).state == Tie
    ensures !Consistent(OddBefore)
  {
    OTurnTieStep();
    assert OddAfter.board == Place(OddBefore.board, 2, 2, OMark);
    FullIffNineMarks(OddAfter.board);
    PlaceCounts(OddBefore.board, 2, 2, OMark);
  }
}
