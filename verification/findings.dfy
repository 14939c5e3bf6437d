/** The slice of `moves()` (Board.ts lines 56-61) as the engine writes it, against the
    retraction of `allMoves()` (lines 38-54). `undo()` (lines 319-321) does not check
    `canUndo()`, so the undo count can exceed the number of moves; the slice end
    `filtered.length - undoCount` is then negative and counts from the back, and `moves()`
    hands back moves that `allMoves()` has taken back. */
module SliceFinding {
  import opened Bitboard
  import opened History
  import opened Game

  /** With more turns undone than there are moves, but fewer than twice as many, the slice
      as written keeps `2n - u` moves although every turn of the log is taken back; the
      clamped slice keeps none, as the retraction does. */
  lemma MovesAsWrittenOverUndo(b: Board)
    requires |Played(b.allMoves)| < b.undoCount < 2 * |Played(b.allMoves)|
    ensures |MovesAsWritten(b, false)| == 2 * |Played(b.allMoves)| - b.undoCount > 0
    ensures MovesAsWritten(b, false) == Played(b.allMoves)[..2 * |Played(b.allMoves)| - b.undoCount]
    ensures Played(AllMoves(b, false)) == [] && Moves(b, false) == []
  {
    RetractPlayed(b.allMoves, b.undoCount);
  }

  /** Up to as many turns undone as there are moves, or from twice as many on, the slice as
      written and the clamped one agree. */
  lemma MovesAsWrittenAgrees(b: Board)
    requires var n := |Played(b.allMoves)|; b.undoCount <= n || b.undoCount >= 2 * n
    ensures MovesAsWritten(b, false) == Moves(b, false)
  {}

  /** Two moves made and three turns undone: the slice as written still shows the first
      move, where the log shows none. The boards are those black's 19 and white's 34 give
      from the default discs; the claim depends only on the log and the undo count. */
  lemma OverUndoExample(b: Board)
    requires b == Board([DEFAULT_BLACK, 0x0008_1808_0000, 0x0000_1808_0000],
                        [DEFAULT_WHITE, 0x0010_0000_0000, 0x001C_0000_0000],
                        [Some(19), Some(34)], 3)
    ensures MovesAsWritten(b, false) == [19]
    ensures AllMoves(b, false) == [] && Moves(b, false) == [] && MovesMade(b) == 0
  {
    var s := b.allMoves;
    assert s[..1] == [Some(19)];
    assert Played(s[..1]) == [19] by {
      assert s[..1][..0] == [];
    }
    assert Played(s) == [19, 34];
    assert DropTurn(s) == [Some(19)];
    assert DropTurn([Some(19)]) == [];
    assert DropTurn([]) == [];
    MovesAsWrittenOverUndo(b);
  }
}
