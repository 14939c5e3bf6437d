/** Undo (Board.ts lines 315-321) against the views of the history and `makeMove`: an undo
    takes back the last turn, an undo right after a move restores the state before it, and
    making the undone move again redoes it. */
module UndoLaws {
  import opened Bitboard
  import opened Legal
  import opened History
  import opened Game
  import opened GameLaws

  /** `undo()` takes back one turn of the log. */
  lemma UndoLog(b: Board)
    ensures AllMoves(Undo(b), false) == DropTurn(AllMoves(b, false))
  {
    RetractOneMore(b.allMoves, b.undoCount, b.undoCount + 1);
  }

  /** `undo()` takes back one move of the moves made, and none when none is left. */
  lemma UndoMovesMade(b: Board)
    ensures MovesMade(Undo(b)) == if CanUndo(b) then MovesMade(b) - 1 else 0
  {
    MovesMadeLog(b);
    MovesMadeLog(Undo(b));
  }

  /** The moves made after `undo()` are a prefix of those before. */
  lemma UndoMovesPrefix(b: Board)
    ensures Moves(Undo(b), false) <= Moves(b, false)
  {
    var s := b.allMoves;
    MovesMadeLog(b);
    MovesMadeLog(Undo(b));
    RetractPlayed(s, b.undoCount);
    RetractPlayed(s, b.undoCount + 1);
  }

  /** `undo()` takes back one turn of the log and one move of the moves made; with no move
      left to take back, none remain. */
  lemma UndoTakesBack(b: Board)
    ensures AllMoves(Undo(b), false) == DropTurn(AllMoves(b, false))
    ensures MovesMade(Undo(b)) == if CanUndo(b) then MovesMade(b) - 1 else 0
    ensures Moves(Undo(b), false) <= Moves(b, false)
  {
    UndoLog(b);
    UndoMovesMade(b);
    UndoMovesPrefix(b);
  }

  /** After `makeMove` and `undo()`, the log and the moves made are those before the
      move. */
  lemma UndoAfterMakeMoveLog(b: Board, m: int)
    requires Sized(b) && CanMakeMove(b, m)
    ensures var u := Undo(MakeMove(b, m).value);
            && AllMoves(u, false) == AllMoves(b, false)
            && Moves(u, false) == Moves(b, false)
            && MovesMade(u) == MovesMade(b)
  {
    var r := MakeMove(b, m).value;
    var u := Undo(r);
    MakeMoveLog(b, m);
    LoggedTurnPlayed(r.allMoves, AllMoves(b, false), m);
    assert AllMoves(u, false) == DropTurn(r.allMoves);
    MovesMadeLog(u);
    MovesMadeLog(b);
  }

  /** On a trimmed state, `handleMove` and then `undo()` come back to the log, the boards
      and the current turn of the state. */
  lemma UndoAfterHandleMove(t: Board, m: int)
    requires Trimmed(t)
    ensures var u := Undo(HandleMove(t, m));
            && Sized(u) && MovesMade(u) == MovesMade(t)
            && AllMoves(u, false) == t.allMoves
            && BlackBoards(u) == t.blackBoards && WhiteBoards(u) == t.whiteBoards
            && BlackBoard(u) == BlackBoard(t) && WhiteBoard(u) == WhiteBoard(t)
  {
    var h := HandleMove(t, m);
    var u := Undo(h);
    var k := MovesMade(t);
    HandleMoveCurrent(t, m);
    HandleMoveLog(t, m);
    LoggedTurnPlayed(h.allMoves, t.allMoves, m);
    assert AllMoves(u, false) == DropTurn(h.allMoves);
    MovesMadeFresh(t);
    MovesMadeLog(u);
    assert h.blackBoards[..k + 1] == t.blackBoards;
    assert h.whiteBoards[..k + 1] == t.whiteBoards;
  }

  /** After `makeMove` and `undo()`, the boards up to the current turn are those before the
      move, and so are the current boards. */
  lemma UndoAfterMakeMoveBoards(b: Board, m: int)
    requires Sized(b) && CanMakeMove(b, m)
    ensures var u := Undo(MakeMove(b, m).value);
            && Sized(u)
            && BlackBoards(u) == BlackBoards(b) && WhiteBoards(u) == WhiteBoards(b)
            && BlackBoard(u) == BlackBoard(b) && WhiteBoard(u) == WhiteBoard(b)
  {
    TruncateTrimmed(b);
    TruncateKeeps(b);
    MakeMoveAccepts(b, m);
    UndoAfterHandleMove(Truncate(b), m);
  }

  /** After `makeMove` and `undo()`, the first lines of `makeMove` give back the state
      they gave before the move. */
  lemma UndoTruncates(b: Board, m: int)
    requires Sized(b) && CanMakeMove(b, m)
    ensures Sized(Undo(MakeMove(b, m).value))
    ensures Truncate(Undo(MakeMove(b, m).value)) == Truncate(b)
  {
    UndoAfterMakeMoveLog(b, m);
    UndoAfterMakeMoveBoards(b, m);
  }

  /** After `makeMove` and `undo()`, the side to move and its legal cells are those
      before the move. */
  lemma UndoAfterMakeMove(b: Board, m: int)
    requires Sized(b) && CanMakeMove(b, m)
    ensures var u := Undo(MakeMove(b, m).value);
            && Sized(u)
            && IsBlackTurn(u) == IsBlackTurn(b)
            && PlayerBoard(u) == PlayerBoard(b) && OpponentBoard(u) == OpponentBoard(b)
            && LegalBoard(u) == LegalBoard(b)
  {
    var u := Undo(MakeMove(b, m).value);
    UndoTruncates(b, m);
    TruncateKeeps(u);
    TruncateKeeps(b);
  }

  /** Making the undone move again redoes it: the state is the one the move first led
      to. */
  lemma RedoAfterUndo(b: Board, m: int)
    requires Sized(b) && CanMakeMove(b, m)
    ensures var u := Undo(MakeMove(b, m).value);
            Sized(u) && MakeMove(u, m) == MakeMove(b, m)
  {
    var u := Undo(MakeMove(b, m).value);
    UndoTruncates(b, m);
    UndoAfterMakeMove(b, m);
    MakeMoveAccepts(b, m);
    MakeMoveAccepts(u, m);
  }
}
