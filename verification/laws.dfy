/** What the engine promises about a game: which moves it accepts, what a move does to the
    boards and the log, that passes keep the game going, and that undo takes a move back. */
module GameLaws {
  import opened Bitboard
  import opened Legal
  import opened Flipping
  import opened Rules
  import opened History
  import opened Game

  /** `canMakeMove(m)` holds exactly for the members of `legalMoves()`, all of them cells
      of the board. */
  lemma CanMakeMoveIsLegal(b: Board, m: int)
    requires Sized(b)
    ensures CanMakeMove(b, m) <==> m in LegalMoves(b)
    ensures CanMakeMove(b, m) ==> 0 <= m < 64
  {
    MoveToBoardCell(m);
  }

  /** `makeMove` throws exactly on the moves that are not among `legalMoves()`. */
  lemma MakeMoveRejects(b: Board, m: int)
    requires Sized(b)
    ensures MakeMove(b, m).Failure? <==> m !in LegalMoves(b)
  {
    CanMakeMoveIsLegal(b, m);
  }

  /** Passing logs no, one or two passes and leaves the boards alone. */
  lemma PassWhenShape(b: Board, first: bool, second: bool)
    requires Sized(b) && b.undoCount == 0
    ensures var s := PassWhen(b, first, second).allMoves;
            s == b.allMoves || s == b.allMoves + [None] || s == b.allMoves + [None, None]
    ensures PassWhen(b, first, second).blackBoards == b.blackBoards
    ensures PassWhen(b, first, second).whiteBoards == b.whiteBoards
  {
    assert b.allMoves + [None] + [None] == b.allMoves + [None, None];
  }

  /** Settling logs no, one or two passes and leaves the boards alone. */
  lemma SettleLog(b: Board)
    requires Sized(b) && b.undoCount == 0
    ensures var s := Settle(b).allMoves;
            s == b.allMoves || s == b.allMoves + [None] || s == b.allMoves + [None, None]
    ensures Settle(b).blackBoards == b.blackBoards && Settle(b).whiteBoards == b.whiteBoards
  {
    PassWhenShape(b, |LegalMoves(b)| == 0, |LegalMoves(PassTurn(b))| == 0);
  }

  /** After settling, the side to move has a legal move, or both sides passed and the game
      is over. */
  lemma SettleProgress(b: Board)
    requires Sized(b) && b.undoCount == 0
    ensures |LegalMoves(Settle(b))| > 0 || IsOver(Settle(b))
  {
    if |LegalMoves(b)| == 0 {
      var b1 := PassTurn(b);
      if |LegalMoves(b1)| == 0 {
        assert PassTurn(b1).allMoves == b.allMoves + [None] + [None];
      }
    }
  }

  /** Settling logs no pass exactly when the side to move has a legal move. */
  lemma SettleKeeps(b: Board)
    requires Sized(b) && b.undoCount == 0
    ensures Settle(b) == b <==> |LegalMoves(b)| > 0
  {
    if |LegalMoves(b)| == 0 {
      PassWhenShape(b, true, |LegalMoves(PassTurn(b))| == 0);
      assert |Settle(b).allMoves| > |b.allMoves|;
    }
  }

  /** `handleMove` logs one turn: the move, then no, one or two passes. */
  lemma HandleMoveLog(b: Board, m: int)
    requires Sized(b) && b.undoCount == 0
    ensures LoggedTurn(HandleMove(b, m).allMoves, b.allMoves, m)
  {
    SettleLog(Place(b, m));
    LoggedTurnOf(HandleMove(b, m).allMoves, Place(b, m).allMoves, b.allMoves, m);
  }

  /** `handleMove` keeps the boards its move pushed. */
  lemma HandleMoveBoards(b: Board, m: int)
    requires Sized(b) && b.undoCount == 0
    ensures HandleMove(b, m).blackBoards == Place(b, m).blackBoards
    ensures HandleMove(b, m).whiteBoards == Place(b, m).whiteBoards
  {
    SettleLog(Place(b, m));
  }

  /** After `handleMove`, the side to move has a legal move, or the game is over. */
  lemma HandleMoveProgress(b: Board, m: int)
    requires Sized(b) && b.undoCount == 0
    ensures |LegalMoves(HandleMove(b, m))| > 0 || IsOver(HandleMove(b, m))
  {
    SettleProgress(Place(b, m));
  }

  /** A legal move of the player `p` against `o`, on disjoint boards, places its disc on a
      vacant cell and flips discs of the opponent only. */
  lemma LegalMoveFits(p: bv64, o: bv64, put: bv64)
    requires !Meets(p, o) && Single(put) && Meets(put, LegalBoardOf(p, o))
    ensures MoveFits(p, o, put, Flips(p, o, put))
  {
    var vacant := VacantBoardOf(OccupiedBoardOf(p, o));
    LegalVacant(p, o);
    MeetsWithin(put, LegalBoardOf(p, o), vacant);
    VacantSingle(put, p, o);
    MeetsPart(put, p, o);
    FlipsWithin(p, o, put);
  }

  /** `makeMove` logs one turn after the moves kept, the move and then no, one or two
      passes, and clears the undo count. */
  lemma MakeMoveLog(b: Board, m: int)
    requires Sized(b) && CanMakeMove(b, m)
    ensures MakeMove(b, m).value.undoCount == 0
    ensures LoggedTurn(MakeMove(b, m).value.allMoves, AllMoves(b, false), m)
  {
    MakeMoveAccepts(b, m);
    HandleMoveLog(Truncate(b), m);
  }

  /** `makeMove` adds its move to the moves made. */
  lemma MakeMoveMoves(b: Board, m: int)
    requires Sized(b) && CanMakeMove(b, m)
    ensures Moves(MakeMove(b, m).value, false) == Moves(b, false) + [m]
    ensures MovesMade(MakeMove(b, m).value) == MovesMade(b) + 1
  {
    MakeMoveLog(b, m);
    MovesOfTurn(MakeMove(b, m).value, AllMoves(b, false), m);
    MovesMadeLog(b);
  }

  /** After `makeMove`, the side to move has a legal move, or the game is over. */
  lemma MakeMoveProgress(b: Board, m: int)
    requires Sized(b) && CanMakeMove(b, m)
    ensures |LegalMoves(MakeMove(b, m).value)| > 0 || IsOver(MakeMove(b, m).value)
  {
    MakeMoveAccepts(b, m);
    HandleMoveProgress(Truncate(b), m);
  }

  /** The state `makeMove` hands to `handleMove`: nothing undone, and no boards past the
      current turn. */
  predicate Trimmed(t: Board) {
    && Sized(t) && t.undoCount == 0
    && |t.blackBoards| == MovesMade(t) + 1 && |t.whiteBoards| == MovesMade(t) + 1
  }

  /** The first lines of `makeMove` leave a trimmed state with the same current turn. */
  lemma TruncateTrimmed(b: Board)
    requires Sized(b)
    ensures Trimmed(Truncate(b))
  {
    TruncateKeeps(b);
  }

  /** The first lines of `makeMove` leave a trimmed state as it is: truncating is
      idempotent. */
  lemma TruncateFixes(t: Board)
    requires Trimmed(t)
    ensures Truncate(t) == t
  {
    MovesMadeFresh(t);
    assert BlackBoards(t) == t.blackBoards;
    assert WhiteBoards(t) == t.whiteBoards;
  }

  /** On a trimmed state `makeMove` is `handleMove` once the move is accepted. */
  lemma MakeMoveTrimmed(t: Board, m: int)
    requires Trimmed(t)
    ensures MakeMove(t, m) == if CanMakeMove(t, m) then Success(HandleMove(t, m)) else Failure
  {
    TruncateFixes(t);
  }

  /** Truncating twice is truncating once. */
  lemma TruncateIdempotent(b: Board)
    requires Sized(b)
    ensures Truncate(Truncate(b)) == Truncate(b)
  {
    TruncateTrimmed(b);
    TruncateFixes(Truncate(b));
  }

  /** `handleMove` pushes one pair of boards on top of the ones it was given. */
  lemma HandleMoveGrows(t: Board, m: int)
    requires Sized(t) && t.undoCount == 0
    ensures var h := HandleMove(t, m);
            && |h.blackBoards| == |t.blackBoards| + 1 && h.blackBoards[..|t.blackBoards|] == t.blackBoards
            && |h.whiteBoards| == |t.whiteBoards| + 1 && h.whiteBoards[..|t.whiteBoards|] == t.whiteBoards
  {
    HandleMoveBoards(t, m);
  }

  /** On a trimmed state, `handleMove` makes one more move and its current boards are the
      pair it pushed. */
  lemma HandleMoveCurrent(t: Board, m: int)
    requires Trimmed(t)
    ensures var h := HandleMove(t, m);
            && Trimmed(h) && MovesMade(h) == MovesMade(t) + 1
            && h.blackBoards == t.blackBoards + [BlackBoard(h)]
            && h.whiteBoards == t.whiteBoards + [WhiteBoard(h)]
  {
    var h := HandleMove(t, m);
    HandleMoveGrows(t, m);
    HandleMoveLog(t, m);
    MovesOfTurn(h, t.allMoves, m);
    CurrentIsLast(h, t.blackBoards, t.whiteBoards, MovesMade(t));
  }

  /** The last element of a sequence built by pushing `x` is `x`. */
  lemma PushedLast(s: seq<bv64>, h: seq<bv64>, x: bv64, y: bv64)
    requires s == h + [x] && s == h + [y]
    ensures x == y
  {
    assert s[|h|] == x;
  }

  /** On a trimmed state, the current boards after `handleMove` are those of the mover and
      of the opponent after the placed disc `put` and the flipped discs `rev`. */
  lemma HandleMoveAfter(t: Board, m: int, put: bv64, rev: bv64)
    requires Trimmed(t)
    requires put == MoveToBoard(m) && rev == Flips(PlayerBoard(t), OpponentBoard(t), put)
    ensures var h := HandleMove(t, m);
            var p := PlayerBoard(t);
            var o := OpponentBoard(t);
            && Sized(h)
            && BlackBoard(h) == (if IsBlackTurn(t) then PlayerAfter(p, put, rev) else OpponentAfter(o, rev))
            && WhiteBoard(h) == (if IsBlackTurn(t) then OpponentAfter(o, rev) else PlayerAfter(p, put, rev))
  {
    var h := HandleMove(t, m);
    var p := PlayerBoard(t);
    var o := OpponentBoard(t);
    HandleMoveGrows(t, m);
    HandleMoveBoards(t, m);
    PlacePush(t, m);
    HandleMoveLog(t, m);
    MovesOfTurn(h, t.allMoves, m);
    CurrentIsLast(h, t.blackBoards, t.whiteBoards, MovesMade(t));
    var nb := if IsBlackTurn(t) then PlayerAfter(p, put, rev) else OpponentAfter(o, rev);
    var nw := if IsBlackTurn(t) then OpponentAfter(o, rev) else PlayerAfter(p, put, rev);
    PushedLast(h.blackBoards, t.blackBoards, nb, BlackBoard(h));
    PushedLast(h.whiteBoards, t.whiteBoards, nw, WhiteBoard(h));
  }

  /** On disjoint boards, the mover of a legal move `put` gains the placed disc and the
      flipped discs `rev`, and the opponent loses the flipped discs. */
  lemma LegalMoveBoards(p: bv64, o: bv64, put: bv64, rev: bv64)
    requires !Meets(p, o) && Single(put) && Meets(put, LegalBoardOf(p, o))
    requires rev == Flips(p, o, put)
    ensures PlayerAfter(p, put, rev) == (p | put) | rev
    ensures OpponentAfter(o, rev) == o & !rev
    ensures !Meets(PlayerAfter(p, put, rev), OpponentAfter(o, rev))
  {
    LegalMoveFits(p, o, put);
    AfterBoards(p, o, put, rev);
    AfterDisjoint(p, o, put, rev);
  }

  /** A move `canMakeMove` accepts is a cell of the board, one disc on a legal cell. */
  lemma AcceptedCell(b: Board, m: int, put: bv64)
    requires Sized(b) && CanMakeMove(b, m) && put == MoveToBoard(m)
    ensures 0 <= m < 64 && Single(put) && Meets(put, LegalBoardOf(PlayerBoard(b), OpponentBoard(b)))
  {
    MoveToBoardCell(m);
  }

  /** Disjoint black and white boards make disjoint player and opponent boards. */
  lemma SidesApart(b: Board)
    requires Sized(b) && !Meets(BlackBoard(b), WhiteBoard(b))
    ensures !Meets(PlayerBoard(b), OpponentBoard(b))
  {}

  lemma MeetsSymmetric(x: bv64, y: bv64)
    ensures Meets(x, y) <==> Meets(y, x)
  {}

  /** On a trimmed state with disjoint boards, `handleMove` of an accepted move leaves
      disjoint boards. */
  lemma HandleMoveApart(t: Board, m: int)
    requires Trimmed(t) && !Meets(BlackBoard(t), WhiteBoard(t)) && CanMakeMove(t, m)
    ensures Sized(HandleMove(t, m))
    ensures !Meets(BlackBoard(HandleMove(t, m)), WhiteBoard(HandleMove(t, m)))
  {
    var p := PlayerBoard(t);
    var o := OpponentBoard(t);
    var put := MoveToBoard(m);
    var rev := Flips(p, o, put);
    var mine := PlayerAfter(p, put, rev);
    var theirs := OpponentAfter(o, rev);
    assert !Meets(mine, theirs) by {
      AcceptedCell(t, m, put);
      SidesApart(t);
      LegalMoveBoards(p, o, put, rev);
    }
    HandleMoveAfter(t, m, put, rev);
    var h := HandleMove(t, m);
    SidesSwap(BlackBoard(h), WhiteBoard(h), mine, theirs, IsBlackTurn(t));
  }

  /** Black and white are the mover and the opponent in some order, so they are disjoint
      when those are. */
  lemma SidesSwap(black: bv64, white: bv64, mine: bv64, theirs: bv64, blackTurn: bool)
    requires black == (if blackTurn then mine else theirs)
    requires white == (if blackTurn then theirs else mine)
    ensures !Meets(mine, theirs) ==> !Meets(black, white)
  {
    MeetsSymmetric(mine, theirs);
  }

  /** The boards after `makeMove`: the boards up to the turn the move was made in, then
      the current pair. */
  lemma MakeMoveCurrent(b: Board, m: int)
    requires Sized(b) && CanMakeMove(b, m)
    ensures var r := MakeMove(b, m).value;
            && Trimmed(r) && MovesMade(r) == MovesMade(b) + 1
            && r.blackBoards == BlackBoards(b) + [BlackBoard(r)]
            && r.whiteBoards == WhiteBoards(b) + [WhiteBoard(r)]
  {
    TruncateTrimmed(b);
    MakeMoveAccepts(b, m);
    HandleMoveCurrent(Truncate(b), m);
    TruncateKeeps(b);
  }

  /** `makeMove`: the mover's current board gains the placed disc `put` and the discs
      `rev` the move flips, by the engine's exclusive or, and the opponent's loses `rev`. */
  lemma MakeMoveBoards(b: Board, m: int, put: bv64, rev: bv64)
    requires Sized(b) && CanMakeMove(b, m)
    requires put == MoveToBoard(m) && rev == Flips(PlayerBoard(b), OpponentBoard(b), put)
    ensures var r := MakeMove(b, m).value;
            var p := PlayerBoard(b);
            var o := OpponentBoard(b);
            && Sized(r)
            && BlackBoard(r) == (if IsBlackTurn(b) then PlayerAfter(p, put, rev) else OpponentAfter(o, rev))
            && WhiteBoard(r) == (if IsBlackTurn(b) then OpponentAfter(o, rev) else PlayerAfter(p, put, rev))
  {
    TruncateTrimmed(b);
    TruncateKeeps(b);
    MakeMoveAccepts(b, m);
    HandleMoveAfter(Truncate(b), m, put, rev);
  }

  /** `makeMove` on disjoint boards leaves disjoint boards. */
  lemma MakeMoveApart(b: Board, m: int)
    requires Sized(b) && !Meets(BlackBoard(b), WhiteBoard(b)) && CanMakeMove(b, m)
    ensures Sized(MakeMove(b, m).value)
    ensures !Meets(BlackBoard(MakeMove(b, m).value), WhiteBoard(MakeMove(b, m).value))
  {
    TruncateTrimmed(b);
    TruncateKeeps(b);
    MakeMoveAccepts(b, m);
    HandleMoveApart(Truncate(b), m);
  }
}
