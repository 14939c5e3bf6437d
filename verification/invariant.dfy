/** The state invariant `Valid` of the game and the disc counts of a move: `makeMove` keeps
    one board pair per move, disjoint boards, moves on the board and a well-formed log, and
    a legal move adds one disc and turns at least one of the opponent's. */
module GameInvariant {
  import opened Bitboard
  import opened Legal
  import opened Flipping
  import opened Rules
  import opened History
  import opened Game
  import opened GameLaws

  /** A legal move flips at least one disc. */
  lemma LegalMoveFlipsSome(p: bv64, o: bv64, put: bv64, rev: bv64)
    requires !Meets(p, o) && Single(put) && Meets(put, LegalBoardOf(p, o))
    requires rev == Flips(p, o, put)
    ensures rev != 0 && PopCount(rev) > 0
  {
    LegalFlips(p, o, put);
    PopCountPositive(rev);
  }

  /** A legal move of `p` against `o`, on disjoint boards, flips at least one disc; the
      mover gains the placed disc and the flipped ones, the opponent loses the flipped
      ones, and the board holds one disc more. */
  lemma LegalMoveCounts(p: bv64, o: bv64, put: bv64, rev: bv64)
    requires !Meets(p, o) && Single(put) && Meets(put, LegalBoardOf(p, o))
    requires rev == Flips(p, o, put)
    ensures PopCount(rev) > 0
    ensures PopCount(PlayerAfter(p, put, rev)) == PopCount(p) + 1 + PopCount(rev)
    ensures PopCount(OpponentAfter(o, rev)) == PopCount(o) - PopCount(rev)
    ensures PopCount(PlayerAfter(p, put, rev)) + PopCount(OpponentAfter(o, rev))
            == PopCount(p) + PopCount(o) + 1
  {
    LegalMoveFits(p, o, put);
    AfterCountPlayer(p, o, put, rev);
    AfterCountOpponent(p, o, put, rev);
    PopCountSingle(put);
    LegalMoveFlipsSome(p, o, put, rev);
  }

  /** On a trimmed state with disjoint boards, a move adds one disc to the board: the
      mover gains at least two (the placed disc and a flipped one) and the opponent loses
      at least one. */
  lemma HandleMoveCounts(t: Board, m: int)
    requires Trimmed(t) && !Meets(BlackBoard(t), WhiteBoard(t)) && CanMakeMove(t, m)
    ensures var h := HandleMove(t, m);
            && Sized(h)
            && PopCount(BlackBoard(h)) + PopCount(WhiteBoard(h))
               == PopCount(BlackBoard(t)) + PopCount(WhiteBoard(t)) + 1
            && (if IsBlackTurn(t)
                then PopCount(BlackBoard(h)) >= PopCount(BlackBoard(t)) + 2
                     && PopCount(WhiteBoard(h)) < PopCount(WhiteBoard(t))
                else PopCount(WhiteBoard(h)) >= PopCount(WhiteBoard(t)) + 2
                     && PopCount(BlackBoard(h)) < PopCount(BlackBoard(t)))
  {
    var p := PlayerBoard(t);
    var o := OpponentBoard(t);
    var put := MoveToBoard(m);
    var rev := Flips(p, o, put);
    HandleMoveAfter(t, m, put, rev);
    AcceptedCell(t, m, put);
    SidesApart(t);
    LegalMoveCounts(p, o, put, rev);
  }

  /** `makeMove` on disjoint boards adds one disc to the board: the mover gains at least
      two discs and the opponent loses at least one. */
  lemma MakeMoveCounts(b: Board, m: int)
    requires Sized(b) && !Meets(BlackBoard(b), WhiteBoard(b)) && CanMakeMove(b, m)
    ensures var r := MakeMove(b, m).value;
            && Sized(r)
            && PopCount(BlackBoard(r)) + PopCount(WhiteBoard(r))
               == PopCount(BlackBoard(b)) + PopCount(WhiteBoard(b)) + 1
            && (if IsBlackTurn(b)
                then PopCount(BlackBoard(r)) >= PopCount(BlackBoard(b)) + 2
                     && PopCount(WhiteBoard(r)) < PopCount(WhiteBoard(b))
                else PopCount(WhiteBoard(r)) >= PopCount(WhiteBoard(b)) + 2
                     && PopCount(BlackBoard(r)) < PopCount(BlackBoard(b)))
  {
    TruncateTrimmed(b);
    TruncateKeeps(b);
    MakeMoveAccepts(b, m);
    HandleMoveCounts(Truncate(b), m);
  }

  /** A valid state has disjoint current boards. */
  lemma ValidCurrent(b: Board)
    requires Valid(b)
    ensures Sized(b) && !Meets(BlackBoard(b), WhiteBoard(b))
  {
    ValidSized(b);
    assert Apart(b.blackBoards, b.whiteBoards, MovesMade(b));
  }

  /** Keeping the first `k` turns keeps them disjoint. */
  lemma AllApartPrefix(black: seq<bv64>, white: seq<bv64>, k: nat)
    requires |black| == |white| && k <= |black| && AllApart(black, white)
    ensures AllApart(black[..k], white[..k])
  {
    forall i | 0 <= i < k
      ensures Apart(black[..k], white[..k], i)
    {
      assert Apart(black, white, i);
    }
  }

  /** Pushing a disjoint pair keeps every turn disjoint. */
  lemma AllApartPushed(black: seq<bv64>, white: seq<bv64>, x: bv64, y: bv64)
    requires |black| == |white| && AllApart(black, white) && !Meets(x, y)
    ensures AllApart(black + [x], white + [y])
  {
    forall i | 0 <= i < |black| + 1
      ensures Apart(black + [x], white + [y], i)
    {
      if i < |black| {
        assert Apart(black, white, i);
      }
    }
  }

  /** Taking back turns keeps the moves on the board. */
  lemma RetractOnBoard(s: Log, u: nat)
    requires LogOnBoard(s)
    ensures LogOnBoard(Retract(s, u))
  {
    RetractPlayed(s, u);
    var n := |Played(s)|;
    forall x | x in Played(Retract(s, u))
      ensures OnBoard(x)
    {
      assert x in Played(s);
    }
  }

  /** A turn of a move on the board keeps the moves on the board. */
  lemma TurnOnBoard(s: Log, a: Log, m: int)
    requires LogOnBoard(a) && LoggedTurn(s, a, m) && 0 <= m < 64
    ensures LogOnBoard(s)
  {
    LoggedTurnPlayed(s, a, m);
    forall x | x in Played(s)
      ensures OnBoard(x)
    {
      if x != m {
        assert x in Played(a);
      }
    }
  }

  /** After `makeMove` there is one board pair per move of the log and the starting
      pair. */
  lemma MakeMoveLengths(b: Board, m: int)
    requires Sized(b) && CanMakeMove(b, m)
    ensures var r := MakeMove(b, m).value;
            && |r.blackBoards| == |Played(r.allMoves)| + 1
            && |r.whiteBoards| == |Played(r.allMoves)| + 1
  {
    var r := MakeMove(b, m).value;
    TruncateKeeps(b);
    MakeMoveCurrent(b, m);
    MovesMadeLog(r);
  }

  /** `makeMove` keeps every pair of boards disjoint. */
  lemma MakeMoveAllApart(b: Board, m: int)
    requires Sized(b) && CanMakeMove(b, m)
    requires |b.blackBoards| == |b.whiteBoards| && AllApart(b.blackBoards, b.whiteBoards)
    ensures var r := MakeMove(b, m).value;
            |r.blackBoards| == |r.whiteBoards| && AllApart(r.blackBoards, r.whiteBoards)
  {
    var r := MakeMove(b, m).value;
    var k := MovesMade(b) + 1;
    assert Apart(b.blackBoards, b.whiteBoards, MovesMade(b));
    CurrentPrefix(b);
    MakeMoveCurrent(b, m);
    MakeMoveApart(b, m);
    AllApartPrefix(b.blackBoards, b.whiteBoards, k);
    AllApartPushed(b.blackBoards[..k], b.whiteBoards[..k], BlackBoard(r), WhiteBoard(r));
  }

  /** `makeMove` keeps the moves of the log on the board. */
  lemma MakeMoveOnBoard(b: Board, m: int)
    requires Sized(b) && CanMakeMove(b, m) && LogOnBoard(b.allMoves)
    ensures LogOnBoard(MakeMove(b, m).value.allMoves)
  {
    CanMakeMoveIsLegal(b, m);
    MakeMoveLog(b, m);
    RetractOnBoard(b.allMoves, b.undoCount);
    TurnOnBoard(MakeMove(b, m).value.allMoves, AllMoves(b, false), m);
  }

  /** `makeMove` keeps the log free of a leading pass and of three passes in a row. */
  lemma MakeMoveWellFormed(b: Board, m: int)
    requires Sized(b) && CanMakeMove(b, m) && WellFormedLog(b.allMoves)
    ensures WellFormedLog(MakeMove(b, m).value.allMoves)
  {
    var a := AllMoves(b, false);
    MakeMoveLog(b, m);
    RetractPrefix(b.allMoves, b.undoCount);
    WellFormedPrefix(a, b.allMoves);
    WellFormedTurn(MakeMove(b, m).value.allMoves, a, m);
  }

  /** `makeMove` keeps a valid state valid. */
  lemma MakeMoveValid(b: Board, m: int)
    requires Valid(b) && CanMakeMove(b, m)
    ensures Valid(MakeMove(b, m).value)
  {
    ValidSized(b);
    MakeMoveLengths(b, m);
    MakeMoveAllApart(b, m);
    MakeMoveOnBoard(b, m);
    MakeMoveWellFormed(b, m);
  }
}
