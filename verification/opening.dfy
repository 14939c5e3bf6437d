/** The opening position of the engine's defaults (Board.ts lines 16-27): the four cells
    black may play, and the boards after black's first move on cell 19. */
module Opening {
  import opened Bitboard
  import opened Directions
  import opened Legal
  import opened Flipping

  /** Black's disc on cell 19. */
  const PUT: bv64 := 0x8_0000

  /** The boards of black and white after black's move on cell 19. */
  const B1: bv64 := 0x0000_0008_1808_0000
  const W1: bv64 := 0x0000_0010_0000_0000

  /** The union of eight boards, spelled out. */
  lemma UnionOfEight(bs: seq<bv64>)
    requires |bs| == 8
    ensures UnionOf(bs) == Union(Union(Union(Union(Union(Union(Union(Union(0,
              bs[0]), bs[1]), bs[2]), bs[3]), bs[4]), bs[5]), bs[6]), bs[7])
  {
    assert bs[..0] == [];
    UnionOfSnoc(bs, 0); UnionOfSnoc(bs, 1); UnionOfSnoc(bs, 2); UnionOfSnoc(bs, 3);
    UnionOfSnoc(bs, 4); UnionOfSnoc(bs, 5); UnionOfSnoc(bs, 6); UnionOfSnoc(bs, 7);
    assert bs[..8] == bs;
  }

  /** The union of black's passes at the opening. */
  lemma OpeningUnion(ps: seq<bv64>)
    requires ps == [0x20_0000_0000, 0x400_0000, 0x1000_0000_0000, 0x8_0000, 0, 0, 0, 0]
    ensures UnionOf(ps) == 0x0000_1020_0408_0000
  {
    UnionOfEight(ps);
  }

  /** The passes of `legalBoardOf` for black at the opening: the west, east, north and
      south passes each find one cell, the diagonal ones none. Every flood stops at its
      first line. */
  lemma OpeningPasses(p: bv64, o: bv64)
    requires p == DEFAULT_BLACK && o == DEFAULT_WHITE
    ensures Passes(p, o) == [0x20_0000_0000, 0x400_0000, 0x1000_0000_0000, 0x8_0000, 0, 0, 0, 0]
  {
    PassSettles(W, p, o, 0x10_0000_0000);
    PassSettles(E, p, o, 0x800_0000);
    PassSettles(N, p, o, 0x10_0000_0000);
    PassSettles(S, p, o, 0x800_0000);
    PassSettles(NE, p, o, 0);
    PassSettles(NW, p, o, 0);
    PassSettles(SE, p, o, 0);
    PassSettles(SW, p, o, 0);
  }

  /** Black's legal board at the opening is the board of the cells 19, 26, 37 and 44. */
  lemma OpeningLegal(p: bv64, o: bv64)
    requires p == DEFAULT_BLACK && o == DEFAULT_WHITE
    ensures LegalBoardOf(p, o) == 0x0000_1020_0408_0000
  {
    OpeningPasses(p, o);
    OpeningUnion(Passes(p, o));
  }

  lemma ReplyCell(x: bv64)
    requires x == 0x4_0014_0000
    ensures Has(x, 34)
  {}

  lemma LegalCellsOf(x: bv64)
    requires x == 0x0000_1020_0408_0000
    ensures Has(x, 19) && Has(x, 26) && Has(x, 37) && Has(x, 44)
  {}

  /* The eight walks of `handleMove` for black's move on cell 19. */

  lemma FirstMoveS()
    ensures DirFlips(S, DEFAULT_BLACK, DEFAULT_WHITE, PUT) == 0x800_0000
  {
    assert Step(PUT, S) == 0x800_0000;
    assert Walk(S, DEFAULT_WHITE, 0x8_0000_0000, 6, 0x800_0000) == Trail(0x800_0000, 0x8_0000_0000);
    assert Walk(S, DEFAULT_WHITE, 0x800_0000, 7, 0) == Trail(0x800_0000, 0x8_0000_0000);
  }

  lemma FirstMoveSW()
    ensures DirFlips(SW, DEFAULT_BLACK, DEFAULT_WHITE, PUT) == 0
  {
    assert Step(PUT, SW) == 0x400_0000;
    assert Walk(SW, DEFAULT_WHITE, 0x400_0000, 7, 0) == Trail(0, 0x400_0000);
  }

  lemma FirstMoveW()
    ensures DirFlips(W, DEFAULT_BLACK, DEFAULT_WHITE, PUT) == 0
  {
    assert Step(PUT, W) == 0x4_0000;
    assert Walk(W, DEFAULT_WHITE, 0x4_0000, 7, 0) == Trail(0, 0x4_0000);
  }

  lemma FirstMoveNW()
    ensures DirFlips(NW, DEFAULT_BLACK, DEFAULT_WHITE, PUT) == 0
  {
    assert Step(PUT, NW) == 0x400;
    assert Walk(NW, DEFAULT_WHITE, 0x400, 7, 0) == Trail(0, 0x400);
  }

  lemma FirstMoveN()
    ensures DirFlips(N, DEFAULT_BLACK, DEFAULT_WHITE, PUT) == 0
  {
    assert Step(PUT, N) == 0x800;
    assert Walk(N, DEFAULT_WHITE, 0x800, 7, 0) == Trail(0, 0x800);
  }

  lemma FirstMoveNE()
    ensures DirFlips(NE, DEFAULT_BLACK, DEFAULT_WHITE, PUT) == 0
  {
    assert Step(PUT, NE) == 0x1000;
    assert Walk(NE, DEFAULT_WHITE, 0x1000, 7, 0) == Trail(0, 0x1000);
  }

  lemma FirstMoveE()
    ensures DirFlips(E, DEFAULT_BLACK, DEFAULT_WHITE, PUT) == 0
  {
    assert Step(PUT, E) == 0x10_0000;
    assert Walk(E, DEFAULT_WHITE, 0x10_0000, 7, 0) == Trail(0, 0x10_0000);
  }

  lemma FirstMoveSE()
    ensures DirFlips(SE, DEFAULT_BLACK, DEFAULT_WHITE, PUT) == 0
  {
    assert Step(PUT, SE) == 0x1000_0000;
    assert Walk(SE, DEFAULT_WHITE, 0x1000_0000, 7, 0) == Trail(0, 0x1000_0000);
  }

  /** The runs of the eight directions, in the order of `transfer`. */
  lemma DirRunsAt(p: bv64, o: bv64, put: bv64)
    ensures DirRuns(p, o, put)[0] == DirFlips(S, p, o, put)
    ensures DirRuns(p, o, put)[1] == DirFlips(SW, p, o, put)
    ensures DirRuns(p, o, put)[2] == DirFlips(W, p, o, put)
    ensures DirRuns(p, o, put)[3] == DirFlips(NW, p, o, put)
    ensures DirRuns(p, o, put)[4] == DirFlips(N, p, o, put)
    ensures DirRuns(p, o, put)[5] == DirFlips(NE, p, o, put)
    ensures DirRuns(p, o, put)[6] == DirFlips(E, p, o, put)
    ensures DirRuns(p, o, put)[7] == DirFlips(SE, p, o, put)
  {
    assert Dirs[0] == S;
    assert Dirs[1] == SW;
    assert Dirs[2] == W;
    assert Dirs[3] == NW;
    assert Dirs[4] == N;
    assert Dirs[5] == NE;
    assert Dirs[6] == E;
    assert Dirs[7] == SE;
  }

  /** Black's move on cell 19 at the opening flips the white disc on cell 27 only. */
  lemma FirstMoveFlips()
    ensures Flips(DEFAULT_BLACK, DEFAULT_WHITE, PUT) == 0x800_0000
  {
    FirstMoveS(); FirstMoveSW(); FirstMoveW(); FirstMoveNW();
    FirstMoveN(); FirstMoveNE(); FirstMoveE(); FirstMoveSE();
    DirRunsAt(DEFAULT_BLACK, DEFAULT_WHITE, PUT);
    UnionOfEight(DirRuns(DEFAULT_BLACK, DEFAULT_WHITE, PUT));
  }

  /** The disc placed is the board of cell 19. */
  lemma FirstMoveCell()
    ensures PUT == MoveToBoard(19)
  {}

  /** After black's move on cell 19 at the opening, black holds 0x0000000818080000 and
      white 0x0000001000000000. */
  lemma FirstMoveBoards()
    ensures PlayerAfter(DEFAULT_BLACK, PUT, Flips(DEFAULT_BLACK, DEFAULT_WHITE, PUT)) == B1
    ensures OpponentAfter(DEFAULT_WHITE, Flips(DEFAULT_BLACK, DEFAULT_WHITE, PUT)) == W1
  {
    FirstMoveFlips();
  }

  /** The union of white's passes after black's move on cell 19. */
  lemma ReplyUnion(ps: seq<bv64>)
    requires ps == [0, 0x4_0000_0000, 0, 0x10_0000, 0, 0, 0x4_0000, 0]
    ensures UnionOf(ps) == 0x4_0014_0000
  {
    UnionOfEight(ps);
  }

  /** The passes of `legalBoardOf` for white after black's move on cell 19. */
  lemma ReplyPasses(p: bv64, o: bv64)
    requires p == W1 && o == B1
    ensures Passes(p, o) == [0, 0x4_0000_0000, 0, 0x10_0000, 0, 0, 0x4_0000, 0]
  {
    PassSettles(W, p, o, 0);
    PassSettles(E, p, o, 0x8_0000_0000);
    PassSettles(N, p, o, 0);
    PassSettles(S, p, o, 0x1000_0000);
    PassSettles(NE, p, o, 0);
    PassSettles(NW, p, o, 0);
    PassSettles(SE, p, o, 0x800_0000);
    PassSettles(SW, p, o, 0);
  }

  /** After black's move on cell 19, white may play on the cells 18, 20 and 34. */
  lemma ReplyLegal(p: bv64, o: bv64)
    requires p == W1 && o == B1
    ensures LegalBoardOf(p, o) == 0x4_0014_0000
  {
    ReplyPasses(p, o);
    ReplyUnion(Passes(p, o));
  }
}

/** The engine's default game: black to move from the default boards, and the state after
    black's first move on cell 19. */
module OpeningGame {
  import opened Bitboard
  import opened Legal
  import opened History
  import opened Game
  import opened GameLaws
  import opened Opening

  /** The default game starts trimmed, with no move made, black to move against white,
      and the game not over. */
  lemma OpeningState(s: Board)
    requires s == Start(None, None)
    ensures Trimmed(s) && MovesMade(s) == 0 && IsBlackTurn(s) && !IsOver(s)
    ensures PlayerBoard(s) == DEFAULT_BLACK && OpponentBoard(s) == DEFAULT_WHITE
  {
    StartSized(None, None);
  }

  /** Black, to move on the default boards, may play on the cells 19, 26, 37 and 44 and
      nowhere else. */
  lemma OpeningLegalBoard(s: Board)
    requires Sized(s) && PlayerBoard(s) == DEFAULT_BLACK && OpponentBoard(s) == DEFAULT_WHITE
    ensures LegalBoard(s) == 0x0000_1020_0408_0000
  {
    OpeningLegal(PlayerBoard(s), OpponentBoard(s));
  }

  /** On that legal board black can make the moves 19, 26, 37 and 44. */
  lemma OpeningMoves(s: Board)
    requires Sized(s) && LegalBoard(s) == 0x0000_1020_0408_0000
    ensures CanMakeMove(s, 19) && CanMakeMove(s, 26) && CanMakeMove(s, 37) && CanMakeMove(s, 44)
  {
    LegalCellsOf(LegalBoard(s));
  }

  /** The state after black's move on cell 19: the pushed boards and the logged move. */
  const AFTER_FIRST: Board := Board([DEFAULT_BLACK, B1], [DEFAULT_WHITE, W1], [Some(19)], 0)

  /** Placing black's disc on cell 19 in the default game flips the disc on cell 27 and
      logs the move. */
  lemma FirstPlace(s: Board)
    requires s == Start(None, None)
    ensures Sized(s) && s.undoCount == 0 && Place(s, 19) == AFTER_FIRST
  {
    OpeningState(s);
    FirstMoveCell();
    FirstMoveBoards();
  }

  /** After black's move on cell 19 one move is made and it is white's turn. */
  lemma FirstTurn(p: Board)
    requires p == AFTER_FIRST
    ensures Sized(p) && p.undoCount == 0 && MovesMade(p) == 1 && !IsBlackTurn(p)
    ensures PlayerBoard(p) == W1 && OpponentBoard(p) == B1
  {
    assert Played(p.allMoves) == [19];
  }

  /** White, to move on the boards after black's move on cell 19, may play on the cells 18,
      20 and 34. */
  lemma FirstReply(p: Board)
    requires Sized(p) && PlayerBoard(p) == W1 && OpponentBoard(p) == B1
    ensures LegalBoard(p) == 0x4_0014_0000 && 34 in LegalMoves(p)
  {
    ReplyLegal(PlayerBoard(p), OpponentBoard(p));
    ReplyCell(LegalBoard(p));
  }

  /** After black's move on cell 19 white has a move: no pass is logged. */
  lemma FirstSettle(p: Board)
    requires p == AFTER_FIRST
    ensures Sized(p) && p.undoCount == 0 && Settle(p) == p
  {
    FirstTurn(p);
    FirstReply(p);
    SettleKeeps(p);
  }

  /** `handleMove(19)` in the default game places the disc and logs no pass. */
  lemma FirstHandle(s: Board)
    requires s == Start(None, None)
    ensures Sized(s) && s.undoCount == 0 && HandleMove(s, 19) == AFTER_FIRST
  {
    FirstPlace(s);
    FirstSettle(AFTER_FIRST);
  }

  /** Black's move on cell 19 in the default game flips the disc on cell 27, logs the
      move and hands the turn to white, who has a move. */
  lemma FirstMove(s: Board)
    requires s == Start(None, None)
    ensures Sized(s) && MakeMove(s, 19) == Success(AFTER_FIRST)
  {
    OpeningState(s);
    OpeningLegalBoard(s);
    OpeningMoves(s);
    FirstHandle(s);
    MakeMoveTrimmed(s, 19);
  }
}
