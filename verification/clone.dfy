/** The constructor and `clone()` as a whole (Board.ts lines 16-36): a board built by the
    constructor clones to itself, and so does every board reached from it by `makeMove` and
    `undo()`; the current turn of such a board is the replay of its moves made. */
module CloneLaws {
  import opened Bitboard
  import opened History
  import opened Game
  import opened GameLaws
  import opened ReplayLaws

  /** The starting state is trimmed and has made no move. */
  lemma StartTrimmed(black: Option<bv64>, white: Option<bv64>)
    ensures Trimmed(Start(black, white))
    ensures Moves(Start(black, white), false) == [] && Moves(Start(black, white), true) == []
    ensures WellFormedLog(Start(black, white).allMoves)
  {
    StartSized(black, white);
  }

  /** With nothing undone, `moves(true)` and `moves()` agree. */
  lemma FreshMoves(b: Board)
    requires b.undoCount == 0
    ensures Moves(b, true) == Moves(b, false)
  {
    assert Played(b.allMoves)[..|Played(b.allMoves)|] == Played(b.allMoves);
  }

  /** The undo count does not change `moves(true)`. */
  lemma UndoCountKeeps(c: Board, u: nat)
    ensures Moves(c.(undoCount := u), true) == Moves(c, true)
  {}

  /** The constructor makes every move it is given, keeps the given first boards (or the
      default ones) and sets the given undo count. */
  lemma NewBoardMoves(black: Option<bv64>, white: Option<bv64>, ms: seq<int>, u: nat)
    ensures var r := NewBoard(black, white, ms, u);
            r.Success? ==>
              && r.value.undoCount == u && Moves(r.value, true) == ms
              && |r.value.blackBoards| > 0 && |r.value.whiteBoards| > 0
              && r.value.blackBoards[0] == OrElse(black, DEFAULT_BLACK)
              && r.value.whiteBoards[0] == OrElse(white, DEFAULT_WHITE)
  {
    var s := Start(black, white);
    StartTrimmed(black, white);
    ReplayMoves(s, ms);
    ReplayFirst(s, ms);
    if Replay(s, ms).Success? {
      var c := Replay(s, ms).value;
      if |ms| > 0 {
        FreshMoves(c);
      }
      UndoCountKeeps(c, u);
    }
  }

  /** The first boards a board was built from give back the same starting state. */
  lemma StartAgain(black: Option<bv64>, white: Option<bv64>, x: bv64, y: bv64)
    requires x == OrElse(black, DEFAULT_BLACK) && y == OrElse(white, DEFAULT_WHITE)
    ensures Start(Some(x), Some(y)) == Start(black, white)
  {}

  /** A board the constructor builds clones to itself. */
  lemma CloneNewBoard(black: Option<bv64>, white: Option<bv64>, ms: seq<int>, u: nat)
    ensures var r := NewBoard(black, white, ms, u);
            r.Success? ==>
              |r.value.blackBoards| > 0 && |r.value.whiteBoards| > 0 && Clone(r.value) == r
  {
    var r := NewBoard(black, white, ms, u);
    NewBoardMoves(black, white, ms, u);
    if r.Success? {
      StartAgain(black, white, r.value.blackBoards[0], r.value.whiteBoards[0]);
    }
  }

  /** The constructor, given disjoint first boards, builds a valid state. */
  lemma NewBoardValid(black: Option<bv64>, white: Option<bv64>, ms: seq<int>, u: nat)
    requires !Meets(OrElse(black, DEFAULT_BLACK), OrElse(white, DEFAULT_WHITE))
    ensures NewBoard(black, white, ms, u).Success? ==> Valid(NewBoard(black, white, ms, u).value)
  {
    var s := Start(black, white);
    StartTrimmed(black, white);
    assert Apart(s.blackBoards, s.whiteBoards, 0);
    ReplayValid(s, ms);
  }

  /** A board that clones to itself is the replay of its moves from its first boards,
      with its undo count set. */
  lemma CloneShape(b: Board) returns (s: Board, c: Board)
    requires |b.blackBoards| > 0 && |b.whiteBoards| > 0 && Clone(b) == Success(b)
    ensures s == Start(Some(b.blackBoards[0]), Some(b.whiteBoards[0]))
    ensures Trimmed(s) && Replay(s, Moves(b, true)) == Success(c)
    ensures b == c.(undoCount := b.undoCount) && WellFormedLog(c.allMoves)
  {
    s := Start(Some(b.blackBoards[0]), Some(b.whiteBoards[0]));
    StartTrimmed(Some(b.blackBoards[0]), Some(b.whiteBoards[0]));
    c := Replay(s, Moves(b, true)).value;
    ReplayWellFormed(s, Moves(b, true));
  }

  /** A log that does not start with a pass and holds no move is empty. */
  lemma NoMovesEmpty(s: Log, p: Log)
    requires WellFormedLog(s) && p <= s && Played(p) == []
    ensures p == []
  {
    if |p| > 0 {
      assert p[0] == s[0];
      PlayedMembers(p, p[0].value);
    }
  }

  /** Taking back turns of the empty log leaves it empty. */
  lemma {:induction false} RetractEmpty(u: nat)
    ensures Retract([], u) == []
    decreases u
  {
    if u > 0 {
      RetractEmpty(u - 1);
    }
  }

  /** On a well-formed log, taking back as many turns as there are moves, or more, leaves
      nothing. */
  lemma RetractBeyond(s: Log, u: nat)
    requires WellFormedLog(s) && u >= |Played(s)|
    ensures Retract(s, u) == []
  {
    var n := |Played(s)|;
    RetractPlayed(s, n);
    RetractPrefix(s, n);
    NoMovesEmpty(s, Retract(s, n));
    RetractAdd(s, n, u - n);
    RetractEmpty(u - n);
  }

  /** On a well-formed log, undoing more turns than there are moves shows the same current
      turn as undoing all of them. */
  lemma TruncateBeyond(c: Board, u: nat, n: nat)
    requires WellFormedLog(c.allMoves) && |c.blackBoards| > 0 && |c.whiteBoards| > 0
    requires n == |Played(c.allMoves)| && u >= n
    ensures Truncate(c.(undoCount := u)) == Truncate(c.(undoCount := n))
  {
    var x := c.(undoCount := u);
    var y := c.(undoCount := n);
    RetractBeyond(c.allMoves, u);
    RetractBeyond(c.allMoves, n);
    MovesMadeLog(x);
    MovesMadeLog(y);
    SameTurn(x, y);
  }

  /** The moves made are all the moves but the last `u` undone ones, none once `u` reaches
      their number. */
  lemma MovesMadePrefix(b: Board, v: nat)
    requires v == if b.undoCount <= |Moves(b, true)| then b.undoCount else |Moves(b, true)|
    ensures Moves(b, false) == Moves(b, true)[..|Moves(b, true)| - v]
  {}

  /** Undoing as many turns as a board, clamped at its number of moves, shows the board's
      current turn. */
  lemma UndoClamped(b: Board, c: Board, v: nat)
    requires |b.blackBoards| > 0 && |b.whiteBoards| > 0 && WellFormedLog(c.allMoves)
    requires b == c.(undoCount := b.undoCount)
    requires v == if b.undoCount <= |Moves(b, true)| then b.undoCount else |Moves(b, true)|
    ensures Truncate(c.(undoCount := v)) == Truncate(b)
  {
    var u := b.undoCount;
    if u > v {
      UndoCountKeeps(c, u);
      TruncateBeyond(c, u, v);
    }
  }

  /** A board whose undo count is set on the replay `c` of all its moves from `s` has its
      current turn at the replay of its moves made. */
  lemma ReplayMovesMade(b: Board, s: Board, c: Board)
    requires |b.blackBoards| > 0 && |b.whiteBoards| > 0
    requires Trimmed(s) && Replay(s, Moves(b, true)) == Success(c)
    requires b == c.(undoCount := b.undoCount) && WellFormedLog(c.allMoves)
    ensures Replay(s, Moves(b, false)) == Success(Truncate(b))
  {
    var ms := Moves(b, true);
    var v := if b.undoCount <= |ms| then b.undoCount else |ms|;
    MovesMadePrefix(b, v);
    ReplayUndone(s, ms, c, v);
    UndoClamped(b, c, v);
  }

  /** The current turn of a board that clones to itself is the replay of its moves made
      from its first boards: `undo()` is replaying fewer moves. */
  lemma CurrentReplay(b: Board)
    requires |b.blackBoards| > 0 && |b.whiteBoards| > 0 && Clone(b) == Success(b)
    ensures Replay(Start(Some(b.blackBoards[0]), Some(b.whiteBoards[0])), Moves(b, false))
            == Success(Truncate(b))
  {
    var s, c := CloneShape(b);
    ReplayMovesMade(b, s, c);
  }

  /** On the truncated state `makeMove` does what it does on the state itself. */
  lemma MakeMoveTruncated(b: Board, m: int)
    requires Sized(b)
    ensures Sized(Truncate(b)) && MakeMove(Truncate(b), m) == MakeMove(b, m)
  {
    TruncateKeeps(b);
    TruncateTrimmed(b);
    MakeMoveTrimmed(Truncate(b), m);
  }

  /** On a board that clones to itself, `makeMove` is the replay of the moves made and the
      new move. */
  lemma MakeMoveReplays(b: Board, m: int)
    requires Sized(b) && Clone(b) == Success(b)
    ensures Replay(Start(Some(b.blackBoards[0]), Some(b.whiteBoards[0])), Moves(b, false) + [m])
            == MakeMove(b, m)
  {
    var s := Start(Some(b.blackBoards[0]), Some(b.whiteBoards[0]));
    StartTrimmed(Some(b.blackBoards[0]), Some(b.whiteBoards[0]));
    CurrentReplay(b);
    MakeMoveTruncated(b, m);
    ReplaySnoc(s, Moves(b, false), m);
  }

  /** A board reached by replaying its own moves from its own first boards, with nothing
      undone, clones to itself. */
  lemma CloneReplayed(r: Board, s: Board, ms: seq<int>)
    requires |r.blackBoards| > 0 && |r.whiteBoards| > 0 && r.undoCount == 0
    requires s == Start(Some(r.blackBoards[0]), Some(r.whiteBoards[0]))
    requires Moves(r, true) == ms && Replay(s, ms) == Success(r)
    ensures Clone(r) == Success(r)
  {
    NoneUndone(r, 0);
  }

  /** A move made on a board that clones to itself leaves a board that clones to itself. */
  lemma CloneMakeMove(b: Board, m: int)
    requires Sized(b) && CanMakeMove(b, m) && Clone(b) == Success(b)
    ensures var r := MakeMove(b, m).value;
            |r.blackBoards| > 0 && |r.whiteBoards| > 0 && Clone(r) == Success(r)
  {
    var r := MakeMove(b, m).value;
    var s := Start(Some(b.blackBoards[0]), Some(b.whiteBoards[0]));
    var ms := Moves(b, false) + [m];
    StartTrimmed(Some(b.blackBoards[0]), Some(b.whiteBoards[0]));
    MakeMoveReplays(b, m);
    MakeMoveFirst(b, m);
    ReplayMoves(s, ms);
    FreshMoves(r);
    CloneReplayed(r, s, ms);
  }

  /** An undo on a board that clones to itself leaves a board that clones to itself. */
  lemma CloneUndo(b: Board)
    requires |b.blackBoards| > 0 && |b.whiteBoards| > 0 && Clone(b) == Success(b)
    ensures Clone(Undo(b)) == Success(Undo(b))
  {
    var s, c := CloneShape(b);
    UndoCountKeeps(b, b.undoCount + 1);
  }
}
