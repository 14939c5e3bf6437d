/** The constructor and `clone()` (Board.ts lines 16-36): the constructor replays its moves
    with `makeMove` from the starting boards and then sets the undo count, and `clone()`
    builds a new board from the first boards, every move and the undo count. */
module ReplayLaws {
  import opened Bitboard
  import opened History
  import opened Game
  import opened GameLaws
  import opened GameInvariant

  /** `handleMove` keeps the first boards. */
  lemma HandleMoveFirst(t: Board, m: int)
    requires Sized(t) && t.undoCount == 0
    ensures HandleMove(t, m).blackBoards[0] == t.blackBoards[0]
    ensures HandleMove(t, m).whiteBoards[0] == t.whiteBoards[0]
  {
    var h := HandleMove(t, m);
    HandleMoveGrows(t, m);
    assert h.blackBoards[..|t.blackBoards|][0] == t.blackBoards[0];
    assert h.whiteBoards[..|t.whiteBoards|][0] == t.whiteBoards[0];
  }

  /** `makeMove` keeps the first boards. */
  lemma MakeMoveFirst(b: Board, m: int)
    requires Sized(b) && CanMakeMove(b, m)
    ensures MakeMove(b, m).value.blackBoards[0] == b.blackBoards[0]
    ensures MakeMove(b, m).value.whiteBoards[0] == b.whiteBoards[0]
  {
    var t := Truncate(b);
    MakeMoveAccepts(b, m);
    HandleMoveFirst(t, m);
    CurrentPrefix(b);
  }

  lemma AppendFirst(a: seq<int>, ms: seq<int>)
    requires |ms| > 0
    ensures a + [ms[0]] + ms[1..] == a + ms
  {
    assert [ms[0]] + ms[1..] == ms;
  }

  /** Replaying moves makes them one after the other: the moves made grow by the replayed
      moves, nothing is left undone once a move is made, and the first boards stay. */
  lemma {:induction false} ReplayMoves(b: Board, ms: seq<int>)
    requires Sized(b)
    ensures var r := Replay(b, ms);
            r.Success? ==>
              && Moves(r.value, false) == Moves(b, false) + ms
              && MovesMade(r.value) == MovesMade(b) + |ms|
              && (|ms| > 0 ==> r.value.undoCount == 0)
    decreases |ms|
  {
    if |ms| > 0 && MakeMove(b, ms[0]).Success? {
      var b1 := MakeMove(b, ms[0]).value;
      MakeMoveMoves(b, ms[0]);
      ReplayMoves(b1, ms[1..]);
      AppendFirst(Moves(b, false), ms);
    }
  }

  /** Replaying keeps the first boards. */
  lemma {:induction false} ReplayFirst(b: Board, ms: seq<int>)
    requires Sized(b)
    ensures var r := Replay(b, ms);
            r.Success? ==>
              r.value.blackBoards[0] == b.blackBoards[0] && r.value.whiteBoards[0] == b.whiteBoards[0]
    decreases |ms|
  {
    if |ms| > 0 && MakeMove(b, ms[0]).Success? {
      MakeMoveFirst(b, ms[0]);
      ReplayFirst(MakeMove(b, ms[0]).value, ms[1..]);
    }
  }

  /** Replaying keeps a valid state valid. */
  lemma {:induction false} ReplayValid(b: Board, ms: seq<int>)
    requires Valid(b)
    ensures Sized(b)
    ensures Replay(b, ms).Success? ==> Valid(Replay(b, ms).value)
    decreases |ms|
  {
    ValidSized(b);
    if |ms| > 0 && MakeMove(b, ms[0]).Success? {
      MakeMoveValid(b, ms[0]);
      ReplayValid(MakeMove(b, ms[0]).value, ms[1..]);
    }
  }

  /** Replaying one more move is replaying the others, then making it: the constructor's
      loop is a fold of `makeMove`. */
  lemma {:induction false} ReplaySnoc(b: Board, ms: seq<int>, m: int)
    requires Sized(b)
    ensures Replay(b, ms + [m])
            == match Replay(b, ms)
               case Failure => Failure
               case Success(c) => MakeMove(c, m)
    decreases |ms|
  {
    if |ms| > 0 {
      assert (ms + [m])[0] == ms[0] && (ms + [m])[1..] == ms[1..] + [m];
      if MakeMove(b, ms[0]).Success? {
        ReplaySnoc(MakeMove(b, ms[0]).value, ms[1..], m);
      }
    }
  }

  /** Replaying keeps the log well formed. */
  lemma {:induction false} ReplayWellFormed(b: Board, ms: seq<int>)
    requires Sized(b) && WellFormedLog(b.allMoves)
    ensures Replay(b, ms).Success? ==> WellFormedLog(Replay(b, ms).value.allMoves)
    decreases |ms|
  {
    if |ms| > 0 && MakeMove(b, ms[0]).Success? {
      MakeMoveWellFormed(b, ms[0]);
      ReplayWellFormed(MakeMove(b, ms[0]).value, ms[1..]);
    }
  }

  /** Replaying from a trimmed state leaves a trimmed state. */
  lemma {:induction false} ReplayTrimmed(b: Board, ms: seq<int>)
    requires Trimmed(b)
    ensures Replay(b, ms).Success? ==> Trimmed(Replay(b, ms).value)
    decreases |ms|
  {
    if |ms| > 0 && MakeMove(b, ms[0]).Success? {
      MakeMoveCurrent(b, ms[0]);
      ReplayTrimmed(MakeMove(b, ms[0]).value, ms[1..]);
    }
  }

  /** Slicing inside a prefix ignores what follows it. */
  lemma SlicePrefix<T>(s: seq<T>, p: seq<T>, end: int)
    requires p <= s && 0 <= end <= |p|
    ensures Slice(s, end) == Slice(p, end)
  {}

  /** Taking back `u > 0` turns takes back the last turn and `v = u - 1` before it. */
  lemma RetractDrop(s: Log, u: nat, v: nat)
    requires v == u - 1
    ensures Retract(s, u) == Retract(DropTurn(s), v)
  {
    RetractShift(s, v);
  }

  /** A state `h` whose log is a logged turn on top of the trimmed state `t`, and whose
      boards extend those of `t`, has with `j` turns undone the current turn of `t` with
      `i = j - 1` turns undone. */
  lemma TurnUndone(h: Board, t: Board, m: int, j: nat, i: nat)
    requires Trimmed(t) && LoggedTurn(h.allMoves, t.allMoves, m) && i == j - 1
    requires t.blackBoards <= h.blackBoards && t.whiteBoards <= h.whiteBoards
    ensures Truncate(h.(undoCount := j)) == Truncate(t.(undoCount := i))
  {
    var x := h.(undoCount := j);
    var y := t.(undoCount := i);
    LoggedTurnPlayed(h.allMoves, t.allMoves, m);
    RetractDrop(h.allMoves, j, i);
    MovesMadeFresh(t);
    MovesMadeLog(x);
    MovesMadeLog(y);
    SameTurn(x, y);
  }

  /** On a trimmed state, `handleMove` with `j` turns undone has the current turn of the
      state with `i = j - 1` turns undone. */
  lemma HandleMoveUndone(t: Board, m: int, j: nat, i: nat)
    requires Trimmed(t) && i == j - 1
    ensures Truncate(HandleMove(t, m).(undoCount := j)) == Truncate(t.(undoCount := i))
  {
    HandleMoveLog(t, m);
    HandleMoveGrows(t, m);
    TurnUndone(HandleMove(t, m), t, m, j, i);
  }

  /** Two states whose boards agree up to the current turn of the first, with the same log
      and the same moves made, have the same current turn. */
  lemma SameTurn(x: Board, y: Board)
    requires y.blackBoards <= x.blackBoards && y.whiteBoards <= x.whiteBoards
    requires AllMoves(x, false) == AllMoves(y, false) && MovesMade(x) == MovesMade(y)
    requires MovesMade(x) < |y.blackBoards| && MovesMade(x) < |y.whiteBoards|
    ensures Truncate(x) == Truncate(y)
  {
    SlicePrefix(x.blackBoards, y.blackBoards, MovesMade(x) + 1);
    SlicePrefix(x.whiteBoards, y.whiteBoards, MovesMade(x) + 1);
  }

  /** On a trimmed state, a move `makeMove` accepts is the move `handleMove` makes. */
  lemma MakeMoveTrimmedValue(t: Board, m: int, c: Board)
    requires Trimmed(t) && MakeMove(t, m) == Success(c)
    ensures c == HandleMove(t, m)
  {
    MakeMoveTrimmed(t, m);
  }

  /** A sequence is its first elements and its last. */
  lemma SplitLast(ms: seq<int>)
    requires |ms| > 0
    ensures ms == ms[..|ms| - 1] + [ms[|ms| - 1]]
  {}

  /** Dropping no element keeps the sequence. */
  lemma NoneDropped(ms: seq<int>, j: nat)
    requires j == 0
    ensures ms[..|ms| - j] == ms
  {}

  /** Dropping the last element and then `j - 1` more drops `j`. */
  lemma InitPrefix(ms: seq<int>, init: seq<int>, j: nat, i: nat)
    requires 0 < j <= |ms| && init == ms[..|ms| - 1] && i == j - 1
    ensures init[..|init| - i] == ms[..|ms| - j]
  {}

  /** Setting no turn undone on a state with none undone changes nothing. */
  lemma NoneUndone(c: Board, j: nat)
    requires c.undoCount == 0 && j == 0
    ensures c.(undoCount := j) == c
  {}

  /** A replay that succeeds made its last move on the replay of the moves before it. */
  lemma ReplayLast(s: Board, ms: seq<int>, c: Board)
    requires Sized(s) && |ms| > 0 && Replay(s, ms) == Success(c)
    ensures Replay(s, ms[..|ms| - 1]).Success?
    ensures MakeMove(Replay(s, ms[..|ms| - 1]).value, ms[|ms| - 1]) == Success(c)
  {
    SplitLast(ms);
    ReplaySnoc(s, ms[..|ms| - 1], ms[|ms| - 1]);
  }

  /** A move made on a trimmed state, seen with `j > 0` turns undone, has the current turn
      of the state with `i = j - 1` turns undone. */
  lemma MakeMoveUndone(t: Board, m: int, c: Board, j: nat, i: nat)
    requires Trimmed(t) && MakeMove(t, m) == Success(c) && i == j - 1
    ensures Truncate(c.(undoCount := j)) == Truncate(t.(undoCount := i))
  {
    MakeMoveTrimmedValue(t, m, c);
    HandleMoveUndone(t, m, j, i);
  }

  /** The state before the last move of a successful replay: trimmed, replayed from all
      moves but the last, and with `i = j - 1` turns undone at the current turn of the full
      replay with `j` turns undone. */
  lemma UndoneStep(s: Board, ms: seq<int>, c: Board, j: nat, i: nat) returns (c1: Board)
    requires Trimmed(s) && Replay(s, ms) == Success(c) && 0 < j <= |ms| && i == j - 1
    ensures Trimmed(c1) && Replay(s, ms[..|ms| - 1]) == Success(c1)
    ensures Truncate(c.(undoCount := j)) == Truncate(c1.(undoCount := i))
  {
    ReplayLast(s, ms, c);
    c1 := Replay(s, ms[..|ms| - 1]).value;
    ReplayTrimmed(s, ms[..|ms| - 1]);
    MakeMoveUndone(c1, ms[|ms| - 1], c, j, i);
  }

  /** Replaying all moves but the last `j` reaches the current turn of the full replay
      with `j` turns undone: undoing is replaying fewer moves. */
  lemma {:induction false} ReplayUndone(s: Board, ms: seq<int>, c: Board, j: nat)
    requires Trimmed(s) && Replay(s, ms) == Success(c) && j <= |ms|
    ensures Replay(s, ms[..|ms| - j]) == Success(Truncate(c.(undoCount := j)))
    decreases |ms|
  {
    ReplayTrimmed(s, ms);
    if j == 0 {
      NoneDropped(ms, j);
      NoneUndone(c, j);
      TruncateFixes(c);
    } else {
      var init := ms[..|ms| - 1];
      var i := j - 1;
      var c1 := UndoneStep(s, ms, c, j, i);
      ReplayUndone(s, init, c1, i);
      InitPrefix(ms, init, j, i);
    }
  }
}
