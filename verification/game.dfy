/** The game state of the engine (the fields of `Board`, Board.ts lines 8-14) and its
    operations: the derived views of the history (lines 38-134), the move (lines 219-263),
    undo (lines 315-321), the cell codes (lines 292-313) and the replaying constructor
    (lines 16-36). The state is an immutable value; the engine's mutating methods are
    functions from state to state. */
module Game {
  import opened Bitboard
  import opened Legal
  import opened Flipping
  import opened Rules
  import opened History

  /** The fields of the engine: the boards after every move (undone ones included), the
      log of moves and passes, and the number of turns undone. */
  datatype Board = Board(blackBoards: seq<bv64>, whiteBoards: seq<bv64>, allMoves: Log, undoCount: nat)

  /** The result of an operation that may throw. */
  datatype Result<+T> = Success(value: T) | Failure

  /** `allMoves(includeUndone)`: the log, with the undone turns taken back by default. */
  function AllMoves(b: Board, includeUndone: bool): Log {
    if includeUndone then b.allMoves else Retract(b.allMoves, b.undoCount)
  }

  /** `moves(includeUndone)`: the real moves of the log, the last `undoCount` sliced off by
      default. The end of the slice is clamped at 0, so that more turns undone than there
      are moves leave no move (see `MovesAsWritten` for the slice as the engine writes it). */
  function Moves(b: Board, includeUndone: bool): seq<int> {
    var filtered := Played(b.allMoves);
    var end := |filtered| - b.undoCount;
    if includeUndone then filtered else Slice(filtered, if end < 0 then 0 else end)
  }

  /** `moves(includeUndone)` as the engine writes it: `filtered.slice(0, filtered.length -
      undoCount)`, whose end counts from the back once it is negative. */
  function MovesAsWritten(b: Board, includeUndone: bool): seq<int> {
    var filtered := Played(b.allMoves);
    if includeUndone then filtered else Slice(filtered, |filtered| - b.undoCount)
  }

  /** `movesMade()`. */
  function MovesMade(b: Board): nat {
    |Moves(b, false)|
  }

  /** The current boards exist: `blackBoard()` and `whiteBoard()` index inside the arrays. */
  predicate Sized(b: Board) {
    MovesMade(b) < |b.blackBoards| && MovesMade(b) < |b.whiteBoards|
  }

  function BlackBoard(b: Board): bv64
    requires Sized(b)
  {
    b.blackBoards[MovesMade(b)]
  }

  function WhiteBoard(b: Board): bv64
    requires Sized(b)
  {
    b.whiteBoards[MovesMade(b)]
  }

  /** `blackBoards()`: the boards up to the current one. */
  function BlackBoards(b: Board): seq<bv64> {
    Slice(b.blackBoards, MovesMade(b) + 1)
  }

  function WhiteBoards(b: Board): seq<bv64> {
    Slice(b.whiteBoards, MovesMade(b) + 1)
  }

  predicate IsBlackTurn(b: Board) {
    |AllMoves(b, false)| % 2 == 0
  }

  predicate IsWhiteTurn(b: Board) {
    |AllMoves(b, false)| % 2 == 1
  }

  /** `isOver()`: the last two turns of the log were passes. */
  predicate IsOver(b: Board) {
    var a := AllMoves(b, false);
    |a| >= 2 && a[|a| - 1].None? && a[|a| - 2].None?
  }

  function PlayerBoard(b: Board): bv64
    requires Sized(b)
  {
    if IsBlackTurn(b) then BlackBoard(b) else WhiteBoard(b)
  }

  function OpponentBoard(b: Board): bv64
    requires Sized(b)
  {
    if IsBlackTurn(b) then WhiteBoard(b) else BlackBoard(b)
  }

  function OccupiedBoard(b: Board): bv64
    requires Sized(b)
  {
    OccupiedBoardOf(BlackBoard(b), WhiteBoard(b))
  }

  function VacantBoard(b: Board): bv64
    requires Sized(b)
  {
    VacantBoardOf(OccupiedBoard(b))
  }

  /** `legalBoard()`: the cells where the side to move may play. */
  function LegalBoard(b: Board): bv64
    requires Sized(b)
  {
    LegalBoardOf(PlayerBoard(b), OpponentBoard(b))
  }

  /** `canMakeMove(move)`: the cell is on the board and legal. */
  predicate CanMakeMove(b: Board, move: int)
    requires Sized(b)
  {
    var moveBoard := MoveToBoard(move);
    moveBoard != 0 && Meets(moveBoard, LegalBoard(b))
  }

  /** `legalMoves()`: the legal cells in ascending order. */
  function LegalMoves(b: Board): seq<int>
    requires Sized(b)
  {
    BoardToMoves(LegalBoard(b))
  }

  /** The moves made are the moves of the log with the undone turns taken back: the slice
      of `moves()` and the retraction of `allMoves()` agree, however many turns are undone. */
  lemma MovesMadeLog(b: Board)
    ensures Moves(b, false) == Played(AllMoves(b, false))
    ensures var n := |Played(b.allMoves)|;
            MovesMade(b) == if b.undoCount <= n then n - b.undoCount else 0
  {
    RetractPlayed(b.allMoves, b.undoCount);
  }

  /** With nothing undone, the moves made are the moves of the log. */
  lemma MovesMadeFresh(b: Board)
    requires b.undoCount == 0
    ensures MovesMade(b) == |Played(b.allMoves)| && AllMoves(b, false) == b.allMoves
  {}

  /** The first lines of `handleMove`: flip, and push the new boards and the move. */
  function Place(b: Board, move: int): (r: Board)
    requires Sized(b) && b.undoCount == 0
    ensures Sized(r) && r.undoCount == 0
    ensures r.allMoves == b.allMoves + [Some(move)]
    ensures |r.blackBoards| == |b.blackBoards| + 1 && r.blackBoards[..|b.blackBoards|] == b.blackBoards
    ensures |r.whiteBoards| == |b.whiteBoards| + 1 && r.whiteBoards[..|b.whiteBoards|] == b.whiteBoards
  {
    var put := MoveToBoard(move);
    var p := PlayerBoard(b);
    var o := OpponentBoard(b);
    var rev := Flips(p, o, put);
    PlayedSnoc(b.allMoves, Some(move));
    if IsBlackTurn(b) then
      Board(b.blackBoards + [PlayerAfter(p, put, rev)], b.whiteBoards + [OpponentAfter(o, rev)],
            b.allMoves + [Some(move)], 0)
    else
      Board(b.blackBoards + [OpponentAfter(o, rev)], b.whiteBoards + [PlayerAfter(p, put, rev)],
            b.allMoves + [Some(move)], 0)
  }

  /** The boards `Place` pushes: the mover's and the opponent's after the flips. */
  lemma PlacePush(b: Board, move: int)
    requires Sized(b) && b.undoCount == 0
    ensures var p := PlayerBoard(b);
            var o := OpponentBoard(b);
            var put := MoveToBoard(move);
            var rev := Flips(p, o, put);
            && Place(b, move).blackBoards == b.blackBoards
                 + [if IsBlackTurn(b) then PlayerAfter(p, put, rev) else OpponentAfter(o, rev)]
            && Place(b, move).whiteBoards == b.whiteBoards
                 + [if IsBlackTurn(b) then OpponentAfter(o, rev) else PlayerAfter(p, put, rev)]
  {}

  /** A pass pushed onto the log. */
  function PassTurn(b: Board): (r: Board)
    requires b.undoCount == 0
    ensures r.undoCount == 0 && Played(r.allMoves) == Played(b.allMoves)
    ensures MovesMade(r) == MovesMade(b) && (Sized(b) ==> Sized(r))
    ensures r.blackBoards == b.blackBoards && r.whiteBoards == b.whiteBoards
  {
    PlayedSnoc(b.allMoves, None);
    b.(allMoves := b.allMoves + [None])
  }

  /** The last lines of `handleMove`: pass for each side in turn that has no legal move,
      at most twice. */
  function Settle(b: Board): (r: Board)
    requires Sized(b) && b.undoCount == 0
    ensures Sized(r) && r.undoCount == 0
  {
    PassWhen(b, |LegalMoves(b)| == 0, |LegalMoves(PassTurn(b))| == 0)
  }

  /** A pass when `first` holds, and a second one when `second` holds as well; `Settle`
      asks the second question of the state after the first pass. */
  function PassWhen(b: Board, first: bool, second: bool): (r: Board)
    requires Sized(b) && b.undoCount == 0
    ensures Sized(r) && r.undoCount == 0
  {
    if first then
      var b1 := PassTurn(b);
      if second then PassTurn(b1) else b1
    else b
  }

  /** `handleMove(move)`: place the disc, then settle the passes. */
  function HandleMove(b: Board, move: int): (r: Board)
    requires Sized(b) && b.undoCount == 0
    ensures Sized(r) && r.undoCount == 0
  {
    Settle(Place(b, move))
  }

  /** The state invariant of the engine: one board pair per move of the log plus the
      starting pair, disjoint black and white boards, moves on the board, and a log that
      neither starts with a pass nor holds three passes in a row. */
  predicate Valid(b: Board) {
    var n := |Played(b.allMoves)|;
    && |b.blackBoards| == n + 1
    && |b.whiteBoards| == n + 1
    && AllApart(b.blackBoards, b.whiteBoards)
    && LogOnBoard(b.allMoves)
    && WellFormedLog(b.allMoves)
  }

  /** The black and white boards of turn `i` share no cell. */
  predicate Apart(black: seq<bv64>, white: seq<bv64>, i: int)
    requires 0 <= i < |black| && i < |white|
  {
    !Meets(black[i], white[i])
  }

  /** The boards of every turn are disjoint. */
  predicate AllApart(black: seq<bv64>, white: seq<bv64>)
    requires |black| == |white|
  {
    forall i :: 0 <= i < |black| ==> Apart(black, white, i)
  }

  /** A cell index of the board. */
  predicate OnBoard(x: int) {
    0 <= x < 64
  }

  /** Every move of the log is a cell of the board. */
  predicate LogOnBoard(s: Log) {
    forall x {:trigger OnBoard(x)} :: x in Played(s) ==> OnBoard(x)
  }

  /** A valid state has its current boards. */
  lemma ValidSized(b: Board)
    requires Valid(b)
    ensures Sized(b)
  {
    MovesMadeLog(b);
  }

  /** The first lines of `makeMove`: keep the boards and the log up to the current turn,
      and clear the undo count. */
  function Truncate(b: Board): Board {
    Board(BlackBoards(b), WhiteBoards(b), AllMoves(b, false), 0)
  }

  /** Truncating keeps the current turn: the same moves made, the same boards, the same
      log, and nothing beyond the current boards. */
  lemma TruncateKeeps(b: Board)
    requires Sized(b)
    ensures var t := Truncate(b);
            && Sized(t) && MovesMade(t) == MovesMade(b)
            && |t.blackBoards| == MovesMade(b) + 1 && |t.whiteBoards| == MovesMade(b) + 1
            && BlackBoard(t) == BlackBoard(b) && WhiteBoard(t) == WhiteBoard(b)
            && AllMoves(t, false) == AllMoves(b, false)
            && IsBlackTurn(t) == IsBlackTurn(b)
            && PlayerBoard(t) == PlayerBoard(b) && OpponentBoard(t) == OpponentBoard(b)
            && LegalBoard(t) == LegalBoard(b)
  {
    MovesMadeLog(b);
  }

  /** The boards up to the current turn are the first `movesMade() + 1` of the arrays. */
  lemma CurrentPrefix(b: Board)
    requires Sized(b)
    ensures BlackBoards(b) == b.blackBoards[..MovesMade(b) + 1]
    ensures WhiteBoards(b) == b.whiteBoards[..MovesMade(b) + 1]
  {}

  /** A state with nothing undone whose boards are those of `k + 1` turns followed by one
      more pair shows that last pair, and the others as its history. */
  lemma CurrentIsLast(r: Board, black: seq<bv64>, white: seq<bv64>, k: nat)
    requires r.undoCount == 0 && MovesMade(r) == k + 1
    requires |black| == k + 1 && |white| == k + 1
    requires |r.blackBoards| == k + 2 && r.blackBoards[..k + 1] == black
    requires |r.whiteBoards| == k + 2 && r.whiteBoards[..k + 1] == white
    ensures Sized(r)
    ensures BlackBoards(r) == r.blackBoards && WhiteBoards(r) == r.whiteBoards
    ensures r.blackBoards == black + [BlackBoard(r)] && r.whiteBoards == white + [WhiteBoard(r)]
  {
    assert r.blackBoards == r.blackBoards[..k + 1] + [r.blackBoards[k + 1]];
    assert r.whiteBoards == r.whiteBoards[..k + 1] + [r.whiteBoards[k + 1]];
  }

  /** With nothing undone, the moves made after a logged turn are those before it and the
      turn's move. */
  lemma MovesOfTurn(r: Board, a: Log, m: int)
    requires r.undoCount == 0 && LoggedTurn(r.allMoves, a, m)
    ensures Moves(r, false) == Played(a) + [m]
    ensures MovesMade(r) == |Played(a)| + 1
  {
    LoggedTurnPlayed(r.allMoves, a, m);
  }

  /** `makeMove(move)`: fails on a move `canMakeMove` refuses; otherwise drops the undone
      boards and turns, clears the undo count and handles the move. */
  function MakeMove(b: Board, move: int): (r: Result<Board>)
    requires Sized(b)
    ensures r.Success? ==> Sized(r.value) && r.value.undoCount == 0
  {
    if !CanMakeMove(b, move) then Failure
    else
      TruncateKeeps(b);
      Success(HandleMove(Truncate(b), move))
  }

  /** An accepted move is handled on the truncated state. */
  lemma MakeMoveAccepts(b: Board, move: int)
    requires Sized(b) && CanMakeMove(b, move)
    ensures Sized(Truncate(b)) && Truncate(b).undoCount == 0
    ensures MakeMove(b, move) == Success(HandleMove(Truncate(b), move))
  {
    TruncateKeeps(b);
  }

  /** `canUndo()`. */
  predicate CanUndo(b: Board) {
    MovesMade(b) > 0
  }

  /** `undo()`: one more turn undone. The engine does not check `canUndo()` first. */
  function Undo(b: Board): Board {
    b.(undoCount := b.undoCount + 1)
  }

  /** The moves of `moves` made one after the other with `makeMove`, failing at the first
      move refused: the loop of the constructor. */
  function Replay(b: Board, moves: seq<int>): (r: Result<Board>)
    requires Sized(b)
    ensures r.Success? ==> Sized(r.value)
    decreases |moves|
  {
    if |moves| == 0 then Success(b)
    else
      match MakeMove(b, moves[0])
      case Failure => Failure
      case Success(b1) => Replay(b1, moves[1..])
  }

  /** The value of an optional field, or the default when it is absent (JavaScript's
      `??`). */
  function OrElse<T>(x: Option<T>, default: T): T {
    if x.Some? then x.value else default
  }

  /** The state the constructor starts from: the given boards or the default ones, an
      empty log. */
  function Start(black: Option<bv64>, white: Option<bv64>): Board {
    Board([OrElse(black, DEFAULT_BLACK)], [OrElse(white, DEFAULT_WHITE)], [], 0)
  }

  lemma StartSized(black: Option<bv64>, white: Option<bv64>)
    ensures Sized(Start(black, white)) && MovesMade(Start(black, white)) == 0
  {
    assert Played([]) == [];
  }

  /** The constructor: replay the moves from the starting boards, then set the undo count.
      It fails when one of the moves is refused. */
  function NewBoard(black: Option<bv64>, white: Option<bv64>, moves: seq<int>, undoCount: nat)
    : Result<Board>
  {
    StartSized(black, white);
    match Replay(Start(black, white), moves)
    case Failure => Failure
    case Success(b) => Success(b.(undoCount := undoCount))
  }

  /** `clone()`: a new board from the first boards, all the moves (undone ones included)
      and the undo count. */
  function Clone(b: Board): Result<Board>
    requires |b.blackBoards| > 0 && |b.whiteBoards| > 0
  {
    NewBoard(Some(b.blackBoards[0]), Some(b.whiteBoards[0]), Moves(b, true), b.undoCount)
  }

  /** The legal cells of a player are vacant. */
  lemma LegalCellVacantOf(p: bv64, o: bv64, i: int)
    ensures Has(LegalBoardOf(p, o), i) ==> !Has(p, i) && !Has(o, i)
  {
    var x := MoveToBoard(i);
    if Has(LegalBoardOf(p, o), i) {
      MoveToBoardCell(i);
      LegalVacant(p, o);
      MeetsWithin(x, LegalBoardOf(p, o), VacantBoardOf(OccupiedBoardOf(p, o)));
      VacantSingle(x, p, o);
    }
  }

  /** The legal cells are vacant: no disc of either colour is on a cell where the side to
      move may play. */
  lemma LegalCellsVacant(b: Board)
    requires Sized(b)
    ensures forall i :: Has(LegalBoard(b), i) ==> !Has(BlackBoard(b), i) && !Has(WhiteBoard(b), i)
  {
    forall i
      ensures Has(LegalBoard(b), i) ==> !Has(BlackBoard(b), i) && !Has(WhiteBoard(b), i)
    {
      LegalCellVacantOf(PlayerBoard(b), OpponentBoard(b), i);
    }
  }

  /** `cells()`: per cell, 3 where the side to move may play, else 1 for a black disc, else
      2 for a white disc, else 0. Legal cells being vacant, a black disc always shows. */
  method Cells(b: Board) returns (cells: seq<int>)
    requires Sized(b)
    ensures |cells| == 64
    ensures forall i :: 0 <= i < 64 ==> (cells[i] == 3 <==> Has(LegalBoard(b), i))
    ensures forall i :: 0 <= i < 64 ==> (cells[i] == 1 <==> Has(BlackBoard(b), i))
    ensures forall i :: 0 <= i < 64 ==>
              (cells[i] == 2 <==> Has(WhiteBoard(b), i) && !Has(BlackBoard(b), i))
    ensures forall i :: 0 <= i < 64 ==>
              (cells[i] == 0 <==> !Has(LegalBoard(b), i) && !Has(BlackBoard(b), i) && !Has(WhiteBoard(b), i))
  {
    LegalCellsVacant(b);
    cells := CellCodes(LegalBoard(b), BlackBoard(b), WhiteBoard(b));
  }

  /** The loop of `cells()` over given legal, black and white boards, the legal cells
      holding no disc. */
  method CellCodes(legal: bv64, black: bv64, white: bv64) returns (cells: seq<int>)
    requires forall i :: Has(legal, i) ==> !Has(black, i) && !Has(white, i)
    ensures |cells| == 64
    ensures forall i :: 0 <= i < 64 ==> (cells[i] == 3 <==> Has(legal, i))
    ensures forall i :: 0 <= i < 64 ==> (cells[i] == 1 <==> Has(black, i))
    ensures forall i :: 0 <= i < 64 ==> (cells[i] == 2 <==> Has(white, i) && !Has(black, i))
    ensures forall i :: 0 <= i < 64 ==>
              (cells[i] == 0 <==> !Has(legal, i) && !Has(black, i) && !Has(white, i))
  {
    cells := [];
    var i := 0;
    while i < 64
      invariant 0 <= i <= 64 && |cells| == i
      invariant forall j :: 0 <= j < i ==> (cells[j] == 3 <==> Has(legal, j))
      invariant forall j :: 0 <= j < i ==> (cells[j] == 1 <==> Has(black, j))
      invariant forall j :: 0 <= j < i ==> (cells[j] == 2 <==> Has(white, j) && !Has(black, j))
      invariant forall j :: 0 <= j < i ==>
                  (cells[j] == 0 <==> !Has(legal, j) && !Has(black, j) && !Has(white, j))
    {
      if Has(legal, i) {
        cells := cells + [3];
      } else if Has(black, i) {
        cells := cells + [1];
      } else if Has(white, i) {
        cells := cells + [2];
      } else {
        cells := cells + [0];
      }
      i := i + 1;
    }
  }
}
