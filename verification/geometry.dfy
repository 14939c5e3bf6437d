/** A cell-by-cell reference for the bit-parallel rules: cells as row and column, the
    neighbour of a cell in each direction, and the walk along a line of discs that the
    rules of Reversi describe. Cells are 7-bit indices, so that 64 can stand for "off the
    board". */
module Geometry {
  import opened Bitboard
  import opened Directions

  /** The index that stands for "off the board". */
  const OFF: bv7 := 64

  /** The one-cell board of cell `c`, empty off the board. */
  function CellBit(c: bv7): bv64 {
    if c < 64 then (1 as bv64) << c else 0
  }

  /** Cell `c` holds a disc of `b`. */
  predicate HasCell(b: bv64, c: bv7) {
    Meets(CellBit(c), b)
  }

  /** The cell in row `r`, column `k`. */
  function At(r: bv7, k: bv7): bv7 {
    8 * r + k
  }

  /** The cell next to `c` towards `d`, computed on row and column; `OFF` when that leaves
      the board (or `c` is off it already). South is the next row, east the next
      column. */
  function Neighbour(c: bv7, d: Dir): (r: bv7)
    ensures r <= OFF
  {
    var row := c / 8;
    var col := c % 8;
    if c >= 64 then OFF
    else match d
    case S => if row < 7 then At(row + 1, col) else OFF
    case SW => if row < 7 && col > 0 then At(row + 1, col - 1) else OFF
    case W => if col > 0 then At(row, col - 1) else OFF
    case NW => if row > 0 && col > 0 then At(row - 1, col - 1) else OFF
    case N => if row > 0 then At(row - 1, col) else OFF
    case NE => if row > 0 && col < 7 then At(row - 1, col + 1) else OFF
    case E => if col < 7 then At(row, col + 1) else OFF
    case SE => if row < 7 && col < 7 then At(row + 1, col + 1) else OFF
  }

  /** Walking from cell `c` towards `d`, at most `n` discs of `o` are passed before a disc of
      `p` is reached. */
  predicate Ray(d: Dir, p: bv64, o: bv64, c: bv7, n: nat)
    decreases n
  {
    var next := Neighbour(c, d);
    n > 0 && HasCell(o, c) && (HasCell(p, next) || Ray(d, p, o, next, n - 1))
  }

  /** The reference rule of Reversi for one direction: the cells after `m` towards `d` hold
      a run of the opponent's discs `o` closed by one of the player's discs `p`. No line
      has more than seven cells after `m`, so seven bounds the walk. */
  predicate Flanks(d: Dir, p: bv64, o: bv64, m: bv7) {
    Ray(d, p, o, Neighbour(m, d), 7)
  }

  /** The cells walked from `c` towards `d` while they hold discs of `o`, at most `n` of
      them. From the neighbour of a cell that flanks towards `d`, these are the discs of the
      run up to the closing disc. */
  function RunCells(d: Dir, o: bv64, c: bv7, n: nat): (r: set<bv7>)
    ensures forall x :: x in r ==> x < 64 && HasCell(o, x)
    decreases n
  {
    if n == 0 || !HasCell(o, c) then {} else {c} + RunCells(d, o, Neighbour(c, d), n - 1)
  }

  /** The reference rule of Reversi: `m` is an empty cell of the board that flanks a run
      of opponent discs in at least one direction. */
  predicate LegalCell(p: bv64, o: bv64, m: bv7) {
    m < 64 && !HasCell(p, m) && !HasCell(o, m) && exists d: Dir :: Flanks(d, p, o, m)
  }

  /** A step of the bit-parallel board moves a one-cell board to its neighbour's. */
  predicate StepsToNeighbour(d: Dir, c: bv7) {
    c <= OFF ==> Step(CellBit(c), d) == CellBit(Neighbour(c, d))
  }

  lemma StepsToNeighbourS(c: bv7) ensures StepsToNeighbour(S, c) {}
  lemma StepsToNeighbourSW(c: bv7) ensures StepsToNeighbour(SW, c) {}
  lemma StepsToNeighbourW(c: bv7) ensures StepsToNeighbour(W, c) {}
  lemma StepsToNeighbourNW(c: bv7) ensures StepsToNeighbour(NW, c) {}
  lemma StepsToNeighbourN(c: bv7) ensures StepsToNeighbour(N, c) {}
  lemma StepsToNeighbourNE(c: bv7) ensures StepsToNeighbour(NE, c) {}
  lemma StepsToNeighbourE(c: bv7) ensures StepsToNeighbour(E, c) {}
  lemma StepsToNeighbourSE(c: bv7) ensures StepsToNeighbour(SE, c) {}

  /** The engine's shift-and-mask step agrees with the row-and-column neighbour. */
  lemma StepIsNeighbour(d: Dir, c: bv7)
    requires c <= OFF
    ensures Step(CellBit(c), d) == CellBit(Neighbour(c, d))
  {
    match d
    case S => StepsToNeighbourS(c);
    case SW => StepsToNeighbourSW(c);
    case W => StepsToNeighbourW(c);
    case NW => StepsToNeighbourNW(c);
    case N => StepsToNeighbourN(c);
    case NE => StepsToNeighbourNE(c);
    case E => StepsToNeighbourE(c);
    case SE => StepsToNeighbourSE(c);
  }

  /** The one-cell board of an integer cell index is the one of its 7-bit index. */
  lemma CellBitOf(i: int)
    requires 0 <= i < 64
    ensures MoveToBoard(i) == CellBit(i as bv7)
  {}

  /** The bit-parallel walk from a one-cell board is the cell-by-cell walk from its cell. */
  lemma {:induction false} ReachIsRay(d: Dir, p: bv64, o: bv64, c: bv7, n: nat)
    requires c <= OFF
    ensures Reach(d, p, o, CellBit(c), n) <==> Ray(d, p, o, c, n)
    decreases n
  {
    if n > 0 {
      StepIsNeighbour(d, c);
      ReachIsRay(d, p, o, Neighbour(c, d), n - 1);
    }
  }

  /** `moveToBoard(i)` for an integer index of the board is the one shifted by the six-bit
      index that `Bitboard.ShiftTest` speaks of. */
  lemma MoveToBoardShift(i: int)
    requires 0 <= i < 64
    ensures MoveToBoard(i) == (1 as bv64) << (i as bv6)
  {}

  /** The test `Has(b, i)` of the loops of `boardToMoves` and `cells()` is the mask with the
      one shifted by the six-bit index of `i`, the right-hand side of `Bitboard.ShiftTest`. */
  lemma HasShift(b: bv64, i: int)
    requires 0 <= i < 64
    ensures Has(b, i) <==> Meets((1 as bv64) << (i as bv6), b)
  {
    MoveToBoardShift(i);
  }
}
