/** Bitboards: a 64-bit mask per player, bit i standing for cell i of the 8x8 board,
    numbered row by row (cell i is row i / 8, column i % 8).

    The engine keeps its masks in unbounded big integers, but every mask it stores or
    returns is ANDed with a 64-bit mask first, so `bv64` models them exactly. */
module Bitboard {

  /** The full board: every one of the 64 cells set. */
  const BLANK_BOARD: bv64 := 0xffff_ffff_ffff_ffff

  /** The engine's default starting discs: black on cells 28 and 35, white on 27 and 36. */
  const DEFAULT_BLACK: bv64 := 0x0000_0008_1000_0000
  const DEFAULT_WHITE: bv64 := 0x0000_0010_0800_0000

  /** Cell `i` is set in `b`: the bit test `(b >> i) & 1 == 1` of the engine, written as a
      mask with the one-cell board (`ShiftTest` shows the two agree); false off the board. */
  predicate Has(b: bv64, i: int) {
    Meets(MoveToBoard(i), b)
  }

  /** `x` has exactly one bit set. */
  predicate Single(x: bv64) {
    x != 0 && x & (x - 1) == 0
  }

  /** `x` has at most one bit set. */
  predicate SingleOrZero(x: bv64) {
    x & (x - 1) == 0
  }

  /** Boards `x` and `b` share a cell. */
  predicate Meets(x: bv64, b: bv64) {
    x & b != 0
  }

  /** Every cell of `a` is a cell of `b`. */
  predicate Within(a: bv64, b: bv64) {
    a & !b == 0
  }

  /** The union of two boards, the engine's `|`. Kept as a function so that proofs about
      boards built by unions compare the unions as terms. */
  function Union(a: bv64, b: bv64): bv64 {
    a | b
  }

  /** A cell shared with one part of a union is shared with the union. */
  lemma MeetsUnion(x: bv64, a: bv64, b: bv64)
    ensures Meets(x, a) ==> Meets(x, Union(a, b))
    ensures Meets(x, b) ==> Meets(x, Union(a, b))
  {}

  /** A board meeting a union meets one of its parts. */
  lemma MeetsPart(x: bv64, a: bv64, b: bv64)
    ensures Meets(x, Union(a, b)) ==> Meets(x, a) || Meets(x, b)
  {}

  /** A board meeting a board inside `w` meets `w`. */
  lemma MeetsWithin(x: bv64, a: bv64, w: bv64)
    ensures Within(a, w) && Meets(x, a) ==> Meets(x, w)
  {}

  /** A union of two boards inside `w` is inside `w`. */
  lemma WithinUnion(a: bv64, b: bv64, w: bv64)
    ensures Within(a, w) && Within(b, w) ==> Within(Union(a, b), w)
  {}

  /** Both parts of a union lie inside it. */
  lemma UnionCovers(a: bv64, b: bv64)
    ensures Within(a, Union(a, b)) && Within(b, Union(a, b))
  {}

  /** A board containing a non-empty board is not empty. */
  lemma NonEmpty(a: bv64, b: bv64)
    ensures Within(a, b) && a != 0 ==> b != 0
  {}

  /** A board masked by `v` lies inside `v` and inside the board. */
  lemma MaskedWithin(o: bv64, v: bv64)
    ensures Within(o & v, v) && Within(o & v, o)
  {}

  /** Inclusion is transitive. */
  lemma WithinTrans(a: bv64, b: bv64, c: bv64)
    ensures Within(a, b) && Within(b, c) ==> Within(a, c)
  {}

  /** The union of a sequence of boards, built from the left. */
  function UnionOf(bs: seq<bv64>): bv64
    decreases |bs|
  {
    if |bs| == 0 then 0 else Union(UnionOf(bs[..|bs| - 1]), bs[|bs| - 1])
  }

  /** A board meets a union exactly when it meets one of its parts. */
  lemma {:induction false} MeetsUnionOf(m: bv64, bs: seq<bv64>)
    ensures Meets(m, UnionOf(bs)) <==> exists i :: 0 <= i < |bs| && Meets(m, bs[i])
    decreases |bs|
  {
    if |bs| > 0 {
      var init := bs[..|bs| - 1];
      MeetsUnionOf(m, init);
      MeetsUnion(m, UnionOf(init), bs[|bs| - 1]);
      MeetsPart(m, UnionOf(init), bs[|bs| - 1]);
      assert forall i :: 0 <= i < |init| ==> init[i] == bs[i];
    }
  }

  /** A union is empty exactly when both parts are. */
  lemma UnionEmpty(a: bv64, b: bv64)
    ensures Union(a, b) == 0 <==> a == 0 && b == 0
  {}

  /** A union is empty exactly when all its parts are. */
  lemma {:induction false} UnionOfEmpty(bs: seq<bv64>)
    ensures UnionOf(bs) == 0 <==> forall i :: 0 <= i < |bs| ==> bs[i] == 0
    decreases |bs|
  {
    if |bs| > 0 {
      var init := bs[..|bs| - 1];
      UnionOfEmpty(init);
      UnionEmpty(UnionOf(init), bs[|bs| - 1]);
      assert forall i :: 0 <= i < |init| ==> init[i] == bs[i];
    }
  }

  /** A union of boards inside `w` is inside `w`. */
  lemma {:induction false} UnionOfWithin(bs: seq<bv64>, w: bv64)
    ensures (forall i :: 0 <= i < |bs| ==> Within(bs[i], w)) ==> Within(UnionOf(bs), w)
    decreases |bs|
  {
    if |bs| > 0 {
      var init := bs[..|bs| - 1];
      UnionOfWithin(init, w);
      WithinUnion(UnionOf(init), bs[|bs| - 1], w);
      assert forall i :: 0 <= i < |init| ==> init[i] == bs[i];
    }
  }

  /** The union of one more board. */
  lemma UnionOfSnoc(bs: seq<bv64>, k: nat)
    requires k < |bs|
    ensures UnionOf(bs[..k + 1]) == Union(UnionOf(bs[..k]), bs[k])
  {
    assert bs[..k + 1][..k] == bs[..k];
  }
  /** Cells held by either of two players. */
  function OccupiedBoardOf(b1: bv64, b2: bv64): bv64 {
    b1 | b2
  }

  /** Cells not in `b`. */
  function VacantBoardOf(b: bv64): bv64 {
    BLANK_BOARD & !b
  }

  /** The mask of one cell index. A shift of a big integer by a negative amount shifts
      right, so a negative index yields 0, and an index of 64 or more is cut off by the
      64-bit mask: either way the result is 0. */
  function MoveToBoard(move: int): bv64 {
    if 0 <= move < 64 then (1 as bv64) << move else 0
  }

  lemma IndexFits(i: int)
    requires 0 <= i < 64
    ensures (i as bv7) < 64
  {}

  lemma ShiftTestUp(b: bv64, x: bv6)
    ensures (b >> x) & 1 == 1 ==> b & ((1 as bv64) << x) != 0
  {}

  lemma ShiftTestDown(b: bv64, x: bv6)
    ensures b & ((1 as bv64) << x) != 0 ==> (b >> x) & 1 == 1
  {}

  /** Shifting bit `x` down to position 0 and masking tests the same bit as masking with
      a one-bit board. */
  lemma ShiftTest(b: bv64, x: bv6)
    ensures (b >> x) & 1 == 1 <==> b & ((1 as bv64) << x) != 0
  {
    ShiftTestUp(b, x);
    ShiftTestDown(b, x);
  }

  lemma OneBit(x: bv7)
    requires x < 64
    ensures Single((1 as bv64) << x)
  {}

  /** `MoveToBoard(m)` is the one-cell board of `m` on the board and empty off it. */
  lemma MoveToBoardCell(m: int)
    ensures 0 <= m < 64 ==> Single(MoveToBoard(m)) && Has(MoveToBoard(m), m)
    ensures !(0 <= m < 64) <==> MoveToBoard(m) == 0
  {
    if 0 <= m < 64 {
      IndexFits(m);
      OneBit(m as bv7);
    }
  }

  /** The indices of the set bits of `b` from `i` up, in ascending order. */
  function MovesFrom(b: bv64, i: int): (r: seq<int>)
    requires 0 <= i <= 64
    ensures forall x :: x in r <==> i <= x && Has(b, x)
    ensures forall j :: 0 <= j < |r| ==> i <= r[j]
    ensures forall j, k :: 0 <= j < k < |r| ==> r[j] < r[k]
    decreases 64 - i, b
  {
    if i == 64 then []
    else if Has(b, i) then [i] + MovesFrom(b, i + 1)
    else MovesFrom(b, i + 1)
  }

  /** The cell indices set in `b`, in ascending order. */
  function BoardToMoves(b: bv64): (r: seq<int>)
    ensures forall x :: x in r <==> Has(b, x)
    ensures forall j, k :: 0 <= j < k < |r| ==> r[j] < r[k]
  {
    MovesFrom(b, 0)
  }

  function LowBit(b: bv64): nat {
    if b & 1 == 1 then 1 else 0
  }

  /** The number of discs on a board. */
  function PopCount(b: bv64): nat
    decreases b
  {
    if b == 0 then 0 else LowBit(b) + PopCount(b >> 1)
  }

  predicate Additive(a: bv64, b: bv64) {
    PopCount(a | b) == PopCount(a) + PopCount(b)
  }

  lemma LowUnion(a: bv64, b: bv64)
    requires a & b == 0
    ensures LowBit(a | b) == LowBit(a) + LowBit(b)
    ensures (a | b) >> 1 == (a >> 1) | (b >> 1)
    ensures (a >> 1) & (b >> 1) == 0
    ensures a | b != 0 ==> (a >> 1) | (b >> 1) < a | b
  {}

  lemma PopStep(b: bv64)
    ensures PopCount(b) == LowBit(b) + PopCount(b >> 1)
  {}

  lemma AdditiveStep(a: bv64, b: bv64)
    requires a & b == 0 && Additive(a >> 1, b >> 1)
    ensures Additive(a, b)
  {
    LowUnion(a, b);
    PopStep(a);
    PopStep(b);
    PopStep(a | b);
  }

  lemma {:induction false} AdditiveDisjoint(a: bv64, b: bv64)
    requires a & b == 0
    ensures Additive(a, b)
    decreases a | b
  {
    if a | b != 0 {
      LowUnion(a, b);
      AdditiveDisjoint(a >> 1, b >> 1);
      AdditiveStep(a, b);
    }
  }

  /** The disc count of a union of disjoint boards is the sum of their counts. */
  lemma PopCountUnion(a: bv64, b: bv64)
    requires a & b == 0
    ensures PopCount(a | b) == PopCount(a) + PopCount(b)
  {
    AdditiveDisjoint(a, b);
  }

  /** A one-cell board holds one disc. */
  lemma {:induction false} PopCountSingle(x: bv64)
    requires Single(x)
    ensures PopCount(x) == 1
    decreases x
  {
    if x & 1 == 1 {
      assert x == 1;
    } else {
      PopCountSingle(x >> 1);
    }
  }

  lemma XorSplit(a: bv64, s: bv64)
    requires s & !a == 0
    ensures (a ^ s) & s == 0 && (a ^ s) | s == a
  {}

  /** A board with a disc has a positive count. */
  lemma {:induction false} PopCountPositive(x: bv64)
    ensures x != 0 ==> PopCount(x) > 0
    decreases x
  {
    if x != 0 && x & 1 == 0 {
      PopCountPositive(x >> 1);
    }
  }

  /** Removing a sub-board removes its count. */
  lemma PopCountRemove(a: bv64, s: bv64)
    requires s & !a == 0
    ensures PopCount(a ^ s) + PopCount(s) == PopCount(a)
  {
    XorSplit(a, s);
    AdditiveDisjoint(a ^ s, s);
  }
}
