/** The discs a move flips, as `handleMove` (Board.ts lines 237-263) finds them: from the
    placed disc, walk each of the eight directions of `transfer` (lines 265-286) over the
    opponent's discs; the run walked is flipped when the walk stops on one of the player's
    own discs. */
module Flipping {
  import opened Bitboard
  import opened Directions

  /** The outcome of one walk: the discs it passed, and the board where it stopped. */
  datatype Trail = Trail(passed: bv64, stop: bv64)

  /** The inner loop of `handleMove`: while `mask` is non-empty and meets `o`, add it to the
      run `run` and step on. `fuel` bounds the steps; seven suffice from a cell next to the
      placed disc, since no line holds more cells (`Vanishes`). */
  function Walk(d: Dir, o: bv64, mask: bv64, fuel: nat, run: bv64): Trail
    decreases fuel, o
  {
    if fuel == 0 || mask == 0 || !Meets(mask, o) then Trail(run, mask)
    else Walk(d, o, Step(mask, d), fuel - 1, Union(run, mask))
  }

  /** The run `handleMove` flips towards `d` for the placed disc `put`: the walked discs when
      the walk stops on a disc of `p`, and nothing otherwise. */
  function DirFlips(d: Dir, p: bv64, o: bv64, put: bv64): bv64 {
    var t := Walk(d, o, Step(put, d), 7, 0);
    if Meets(t.stop, p) then t.passed else 0
  }

  /** The runs of the eight directions of `transfer`, in the engine's order. */
  function DirRuns(p: bv64, o: bv64, put: bv64): (r: seq<bv64>)
    ensures |r| == 8 && forall k :: 0 <= k < 8 ==> r[k] == DirFlips(Dirs[k], p, o, put)
  {
    seq(8, k requires 0 <= k < 8 => DirFlips(Dirs[k], p, o, put))
  }

  /** The board `rev` of every disc the move `put` flips. */
  function Flips(p: bv64, o: bv64, put: bv64): bv64 {
    UnionOf(DirRuns(p, o, put))
  }

  /** The player's board after the move: the placed disc and the flipped discs added by
      the engine's exclusive or. */
  function PlayerAfter(p: bv64, put: bv64, rev: bv64): bv64 {
    p ^ (put | rev)
  }

  /** The opponent's board after the move: the flipped discs taken away by exclusive or. */
  function OpponentAfter(o: bv64, rev: bv64): bv64 {
    o ^ rev
  }

  lemma UnionZero(a: bv64)
    ensures Union(a, 0) == a
  {}

  /** The inner loop of `handleMove` for direction `k`, as written: it returns the run
      `rev_` and the board `mask` where the walk stopped. */
  method WalkFrom(put: bv64, k: int, o: bv64) returns (run: bv64, mask: bv64)
    requires 0 <= k < 8
    ensures Trail(run, mask) == Walk(Dirs[k], o, Step(put, Dirs[k]), 7, 0)
  {
    var d := Dirs[k];
    run := 0;
    mask := Transfer(put, k);
    ghost var fuel: nat := 7;
    ghost var start := mask;
    VanishesLemma(d, put);
    while mask != 0 && Meets(mask, o)
      invariant Steps(mask, d, fuel) == 0
      invariant Walk(d, o, mask, fuel, run) == Walk(d, o, start, 7, 0)
      decreases fuel
    {
      run := Union(run, mask);
      mask := Transfer(mask, k);
      fuel := fuel - 1;
    }
  }

  /** `handleMove`'s loop over the eight directions, as written: the board `rev` it builds
      is `Flips`. */
  method HandleFlips(put: bv64, p: bv64, o: bv64) returns (rev: bv64)
    ensures rev == Flips(p, o, put)
  {
    assert DirRuns(p, o, put)[..8] == DirRuns(p, o, put);
    rev := 0;
    var k := 0;
    while k < 8
      invariant 0 <= k <= 8
      invariant rev == UnionOf(DirRuns(p, o, put)[..k])
    {
      UnionOfSnoc(DirRuns(p, o, put), k);
      var run, mask := WalkFrom(put, k, o);
      if Meets(mask, p) {
        rev := Union(rev, run);
      } else {
        UnionZero(rev);
      }
      k := k + 1;
    }
  }

  /** A one-cell board meeting two boards makes them meet. */
  lemma SingleMeetsBoth(x: bv64, a: bv64, b: bv64)
    ensures SingleOrZero(x) && Meets(x, a) && Meets(x, b) ==> Meets(a, b)
  {}

  /** A one-cell board meeting `b` lies inside `b`. */
  lemma SingleMeetsWithin(x: bv64, b: bv64)
    ensures SingleOrZero(x) && Meets(x, b) ==> Within(x, b)
  {}

  /** For disjoint boards, the walk stops on a disc of `p` after passing discs of `o`
      exactly when `x` starts a run of `o` flanked by `p`. */
  lemma {:induction false} WalkReach(d: Dir, p: bv64, o: bv64, x: bv64, n: nat, run: bv64)
    ensures SingleOrZero(x) && !Meets(p, o)
            ==> (Meets(x, o) && Meets(Walk(d, o, x, n, run).stop, p) <==> Reach(d, p, o, x, n))
    decreases n
  {
    SingleMeetsBoth(x, p, o);
    if n > 0 && Meets(x, o) {
      var x1 := Step(x, d);
      StepKeepsSingleLemma(d, x);
      SingleMeetsBoth(x1, p, o);
      WalkReach(d, p, o, x1, n - 1, Union(run, x));
    }
  }

  /** A walk from a single cell adds only discs of `o` to its run. */
  lemma {:induction false} WalkWithin(d: Dir, o: bv64, x: bv64, n: nat, run: bv64)
    ensures SingleOrZero(x) && Within(run, o) ==> Within(Walk(d, o, x, n, run).passed, o)
    decreases n
  {
    if n > 0 && x != 0 && Meets(x, o) {
      StepKeepsSingleLemma(d, x);
      SingleMeetsWithin(x, o);
      WithinUnion(run, x, o);
      WalkWithin(d, o, Step(x, d), n - 1, Union(run, x));
    }
  }

  /** A walk keeps the run it was given. */
  lemma {:induction false} WalkKeeps(d: Dir, o: bv64, x: bv64, n: nat, run: bv64)
    ensures Within(run, Walk(d, o, x, n, run).passed)
    decreases n
  {
    if n > 0 && x != 0 && Meets(x, o) {
      var t := Walk(d, o, Step(x, d), n - 1, Union(run, x));
      UnionCovers(run, x);
      WalkKeeps(d, o, Step(x, d), n - 1, Union(run, x));
      WithinTrans(run, Union(run, x), t.passed);
    }
  }

  /** A walk that starts on a disc of `o` passes that disc. */
  lemma WalkPasses(d: Dir, o: bv64, x: bv64, n: nat, run: bv64)
    ensures n > 0 && Meets(x, o) ==> Within(x, Walk(d, o, x, n, run).passed)
  {
    if n > 0 && Meets(x, o) {
      var t := Walk(d, o, Step(x, d), n - 1, Union(run, x));
      UnionCovers(run, x);
      WalkKeeps(d, o, Step(x, d), n - 1, Union(run, x));
      WithinTrans(x, Union(run, x), t.passed);
    }
  }

  /** A walk with an empty run passes some disc exactly when it starts on a disc of `o`. */
  lemma WalkPassesSome(d: Dir, o: bv64, x: bv64, n: nat)
    requires n > 0
    ensures Walk(d, o, x, n, 0).passed != 0 <==> Meets(x, o)
  {
    if Meets(x, o) {
      WalkPasses(d, o, x, n, 0);
      NonEmpty(x, Walk(d, o, x, n, 0).passed);
    }
  }

  /** A direction flips something exactly when its walk starts on a disc of `o` and stops
      on a disc of `p`. */
  lemma DirFlipsStops(d: Dir, p: bv64, o: bv64, put: bv64)
    ensures var x := Step(put, d);
            DirFlips(d, p, o, put) != 0 <==> Meets(x, o) && Meets(Walk(d, o, x, 7, 0).stop, p)
  {
    WalkPassesSome(d, o, Step(put, d), 7);
  }

  /** For disjoint boards, a direction flips something exactly when the neighbour of the
      placed disc starts a run of `o` flanked by `p`. */
  lemma DirFlipsReach(d: Dir, p: bv64, o: bv64, put: bv64)
    ensures SingleOrZero(put) && !Meets(p, o)
            ==> (DirFlips(d, p, o, put) != 0 <==> Reach(d, p, o, Step(put, d), 7))
  {
    StepKeepsSingleLemma(d, put);
    WalkReach(d, p, o, Step(put, d), 7, 0);
    DirFlipsStops(d, p, o, put);
  }

  /** Each direction flips discs of the opponent only. */
  lemma DirFlipsWithin(d: Dir, p: bv64, o: bv64, put: bv64)
    ensures SingleOrZero(put) ==> Within(DirFlips(d, p, o, put), o)
  {
    StepKeepsSingleLemma(d, put);
    WalkWithin(d, o, Step(put, d), 7, 0);
  }

  /** A move flips discs of the opponent only. */
  lemma FlipsWithin(p: bv64, o: bv64, put: bv64)
    ensures SingleOrZero(put) ==> Within(Flips(p, o, put), o)
  {
    var rs := DirRuns(p, o, put);
    forall k | 0 <= k < 8
      ensures SingleOrZero(put) ==> Within(rs[k], o)
    {
      DirFlipsWithin(Dirs[k], p, o, put);
    }
    if SingleOrZero(put) {
      UnionOfWithin(rs, o);
    }
  }

  /** The setting of a move: disjoint boards, the placed disc on vacant cells, and the
      flipped discs taken from the opponent. */
  predicate MoveFits(p: bv64, o: bv64, put: bv64, rev: bv64) {
    !Meets(p, o) && !Meets(put, OccupiedBoardOf(p, o)) && Within(rev, o)
  }

  /** The engine's exclusive-or update adds the placed and flipped discs to the player and
      takes the flipped discs from the opponent. */
  lemma AfterBoards(p: bv64, o: bv64, put: bv64, rev: bv64)
    ensures MoveFits(p, o, put, rev)
            ==> PlayerAfter(p, put, rev) == (p | put) | rev
                && OpponentAfter(o, rev) == o & !rev
  {}

  /** After a move the boards are still disjoint. */
  lemma AfterDisjoint(p: bv64, o: bv64, put: bv64, rev: bv64)
    ensures MoveFits(p, o, put, rev) ==> !Meets(PlayerAfter(p, put, rev), OpponentAfter(o, rev))
  {}

  /** After a move the occupied cells are those before plus the placed disc. */
  lemma AfterOccupied(p: bv64, o: bv64, put: bv64, rev: bv64)
    ensures MoveFits(p, o, put, rev)
            ==> OccupiedBoardOf(PlayerAfter(p, put, rev), OpponentAfter(o, rev))
                == OccupiedBoardOf(p, o) | put
  {
    AfterBoards(p, o, put, rev);
    if MoveFits(p, o, put, rev) {
      OccupiedGrows(p, o, put, rev);
    }
  }

  lemma OccupiedGrows(p: bv64, o: bv64, put: bv64, rev: bv64)
    requires rev & !o == 0
    ensures ((p | put) | rev) | (o & !rev) == (p | o) | put
  {}

  lemma PlacedApart(p: bv64, o: bv64, put: bv64, rev: bv64)
    requires !Meets(p, o) && !Meets(put, OccupiedBoardOf(p, o)) && Within(rev, o)
    ensures p & put == 0 && (p | put) & rev == 0
  {}

  /** The count of a union of three disjoint boards, the middle one named `a` once joined. */
  lemma CountUnions(p: bv64, put: bv64, rev: bv64, a: bv64)
    requires a == p | put
    requires p & put == 0 && a & rev == 0
    ensures PopCount(a | rev) == PopCount(p) + PopCount(put) + PopCount(rev)
  {
    PopCountUnion(p, put);
    PopCountUnion(a, rev);
  }

  /** The player gains the placed disc and the flipped discs. */
  lemma AfterCountPlayer(p: bv64, o: bv64, put: bv64, rev: bv64)
    requires MoveFits(p, o, put, rev)
    ensures PopCount(PlayerAfter(p, put, rev)) == PopCount(p) + PopCount(put) + PopCount(rev)
  {
    AfterBoards(p, o, put, rev);
    PlacedApart(p, o, put, rev);
    CountUnions(p, put, rev, p | put);
  }

  /** The opponent loses the flipped discs. */
  lemma AfterCountOpponent(p: bv64, o: bv64, put: bv64, rev: bv64)
    requires MoveFits(p, o, put, rev)
    ensures PopCount(OpponentAfter(o, rev)) + PopCount(rev) == PopCount(o)
  {
    PopCountRemove(o, rev);
  }
}
