/** The three readings of the rule of Reversi agree: the bit-parallel flood of
    `legalBoardOf` (Board.ts lines 136-213), the cell-by-cell walk of `handleMove` (lines
    237-263), and the row-and-column rule of `Geometry`. */
module Rules {
  import opened Bitboard
  import opened Directions
  import opened Geometry
  import opened Legal
  import opened Flipping

  /** A run over `w` is a run over any board containing `w`. */
  lemma {:induction false} ReachWiden(d: Dir, p: bv64, w: bv64, o: bv64, x: bv64, n: nat)
    ensures Within(w, o) && Reach(d, p, w, x, n) ==> Reach(d, p, o, x, n)
    decreases n
  {
    MeetsWithin(x, w, o);
    if n > 0 {
      ReachWiden(d, p, w, o, Step(x, d), n - 1);
    }
  }

  /** A cell inside the mask `v` that meets `o` meets `o & v`. */
  lemma MeetsMasked(x: bv64, o: bv64, v: bv64)
    ensures Within(x, v) && Meets(x, o) ==> Meets(x, o & v)
  {}

  /** Every disc of a flanked run lies between two cells of its line, so inside the watch
      mask: a run from the neighbour of `y` passes only watched discs. */
  lemma ReachNext(d: Dir, p: bv64, o: bv64, x: bv64, n: nat)
    ensures Reach(d, p, o, x, n) ==> Meets(x, o) && (Meets(Step(x, d), p) || Meets(Step(x, d), o))
  {
    if Reach(d, p, o, x, n) && !Meets(Step(x, d), p) {
      assert Reach(d, p, o, Step(x, d), n - 1);
    }
  }

  lemma InnerEither(d: Dir, p: bv64, o: bv64, y: bv64)
    ensures SingleOrZero(y) && (Meets(Step(Step(y, d), d), p) || Meets(Step(Step(y, d), d), o))
            ==> Within(Step(y, d), Watch(d))
  {
    InnerWatchedLemma(d, y, p);
    InnerWatchedLemma(d, y, o);
  }

  lemma FirstWatched(d: Dir, p: bv64, o: bv64, y: bv64, n: nat)
    ensures SingleOrZero(y) && Reach(d, p, o, Step(y, d), n) ==> Meets(Step(y, d), o & Watch(d))
  {
    ReachNext(d, p, o, Step(y, d), n);
    InnerEither(d, p, o, y);
    MeetsMasked(Step(y, d), o, Watch(d));
  }

  lemma {:induction false} ReachWatched(d: Dir, p: bv64, o: bv64, y: bv64, n: nat)
    ensures SingleOrZero(y) && Reach(d, p, o, Step(y, d), n)
            ==> Reach(d, p, o & Watch(d), Step(y, d), n)
    decreases n
  {
    var x := Step(y, d);
    if SingleOrZero(y) && Reach(d, p, o, x, n) {
      FirstWatched(d, p, o, y, n);
      StepKeepsSingleLemma(d, y);
      ReachWatched(d, p, o, x, n - 1);
    }
  }

  /** A run over `w` found within `n` steps but not within `k < n` steps passes `k + 1`
      discs of `w` in a row. */
  lemma {:induction false} ReachLong(d: Dir, p: bv64, w: bv64, x: bv64, n: nat, k: nat)
    ensures k < n && Reach(d, p, w, x, n) && !Reach(d, p, w, x, k) ==> Run(d, w, x, k + 1)
    decreases k
  {
    if k > 0 && k < n && Reach(d, p, w, x, n) && !Reach(d, p, w, x, k) {
      ReachLong(d, p, w, Step(x, d), n - 1, k - 1);
    }
  }

  /** A row of discs of `w` is a row of discs of any board containing `w`. */
  lemma {:induction false} RunWiden(d: Dir, w: bv64, v: bv64, x: bv64, k: nat)
    ensures Within(w, v) && Run(d, w, x, k) ==> Run(d, v, x, k)
    decreases k
  {
    MeetsWithin(x, w, v);
    if k > 0 {
      RunWiden(d, w, v, Step(x, d), k - 1);
    }
  }

  /** Seven cells in a row, spelled out. */
  lemma RunSeven(d: Dir, w: bv64, x: bv64)
    ensures Run(d, w, x, 7)
            ==> var x1 := Step(x, d); var x2 := Step(x1, d); var x3 := Step(x2, d);
                var x4 := Step(x3, d); var x5 := Step(x4, d); var x6 := Step(x5, d);
                Meets(x, w) && Meets(x1, w) && Meets(x2, w) && Meets(x3, w)
                && Meets(x4, w) && Meets(x5, w) && Meets(x6, w)
  {
    var x1 := Step(x, d); var x2 := Step(x1, d); var x3 := Step(x2, d);
    var x4 := Step(x3, d); var x5 := Step(x4, d);
    if Run(d, w, x, 7) {
      assert Run(d, w, x1, 6);
      assert Run(d, w, x2, 5);
      assert Run(d, w, x3, 4);
      assert Run(d, w, x4, 3);
      assert Run(d, w, x5, 2);
    }
  }

  /** No line holds seven watched cells in a row. */
  lemma NoLongRun(d: Dir, x: bv64)
    ensures SingleOrZero(x) ==> !Run(d, Watch(d), x, 7)
  {
    ShortChainsLemma(d, x);
    RunSeven(d, Watch(d), x);
  }

  /** A run over watched discs is at most six discs long. */
  lemma ReachSix(d: Dir, p: bv64, w: bv64, x: bv64)
    ensures SingleOrZero(x) && Within(w, Watch(d)) && Reach(d, p, w, x, 7)
            ==> Reach(d, p, w, x, 6)
  {
    if SingleOrZero(x) && Within(w, Watch(d)) && Reach(d, p, w, x, 7) {
      NoLongRun(d, x);
      RunWiden(d, w, Watch(d), x, 7);
      assert !Run(d, w, x, 7);
      ReachLong(d, p, w, x, 7, 6);
    }
  }

  /** A cell the flood pass towards `d` finds is vacant and starts a run of the opponent's
      discs flanked by the player's. */
  lemma PassAgreesOut(d: Dir, p: bv64, o: bv64, vacant: bv64, m: bv64)
    ensures Meets(m, Pass(d, p, o & Watch(d), vacant))
            ==> Meets(m, vacant) && Reach(d, p, o, Step(m, d), 7)
  {
    var w := o & Watch(d);
    var x := Step(m, d);
    MaskedWithin(o, Watch(d));
    PassFindsOut(d, p, w, vacant, m);
    ReachMono(d, p, w, x, 6);
    ReachWiden(d, p, w, o, x, 7);
  }

  /** A vacant cell that starts a run of the opponent's discs flanked by the player's is
      found by the flood pass towards `d`. */
  lemma PassAgreesIn(d: Dir, p: bv64, o: bv64, vacant: bv64, m: bv64)
    ensures SingleOrZero(m) && Meets(m, vacant) && Reach(d, p, o, Step(m, d), 7)
            ==> Meets(m, Pass(d, p, o & Watch(d), vacant))
  {
    var w := o & Watch(d);
    var x := Step(m, d);
    MaskedWithin(o, Watch(d));
    ReachWatched(d, p, o, m, 7);
    StepKeepsSingleLemma(d, m);
    ReachSix(d, p, w, x);
    PassFindsIn(d, p, w, vacant, m);
  }

  /** The flood pass towards `d` finds exactly the vacant cells next to which a run of the
      opponent's discs flanked by the player's starts. */
  lemma PassAgrees(d: Dir, p: bv64, o: bv64, vacant: bv64, m: bv64)
    ensures SingleOrZero(m)
            ==> (Meets(m, Pass(d, p, o & Watch(d), vacant))
                 <==> Meets(m, vacant) && Reach(d, p, o, Step(m, d), 7))
  {
    PassAgreesOut(d, p, o, vacant, m);
    PassAgreesIn(d, p, o, vacant, m);
  }

  /** `PassOf` is the pass towards `d` with the watch board of `d`. */
  lemma PassOfIs(p: bv64, o: bv64, d: Dir)
    ensures PassOf(p, o, d) == Pass(d, p, o & Watch(d), VacantBoardOf(OccupiedBoardOf(p, o)))
  {}

  /** The pass of `legalBoardOf` towards `d` finds exactly the vacant cells next to which
      a run of the opponent's discs flanked by the player's starts. */
  lemma PassOfAgrees(p: bv64, o: bv64, d: Dir, m: bv64)
    ensures SingleOrZero(m)
            ==> (Meets(m, PassOf(p, o, d))
                 <==> Meets(m, VacantBoardOf(OccupiedBoardOf(p, o))) && Reach(d, p, o, Step(m, d), 7))
  {
    PassOfIs(p, o, d);
    PassAgrees(d, p, o, VacantBoardOf(OccupiedBoardOf(p, o)), m);
  }

  /** The pass towards `d` finds the cell `m`. */
  predicate PassFinds(d: Dir, p: bv64, o: bv64, m: bv64) {
    Meets(m, PassOf(p, o, d))
  }

  /** The position of each direction among the passes of `legalBoardOf`. */
  function PassIndex(d: Dir): (i: nat)
    ensures i < 8 && PASS_ORDER[i] == d
  {
    match d
    case W => 0
    case E => 1
    case N => 2
    case S => 3
    case NE => 4
    case NW => 5
    case SE => 6
    case SW => 7
  }

  /** The position `k` of each direction among the walks of `handleMove`. */
  function DirIndex(d: Dir): (k: nat)
    ensures k < 8 && Dirs[k] == d
  {
    match d
    case S => 0
    case SW => 1
    case W => 2
    case NW => 3
    case N => 4
    case NE => 5
    case E => 6
    case SE => 7
  }

  /** A cell meets the union of eight boards exactly when it meets the board some
      direction indexes. */
  lemma MeetsEight(m: bv64, ps: seq<bv64>)
    requires |ps| == 8
    ensures Meets(m, UnionOf(ps)) <==> exists d: Dir :: Meets(m, ps[PassIndex(d)])
  {
    MeetsUnionOf(m, ps);
    if Meets(m, UnionOf(ps)) {
      var i :| 0 <= i < 8 && Meets(m, ps[i]);
      assert PassIndex(PASS_ORDER[i]) == i;
    }
  }

  /** The pass of `legalBoardOf` at the position of `d` is the pass towards `d`. */
  lemma PassesAt(p: bv64, o: bv64, d: Dir)
    ensures Passes(p, o)[PassIndex(d)] == PassOf(p, o, d)
  {
    match d
    case W => PassesAtW(p, o);
    case E => PassesAtE(p, o);
    case N => PassesAtN(p, o);
    case S => PassesAtS(p, o);
    case NE => PassesAtNE(p, o);
    case NW => PassesAtNW(p, o);
    case SE => PassesAtSE(p, o);
    case SW => PassesAtSW(p, o);
  }

  lemma PassesAtW(p: bv64, o: bv64) ensures Passes(p, o)[0] == PassOf(p, o, W) {}
  lemma PassesAtE(p: bv64, o: bv64) ensures Passes(p, o)[1] == PassOf(p, o, E) {}
  lemma PassesAtN(p: bv64, o: bv64) ensures Passes(p, o)[2] == PassOf(p, o, N) {}
  lemma PassesAtS(p: bv64, o: bv64) ensures Passes(p, o)[3] == PassOf(p, o, S) {}
  lemma PassesAtNE(p: bv64, o: bv64) ensures Passes(p, o)[4] == PassOf(p, o, NE) {}
  lemma PassesAtNW(p: bv64, o: bv64) ensures Passes(p, o)[5] == PassOf(p, o, NW) {}
  lemma PassesAtSE(p: bv64, o: bv64) ensures Passes(p, o)[6] == PassOf(p, o, SE) {}
  lemma PassesAtSW(p: bv64, o: bv64) ensures Passes(p, o)[7] == PassOf(p, o, SW) {}

  /** A cell is legal exactly when the pass of some direction finds it. */
  lemma MeetsLegal(p: bv64, o: bv64, m: bv64)
    ensures Meets(m, LegalBoardOf(p, o)) <==> exists d: Dir :: PassFinds(d, p, o, m)
  {
    var ps := Passes(p, o);
    MeetsEight(m, ps);
    forall d: Dir
      ensures Meets(m, ps[PassIndex(d)]) == PassFinds(d, p, o, m)
    {
      PassesAt(p, o, d);
    }
  }

  /** A move flips something exactly when it flips something in some direction. */
  lemma FlipsAny(p: bv64, o: bv64, put: bv64)
    ensures Flips(p, o, put) != 0 <==> exists d: Dir :: DirFlips(d, p, o, put) != 0
  {
    var rs := DirRuns(p, o, put);
    UnionOfEmpty(rs);
    if Flips(p, o, put) != 0 {
      var k :| 0 <= k < 8 && rs[k] != 0;
      assert DirFlips(Dirs[k], p, o, put) != 0;
    }
    if exists d: Dir :: DirFlips(d, p, o, put) != 0 {
      var d: Dir :| DirFlips(d, p, o, put) != 0;
      assert rs[DirIndex(d)] != 0;
    }
  }

  /** A one-cell board is vacant exactly when neither player holds its cell. */
  lemma VacantSingle(m: bv64, p: bv64, o: bv64)
    ensures Single(m)
            ==> (Meets(m, VacantBoardOf(OccupiedBoardOf(p, o))) <==> !Meets(m, p) && !Meets(m, o))
  {}

  /** From a cell of the board, the walk of the bit board towards `d` is the reference
      walk from its neighbour. */
  lemma StepFlanks(p: bv64, o: bv64, c: bv7, d: Dir)
    requires c < 64
    ensures Reach(d, p, o, Step(CellBit(c), d), 7) <==> Flanks(d, p, o, c)
  {
    StepIsNeighbour(d, c);
    ReachIsRay(d, p, o, Neighbour(c, d), 7);
  }

  /** On the board, the pass towards `d` finds exactly the empty cells that flank a run of
      the opponent's discs towards `d`. */
  lemma PassIsFlank(p: bv64, o: bv64, c: bv7, d: Dir)
    requires c < 64
    ensures PassFinds(d, p, o, CellBit(c)) <==> !HasCell(p, c) && !HasCell(o, c) && Flanks(d, p, o, c)
  {
    var m := CellBit(c);
    OneBit(c);
    VacantSingle(m, p, o);
    PassOfAgrees(p, o, d, m);
    StepFlanks(p, o, c, d);
  }

  /** The legal board holds exactly the cells the reference rule allows. */
  lemma LegalCellAgrees(p: bv64, o: bv64, c: bv7)
    requires c < 64
    ensures HasCell(LegalBoardOf(p, o), c) <==> LegalCell(p, o, c)
  {
    MeetsLegal(p, o, CellBit(c));
    forall d: Dir
      ensures PassFinds(d, p, o, CellBit(c)) <==> !HasCell(p, c) && !HasCell(o, c) && Flanks(d, p, o, c)
    {
      PassIsFlank(p, o, c, d);
    }
  }

  /** `legalBoardOf` computes the rule of Reversi: cell `i` is set in the legal board
      exactly when it is an empty cell of the board from which, in some direction, a run of
      the opponent's discs is closed by one of the player's discs. */
  lemma LegalIsReference(p: bv64, o: bv64, i: int)
    ensures Has(LegalBoardOf(p, o), i) <==> 0 <= i < 64 && LegalCell(p, o, i as bv7)
  {
    MoveToBoardCell(i);
    if 0 <= i < 64 {
      IndexFits(i);
      CellBitOf(i);
      LegalCellAgrees(p, o, i as bv7);
    }
  }

  /** For disjoint boards, a one-cell board is legal exactly when it is vacant and the
      walks of `handleMove` flip at least one disc from it: the two halves of the engine
      agree. */
  lemma LegalFlips(p: bv64, o: bv64, m: bv64)
    ensures SingleOrZero(m) && !Meets(p, o)
            ==> (Meets(m, LegalBoardOf(p, o))
                 <==> Meets(m, VacantBoardOf(OccupiedBoardOf(p, o))) && Flips(p, o, m) != 0)
  {
    var vacant := VacantBoardOf(OccupiedBoardOf(p, o));
    MeetsLegal(p, o, m);
    FlipsAny(p, o, m);
    forall d: Dir
      ensures SingleOrZero(m) && !Meets(p, o)
              ==> (PassFinds(d, p, o, m) <==> Meets(m, vacant) && DirFlips(d, p, o, m) != 0)
    {
      PassOfAgrees(p, o, d, m);
      DirFlipsReach(d, p, o, m);
    }
  }

  /** One round of the inner loop of `handleMove` from cell `c` of `o`: the cell joins the
      run and the walk moves on to its neighbour. */
  lemma WalkOnCell(d: Dir, o: bv64, c: bv7, n: nat, run: bv64)
    requires c <= OFF && n > 0 && HasCell(o, c)
    ensures Walk(d, o, CellBit(c), n, run)
            == Walk(d, o, CellBit(Neighbour(c, d)), n - 1, Union(run, CellBit(c)))
  {
    StepIsNeighbour(d, c);
  }

  /** The grid walk from cell `c` of `o` passes `x` exactly when `x` is `c` or the walk from
      the neighbour of `c` passes it. */
  lemma RunCellsOn(d: Dir, o: bv64, c: bv7, n: nat, x: bv7)
    requires c < 64 && x < 64 && n > 0 && HasCell(o, c)
    ensures x in RunCells(d, o, c, n)
            <==> HasCell(CellBit(c), x) || x in RunCells(d, o, Neighbour(c, d), n - 1)
  {}

  /** The walk of `handleMove` from cell `c` adds cell `x` to its run exactly when the grid
      walk over `o` from `c` passes `x`. */
  predicate WalkMatches(d: Dir, o: bv64, c: bv7, n: nat, run: bv64, x: bv7) {
    HasCell(Walk(d, o, CellBit(c), n, run).passed, x)
    <==> HasCell(run, x) || x in RunCells(d, o, c, n)
  }

  /** The inductive step of `WalkCells`: what the walk from the neighbour adds, with `c`
      joined to the run, is what the walk from `c` adds. */
  lemma WalkCellsStep(d: Dir, o: bv64, c: bv7, n: nat, run: bv64, x: bv7)
    requires c < 64 && x < 64 && n > 0 && HasCell(o, c)
    requires WalkMatches(d, o, Neighbour(c, d), n - 1, Union(run, CellBit(c)), x)
    ensures WalkMatches(d, o, c, n, run, x)
  {
    WalkOnCell(d, o, c, n, run);
    MeetsUnion(CellBit(x), run, CellBit(c));
    MeetsPart(CellBit(x), run, CellBit(c));
    RunCellsOn(d, o, c, n, x);
  }

  /** A walk of `handleMove` that starts off the board or off the discs of `o` adds
      nothing, and neither does the grid walk. */
  lemma WalkCellsStop(d: Dir, o: bv64, c: bv7, n: nat, run: bv64, x: bv7)
    requires c <= OFF && !(n > 0 && c < 64 && HasCell(o, c))
    ensures WalkMatches(d, o, c, n, run, x)
  {}

  /** One step of the induction of `WalkCells`, on or off a disc of `o`. */
  lemma WalkCellsCase(d: Dir, o: bv64, c: bv7, n: nat, run: bv64, x: bv7)
    requires c <= OFF && x < 64
    requires n > 0 && c < 64 ==> WalkMatches(d, o, Neighbour(c, d), n - 1, Union(run, CellBit(c)), x)
    ensures WalkMatches(d, o, c, n, run, x)
  {
    if n > 0 && c < 64 && HasCell(o, c) {
      WalkCellsStep(d, o, c, n, run, x);
    } else {
      WalkCellsStop(d, o, c, n, run, x);
    }
  }

  /** A walk of `handleMove` from cell `c` adds to its run exactly the grid run of `o` from
      `c`. */
  lemma {:induction false} WalkCells(d: Dir, o: bv64, c: bv7, n: nat, run: bv64, x: bv7)
    requires c <= OFF && x < 64
    ensures WalkMatches(d, o, c, n, run, x)
    decreases n
  {
    if n > 0 && c < 64 {
      WalkCells(d, o, Neighbour(c, d), n - 1, Union(run, CellBit(c)), x);
    }
    WalkCellsCase(d, o, c, n, run, x);
  }

  /** On disjoint boards, the direction `d` of `handleMove` flips something from cell `m`
      exactly when `m` flanks a run towards `d`, and then it flips exactly the cells of that
      run: the discs of `o` from the neighbour of `m` up to the closing disc of `p`. */
  lemma DirFlipsCells(d: Dir, p: bv64, o: bv64, m: bv7, x: bv7)
    requires m < 64 && x < 64 && !Meets(p, o)
    ensures DirFlips(d, p, o, CellBit(m)) != 0 <==> Flanks(d, p, o, m)
    ensures HasCell(DirFlips(d, p, o, CellBit(m)), x)
            <==> Flanks(d, p, o, m) && x in RunCells(d, o, Neighbour(m, d), 7)
  {
    var put := CellBit(m);
    OneBit(m);
    DirFlipsReach(d, p, o, put);
    StepFlanks(p, o, m, d);
    StepIsNeighbour(d, m);
    WalkCells(d, o, Neighbour(m, d), 7, 0, x);
  }

  /** On disjoint boards, the discs `handleMove` flips for a move on cell `m` are exactly
      the cells of the runs `m` flanks, over all eight directions. */
  lemma FlipsCells(p: bv64, o: bv64, m: bv7, x: bv7)
    requires m < 64 && x < 64 && !Meets(p, o)
    ensures HasCell(Flips(p, o, CellBit(m)), x)
            <==> exists d: Dir :: Flanks(d, p, o, m) && x in RunCells(d, o, Neighbour(m, d), 7)
  {
    var rs := DirRuns(p, o, CellBit(m));
    MeetsUnionOf(CellBit(x), rs);
    forall d: Dir
      ensures HasCell(rs[DirIndex(d)], x)
              <==> Flanks(d, p, o, m) && x in RunCells(d, o, Neighbour(m, d), 7)
    {
      DirFlipsCells(d, p, o, m, x);
    }
    if HasCell(Flips(p, o, CellBit(m)), x) {
      var k :| 0 <= k < 8 && HasCell(rs[k], x);
      DirFlipsCells(Dirs[k], p, o, m, x);
    }
  }

  /** Black on cell 19 and white on 17 and 18: black's move on 16 closes the white run of
      two discs towards the east and flips both of them. */
  lemma TwoDiscRun(x: bv7)
    requires x < 64
    ensures DirFlips(E, 0x8_0000, 0x6_0000, CellBit(16)) == 0x6_0000
    ensures HasCell(Flips(0x8_0000, 0x6_0000, CellBit(16)), x) <==> x == 17 || x == 18
  {
    FlipsCells(0x8_0000, 0x6_0000, 16, x);
    assert RunCells(E, 0x6_0000, 17, 7) == {17, 18};
  }

  /** Every pass lands on vacant cells only. */
  lemma PassVacant(p: bv64, o: bv64, d: Dir)
    ensures Within(PassOf(p, o, d), VacantBoardOf(OccupiedBoardOf(p, o)))
  {
    var vacant := VacantBoardOf(OccupiedBoardOf(p, o));
    MaskedWithin(vacant, Back(d, Flood(d, p, o & Watch(d), 6)));
  }

  /** The union of eight boards lies inside `v` when the board of every direction does. */
  lemma WithinEight(ps: seq<bv64>, v: bv64)
    requires |ps| == 8
    ensures (forall d: Dir :: Within(ps[PassIndex(d)], v)) ==> Within(UnionOf(ps), v)
  {
    if forall d: Dir :: Within(ps[PassIndex(d)], v) {
      forall i | 0 <= i < 8
        ensures Within(ps[i], v)
      {
        assert PassIndex(PASS_ORDER[i]) == i;
      }
      UnionOfWithin(ps, v);
    }
  }

  /** The legal board holds vacant cells only. */
  lemma LegalVacant(p: bv64, o: bv64)
    ensures Within(LegalBoardOf(p, o), VacantBoardOf(OccupiedBoardOf(p, o)))
  {
    var ps := Passes(p, o);
    var vacant := VacantBoardOf(OccupiedBoardOf(p, o));
    forall d: Dir
      ensures Within(ps[PassIndex(d)], vacant)
    {
      PassesAt(p, o, d);
      PassVacant(p, o, d);
    }
    WithinEight(ps, vacant);
  }
}
