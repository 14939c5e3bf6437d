/** The eight directions of the engine's `transfer(put, k)` and of the eight flood passes
    of `legalBoardOf`, and the bit-level facts about them that the rest of the model uses.

    Cell i is row i / 8, column i % 8; "south" is the direction of growing row (+8), "east"
    the direction of growing column (+1). */
module Directions {
  import opened Bitboard

  /** The directions in the engine's order: `transfer(put, k)` moves towards `Dirs[k]`. */
  datatype Dir = S | SW | W | NW | N | NE | E | SE

  const Dirs: seq<Dir> := [S, SW, W, NW, N, NE, E, SE]

  /** One step of every disc of `x` towards `d`; discs that would leave the board (over
      the top or bottom edge, or wrap round a side edge) vanish. */
  function Step(x: bv64, d: Dir): bv64 {
    match d
    case S => (x << 8) & 0xffff_ffff_ffff_ff00
    case SW => (x << 7) & 0x7f7f_7f7f_7f7f_7f00
    case W => (x >> 1) & 0x7f7f_7f7f_7f7f_7f7f
    case NW => (x >> 9) & 0x007f_7f7f_7f7f_7f7f
    case N => (x >> 8) & 0x00ff_ffff_ffff_ffff
    case NE => (x >> 7) & 0x00fe_fefe_fefe_fefe
    case E => (x << 1) & 0xfefe_fefe_fefe_fefe
    case SE => (x << 9) & 0xfefe_fefe_fefe_fe00
  }

  /** `transfer(put, k)`: the step towards direction `k`, and the empty board for any
      other `k`. */
  function Transfer(put: bv64, k: int): bv64 {
    if 0 <= k < 8 then Step(put, Dirs[k]) else 0
  }

  /** The unmasked shift that one flood pass of `legalBoardOf` applies: it moves a disc one
      cell against `d`, so that a run found by the flood is walked towards `d` from the
      legal cell. */
  function Back(d: Dir, x: bv64): bv64 {
    match d
    case S => x >> 8
    case SW => x >> 7
    case W => x << 1
    case NW => x << 9
    case N => x << 8
    case NE => x << 7
    case E => x >> 1
    case SE => x >> 9
  }

  /** The horizontal, vertical and all-side watch masks of `legalBoardOf`: the cells a run
      may pass through, the edges a run cannot cross being cleared. */
  const HORIZONTAL: bv64 := 0x7e7e_7e7e_7e7e_7e7e
  const VERTICAL: bv64 := 0x00ff_ffff_ffff_ff00
  const ALL_SIDE: bv64 := 0x007e_7e7e_7e7e_7e00

  /** The watch mask the flood pass towards `d` uses. */
  function Watch(d: Dir): bv64 {
    match d
    case S | N => VERTICAL
    case W | E => HORIZONTAL
    case SW | NW | NE | SE => ALL_SIDE
  }

  /** Walking towards `d` from the cell `x`, at most `n` discs of `w` are passed before a
      disc of `p` is reached: `x` starts a run of `w` flanked by `p`. */
  predicate Reach(d: Dir, p: bv64, w: bv64, x: bv64, n: nat)
    decreases n
  {
    n > 0 && Meets(x, w) && (Meets(Step(x, d), p) || Reach(d, p, w, Step(x, d), n - 1))
  }

  /** A longer walk reaches whatever a shorter one does. */
  lemma {:induction false} ReachMono(d: Dir, p: bv64, w: bv64, x: bv64, n: nat)
    ensures Reach(d, p, w, x, n) ==> Reach(d, p, w, x, n + 1)
    decreases n
  {
    if n > 0 {
      ReachMono(d, p, w, Step(x, d), n - 1);
    }
  }

  /** `x` and the next `k - 1` cells towards `d` all meet `w`. */
  predicate Run(d: Dir, w: bv64, x: bv64, k: nat)
    decreases k
  {
    k == 0 || (Meets(x, w) && Run(d, w, Step(x, d), k - 1))
  }

  /** `n` steps towards `d`. */
  function Steps(x: bv64, d: Dir, n: nat): bv64
    decreases n
  {
    if n == 0 then x else Steps(Step(x, d), d, n - 1)
  }

  /** The cells of `w` whose step towards `d` meets `t`: one shift of `t` against the
      direction, masked by `w`. */
  function Line(d: Dir, w: bv64, t: bv64): bv64 {
    w & Back(d, t)
  }

  /** One line of a flood pass of `legalBoardOf` after the first: `t | (w & Back(d, t))`
      adds the cells of `w` whose step towards `d` meets `t`. */
  function Grow(d: Dir, w: bv64, t: bv64): bv64 {
    Union(t, Line(d, w, t))
  }

  // The facts below are plain bit-vector identities. Each is proved once per direction,
  // since one solver query for all eight directions at once is far more expensive than
  // eight small ones.

  /** A step moves a single disc to at most one cell. */
  predicate StepKeepsSingle(d: Dir, x: bv64) {
    SingleOrZero(x) ==> SingleOrZero(Step(x, d))
  }

  /** A watched cell of `w` whose step meets `y` is on the flood line `w & Back(d, y)`. */
  predicate GrowIn(d: Dir, x: bv64, w: bv64, y: bv64) {
    SingleOrZero(x) && Within(w, Watch(d)) && Meets(x, w) && Meets(Step(x, d), y)
    ==> Meets(x, w & Back(d, y))
  }

  /** A cell on the flood line `w & Back(d, y)` is in `w`, and its step meets `y`. */
  predicate GrowOut(d: Dir, x: bv64, w: bv64, y: bv64) {
    Within(w, Watch(d)) && Meets(x, w & Back(d, y))
    ==> Meets(x, w) && Meets(Step(x, d), y)
  }

  /** A cell of `v` whose step meets a watched flood `f` is on the last line of the pass. */
  predicate LandIn(d: Dir, m: bv64, v: bv64, f: bv64) {
    SingleOrZero(m) && Within(f, Watch(d)) && Meets(m, v) && Meets(Step(m, d), f)
    ==> Meets(m, v & Back(d, f))
  }

  /** A cell on the last line of the pass is in `v`, and its step meets the flood `f`. */
  predicate LandOut(d: Dir, m: bv64, v: bv64, f: bv64) {
    Within(f, Watch(d)) && Meets(m, v & Back(d, f))
    ==> Meets(m, v) && Meets(Step(m, d), f)
  }

  /** A cell with a cell on each side of it along `d` lies in the watch mask. */
  predicate InnerWatched(d: Dir, x: bv64, b: bv64) {
    SingleOrZero(x) && Meets(Step(Step(x, d), d), b) ==> Within(Step(x, d), Watch(d))
  }

  /** Eight steps leave the board: no line has more than eight cells. */
  predicate Vanishes(d: Dir, x: bv64) {
    Steps(Step(x, d), d, 7) == 0
  }

  /** No line of the board holds seven watched cells. */
  predicate ShortChains(d: Dir, x: bv64) {
    var w := Watch(d);
    var x1 := Step(x, d); var x2 := Step(x1, d); var x3 := Step(x2, d);
    var x4 := Step(x3, d); var x5 := Step(x4, d); var x6 := Step(x5, d);
    SingleOrZero(x) ==>
      !Meets(x, w) || !Meets(x1, w) || !Meets(x2, w) || !Meets(x3, w)
      || !Meets(x4, w) || !Meets(x5, w) || !Meets(x6, w)
  }

  lemma StepKeepsSingleS(x: bv64) ensures StepKeepsSingle(S, x) {}
  lemma StepKeepsSingleSW(x: bv64) ensures StepKeepsSingle(SW, x) {}
  lemma StepKeepsSingleW(x: bv64) ensures StepKeepsSingle(W, x) {}
  lemma StepKeepsSingleNW(x: bv64) ensures StepKeepsSingle(NW, x) {}
  lemma StepKeepsSingleN(x: bv64) ensures StepKeepsSingle(N, x) {}
  lemma StepKeepsSingleNE(x: bv64) ensures StepKeepsSingle(NE, x) {}
  lemma StepKeepsSingleE(x: bv64) ensures StepKeepsSingle(E, x) {}
  lemma StepKeepsSingleSE(x: bv64) ensures StepKeepsSingle(SE, x) {}

  lemma InnerWatchedS(x: bv64, b: bv64) ensures InnerWatched(S, x, b) {}
  lemma InnerWatchedSW(x: bv64, b: bv64) ensures InnerWatched(SW, x, b) {}
  lemma InnerWatchedW(x: bv64, b: bv64) ensures InnerWatched(W, x, b) {}
  lemma InnerWatchedNW(x: bv64, b: bv64) ensures InnerWatched(NW, x, b) {}
  lemma InnerWatchedN(x: bv64, b: bv64) ensures InnerWatched(N, x, b) {}
  lemma InnerWatchedNE(x: bv64, b: bv64) ensures InnerWatched(NE, x, b) {}
  lemma InnerWatchedE(x: bv64, b: bv64) ensures InnerWatched(E, x, b) {}
  lemma InnerWatchedSE(x: bv64, b: bv64) ensures InnerWatched(SE, x, b) {}

  lemma VanishesS(x: bv64) ensures Vanishes(S, x) {}
  lemma VanishesSW(x: bv64) ensures Vanishes(SW, x) {}
  lemma VanishesW(x: bv64) ensures Vanishes(W, x) {}
  lemma VanishesNW(x: bv64) ensures Vanishes(NW, x) {}
  lemma VanishesN(x: bv64) ensures Vanishes(N, x) {}
  lemma VanishesNE(x: bv64) ensures Vanishes(NE, x) {}
  lemma VanishesE(x: bv64) ensures Vanishes(E, x) {}
  lemma VanishesSE(x: bv64) ensures Vanishes(SE, x) {}

  lemma ShortChainsS(x: bv64) ensures ShortChains(S, x) {}
  lemma ShortChainsSW(x: bv64) ensures ShortChains(SW, x) {}
  lemma ShortChainsW(x: bv64) ensures ShortChains(W, x) {}
  lemma ShortChainsNW(x: bv64) ensures ShortChains(NW, x) {}
  lemma ShortChainsN(x: bv64) ensures ShortChains(N, x) {}
  lemma ShortChainsNE(x: bv64) ensures ShortChains(NE, x) {}
  lemma ShortChainsE(x: bv64) ensures ShortChains(E, x) {}
  lemma ShortChainsSE(x: bv64) ensures ShortChains(SE, x) {}

  lemma GrowInS(x: bv64, w: bv64, y: bv64) ensures GrowIn(S, x, w, y) {}
  lemma GrowInSW(x: bv64, w: bv64, y: bv64) ensures GrowIn(SW, x, w, y) {}
  lemma GrowInW(x: bv64, w: bv64, y: bv64) ensures GrowIn(W, x, w, y) {}
  lemma GrowInNW(x: bv64, w: bv64, y: bv64) ensures GrowIn(NW, x, w, y) {}
  lemma GrowInN(x: bv64, w: bv64, y: bv64) ensures GrowIn(N, x, w, y) {}
  lemma GrowInNE(x: bv64, w: bv64, y: bv64) ensures GrowIn(NE, x, w, y) {}
  lemma GrowInE(x: bv64, w: bv64, y: bv64) ensures GrowIn(E, x, w, y) {}
  lemma GrowInSE(x: bv64, w: bv64, y: bv64) ensures GrowIn(SE, x, w, y) {}

  lemma GrowOutS(x: bv64, w: bv64, y: bv64) ensures GrowOut(S, x, w, y) {}
  lemma GrowOutSW(x: bv64, w: bv64, y: bv64) ensures GrowOut(SW, x, w, y) {}
  lemma GrowOutW(x: bv64, w: bv64, y: bv64) ensures GrowOut(W, x, w, y) {}
  lemma GrowOutNW(x: bv64, w: bv64, y: bv64) ensures GrowOut(NW, x, w, y) {}
  lemma GrowOutN(x: bv64, w: bv64, y: bv64) ensures GrowOut(N, x, w, y) {}
  lemma GrowOutNE(x: bv64, w: bv64, y: bv64) ensures GrowOut(NE, x, w, y) {}
  lemma GrowOutE(x: bv64, w: bv64, y: bv64) ensures GrowOut(E, x, w, y) {}
  lemma GrowOutSE(x: bv64, w: bv64, y: bv64) ensures GrowOut(SE, x, w, y) {}

  lemma LandInS(m: bv64, v: bv64, f: bv64) ensures LandIn(S, m, v, f) {}
  lemma LandInSW(m: bv64, v: bv64, f: bv64) ensures LandIn(SW, m, v, f) {}
  lemma LandInW(m: bv64, v: bv64, f: bv64) ensures LandIn(W, m, v, f) {}
  lemma LandInNW(m: bv64, v: bv64, f: bv64) ensures LandIn(NW, m, v, f) {}
  lemma LandInN(m: bv64, v: bv64, f: bv64) ensures LandIn(N, m, v, f) {}
  lemma LandInNE(m: bv64, v: bv64, f: bv64) ensures LandIn(NE, m, v, f) {}
  lemma LandInE(m: bv64, v: bv64, f: bv64) ensures LandIn(E, m, v, f) {}
  lemma LandInSE(m: bv64, v: bv64, f: bv64) ensures LandIn(SE, m, v, f) {}

  lemma LandOutS(m: bv64, v: bv64, f: bv64) ensures LandOut(S, m, v, f) {}
  lemma LandOutSW(m: bv64, v: bv64, f: bv64) ensures LandOut(SW, m, v, f) {}
  lemma LandOutW(m: bv64, v: bv64, f: bv64) ensures LandOut(W, m, v, f) {}
  lemma LandOutNW(m: bv64, v: bv64, f: bv64) ensures LandOut(NW, m, v, f) {}
  lemma LandOutN(m: bv64, v: bv64, f: bv64) ensures LandOut(N, m, v, f) {}
  lemma LandOutNE(m: bv64, v: bv64, f: bv64) ensures LandOut(NE, m, v, f) {}
  lemma LandOutE(m: bv64, v: bv64, f: bv64) ensures LandOut(E, m, v, f) {}
  lemma LandOutSE(m: bv64, v: bv64, f: bv64) ensures LandOut(SE, m, v, f) {}

  lemma StepKeepsSingleLemma(d: Dir, x: bv64)
    ensures StepKeepsSingle(d, x)
  {
    match d
    case S => StepKeepsSingleS(x);
    case SW => StepKeepsSingleSW(x);
    case W => StepKeepsSingleW(x);
    case NW => StepKeepsSingleNW(x);
    case N => StepKeepsSingleN(x);
    case NE => StepKeepsSingleNE(x);
    case E => StepKeepsSingleE(x);
    case SE => StepKeepsSingleSE(x);
  }

  lemma InnerWatchedLemma(d: Dir, x: bv64, b: bv64)
    ensures InnerWatched(d, x, b)
  {
    match d
    case S => InnerWatchedS(x, b);
    case SW => InnerWatchedSW(x, b);
    case W => InnerWatchedW(x, b);
    case NW => InnerWatchedNW(x, b);
    case N => InnerWatchedN(x, b);
    case NE => InnerWatchedNE(x, b);
    case E => InnerWatchedE(x, b);
    case SE => InnerWatchedSE(x, b);
  }

  lemma VanishesLemma(d: Dir, x: bv64)
    ensures Vanishes(d, x)
  {
    match d
    case S => VanishesS(x);
    case SW => VanishesSW(x);
    case W => VanishesW(x);
    case NW => VanishesNW(x);
    case N => VanishesN(x);
    case NE => VanishesNE(x);
    case E => VanishesE(x);
    case SE => VanishesSE(x);
  }

  lemma ShortChainsLemma(d: Dir, x: bv64)
    ensures ShortChains(d, x)
  {
    match d
    case S => ShortChainsS(x);
    case SW => ShortChainsSW(x);
    case W => ShortChainsW(x);
    case NW => ShortChainsNW(x);
    case N => ShortChainsN(x);
    case NE => ShortChainsNE(x);
    case E => ShortChainsE(x);
    case SE => ShortChainsSE(x);
  }

  lemma GrowInLemma(d: Dir, x: bv64, w: bv64, y: bv64)
    ensures GrowIn(d, x, w, y)
  {
    match d
    case S => GrowInS(x, w, y);
    case SW => GrowInSW(x, w, y);
    case W => GrowInW(x, w, y);
    case NW => GrowInNW(x, w, y);
    case N => GrowInN(x, w, y);
    case NE => GrowInNE(x, w, y);
    case E => GrowInE(x, w, y);
    case SE => GrowInSE(x, w, y);
  }

  lemma GrowOutLemma(d: Dir, x: bv64, w: bv64, y: bv64)
    ensures GrowOut(d, x, w, y)
  {
    match d
    case S => GrowOutS(x, w, y);
    case SW => GrowOutSW(x, w, y);
    case W => GrowOutW(x, w, y);
    case NW => GrowOutNW(x, w, y);
    case N => GrowOutN(x, w, y);
    case NE => GrowOutNE(x, w, y);
    case E => GrowOutE(x, w, y);
    case SE => GrowOutSE(x, w, y);
  }

  lemma LandInLemma(d: Dir, m: bv64, v: bv64, f: bv64)
    ensures LandIn(d, m, v, f)
  {
    match d
    case S => LandInS(m, v, f);
    case SW => LandInSW(m, v, f);
    case W => LandInW(m, v, f);
    case NW => LandInNW(m, v, f);
    case N => LandInN(m, v, f);
    case NE => LandInNE(m, v, f);
    case E => LandInE(m, v, f);
    case SE => LandInSE(m, v, f);
  }

  lemma LandOutLemma(d: Dir, m: bv64, v: bv64, f: bv64)
    ensures LandOut(d, m, v, f)
  {
    match d
    case S => LandOutS(m, v, f);
    case SW => LandOutSW(m, v, f);
    case W => LandOutW(m, v, f);
    case NW => LandOutNW(m, v, f);
    case N => LandOutN(m, v, f);
    case NE => LandOutNE(m, v, f);
    case E => LandOutE(m, v, f);
    case SE => LandOutSE(m, v, f);
  }
}
