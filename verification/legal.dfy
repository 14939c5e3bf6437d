/** The legal-move generator `legalBoardOf` (Board.ts lines 136-213): eight flood passes,
    one per direction, each following runs of opponent discs from the player's discs.

    The engine shifts unbounded big integers, but every intermediate value is ANDed with a
    mask inside the 64 cells (a watch mask or the vacant board) before it is used, so the
    truncating shifts of `bv64` compute the same boards. */
module Legal {
  import opened Bitboard
  import opened Directions

  /** The flood of one pass of `legalBoardOf` after `n` of its lines: the first line is
      `tmp = watch & shift(player)`, each further line is `tmp |= watch & shift(tmp)`, where
      `shift` is `Back(d, _)`. */
  function Flood(d: Dir, p: bv64, w: bv64, n: nat): bv64
    decreases n, p
  {
    if n <= 1 then Line(d, w, p) else Grow(d, w, Flood(d, p, w, n - 1))
  }

  /** One pass of `legalBoardOf`: six flood lines over the watch board `w`, then one more
      shift onto the vacant cells. */
  function Pass(d: Dir, p: bv64, w: bv64, vacant: bv64): bv64 {
    Line(d, vacant, Flood(d, p, w, 6))
  }

  /** The directions of the eight passes of `legalBoardOf`, in the engine's order: flood
      shifts `<< 1`, `>> 1`, `<< 8`, `>> 8`, `<< 7`, `<< 9`, `>> 9`, `>> 7`. */
  const PASS_ORDER: seq<Dir> := [W, E, N, S, NE, NW, SE, SW]

  /** The pass towards `d` for the player `p` against the opponent `o`: it floods the
      opponent's discs under the watch board of `d` (`o & HORIZONTAL`, `o & VERTICAL` or
      `o & ALL_SIDE`) and lands on the vacant cells. */
  function PassOf(p: bv64, o: bv64, d: Dir): bv64 {
    Pass(d, p, o & Watch(d), VacantBoardOf(OccupiedBoardOf(p, o)))
  }

  /** The eight passes of `legalBoardOf`, in the engine's order. */
  function Passes(p: bv64, o: bv64): (r: seq<bv64>)
    ensures |r| == 8
  {
    [PassOf(p, o, W), PassOf(p, o, E), PassOf(p, o, N), PassOf(p, o, S),
     PassOf(p, o, NE), PassOf(p, o, NW), PassOf(p, o, SE), PassOf(p, o, SW)]
  }

  /** The cells where the player with discs `p` may move against the opponent with discs
      `o`: the union of the passes. */
  function LegalBoardOf(p: bv64, o: bv64): bv64 {
    UnionOf(Passes(p, o))
  }

  /** The flood never leaves `w`. */
  lemma {:induction false} FloodWithin(d: Dir, p: bv64, w: bv64, n: nat)
    ensures Within(Flood(d, p, w, n), w)
    decreases n
  {
    if n > 1 {
      var t := Flood(d, p, w, n - 1);
      FloodWithin(d, p, w, n - 1);
      FloodStep(d, p, w, n);
      GrowWithin(d, w, t);
    }
  }

  lemma GrowWithin(d: Dir, w: bv64, t: bv64)
    ensures Within(t, w) ==> Within(Grow(d, w, t), w)
  {}

  lemma FloodOne(d: Dir, p: bv64, w: bv64)
    ensures Flood(d, p, w, 1) == w & Back(d, p)
  {}

  lemma FloodStep(d: Dir, p: bv64, w: bv64, n: nat)
    requires n > 1
    ensures Flood(d, p, w, n) == Grow(d, w, Flood(d, p, w, n - 1))
  {}

  /** A flood whose next line adds nothing to its first line stays at its first line. */
  lemma {:induction false} FloodFixed(d: Dir, p: bv64, w: bv64, t: bv64, n: nat)
    requires Flood(d, p, w, 1) == t && Grow(d, w, t) == t
    ensures Flood(d, p, w, n) == t
    decreases n
  {
    if n > 1 {
      FloodFixed(d, p, w, t, n - 1);
      FloodStep(d, p, w, n);
    }
  }

  /** A pass whose first flood line does not grow lands one step beyond that line. */
  lemma PassSettles(d: Dir, p: bv64, o: bv64, t: bv64)
    requires Flood(d, p, o & Watch(d), 1) == t && Grow(d, o & Watch(d), t) == t
    ensures PassOf(p, o, d) == Line(d, VacantBoardOf(OccupiedBoardOf(p, o)), t)
  {
    FloodFixed(d, p, o & Watch(d), t, 6);
  }

  /** A cell of the line `w & Back(d, t)` is added by `Grow`. */
  lemma GrowAdds(d: Dir, w: bv64, t: bv64, x: bv64)
    ensures Meets(x, w & Back(d, t)) ==> Meets(x, Grow(d, w, t))
  {
    MeetsUnion(x, t, w & Back(d, t));
  }

  /** `Grow` keeps what it had. */
  lemma GrowKeeps(d: Dir, w: bv64, t: bv64, x: bv64)
    ensures Meets(x, t) ==> Meets(x, Grow(d, w, t))
  {
    MeetsUnion(x, t, w & Back(d, t));
  }

  /** A cell of `Grow` was there before or is on the new line. */
  lemma GrowParts(d: Dir, w: bv64, t: bv64, x: bv64)
    ensures Meets(x, Grow(d, w, t)) ==> Meets(x, t) || Meets(x, w & Back(d, t))
  {
    MeetsPart(x, t, w & Back(d, t));
  }

  /** A flooded cell that was not flooded one line earlier is in `w`, and its step was
      flooded then. */
  lemma FloodedLater(d: Dir, p: bv64, w: bv64, x: bv64, n: nat)
    requires n > 1
    ensures Within(w, Watch(d)) && Meets(x, Flood(d, p, w, n)) && !Meets(x, Flood(d, p, w, n - 1))
            ==> Meets(x, w) && Meets(Step(x, d), Flood(d, p, w, n - 1))
  {
    var t := Flood(d, p, w, n - 1);
    FloodStep(d, p, w, n);
    GrowParts(d, w, t, x);
    GrowOutLemma(d, x, w, t);
  }

  /** A watched cell whose step is flooded one line earlier is flooded. */
  lemma FloodedFromStep(d: Dir, p: bv64, w: bv64, x: bv64, n: nat)
    requires n > 1
    ensures SingleOrZero(x) && Within(w, Watch(d)) && Meets(x, w) && Meets(Step(x, d), Flood(d, p, w, n - 1))
            ==> Meets(x, Flood(d, p, w, n))
  {
    var t := Flood(d, p, w, n - 1);
    FloodStep(d, p, w, n);
    GrowInLemma(d, x, w, t);
    GrowAdds(d, w, t, x);
  }

  /** A cell flooded one line earlier stays flooded. */
  lemma FloodedStays(d: Dir, p: bv64, w: bv64, x: bv64, n: nat)
    requires n > 1
    ensures Meets(x, Flood(d, p, w, n - 1)) ==> Meets(x, Flood(d, p, w, n))
  {
    FloodStep(d, p, w, n);
    GrowKeeps(d, w, Flood(d, p, w, n - 1), x);
  }

  /** Every cell of the `n`-line flood starts a flanked run of at most `n` discs of `w`. */
  lemma {:induction false} FloodReaches(d: Dir, p: bv64, w: bv64, x: bv64, n: nat)
    requires n >= 1
    ensures Within(w, Watch(d)) && Meets(x, Flood(d, p, w, n)) ==> Reach(d, p, w, x, n)
    decreases n
  {
    if n == 1 {
      FloodOne(d, p, w);
      GrowOutLemma(d, x, w, p);
    } else {
      FloodReaches(d, p, w, x, n - 1);
      ReachMono(d, p, w, x, n - 1);
      FloodedLater(d, p, w, x, n);
      FloodReaches(d, p, w, Step(x, d), n - 1);
    }
  }

  /** Every cell that starts a flanked run of at most `n` discs of `w` is in the `n`-line
      flood. */
  lemma {:induction false} ReachFlooded(d: Dir, p: bv64, w: bv64, x: bv64, n: nat)
    ensures SingleOrZero(x) && Within(w, Watch(d)) && Reach(d, p, w, x, n)
            ==> Meets(x, Flood(d, p, w, n))
    decreases n
  {
    if n == 1 {
      FloodOne(d, p, w);
      GrowInLemma(d, x, w, p);
    } else if n > 1 {
      ReachFlooded(d, p, w, x, n - 1);
      FloodedStays(d, p, w, x, n);
      StepKeepsSingleLemma(d, x);
      ReachFlooded(d, p, w, Step(x, d), n - 1);
      FloodedFromStep(d, p, w, x, n);
    }
  }

  /** A cell found by the pass towards `d` is vacant, and its step is flooded. */
  lemma PassLands(d: Dir, p: bv64, w: bv64, vacant: bv64, m: bv64)
    ensures Within(w, Watch(d)) && Meets(m, Pass(d, p, w, vacant))
            ==> Meets(m, vacant) && Meets(Step(m, d), Flood(d, p, w, 6))
  {
    var f := Flood(d, p, w, 6);
    FloodWithin(d, p, w, 6);
    WithinTrans(f, w, Watch(d));
    LandOutLemma(d, m, vacant, f);
  }

  /** A cell found by the pass towards `d` is vacant, and a flanked run of at most six
      discs of `w` starts next to it. */
  lemma PassFindsOut(d: Dir, p: bv64, w: bv64, vacant: bv64, m: bv64)
    ensures Within(w, Watch(d)) && Meets(m, Pass(d, p, w, vacant))
            ==> Meets(m, vacant) && Reach(d, p, w, Step(m, d), 6)
  {
    PassLands(d, p, w, vacant, m);
    FloodReaches(d, p, w, Step(m, d), 6);
  }

  /** A vacant cell whose step is flooded is found by the pass. */
  lemma PassFromFlood(d: Dir, p: bv64, w: bv64, vacant: bv64, m: bv64)
    ensures SingleOrZero(m) && Within(w, Watch(d)) && Meets(m, vacant)
            && Meets(Step(m, d), Flood(d, p, w, 6))
            ==> Meets(m, Pass(d, p, w, vacant))
  {
    var f := Flood(d, p, w, 6);
    FloodWithin(d, p, w, 6);
    WithinTrans(f, w, Watch(d));
    LandInLemma(d, m, vacant, f);
  }

  /** A vacant cell next to which a flanked run of at most six discs of `w` starts is found
      by the pass towards `d`. */
  lemma PassFindsIn(d: Dir, p: bv64, w: bv64, vacant: bv64, m: bv64)
    ensures SingleOrZero(m) && Within(w, Watch(d)) && Meets(m, vacant) && Reach(d, p, w, Step(m, d), 6)
            ==> Meets(m, Pass(d, p, w, vacant))
  {
    StepKeepsSingleLemma(d, m);
    ReachFlooded(d, p, w, Step(m, d), 6);
    PassFromFlood(d, p, w, vacant, m);
  }
}
