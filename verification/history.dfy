/** The move log of the engine (`_allMoves`, Board.ts lines 10-13): real moves and `null`
    pass entries, with the retraction of undone turns done by `allMoves()` (lines 38-54) and
    the filtered view of `moves()` (lines 56-61). */
module History {

  /** A log entry is a move (`Some(cell)`) or a pass (`None`, the engine's `null`). */
  datatype Option<+T> = None | Some(value: T)

  type Log = seq<Option<int>>

  /** The moves of the log, passes left out: the engine's `filter(move !== null)`. */
  function Played(s: Log): seq<int>
    decreases |s|
  {
    if |s| == 0 then []
    else Played(s[..|s| - 1]) + (if s[|s| - 1].Some? then [s[|s| - 1].value] else [])
  }

  /** A log entry is logged exactly when the move is one of the log's moves. */
  lemma {:induction false} PlayedMembers(s: Log, x: int)
    ensures x in Played(s) <==> Some(x) in s
    decreases |s|
  {
    if |s| > 0 {
      var init := s[..|s| - 1];
      PlayedMembers(init, x);
      assert s == init + [s[|s| - 1]];
    }
  }

  /** Filtering distributes over appending one entry. */
  lemma PlayedSnoc(s: Log, e: Option<int>)
    ensures Played(s + [e]) == Played(s) + (if e.Some? then [e.value] else [])
  {
    assert (s + [e])[..|s|] == s;
  }

  /** Filtering distributes over appending logs. */
  lemma {:induction false} PlayedAppend(s: Log, t: Log)
    ensures Played(s + t) == Played(s) + Played(t)
    decreases |t|
  {
    if |t| > 0 {
      var init := t[..|t| - 1];
      var e := t[|t| - 1];
      assert t == init + [e];
      assert s + t == (s + init) + [e];
      PlayedAppend(s, init);
      PlayedSnoc(s + init, e);
      PlayedSnoc(init, e);
    } else {
      assert s + t == s;
    }
  }

  /** A log of passes only holds no moves. */
  lemma {:induction false} PlayedPasses(t: Log)
    ensures (forall i :: 0 <= i < |t| ==> t[i].None?) ==> Played(t) == []
    decreases |t|
  {
    if |t| > 0 {
      PlayedPasses(t[..|t| - 1]);
    }
  }

  /** The inner loop of `allMoves()`: pop the trailing passes. What is left is empty or
      ends with a move, and only passes were removed. */
  function DropPasses(s: Log): (r: Log)
    ensures r <= s
    ensures |r| == 0 || r[|r| - 1].Some?
    ensures forall i :: |r| <= i < |s| ==> s[i].None?
    decreases |s|
  {
    if |s| > 0 && s[|s| - 1].None? then DropPasses(s[..|s| - 1]) else s
  }

  /** One turn taken back: the trailing passes, then the move before them. Popping an
      empty array changes nothing. */
  function DropTurn(s: Log): Log {
    var t := DropPasses(s);
    if |t| > 0 then t[..|t| - 1] else t
  }

  /** The log with `u` turns taken back, as the outer loop of `allMoves()` does. */
  function Retract(s: Log, u: nat): Log
    decreases u
  {
    if u == 0 then s else DropTurn(Retract(s, u - 1))
  }

  /** Dropping the trailing passes keeps every move. */
  lemma DropPassesPlayed(s: Log)
    ensures Played(DropPasses(s)) == Played(s)
  {
    var r := DropPasses(s);
    var tail := s[|r|..];
    assert s == r + tail;
    PlayedAppend(r, tail);
    PlayedPasses(tail);
  }

  /** Taking back a turn removes exactly the last move, and nothing when there is none. */
  lemma DropTurnPlayed(s: Log)
    ensures var n := |Played(s)|;
            Played(DropTurn(s)) == if n == 0 then [] else Played(s)[..n - 1]
  {
    var t := DropPasses(s);
    DropPassesPlayed(s);
    if |t| > 0 {
      var init := t[..|t| - 1];
      var last := t[|t| - 1];
      assert t == init + [last];
      PlayedSnoc(init, last);
      assert Played(t) == Played(init) + [last.value];
      assert DropTurn(s) == init;
    }
  }

  /** Taking back `u` turns removes exactly the last `u` moves (all of them when there are
      fewer): the retraction of `allMoves()` and the slice of `moves()` agree. */
  lemma {:induction false} RetractPlayed(s: Log, u: nat)
    ensures var n := |Played(s)|;
            Played(Retract(s, u)) == if u <= n then Played(s)[..n - u] else []
    decreases u
  {
    if u > 0 {
      RetractPlayed(s, u - 1);
      DropTurnPlayed(Retract(s, u - 1));
    }
  }

  /** Taking back turns leaves a prefix of the log. */
  lemma {:induction false} RetractPrefix(s: Log, u: nat)
    ensures Retract(s, u) <= s
    decreases u
  {
    if u > 0 {
      RetractPrefix(s, u - 1);
    }
  }

  /** `allMoves()` as written: `u` times, pop the trailing `null`s, then pop once. */
  method RetractLoop(s: Log, u: nat) returns (r: Log)
    ensures r == Retract(s, u)
  {
    r := s;
    var i := 0;
    while i < u
      invariant 0 <= i <= u
      invariant r == Retract(s, i)
    {
      ghost var before := r;
      while |r| > 0 && r[|r| - 1] == None
        invariant DropPasses(r) == DropPasses(before)
      {
        r := r[..|r| - 1];
      }
      if |r| > 0 {
        r := r[..|r| - 1];
      }
      i := i + 1;
    }
  }

  /** Taking back `u + 1` turns takes back the last turn, then `u` more. */
  lemma {:induction false} RetractShift(s: Log, u: nat)
    ensures Retract(s, u + 1) == Retract(DropTurn(s), u)
    decreases u
  {
    if u > 0 {
      RetractShift(s, u - 1);
    }
  }

  /** Taking back `v = u + 1` turns takes back `u` turns and then one more. */
  lemma RetractOneMore(s: Log, u: nat, v: nat)
    requires v == u + 1
    ensures Retract(s, v) == DropTurn(Retract(s, u))
  {}

  /** Taking back `u` turns and then `v` more takes back `u + v` turns. */
  lemma {:induction false} RetractAdd(s: Log, u: nat, v: nat)
    ensures Retract(Retract(s, u), v) == Retract(s, u + v)
    decreases v
  {
    if v > 0 {
      RetractAdd(s, u, v - 1);
    }
  }

  /** One turn logged after `a`: the move `m`, then no, one or two passes. */
  predicate LoggedTurn(s: Log, a: Log, m: int) {
    s == a + [Some(m)] || s == a + [Some(m), None] || s == a + [Some(m), None, None]
  }

  /** A move followed by what settling logs is a logged turn. */
  lemma LoggedTurnOf(s: Log, x: Log, a: Log, m: int)
    requires x == a + [Some(m)]
    requires s == x || s == x + [None] || s == x + [None, None]
    ensures LoggedTurn(s, a, m)
  {
    assert a + [Some(m)] + [None] == a + [Some(m), None];
    assert a + [Some(m)] + [None, None] == a + [Some(m), None, None];
  }

  /** A logged turn adds exactly its move, and taking back one turn removes it with its
      passes. */
  lemma LoggedTurnPlayed(s: Log, a: Log, m: int)
    requires LoggedTurn(s, a, m)
    ensures Played(s) == Played(a) + [m]
    ensures DropTurn(s) == a
  {
    var s1 := a + [Some(m)];
    var s2 := s1 + [None];
    assert a + [Some(m), None] == s2;
    assert a + [Some(m), None, None] == s2 + [None];
    assert s2[..|s2| - 1] == s1;
    assert (s2 + [None])[..|s2|] == s2;
    assert s1[..|s1| - 1] == a;
    PlayedSnoc(a, Some(m));
    PlayedSnoc(s1, None);
    PlayedSnoc(s2, None);
  }

  /** The shape of the log: it does not start with a pass, and never holds three passes in
      a row. */
  predicate WellFormedLog(s: Log) {
    && (|s| > 0 ==> s[0].Some?)
    && (forall i :: 0 <= i < |s| - 2 ==> NotThreePasses(s, i))
  }

  /** The three entries from `i` on are not all passes. */
  predicate NotThreePasses(s: Log, i: int)
    requires 0 <= i < |s| - 2
  {
    s[i].Some? || s[i + 1].Some? || s[i + 2].Some?
  }

  /** A prefix of a well-formed log is well formed. */
  lemma WellFormedPrefix(a: Log, s: Log)
    requires WellFormedLog(s) && a <= s
    ensures WellFormedLog(a)
  {
    forall i | 0 <= i < |a| - 2
      ensures NotThreePasses(a, i)
    {
      assert NotThreePasses(s, i);
      assert a[i] == s[i] && a[i + 1] == s[i + 1] && a[i + 2] == s[i + 2];
    }
  }

  /** Logging a turn after a well-formed log keeps it well formed. */
  lemma WellFormedTurn(s: Log, a: Log, m: int)
    requires WellFormedLog(a) && LoggedTurn(s, a, m)
    ensures WellFormedLog(s)
  {
    assert s[..|a|] == a;
    assert s[|a|] == Some(m);
    forall i | 0 <= i < |s| - 2
      ensures NotThreePasses(s, i)
    {
      if i + 2 < |a| {
        assert NotThreePasses(a, i);
        assert s[i] == a[i] && s[i + 1] == a[i + 1] && s[i + 2] == a[i + 2];
      }
    }
  }

  /** The end index JavaScript's `slice(0, end)` uses on a sequence of length `len`: a
      negative end counts from the back, and the result is clamped to `0..len`. */
  function SliceEnd(len: nat, end: int): (k: nat)
    ensures k <= len
    ensures 0 <= end <= len ==> k == end
    ensures end > len ==> k == len
    ensures end < 0 ==> k == if len + end < 0 then 0 else len + end
  {
    if end < 0 then (if len + end < 0 then 0 else len + end)
    else if end < len then end
    else len
  }

  /** JavaScript's `s.slice(0, end)`: a prefix of `s` that keeps `end` elements when `end`
      is not negative and drops `-end` elements from the back when it is, all of them at
      most. */
  function Slice<T>(s: seq<T>, end: int): (r: seq<T>)
    ensures r <= s
    ensures end >= 0 ==> |r| == if end < |s| then end else |s|
    ensures end < 0 ==> |s| - |r| == if -end < |s| then -end else |s|
  {
    s[..SliceEnd(|s|, end)]
  }
}
