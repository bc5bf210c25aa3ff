/** The receiver's flow-control window. */
module Window {
  const INITIAL: nat := 4
  const MIN: nat := 2
  const MAX_SLOW: nat := 10
  const MAX_VERY_SLOW: nat := 4
  const MAX_FAST: nat := 75
  const FAST_ROUNDS: nat := 4
  const VERY_SLOW_ROUNDS: nat := 2
  const RATE_FAST: nat := 6250
  const RATE_VERY_SLOW: nat := 250
  const FLEXIBILITY: nat := 4

  datatype State = State(window: nat, min: nat, max: nat, fast: nat, slow: nat)

  const START := State(INITIAL, MIN, MAX_SLOW, 0, 0)

  function Over(a: nat, b: nat): nat {
    if a >= b then a - b else 0
  }

  /** The window part of `grow`. */
  function Widened(s: State): State {
    if s.window < s.max then
      s.(window := s.window + 1, min := if Over(s.window + 1, s.min) > FLEXIBILITY - 1 then s.min + 1 else s.min)
    else s
  }

  /** `WindowState::grow`. */
  function Grow(s: State, rate: nat): State {
    var w := Widened(s);
    if rate == 0 then w
    else if rate > RATE_FAST then
      w.(fast := w.fast + 1, slow := 0, max := if w.fast + 1 >= FAST_ROUNDS then MAX_FAST else w.max)
    else if rate < RATE_VERY_SLOW then
      if w.slow + 1 >= VERY_SLOW_ROUNDS then
        w.(slow := w.slow + 1, fast := 0, max := MAX_VERY_SLOW,
           window := if w.window > MAX_VERY_SLOW then MAX_VERY_SLOW else w.window)
      else w.(slow := w.slow + 1, fast := 0)
    else w.(fast := 0, slow := 0)
  }

  /** `WindowState::shrink`. */
  function Shrink(s: State): State {
    var a := if s.window > s.min then s.(window := s.window - 1) else s;
    var b := if a.max > a.min then a.(max := a.max - 1) else a;
    if Over(b.max, b.window) > FLEXIBILITY - 1 then b.(max := b.max - 1) else b
  }

  /** What keeps the window open: it is never below two nor above its ceiling, nor that above 75. */
  predicate Bounded(s: State) {
    2 <= s.window <= s.max <= MAX_FAST && 2 <= s.min
  }

  lemma StartBounded()
    ensures Bounded(START)
  {
  }

  lemma GrowBounded(s: State, rate: nat)
    requires Bounded(s)
    ensures Bounded(Grow(s, rate))
  {
  }

  lemma ShrinkBounded(s: State)
    requires Bounded(s)
    ensures Bounded(Shrink(s))
  {
  }

  datatype Change = Grown(rate: nat) | Shrunk

  function Changed(s: State, c: Change): State {
    match c case Grown(rate) => Grow(s, rate) case Shrunk => Shrink(s)
  }

  function After(s: State, changes: seq<Change>): State {
    if changes == [] then s else Changed(After(s, changes[..|changes| - 1]), changes[|changes| - 1])
  }

  /** However the window grows and shrinks, it stays between two and its ceiling, and that at most 75. */
  lemma {:induction false} AlwaysBounded(changes: seq<Change>)
    ensures Bounded(After(START, changes))
  {
    hide Grow, Shrink;
    if changes != [] {
      AlwaysBounded(changes[..|changes| - 1]);
      var r := After(START, changes[..|changes| - 1]);
      match changes[|changes| - 1] {
        case Grown(rate) => GrowBounded(r, rate);
        case Shrunk => ShrinkBounded(r);
      }
    }
  }

  // --- The floor --------------------------------------------------------------------------------

  /** The floor is a lower bound of the window. */
  predicate OnFloor(s: State) {
    s.min <= s.window
  }

  /** A very slow round that is not the first in a row, when the floor has risen above what such a round allows. */
  predicate Presses(s: State, c: Change) {
    && c.Grown? && 0 < c.rate < RATE_VERY_SLOW
    && s.slow + 1 >= VERY_SLOW_ROUNDS && Widened(s).min > MAX_VERY_SLOW
  }

  /** One change leaves the window on its floor exactly when it does not press it. */
  lemma FloorStep(s: State, c: Change)
    requires Bounded(s) && OnFloor(s)
    ensures OnFloor(Changed(s, c)) <==> !Presses(s, c)
  {
  }

  /** No change of a run presses the window it meets. */
  ghost predicate NeverPressed(changes: seq<Change>) {
    forall n :: 0 <= n < |changes| ==> !Presses(After(START, changes[..n]), changes[n])
  }

  ghost predicate AlwaysOnFloor(changes: seq<Change>) {
    forall n :: 0 <= n <= |changes| ==> OnFloor(After(START, changes[..n]))
  }

  lemma AfterStep(changes: seq<Change>, n: nat)
    requires n < |changes|
    ensures After(START, changes[..n + 1]) == Changed(After(START, changes[..n]), changes[n])
  {
    assert changes[..n + 1][..n] == changes[..n];
  }

  /** The floor is kept throughout a run exactly when no change presses: two very slow rounds with a floor over four. */
  lemma FloorKeptExactly(changes: seq<Change>)
    ensures AlwaysOnFloor(changes) <==> NeverPressed(changes)
  {
    hide After, Presses, OnFloor, Changed, Bounded;
    if AlwaysOnFloor(changes) {
      forall n | 0 <= n < |changes| ensures !Presses(After(START, changes[..n]), changes[n]) {
        AfterStep(changes, n);
        AlwaysBounded(changes[..n]);
        FloorStep(After(START, changes[..n]), changes[n]);
      }
    }
    if NeverPressed(changes) {
      forall n: nat | n <= |changes| ensures OnFloor(After(START, changes[..n])) {
        FloorKept(changes, n);
      }
    }
  }

  lemma {:induction false} FloorKept(changes: seq<Change>, n: nat)
    requires NeverPressed(changes) && n <= |changes|
    ensures OnFloor(After(START, changes[..n]))
  {
    hide After, Presses, Changed, Bounded;
    if n == 0 {
      assert changes[..0] == [];
      AfterNothing();
    } else {
      FloorKept(changes, n - 1);
      AfterStep(changes, n - 1);
      AlwaysBounded(changes[..n - 1]);
      FloorStep(After(START, changes[..n - 1]), changes[n - 1]);
    }
  }

  // --- Timeouts, rounds and rates ---------------------------------------------------------------

  function Larger(a: nat, b: nat): nat {
    if a >= b then a else b
  }

  function Repeat(c: Change, n: nat): seq<Change> {
    seq(n, _ => c)
  }

  lemma RepeatMore(s: State, c: Change, n: nat)
    requires n > 0
    ensures After(s, Repeat(c, n)) == Changed(After(s, Repeat(c, n - 1)), c)
  {
    assert Repeat(c, n)[..n - 1] == Repeat(c, n - 1);
  }

  /** What is left of a quantity that `n` timeouts take one from, down to a floor. */
  function Left(floor: nat, x: nat, n: nat): nat {
    Larger(floor, Over(x, n))
  }

  /** One more timeout. */
  lemma TimeoutNarrows(s: State, t: State, n: nat)
    requires Bounded(t) && OnFloor(t) && t.min == s.min && t.window == Left(s.min, s.window, n)
    requires t.max <= Left(s.min, s.max, n) && Over(t.max, t.window) <= Left(FLEXIBILITY - 1, Over(s.max, s.window), n)
    ensures var u := Shrink(t);
      && u.min == s.min && u.window == Left(s.min, s.window, n + 1) && u.max <= Left(s.min, s.max, n + 1)
      && Over(u.max, u.window) <= Left(FLEXIBILITY - 1, Over(s.max, s.window), n + 1)
  {
  }

  /**
   Timeouts in a row bring the window down to its floor, one each; the ceiling comes down at least as
   fast, and closes in on the window until it is no more than three above it.
   */
  lemma {:induction false} TimeoutsNarrow(s: State, n: nat)
    requires Bounded(s) && OnFloor(s)
    ensures var t := After(s, Repeat(Shrunk, n));
      && Bounded(t) && OnFloor(t) && t.min == s.min && t.window == Left(s.min, s.window, n)
      && t.max <= Left(s.min, s.max, n) && Over(t.max, t.window) <= Left(FLEXIBILITY - 1, Over(s.max, s.window), n)
  {
    hide After, Shrink, Grow;
    if n == 0 {
      AfterNone(s);
    } else {
      var t := After(s, Repeat(Shrunk, n - 1));
      TimeoutsNarrow(s, n - 1);
      RepeatMore(s, Shrunk, n);
      ShrinkBounded(t);
      hide Bounded;
      TimeoutNarrows(s, t, n - 1);
    }
  }

  lemma AfterNone(s: State)
    ensures Repeat(Shrunk, 0) == [] && Repeat(Grown(0), 0) == [] && After(s, []) == s
  {
  }

  /** Rounds of unknown rate widen the window, one each, up to the ceiling, which stays. */
  lemma {:induction false} RoundsWiden(s: State, n: nat)
    requires Bounded(s)
    ensures var t := After(s, Repeat(Grown(0), n));
      Bounded(t) && t.max == s.max && t.window == if s.window + n <= s.max then s.window + n else s.max
  {
    hide After;
    if n == 0 {
      AfterNone(s);
    } else {
      RoundsWiden(s, n - 1);
      RepeatMore(s, Grown(0), n);
    }
  }

  predicate Fast(c: Change) {
    c.Grown? && c.rate > RATE_FAST
  }

  predicate VerySlow(c: Change) {
    c.Grown? && 0 < c.rate < RATE_VERY_SLOW
  }

  /** Whatever came before, four fast rounds in a row raise the ceiling to 75. */
  lemma FourFastRounds(s: State, a: Change, b: Change, c: Change, d: Change)
    requires Fast(a) && Fast(b) && Fast(c) && Fast(d)
    ensures After(s, [a, b, c, d]).max == MAX_FAST
  {
    assert [a, b, c, d][..3] == [a, b, c] && [a, b, c][..2] == [a, b] && [a, b][..1] == [a] && [a][..0] == [];
    assert After(s, [a]) == Changed(s, a);
    assert After(s, [a, b]) == Changed(After(s, [a]), b);
    assert After(s, [a, b, c]) == Changed(After(s, [a, b]), c);
  }

  /** Whatever came before, two very slow rounds in a row lower ceiling and window to 4. */
  lemma TwoVerySlowRounds(s: State, a: Change, b: Change)
    requires VerySlow(a) && VerySlow(b)
    ensures After(s, [a, b]).max == MAX_VERY_SLOW && After(s, [a, b]).window <= MAX_VERY_SLOW
  {
    assert [a, b][..1] == [a] && [a][..0] == [];
    assert After(s, [a]) == Changed(s, a);
  }

  /** The fast rounds since the last round that was known to be slower. */
  function FastRounds(changes: seq<Change>): nat {
    if changes == [] then 0
    else
      var n, c := FastRounds(changes[..|changes| - 1]), changes[|changes| - 1];
      if Fast(c) then n + 1 else if c.Shrunk? || c.rate == 0 then n else 0
  }

  /** The ceiling rises above ten only by four fast rounds without a slower one between them. */
  lemma {:induction false} CeilingNeedsFastRounds(changes: seq<Change>)
    ensures After(START, changes).fast == FastRounds(changes)
    ensures After(START, changes).max > MAX_SLOW ==>
      exists n :: 0 <= n <= |changes| && FastRounds(changes[..n]) >= FAST_ROUNDS
  {
    if changes != [] {
      var k := |changes| - 1;
      CeilingNeedsFastRounds(changes[..k]);
      assert changes[..|changes|] == changes;
      if After(START, changes[..k]).max > MAX_SLOW {
        var n :| 0 <= n <= k && FastRounds(changes[..k][..n]) >= FAST_ROUNDS;
        assert changes[..k][..n] == changes[..n];
      }
    }
  }

  /** The widest the window has been before a very slow round cut it. */
  function Peak(changes: seq<Change>): nat {
    if changes == [] then INITIAL
    else
      var init, c := changes[..|changes| - 1], changes[|changes| - 1];
      if c.Grown? then Larger(Peak(init), Widened(After(START, init)).window) else Peak(init)
  }

  /** The floor follows the peak at a distance of three, and never comes down. */
  lemma {:induction false} FloorFollowsPeak(changes: seq<Change>)
    ensures var s := After(START, changes);
      s.window <= Peak(changes) && s.min == Larger(MIN, Over(Peak(changes), FLEXIBILITY - 1))
  {
    if changes != [] {
      var init := changes[..|changes| - 1];
      FloorFollowsPeak(init);
      AlwaysBounded(init);
    }
  }

  lemma AfterAppend(s: State, changes: seq<Change>, rate: nat)
    ensures After(s, changes + [Grown(rate)]) == Grow(After(s, changes), rate)
  {
    assert (changes + [Grown(rate)])[..|changes|] == changes;
  }

  lemma {:induction false} GrowTwice(changes: seq<Change>, rate: nat)
    ensures After(START, changes + [Grown(rate)] + [Grown(rate)]) == Grow(Grow(After(START, changes), rate), rate)
  {
    AfterAppend(START, changes, rate);
    AfterAppend(START, changes + [Grown(rate)], rate);
  }

  /** The floor is no lower bound of the window: after fast growth, two slow rounds push the window under it. */
  lemma FloorCanExceedWindow() returns (changes: seq<Change>)
    ensures After(START, changes) == State(4, 7, 4, 0, 2)
  {
    hide After;
    AfterNothing();
    GrowTwice([], 0);
    var two := [] + [Grown(0)] + [Grown(0)];
    GrowTwice(two, 0);
    var four := two + [Grown(0)] + [Grown(0)];
    GrowTwice(four, 0);
    var six := four + [Grown(0)] + [Grown(0)];
    assert After(START, six) == State(10, 7, 10, 0, 0);
    GrowTwice(six, 100);
    changes := six + [Grown(100)] + [Grown(100)];
  }

  lemma AfterNothing()
    ensures After(START, []) == START
  {
  }
}
