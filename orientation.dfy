/** The per-frame orientation step of `_animationLoop`: the gap between the
    target angle and the current angle is wrapped by whole turns into
    [-180, 180] degrees, and a `smoothing` fraction of it is added to the
    current angle. The target angle (the pointer's bearing plus the
    rotation offset) is an input. */
module Orientation {
  import opened JsValues

  function Abs(x: real): real {
    if x < 0.0 then -x else x
  }

  /** `x` degrees is a whole number of turns. */
  predicate WholeTurns(x: real) {
    (x / 360.0).Floor as real == x / 360.0
  }

  function Ceil(x: real): int {
    -((-x).Floor)
  }

  lemma TurnsOf(k: int)
    ensures WholeTurns(360.0 * k as real)
  {
    assert 360.0 * k as real / 360.0 == k as real;
  }

  lemma TurnsAdd(a: real, b: real)
    requires WholeTurns(a) && WholeTurns(b)
    ensures WholeTurns(a + b)
  {
    var k := (a / 360.0).Floor + (b / 360.0).Floor;
    assert a + b == 360.0 * k as real;
    TurnsOf(k);
  }

  lemma TurnsNeg(a: real)
    requires WholeTurns(a)
    ensures WholeTurns(-a)
  {
    var k := -((a / 360.0).Floor);
    assert -a == 360.0 * k as real;
    TurnsOf(k);
  }

  /** The only whole number of turns strictly inside one turn is zero. */
  lemma TurnsSmall(a: real)
    requires WholeTurns(a) && -360.0 < a < 360.0
    ensures a == 0.0
  {
    var k := (a / 360.0).Floor;
    assert a == 360.0 * k as real;
  }

  /** How many rounds `while (angleDiff > 180) angleDiff -= 360;` runs
      on `d`. */
  function DownRounds(d: real): nat
  {
    if d > 180.0 then
      assert (180.0 - d).Floor < 0;
      Ceil((d - 180.0) / 360.0)
    else 0
  }

  /** Closed form of `while (angleDiff > 180) angleDiff -= 360;` */
  function Down(d: real): (r: real)
    ensures r <= 180.0
    ensures d > 180.0 ==> r > -180.0
    ensures d <= 180.0 ==> r == d
    ensures WholeTurns(r - d)
  {
    var k := DownRounds(d);
    TurnsOf(-(k as int));
    d - 360.0 * k as real
  }

  /** Closed form of `while (angleDiff < -180) angleDiff += 360;` */
  function Up(d: real): (r: real)
    ensures r >= -180.0
    ensures d < -180.0 ==> r < 180.0
    ensures d >= -180.0 ==> r == d
    ensures WholeTurns(r - d)
  {
    if d < -180.0 then
      var k := Ceil((-180.0 - d) / 360.0);
      TurnsOf(k);
      d + 360.0 * k as real
    else
      TurnsOf(0);
      d
  }

  /** The wrapped angle difference. It differs from `d` by whole turns and
      lies in [-180, 180]: in (-180, 180] when `d` was above 180, in
      [-180, 180) when `d` was below -180, and it is `d` itself otherwise. */
  function Wrap(d: real): (w: real)
    ensures -180.0 <= w <= 180.0
    ensures WholeTurns(w - d)
    ensures d > 180.0 ==> w > -180.0
    ensures d < -180.0 ==> w < 180.0
    ensures -180.0 <= d <= 180.0 ==> w == d
  {
    var r := Down(d);
    TurnsAdd(Up(r) - r, r - d);
    Up(r)
  }

  lemma DownShift(w: real)
    requires w > 180.0
    ensures Down(w - 360.0) == Down(w)
  {
    var x := (w - 180.0) / 360.0;
    if w - 360.0 > 180.0 {
      assert (w - 360.0 - 180.0) / 360.0 == x - 1.0;
      assert (-(x - 1.0)).Floor == (-x).Floor + 1;
    } else {
      assert 0.0 < x <= 1.0;
      assert Ceil(x) == 1;
    }
  }

  lemma UpShift(w: real)
    requires w < -180.0
    ensures Up(w + 360.0) == Up(w)
  {
    var x := (-180.0 - w) / 360.0;
    if w + 360.0 < -180.0 {
      assert (-180.0 - (w + 360.0)) / 360.0 == x - 1.0;
      assert (-(x - 1.0)).Floor == (-x).Floor + 1;
    } else {
      assert 0.0 < x <= 1.0;
      assert Ceil(x) == 1;
    }
  }

  /** The two wrap loops of `_animationLoop`. */
  method WrapDifference(diff: real) returns (angleDiff: real)
    ensures angleDiff == Wrap(diff)
  {
    angleDiff := diff;
    while angleDiff > 180.0
      invariant Down(angleDiff) == Down(diff)
      decreases angleDiff.Floor
    {
      DownShift(angleDiff);
      angleDiff := angleDiff - 360.0;
    }
    while angleDiff < -180.0
      invariant Up(angleDiff) == Wrap(diff)
      decreases (-angleDiff).Floor
    {
      UpShift(angleDiff);
      angleDiff := angleDiff + 360.0;
    }
  }

  /** The first wrap loop on a JavaScript number as written: the value after
      `k` rounds of `angleDiff -= 360`. */
  function SubtractTurns(v: Value, k: nat): (r: Value)
    requires IsNumber(v)
    ensures IsNumber(r)
  {
    if k == 0 then v else Subtract(SubtractTurns(v, k - 1), Num(360.0))
  }

  /** On a finite difference the rounds of the first loop are exact. */
  lemma {:induction false} FiniteTurns(d: real, k: nat)
    ensures SubtractTurns(Num(d), k) == Num(d - 360.0 * k as real)
  {
    if k > 0 {
      FiniteTurns(d, k - 1);
    }
  }

  /** On a finite difference the first loop as written ends: its guard
      holds for `DownRounds(d)` rounds, then fails with `Down(d)` left. */
  lemma FiniteDifferenceLeavesLoop(d: real)
    ensures SubtractTurns(Num(d), DownRounds(d)) == Num(Down(d))
    ensures !GreaterThan(SubtractTurns(Num(d), DownRounds(d)), 180.0)
    ensures forall j :: 0 <= j < DownRounds(d) ==> GreaterThan(SubtractTurns(Num(d), j), 180.0)
  {
    FiniteTurns(d, DownRounds(d));
    forall j | 0 <= j < DownRounds(d)
      ensures GreaterThan(SubtractTurns(Num(d), j), 180.0)
    {
      FiniteTurns(d, j);
      RoundsBeforeLast(d, j);
    }
  }

  /** Before the last round the value is still above a half turn. */
  lemma RoundsBeforeLast(d: real, j: nat)
    requires j < DownRounds(d)
    ensures d - 360.0 * j as real > 180.0
  {
    var x := (d - 180.0) / 360.0;
    assert j as real < x;
    assert 360.0 * j as real < 360.0 * x;
  }

  /** On an infinite difference `angleDiff -= 360` changes nothing, so the
      guard `angleDiff > 180` holds after any number of rounds: the first
      loop never ends. */
  lemma {:induction false} InfiniteDifferenceNeverWraps(k: nat)
    ensures SubtractTurns(NonFinite(PositiveInfinity), k) == NonFinite(PositiveInfinity)
    ensures GreaterThan(SubtractTurns(NonFinite(PositiveInfinity), k), 180.0)
  {
    if k > 0 {
      InfiniteDifferenceNeverWraps(k - 1);
    }
  }

  /** A `NaN` difference fails both loop guards, so it reaches the update
      unchanged, and the angle it updates becomes `NaN`. */
  lemma NaNDifferencePoisonsAngle(current: real, smoothing: Value)
    requires IsNumber(smoothing)
    ensures !GreaterThan(NonFinite(NaN), 180.0) && !LessThan(NonFinite(NaN), -180.0)
    ensures Add(Num(current), Multiply(NonFinite(NaN), smoothing)) == NonFinite(NaN)
  {
  }

  /** A value strictly inside (-180, 180) that differs from `d` by whole
      turns is the wrap of `d`. */
  lemma WrapUnique(d: real, x: real)
    requires -180.0 < x < 180.0 && WholeTurns(x - d)
    ensures Wrap(d) == x
  {
    var w := Wrap(d);
    TurnsNeg(x - d);
    TurnsAdd(w - d, d - x);
    TurnsSmall(w - x);
  }

  /** Crossing the +-180 boundary takes the short way round: from 179 to
      -179 is +2, not -358. */
  lemma WrapAcrossBoundary()
    ensures Wrap(-179.0 - 179.0) == 2.0
  {
    TurnsOf(1);
    assert 2.0 - (-179.0 - 179.0) == 360.0 * 1 as real;
    WrapUnique(-179.0 - 179.0, 2.0);
  }

  /** Scaling by a non-negative factor preserves a bound on magnitude. */
  lemma ScaledBound(a: real, b: real, c: real)
    requires 0.0 <= b && Abs(a) <= c
    ensures Abs(a * b) == Abs(a) * b <= c * b
  {
    if a >= 0.0 {
      assert (c - a) * b >= 0.0;
    } else {
      assert (c + a) * b >= 0.0;
    }
  }

  lemma MulNonNegative(x: real, y: real)
    requires 0.0 <= x && 0.0 <= y
    ensures 0.0 <= x * y
  {
  }

  lemma BelowHalfTurn(m: real, b: real)
    requires 0.0 <= m <= 180.0 && 0.0 <= b < 1.0
    ensures 0.0 <= m * b < 180.0 && m * b <= m
  {
    MulNonNegative(m, b);
    MulNonNegative(180.0 - m, b);
    assert (180.0 - m) * b == 180.0 * b - m * b;
    MulNonNegative(m, 1.0 - b);
    assert m * (1.0 - b) == m - m * b;
  }

  /** Scaling an angle of at most a half turn by a factor in [0, 1) keeps it
      strictly inside a half turn, and never makes it larger. */
  lemma ScaledInsideHalfTurn(a: real, b: real)
    requires -180.0 <= a <= 180.0 && 0.0 <= b < 1.0
    ensures -180.0 < a * b < 180.0
    ensures Abs(a * b) <= Abs(a)
  {
    if a >= 0.0 {
      BelowHalfTurn(a, b);
    } else {
      BelowHalfTurn(-a, b);
      assert -a * b == -(a * b);
    }
  }

  /** `_currentAngle += angleDiff * smoothing` after wrapping. */
  function Smoothed(current: real, target: real, smoothing: real): (next: real)
    ensures 0.0 <= smoothing ==> Abs(next - current) <= 180.0 * smoothing
    ensures smoothing == 1.0 ==> WholeTurns(next - target)
  {
    var w := Wrap(target - current);
    assert 0.0 <= smoothing ==> Abs(w * smoothing) <= 180.0 * smoothing by {
      if 0.0 <= smoothing {
        ScaledBound(w, smoothing, 180.0);
      }
    }
    current + w * smoothing
  }

  /** With the target held, each step shrinks the remaining wrapped gap by
      the factor `1 - smoothing`; with smoothing 1 the gap closes at once. */
  lemma StepShrinksGap(current: real, target: real, smoothing: real)
    requires 0.0 < smoothing <= 1.0
    ensures Wrap(target - Smoothed(current, target, smoothing))
         == Wrap(target - current) * (1.0 - smoothing)
  {
    var w := Wrap(target - current);
    var next := Smoothed(current, target, smoothing);
    ScaledInsideHalfTurn(w, 1.0 - smoothing);
    var x := w * (1.0 - smoothing);
    assert x == w - w * smoothing;
    assert x - (target - next) == w - (target - current);
    WrapUnique(target - next, x);
  }

  /** So the angle approaches a held target monotonically. */
  lemma GapNeverGrows(current: real, target: real, smoothing: real)
    requires 0.0 < smoothing <= 1.0
    ensures Abs(Wrap(target - Smoothed(current, target, smoothing)))
         <= Abs(Wrap(target - current))
  {
    StepShrinksGap(current, target, smoothing);
    ShrunkNoLarger(Wrap(target - Smoothed(current, target, smoothing)),
                   Wrap(target - current), 1.0 - smoothing);
  }

  lemma ShrunkNoLarger(g: real, w: real, f: real)
    requires -180.0 <= w <= 180.0 && 0.0 <= f < 1.0 && g == w * f
    ensures Abs(g) <= Abs(w)
  {
    ScaledInsideHalfTurn(w, f);
  }
}
