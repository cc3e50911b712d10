/** The fling classifier of the keyboard view: a down sample, an up sample and a
    release velocity decide between a horizontal swipe, a vertical swipe, a
    motion that is consumed without a direction, and a motion left unhandled.
    Coordinates and velocities are real numbers. */
module KeyboardGesture {
  import opened Wrappers

  /** Direction tags of `GestureInfo`. */
  const LEFT: int := 0
  const RIGHT: int := 1
  const UP: int := 2
  const DOWN: int := 3

  /** Minimum displacement on the dominant axis (`minGestSize`). */
  const MIN_GEST_SIZE: real := 100.0
  /** Dominant-axis to cross-axis displacement ratio (`deltaDelim`), used by both axes. */
  const DELTA_DELIM: real := 1.5
  /** Minimum absolute velocity on the swipe axis (an inline literal in the listener). */
  const MIN_VELOCITY: real := 1000.0
  /** Ratio by which vertical velocity must dominate horizontal velocity (inline literal). */
  const VERTICAL_VELOCITY_RATIO: real := 2.5

  /** A key of the current keyboard, known here only by its identity. */
  datatype LatinKey = LatinKey(id: nat)

  /** A recognised swipe: the key under the touch-down point (null in Java) and a direction tag. */
  datatype GestureInfo = GestureInfo(downKey: Option<LatinKey>, dir: int)

  /** A touch position taken from a motion event. */
  datatype Point = Point(x: real, y: real)

  /** What `onFling` does: its boolean result, and the gesture it hands to the view, if any. */
  datatype FlingResult = FlingResult(consumed: bool, emitted: Option<GestureInfo>)

  predicate IsDirection(d: int) {
    d == LEFT || d == RIGHT || d == UP || d == DOWN
  }

  function Abs(a: real): (r: real)
    ensures r >= 0.0
    ensures r == a || r == -a
  {
    if a < 0.0 then -a else a
  }

  /** The listener's `onFling`. Each division sits behind the short-circuit that
      rules out a zero divisor, so the classifier is total. */
  function OnFling(down: Point, up: Point, velocityX: real, velocityY: real): (r: FlingResult)
    ensures r.consumed <==> Abs(up.x - down.x) >= MIN_GEST_SIZE || Abs(up.y - down.y) >= MIN_GEST_SIZE
    ensures r.emitted.Some? ==> r.consumed
    ensures r.emitted.Some? ==> r.emitted.value.downKey.None? && IsDirection(r.emitted.value.dir)
  {
    var dx := up.x - down.x;
    var dy := up.y - down.y;
    var mdx := Abs(dx);
    var mdy := Abs(dy);
    if mdx >= MIN_GEST_SIZE && (mdy == 0.0 || mdx / mdy >= DELTA_DELIM) && Abs(velocityX) > MIN_VELOCITY then
      var dir := if velocityX > 0.0 then RIGHT else LEFT;
      FlingResult(true, Some(GestureInfo(None, dir)))
    else if mdy >= MIN_GEST_SIZE && (mdx == 0.0 || mdy / mdx >= DELTA_DELIM) && Abs(velocityY) > MIN_VELOCITY
            && (velocityX == 0.0 || Abs(velocityY / velocityX) >= VERTICAL_VELOCITY_RATIO) then
      var dir := if velocityY > 0.0 then DOWN else UP;
      FlingResult(true, Some(GestureInfo(None, dir)))
    else
      FlingResult(mdx >= MIN_GEST_SIZE || mdy >= MIN_GEST_SIZE, None)
  }

  // ---------------------------------------------------------------------------
  // A division-free reference statement of the two gates.

  /** The horizontal gate with every ratio cross-multiplied. */
  predicate HorizontalSwipe(down: Point, up: Point, velocityX: real) {
    var mdx := Abs(up.x - down.x);
    var mdy := Abs(up.y - down.y);
    mdx >= MIN_GEST_SIZE && mdx >= DELTA_DELIM * mdy && Abs(velocityX) > MIN_VELOCITY
  }

  /** The vertical gate with every ratio cross-multiplied. */
  predicate VerticalSwipe(down: Point, up: Point, velocityX: real, velocityY: real) {
    var mdx := Abs(up.x - down.x);
    var mdy := Abs(up.y - down.y);
    && mdy >= MIN_GEST_SIZE
    && mdy >= DELTA_DELIM * mdx
    && Abs(velocityY) > MIN_VELOCITY
    && Abs(velocityY) >= VERTICAL_VELOCITY_RATIO * Abs(velocityX)
  }

  /** For a positive divisor, a quotient bound is a product bound. */
  lemma RatioAtLeast(a: real, b: real, k: real)
    requires b > 0.0
    ensures a / b >= k <==> a >= k * b
  {
  }

  /** A guarded ratio gate (`m == 0 || n / m >= k`) over magnitudes is the product bound `n >= k * m`. */
  lemma GuardedRatioGate(n: real, m: real, k: real)
    requires n >= 0.0 && m >= 0.0 && k >= 0.0
    ensures (m == 0.0 || n / m >= k) <==> n >= k * m
  {
    if m != 0.0 {
      RatioAtLeast(n, m, k);
    }
  }

  /** The velocity-dominance gate (`vx == 0 || |vy / vx| >= k`) is `|vy| >= k * |vx|`. */
  lemma VelocityGate(vx: real, vy: real, k: real)
    requires k >= 0.0
    ensures (vx == 0.0 || Abs(vy / vx) >= k) <==> Abs(vy) >= k * Abs(vx)
  {
    if vx != 0.0 {
      RatioAtLeast(Abs(vy), Abs(vx), k);
    }
  }

  /** The horizontal test of `OnFling` is exactly `HorizontalSwipe`. */
  lemma HorizontalGateIff(down: Point, up: Point, velocityX: real)
    ensures (var mdx := Abs(up.x - down.x); var mdy := Abs(up.y - down.y);
             mdx >= MIN_GEST_SIZE && (mdy == 0.0 || mdx / mdy >= DELTA_DELIM) && Abs(velocityX) > MIN_VELOCITY)
            <==> HorizontalSwipe(down, up, velocityX)
  {
    GuardedRatioGate(Abs(up.x - down.x), Abs(up.y - down.y), DELTA_DELIM);
  }

  /** The vertical test of `OnFling` is exactly `VerticalSwipe`. */
  lemma VerticalGateIff(down: Point, up: Point, velocityX: real, velocityY: real)
    ensures (var mdx := Abs(up.x - down.x); var mdy := Abs(up.y - down.y);
             mdy >= MIN_GEST_SIZE && (mdx == 0.0 || mdy / mdx >= DELTA_DELIM) && Abs(velocityY) > MIN_VELOCITY
             && (velocityX == 0.0 || Abs(velocityY / velocityX) >= VERTICAL_VELOCITY_RATIO))
            <==> VerticalSwipe(down, up, velocityX, velocityY)
  {
    GuardedRatioGate(Abs(up.y - down.y), Abs(up.x - down.x), DELTA_DELIM);
    VelocityGate(velocityX, velocityY, VERTICAL_VELOCITY_RATIO);
  }

  // ---------------------------------------------------------------------------
  // Properties of the classifier.

  /** Horizontal priority: when the horizontal gate holds, the gesture is RIGHT or LEFT
      by the sign of the horizontal velocity, whatever the vertical test would say. */
  lemma HorizontalWins(down: Point, up: Point, velocityX: real, velocityY: real)
    requires HorizontalSwipe(down, up, velocityX)
    ensures OnFling(down, up, velocityX, velocityY)
            == FlingResult(true, Some(GestureInfo(None, if velocityX > 0.0 then RIGHT else LEFT)))
  {
    HorizontalGateIff(down, up, velocityX);
  }

  /** A vertical gesture is emitted when the horizontal gate fails and the vertical gate holds;
      it is DOWN exactly when the vertical velocity is positive. */
  lemma VerticalWhenHorizontalFails(down: Point, up: Point, velocityX: real, velocityY: real)
    requires !HorizontalSwipe(down, up, velocityX)
    requires VerticalSwipe(down, up, velocityX, velocityY)
    ensures OnFling(down, up, velocityX, velocityY)
            == FlingResult(true, Some(GestureInfo(None, if velocityY > 0.0 then DOWN else UP)))
  {
    HorizontalGateIff(down, up, velocityX);
    VerticalGateIff(down, up, velocityX, velocityY);
  }

  /** When neither gate holds, nothing is emitted, and the motion is still consumed
      exactly when it is gesture-sized on some axis. */
  lemma NoGateNoGesture(down: Point, up: Point, velocityX: real, velocityY: real)
    requires !HorizontalSwipe(down, up, velocityX)
    requires !VerticalSwipe(down, up, velocityX, velocityY)
    ensures OnFling(down, up, velocityX, velocityY)
            == FlingResult(Abs(up.x - down.x) >= MIN_GEST_SIZE || Abs(up.y - down.y) >= MIN_GEST_SIZE, None)
  {
    HorizontalGateIff(down, up, velocityX);
    VerticalGateIff(down, up, velocityX, velocityY);
  }

  /** A gesture is emitted exactly when one of the two gates holds; a horizontal
      direction comes out exactly when the horizontal gate holds. */
  lemma EmitsIffGate(down: Point, up: Point, velocityX: real, velocityY: real)
    ensures var r := OnFling(down, up, velocityX, velocityY);
            r.emitted.Some? <==> HorizontalSwipe(down, up, velocityX) || VerticalSwipe(down, up, velocityX, velocityY)
    ensures var r := OnFling(down, up, velocityX, velocityY);
            r.emitted.Some? && (r.emitted.value.dir == LEFT || r.emitted.value.dir == RIGHT)
            <==> HorizontalSwipe(down, up, velocityX)
  {
    HorizontalGateIff(down, up, velocityX);
    VerticalGateIff(down, up, velocityX, velocityY);
  }

  /** Whether the motion is consumed does not depend on the velocity. */
  lemma ConsumedIgnoresVelocity(down: Point, up: Point, vx1: real, vy1: real, vx2: real, vy2: real)
    ensures OnFling(down, up, vx1, vy1).consumed == OnFling(down, up, vx2, vy2).consumed
  {
  }

  /** A motion below the size threshold on both axes is neither consumed nor emitted. */
  lemma SmallMotionUnhandled(down: Point, up: Point, velocityX: real, velocityY: real)
    requires Abs(up.x - down.x) < MIN_GEST_SIZE && Abs(up.y - down.y) < MIN_GEST_SIZE
    ensures OnFling(down, up, velocityX, velocityY) == FlingResult(false, None)
  {
  }

  /** Only the displacement magnitudes `mdx` and `mdy` matter: two drags whose
      displacements have the same magnitude on each axis, wherever they start and
      whichever way they go, have the same outcome for the same velocity. */
  lemma SameMagnitudesSameOutcome(down1: Point, up1: Point, down2: Point, up2: Point,
                                  velocityX: real, velocityY: real)
    requires Abs(up1.x - down1.x) == Abs(up2.x - down2.x)
    requires Abs(up1.y - down1.y) == Abs(up2.y - down2.y)
    ensures OnFling(down1, up1, velocityX, velocityY) == OnFling(down2, up2, velocityX, velocityY)
  {
  }

  /** Mirroring the up point through the down point on the horizontal axis alone
      leaves the outcome unchanged. */
  lemma HorizontalMirrorSameOutcome(down: Point, up: Point, velocityX: real, velocityY: real)
    ensures OnFling(down, Point(2.0 * down.x - up.x, up.y), velocityX, velocityY)
            == OnFling(down, up, velocityX, velocityY)
  {
    SameMagnitudesSameOutcome(down, Point(2.0 * down.x - up.x, up.y), down, up, velocityX, velocityY);
  }

  /** Reversing the horizontal velocity swaps RIGHT and LEFT of a horizontal swipe. */
  lemma ReversedVelocitySwapsHorizontal(down: Point, up: Point, velocityX: real, velocityY: real)
    requires HorizontalSwipe(down, up, velocityX)
    ensures OnFling(down, up, velocityX, velocityY).emitted
            == Some(GestureInfo(None, if velocityX > 0.0 then RIGHT else LEFT))
    ensures OnFling(down, up, -velocityX, velocityY).emitted
            == Some(GestureInfo(None, if velocityX > 0.0 then LEFT else RIGHT))
  {
    assert HorizontalSwipe(down, up, -velocityX);
    HorizontalWins(down, up, velocityX, velocityY);
    HorizontalWins(down, up, -velocityX, velocityY);
  }

  /** The direction follows the velocity, not the displacement: a leftward drag
      released with a rightward velocity is a RIGHT swipe. */
  lemma DirectionFromVelocityNotDisplacement()
    ensures OnFling(Point(300.0, 50.0), Point(100.0, 50.0), 1500.0, 0.0)
            == FlingResult(true, Some(GestureInfo(None, RIGHT)))
  {
    HorizontalWins(Point(300.0, 50.0), Point(100.0, 50.0), 1500.0, 0.0);
  }

  /** The vertical displacement gate uses 1.5, not a stricter ratio: a drag of
      75 across and 150 down (ratio 2) is a DOWN swipe. */
  lemma VerticalRatioIsDeltaDelim()
    ensures OnFling(Point(0.0, 0.0), Point(75.0, 150.0), 0.0, 1200.0)
            == FlingResult(true, Some(GestureInfo(None, DOWN)))
  {
    VerticalWhenHorizontalFails(Point(0.0, 0.0), Point(75.0, 150.0), 0.0, 1200.0);
  }

  /** A large diagonal drag (150 across, 200 down, velocity 1500/1800) fails both
      gates and is consumed without a direction. */
  lemma DiagonalDragConsumedUnclassified()
    ensures OnFling(Point(0.0, 0.0), Point(150.0, 200.0), 1500.0, 1800.0) == FlingResult(true, None)
  {
    NoGateNoGesture(Point(0.0, 0.0), Point(150.0, 200.0), 1500.0, 1800.0);
  }

  // ---------------------------------------------------------------------------
  // Hit test.

  /** The listener's `getKey`: the first key, in list order, whose containment test
      holds for `(x, y)`; `None` (Java's null) when no key contains the point. */
  method GetKey(keys: seq<LatinKey>, isInside: (LatinKey, int, int) -> bool, x: int, y: int) returns (r: Option<LatinKey>)
    ensures r.None? <==> forall j :: 0 <= j < |keys| ==> !isInside(keys[j], x, y)
    ensures r.Some? ==> exists i :: 0 <= i < |keys| && keys[i] == r.value && isInside(keys[i], x, y)
                                    && forall j :: 0 <= j < i ==> !isInside(keys[j], x, y)
  {
    var i := 0;
    while i < |keys|
      invariant 0 <= i <= |keys|
      invariant forall j :: 0 <= j < i ==> !isInside(keys[j], x, y)
    {
      if isInside(keys[i], x, y) {
        return Some(keys[i]);
      }
      i := i + 1;
    }
    return None;
  }
}
