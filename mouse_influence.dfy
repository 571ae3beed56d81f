/**
 * The pointer's influence on the camera's rotation: each `mousemove` eases
 * the influence toward 0.3 times the pointer's normalised position and
 * clamps it to [-0.3, 0.3]; a 50 ms interval shrinks it by 5% once the
 * pointer has been still for more than two seconds.
 */
module MouseInfluence {
  import opened Numeric

  // The factors below are written as literals (gain 0.3, smoothing 0.08,
  // decay 0.95) so that products with them stay linear arithmetic.
  const Limit: real := 0.3
  const IdleThreshold: int := 2000

  /** Horizontal pointer position mapped to [-1, 1], left to right. */
  function NormaliseX(clientX: real, innerWidth: real): real
    requires innerWidth > 0.0
  {
    (clientX / innerWidth) * 2.0 - 1.0
  }

  /** Vertical pointer position mapped to [-1, 1], bottom to top (screen y grows downward). */
  function NormaliseY(clientY: real, innerHeight: real): real
    requires innerHeight > 0.0
  {
    -(clientY / innerHeight) * 2.0 + 1.0
  }

  /** A pointer inside the viewport normalises into [-1, 1]; the edges go to the ends. */
  lemma ViewportNormalises(client: real, extent: real)
    requires extent > 0.0 && 0.0 <= client <= extent
    ensures -1.0 <= NormaliseX(client, extent) <= 1.0
    ensures -1.0 <= NormaliseY(client, extent) <= 1.0
    ensures NormaliseX(0.0, extent) == -1.0 && NormaliseX(extent, extent) == 1.0
    ensures NormaliseY(0.0, extent) == 1.0 && NormaliseY(extent, extent) == -1.0
  {
    var q := client / extent;
    assert q * extent == client;
  }

  /** One `mousemove` on one axis: ease by 8% toward `0.3 * m`, then clamp. */
  function SmoothAxis(influence: real, m: real): (r: real)
    ensures -Limit <= r <= Limit
  {
    Clamp(influence + (m * 0.3 - influence) * 0.08, -Limit, Limit)
  }

  /**
   * In the viewport the clamp never bites: starting in range, a move closes
   * 8% of the gap to the target `0.3 * m` and lands strictly between.
   */
  lemma SmoothApproachesTarget(influence: real, m: real)
    requires -Limit <= influence <= Limit && -1.0 <= m <= 1.0
    ensures SmoothAxis(influence, m) - 0.3 * m == (0.92) * (influence - 0.3 * m)
    ensures Abs(SmoothAxis(influence, m) - 0.3 * m) <= Abs(influence - 0.3 * m)
  {
    var eased := influence + (m * 0.3 - influence) * 0.08;
    assert eased == 0.92 * influence + 0.08 * (0.3 * m);
    assert -Limit <= eased <= Limit;
  }

  /** n `mousemove` events at the same pointer position. */
  function SmoothRepeated(influence: real, m: real, n: nat): real
  {
    if n == 0 then influence else SmoothAxis(SmoothRepeated(influence, m, n - 1), m)
  }

  /**
   * With the pointer held still inside the viewport, n moves leave
   * `0.92^n` of the starting gap to the target.
   */
  lemma {:induction false} SmoothRepeatedGap(influence: real, m: real, n: nat)
    requires -Limit <= influence <= Limit && -1.0 <= m <= 1.0
    ensures SmoothRepeated(influence, m, n) - 0.3 * m == Pow(0.92, n) * (influence - 0.3 * m)
  {
    if n > 0 {
      SmoothRepeatedGap(influence, m, n - 1);
      var p := Pow(0.92, n - 1);
      RepeatedGapStep(influence, m, n, p);
      assert Pow(0.92, n) == (0.92) * p;
    }
  }

  /** Repeated moves from an in-range start stay in range. */
  lemma SmoothRepeatedInRange(influence: real, m: real, n: nat)
    requires -Limit <= influence <= Limit
    ensures -Limit <= SmoothRepeated(influence, m, n) <= Limit
  {
  }

  /** One more move multiplies a gap of `p * g` by the factor `1 - 0.08`. */
  lemma RepeatedGapStep(influence: real, m: real, n: nat, p: real)
    requires -Limit <= influence <= Limit && -1.0 <= m <= 1.0 && n > 0
    requires SmoothRepeated(influence, m, n - 1) - 0.3 * m == p * (influence - 0.3 * m)
    ensures SmoothRepeated(influence, m, n) - 0.3 * m == ((0.92) * p) * (influence - 0.3 * m)
  {
    var prev := SmoothRepeated(influence, m, n - 1);
    SmoothRepeatedInRange(influence, m, n - 1);
    SmoothApproachesTarget(prev, m);
    var g := influence - 0.3 * m;
    assert (0.92) * (p * g) == ((0.92) * p) * g;
  }

  /** So the influence settles on the target: within eps after `|gap| / (0.08 * eps)` moves. */
  lemma SmoothSettles(influence: real, m: real, eps: real, n: nat)
    requires -Limit <= influence <= Limit && -1.0 <= m <= 1.0 && eps > 0.0
    requires (n as real) * 0.08 * eps >= Abs(influence - 0.3 * m)
    ensures Abs(SmoothRepeated(influence, m, n) - 0.3 * m) <= eps
  {
    var g := influence - 0.3 * m;
    var gap := SmoothRepeated(influence, m, n) - 0.3 * m;
    var p := Pow(0.92, n);
    SmoothRepeatedGap(influence, m, n);
    SettleBy(gap, p, g, eps, n);
  }

  lemma SettleBy(gap: real, p: real, g: real, eps: real, n: nat)
    requires p == Pow(0.92, n) && gap == p * g && eps > 0.0
    requires (n as real) * 0.08 * eps >= Abs(g)
    ensures Abs(gap) <= eps
  {
    GapShrinks(0.08, n, g, eps, p);
  }

  /** `p * g` is at most eps in size when p is the n-th power of `1 - d` and the geometric bound holds. */
  lemma GapShrinks(d: real, n: nat, g: real, eps: real, p: real)
    requires 0.0 < d < 1.0 && eps > 0.0 && p == Pow(1.0 - d, n)
    requires (n as real) * d * eps >= Abs(g)
    ensures Abs(p * g) <= eps
  {
    GeometricConverges(d, g, eps, n);
    PowDecayBound(d, n);
    AbsScale(p, g);
  }

  /** One interval tick on one axis, after the pointer has been idle. */
  function DecayAxis(influence: real): (r: real)
    ensures Abs(r) <= Abs(influence)
    ensures (r < 0.0 <==> influence < 0.0) && (r == 0.0 <==> influence == 0.0)
  {
    influence * 0.95
  }

  /** The interval decays only when more than two seconds passed since the last move. */
  predicate IsIdle(now: int, lastMoveTime: int)
  {
    now - lastMoveTime > IdleThreshold
  }

  /** n idle ticks. */
  function DecayRepeated(influence: real, n: nat): real
  {
    if n == 0 then influence else DecayAxis(DecayRepeated(influence, n - 1))
  }

  lemma {:induction false} DecayRepeatedGeometric(influence: real, n: nat)
    ensures DecayRepeated(influence, n) == Pow(0.95, n) * influence
  {
    if n > 0 {
      DecayRepeatedGeometric(influence, n - 1);
    }
  }

  /** An idle pointer's influence returns to neutral: within eps after `|i| / (0.05 * eps)` ticks. */
  lemma DecaySettles(influence: real, eps: real, n: nat)
    requires eps > 0.0
    requires (n as real) * 0.05 * eps >= Abs(influence)
    ensures Abs(DecayRepeated(influence, n)) <= eps
  {
    DecayRepeatedGeometric(influence, n);
    GapShrinks(0.05, n, influence, eps, Pow(0.95, n));
  }

  /**
   * `sphere.mouseInfluence` with the time of the last `mousemove`. The
   * influence starts at the origin and stays within [-0.3, 0.3].
   */
  class MouseTracker {
    var x: real
    var y: real
    var lastMouseMoveTime: int

    ghost predicate Valid()
      reads this
    {
      -Limit <= x <= Limit && -Limit <= y <= Limit
    }

    constructor(now: int)
      ensures x == 0.0 && y == 0.0 && lastMouseMoveTime == now && Valid()
    {
      x := 0.0;
      y := 0.0;
      lastMouseMoveTime := now;
    }

    /** The `mousemove` listener. */
    method MouseMove(clientX: real, clientY: real, innerWidth: real, innerHeight: real, now: int)
      requires innerWidth > 0.0 && innerHeight > 0.0
      modifies this
      ensures lastMouseMoveTime == now
      ensures x == SmoothAxis(old(x), NormaliseX(clientX, innerWidth))
      ensures y == SmoothAxis(old(y), NormaliseY(clientY, innerHeight))
      ensures Valid()
    {
      lastMouseMoveTime := now;
      var mouseX := NormaliseX(clientX, innerWidth);
      var mouseY := NormaliseY(clientY, innerHeight);
      x := x + (mouseX * 0.3 - x) * 0.08;
      y := y + (mouseY * 0.3 - y) * 0.08;
      x := Clamp(x, -Limit, Limit);
      y := Clamp(y, -Limit, Limit);
    }

    /** The 50 ms interval callback. */
    method DecayTick(now: int)
      requires Valid()
      modifies this
      ensures lastMouseMoveTime == old(lastMouseMoveTime)
      ensures IsIdle(now, old(lastMouseMoveTime)) ==> x == DecayAxis(old(x)) && y == DecayAxis(old(y))
      ensures !IsIdle(now, old(lastMouseMoveTime)) ==> x == old(x) && y == old(y)
      ensures Valid()
    {
      if now - lastMouseMoveTime > IdleThreshold {
        x := x * 0.95;
        y := y * 0.95;
      }
    }
  }
}
