/**
 * The camera half of the traveling sphere: the section the camera is headed
 * for, the per-tick 5% glide toward its pose, the `isTransitioning` flag and
 * the `rollRotation` spin that the particles are turned by.
 */
module Camera {
  import opened Wrappers
  import opened Numeric
  import opened Sections

  // Multiplicative factors are written as literals so that products with
  // them stay linear arithmetic: one tick covers 0.05 of the remaining gap
  // (0.95 of it is left), and outside transitions 0.985 of the roll is kept.

  /** The camera counts as moving while its L1 distance to the target exceeds this. */
  const TransitionThreshold: real := 1.0
  /** Roll added per tick while transitioning. */
  const TransitionSpin: real := 0.015
  /** Velocity below which the camera counts as still. */
  const MinVelocity: real := 0.001

  /** `|dx| + |dy| + |dz|`, the distance the transition flag is computed from. */
  function L1(a: Vec3, b: Vec3): (r: real)
    ensures r >= 0.0
  {
    Abs(b.x - a.x) + Abs(b.y - a.y) + Abs(b.z - a.z)
  }

  /** The distance is zero exactly at the target. */
  lemma L1ZeroIffEqual(a: Vec3, b: Vec3)
    ensures L1(a, b) == 0.0 <==> a == b
  {
  }

  /** One axis of the glide: `c += (t - c) * 0.05`; the gap shrinks to 95%. */
  function LerpAxis(c: real, t: real): (r: real)
    ensures r - t == (0.95) * (c - t)
  {
    c + (t - c) * 0.05
  }

  /** A tick never overshoots: each axis lands between where it was and the target. */
  lemma LerpNeverOvershoots(c: real, t: real)
    ensures c <= t ==> c <= LerpAxis(c, t) <= t
    ensures t <= c ==> t <= LerpAxis(c, t) <= c
  {
  }

  function LerpVec(c: Vec3, t: Vec3): Vec3
  {
    Vec3(LerpAxis(c.x, t.x), LerpAxis(c.y, t.y), LerpAxis(c.z, t.z))
  }

  /** One axis after n ticks toward a fixed target. */
  function GlideAxis(c: real, t: real, n: nat): real
  {
    if n == 0 then c else LerpAxis(GlideAxis(c, t, n - 1), t)
  }

  /** The camera position after n ticks toward a fixed target. */
  function Glide(c: Vec3, t: Vec3, n: nat): Vec3
  {
    Vec3(GlideAxis(c.x, t.x, n), GlideAxis(c.y, t.y, n), GlideAxis(c.z, t.z, n))
  }

  /** On one axis n ticks leave exactly `0.95^n` of the starting gap, on the same side of the target. */
  lemma {:induction false} GlideAxisGap(c: real, t: real, n: nat)
    ensures GlideAxis(c, t, n) - t == Pow(0.95, n) * (c - t)
  {
    if n > 0 {
      GlideAxisGap(c, t, n - 1);
      var p := Pow(0.95, n - 1);
      assert GlideAxis(c, t, n) - t == 0.95 * (GlideAxis(c, t, n - 1) - t);
      assert 0.95 * (p * (c - t)) == (0.95 * p) * (c - t);
    }
  }

  /** On one axis the glide gets within eps of the target after `|t - c| / (0.05 * eps)` ticks. */
  lemma GlideAxisSettles(c: real, t: real, n: nat, eps: real)
    requires eps > 0.0 && (n as real) * 0.05 * eps >= Abs(t - c)
    ensures Abs(t - GlideAxis(c, t, n)) <= eps
  {
    GlideAxisGap(c, t, n);
    var p := Pow(0.95, n);
    assert t - GlideAxis(c, t, n) == p * (t - c);
    GeometricConverges(0.05, t - c, eps, n);
    PowInUnit(0.95, n);
    AbsScale(p, t - c);
  }

  /** The camera converges on a fixed target: within 3 eps of it after `L1 / (0.05 * eps)` ticks. */
  lemma GlideConverges(c: Vec3, t: Vec3, n: nat, eps: real)
    requires eps > 0.0 && (n as real) * 0.05 * eps >= L1(c, t)
    ensures L1(Glide(c, t, n), t) <= 3.0 * eps
  {
    GlideAxisSettles(c.x, t.x, n, eps);
    GlideAxisSettles(c.y, t.y, n, eps);
    GlideAxisSettles(c.z, t.z, n, eps);
  }

  /** n + 1 ticks are one more tick after n. */
  lemma GlideIsRepeatedTick(c: Vec3, t: Vec3, n: nat)
    ensures Glide(c, t, 0) == c
    ensures Glide(c, t, n + 1) == LerpVec(Glide(c, t, n), t)
  {
  }

  /** One tick leaves 95% of the L1 distance to the target. */
  lemma LerpShrinksDistance(c: Vec3, t: Vec3)
    ensures L1(LerpVec(c, t), t) == (0.95) * L1(c, t)
  {
    LerpAxisDistance(c.x, t.x);
    LerpAxisDistance(c.y, t.y);
    LerpAxisDistance(c.z, t.z);
  }

  lemma LerpAxisDistance(c: real, t: real)
    ensures Abs(t - LerpAxis(c, t)) == 0.95 * Abs(t - c)
  {
  }

  /** Each further tick of a glide leaves 95% of the distance. */
  lemma GlideOneMore(c: Vec3, t: Vec3, n: nat)
    requires n > 0
    ensures L1(Glide(c, t, n), t) == 0.95 * L1(Glide(c, t, n - 1), t)
  {
    GlideIsRepeatedTick(c, t, n - 1);
    LerpShrinksDistance(Glide(c, t, n - 1), t);
  }

  /**
   * The glide arrives: after at least `L1(c, t) / 0.05` ticks toward a fixed
   * target the camera is within distance 1 of it, so the next tick clears
   * `isTransitioning`, and it stays cleared on every later tick.
   */
  lemma GlideSettles(c: Vec3, t: Vec3, n: nat, m: nat)
    requires (n as real) * 0.05 >= L1(c, t)
    requires m >= n
    ensures !(L1(Glide(c, t, m), t) > TransitionThreshold)
  {
    GlideProgress(c, t, n);
    GlideNonIncreasing(c, t, n, m);
  }

  /**
   * While the camera is farther than 1 away, every tick closes at least
   * 0.05 of distance: so after k ticks it is within 1, or at least `0.05 * k`
   * closer than it started.
   */
  lemma {:induction false} GlideProgress(c: Vec3, t: Vec3, k: nat)
    ensures L1(Glide(c, t, k), t) <= 1.0 || L1(Glide(c, t, k), t) <= L1(c, t) - 0.05 * (k as real)
  {
    if k == 0 {
      assert Glide(c, t, 0) == c;
    } else {
      GlideProgress(c, t, k - 1);
      GlideOneMore(c, t, k);
    }
  }

  lemma {:induction false} GlideNonIncreasing(c: Vec3, t: Vec3, n: nat, m: nat)
    requires n <= m
    ensures L1(Glide(c, t, m), t) <= L1(Glide(c, t, n), t)
  {
    if n < m {
      GlideNonIncreasing(c, t, n, m - 1);
      GlideOneMore(c, t, m);
    }
  }

  /**
   * The "velocity" of a tick: the absolute value of the SUM of the signed axis
   * moves (not the sum of their magnitudes), hence at most the L1 move.
   */
  function Velocity(cur: Vec3, prev: Vec3): (r: real)
    ensures 0.0 <= r <= L1(prev, cur)
  {
    Abs((cur.x - prev.x) + (cur.y - prev.y) + (cur.z - prev.z))
  }

  /** Moves that cancel across axes read as zero velocity. */
  lemma CancellingMoveHasNoVelocity()
    ensures Velocity(Vec3(1.0, -1.0, 0.0), Vec3(0.0, 0.0, 0.0)) == 0.0
    ensures L1(Vec3(0.0, 0.0, 0.0), Vec3(1.0, -1.0, 0.0)) == 2.0
  {
  }

  /** The roll update at the end of a tick. */
  function NextRoll(roll: real, transitioning: bool, velocity: real): (r: real)
    ensures transitioning ==> r == roll + TransitionSpin
    ensures !transitioning && velocity <= MinVelocity ==> r == 0.985 * roll
    ensures !transitioning && velocity > MinVelocity ==>
              r == 0.985 * (roll + 0.005 + 0.01 * (if velocity * 20.0 < 1.0 then velocity * 20.0 else 1.0))
    ensures !transitioning && velocity > MinVelocity ==>
              0.985 * (roll + 0.005) < r <= 0.985 * (roll + 0.015)
  {
    if transitioning then roll + TransitionSpin
    else
      var factor := if velocity * 20.0 < 1.0 then velocity * 20.0 else 1.0;
      var spun := if velocity > MinVelocity then roll + (0.005 + factor * 0.01) else roll;
      spun * 0.985
  }

  /**
   * Outside a transition a faster camera spins the roll at least as much,
   * and from a velocity of 0.05 on the spin is at its full 0.015.
   */
  lemma SpinGrowsWithVelocity(roll: real, v: real, w: real)
    requires MinVelocity < v <= w
    ensures NextRoll(roll, false, v) <= NextRoll(roll, false, w)
    ensures v >= 0.05 ==> NextRoll(roll, false, v) == 0.985 * (roll + 0.015)
  {
  }

  /** Outside transitions a roll in [0, 1] stays in [0, 1]. */
  lemma RollBoundedWhenSettled(roll: real, velocity: real)
    requires 0.0 <= roll <= 1.0
    ensures 0.0 <= NextRoll(roll, false, velocity) <= 1.0
  {
  }

  /** The roll after n ticks with the camera still. */
  function StillRoll(roll: real, n: nat): real
  {
    if n == 0 then roll else NextRoll(StillRoll(roll, n - 1), false, 0.0)
  }

  /** With the camera still the roll shrinks geometrically: after n ticks it is `0.985^n` of its start. */
  lemma {:induction false} StillRollGeometric(roll: real, n: nat)
    ensures StillRoll(roll, n) == Pow(0.985, n) * roll
  {
    if n > 0 {
      StillRollGeometric(roll, n - 1);
      var p := Pow(0.985, n - 1);
      var g := StillRoll(roll, n - 1);
      assert g == p * roll;
      assert StillRoll(roll, n) == 0.985 * g;
      assert Pow(0.985, n) == 0.985 * p;
      assert 0.985 * (p * roll) == (0.985 * p) * roll;
    }
  }

  /**
   * With the camera still the spin dies out: after `|roll| / (0.015 * eps)`
   * ticks the roll is within `eps` of zero.
   */
  lemma StillRollSettles(roll: real, n: nat, eps: real)
    requires eps > 0.0
    requires (n as real) * 0.015 * eps >= Abs(roll)
    ensures Abs(StillRoll(roll, n)) <= eps
  {
    StillRollGeometric(roll, n);
    var p := Pow(0.985, n);
    GeometricConverges(0.015, roll, eps, n);
    PowInUnit(0.985, n);
    AbsScale(p, roll);
  }

  /**
   * The camera state of the traveling sphere. Sphere size and section are
   * set by `updateSpherePosition` and the resize handler; the positions,
   * the transition flag and the roll by the animation tick.
   */
  class TravelingCamera {
    var sphereSize: real
    var currentSection: string
    var target: Vec3
    var current: Vec3
    var previous: Vec3
    var isTransitioning: bool
    var rollRotation: real

    /** The scene as created: centred on `hero`, still, no roll. */
    constructor (sphereSize: real)
      ensures this.sphereSize == sphereSize && currentSection == "hero"
      ensures target == SectionPose("hero", sphereSize)
      ensures current == target && previous == target
      ensures !isTransitioning && rollRotation == 0.0
    {
      this.sphereSize := sphereSize;
      currentSection := "hero";
      target := Vec3(0.0, 0.0, sphereSize * 1.2);
      current := Vec3(0.0, 0.0, sphereSize * 1.2);
      previous := Vec3(0.0, 0.0, sphereSize * 1.2);
      isTransitioning := false;
      rollRotation := 0.0;
    }

    /**
     * `updateSpherePosition(sectionId, animate)`: an animated move only
     * retargets and raises the transition flag; an immediate one snaps
     * target, current and previous to the pose and leaves the flag alone.
     */
    method UpdateSpherePosition(sectionId: string, animate: bool)
      modifies this
      ensures currentSection == sectionId
      ensures target == SectionPose(sectionId, sphereSize)
      ensures sphereSize == old(sphereSize) && rollRotation == old(rollRotation)
      ensures animate ==> current == old(current) && previous == old(previous) && isTransitioning
      ensures !animate ==> current == target && previous == target
                           && isTransitioning == old(isTransitioning)
    {
      var pose := SectionPose(sectionId, sphereSize);
      if animate {
        target := pose;
        isTransitioning := true;
      } else {
        target := pose;
        current := pose;
        previous := pose;
      }
      currentSection := sectionId;
    }

    /**
     * The camera part of one animation tick: the flag from the distance
     * BEFORE the step, a 5% glide on each axis, the velocity against the
     * previous tick's position, then the roll update.
     */
    method AnimateTick()
      modifies this
      ensures isTransitioning == (L1(old(current), old(target)) > TransitionThreshold)
      ensures current == LerpVec(old(current), old(target))
      ensures L1(current, target) == (0.95) * L1(old(current), target)
      ensures previous == current
      ensures rollRotation
              == NextRoll(old(rollRotation), isTransitioning, Velocity(current, old(previous)))
      ensures target == old(target) && sphereSize == old(sphereSize)
      ensures currentSection == old(currentSection)
    {
      var delta := L1(current, target);
      isTransitioning := delta > TransitionThreshold;
      LerpShrinksDistance(current, target);
      current := Vec3(current.x + (target.x - current.x) * 0.05,
                      current.y + (target.y - current.y) * 0.05,
                      current.z + (target.z - current.z) * 0.05);
      var velocity := Velocity(current, previous);
      previous := current;
      if isTransitioning {
        rollRotation := rollRotation + TransitionSpin;
      } else {
        var factor := if velocity * 20.0 < 1.0 then velocity * 20.0 else 1.0;
        if velocity > MinVelocity {
          rollRotation := rollRotation + (0.005 + factor * 0.01);
        }
        rollRotation := rollRotation * 0.985;
      }
    }

    /**
     * The debounced scroll callback: retarget (animated) to the section of
     * the scroll band when it is one of the four and not the current one.
     */
    method OnScroll(scrollY: real, innerHeight: real)
      requires innerHeight >= 0.0
      modifies this
      ensures ScrollTarget(scrollY, innerHeight, old(currentSection)) == None ==>
                currentSection == old(currentSection) && target == old(target)
                && current == old(current) && previous == old(previous)
                && isTransitioning == old(isTransitioning)
      ensures ScrollTarget(scrollY, innerHeight, old(currentSection)).Some? ==>
                currentSection == ScrollTarget(scrollY, innerHeight, old(currentSection)).value
                && currentSection != old(currentSection)
                && target == SectionPose(currentSection, sphereSize)
                && current == old(current) && previous == old(previous) && isTransitioning
      ensures sphereSize == old(sphereSize) && rollRotation == old(rollRotation)
    {
      var next := ScrollTarget(scrollY, innerHeight, currentSection);
      if next.Some? {
        UpdateSpherePosition(next.value, true);
      }
    }
  }
}
