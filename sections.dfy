/**
 * The page's sections and the pure rules keyed on them: the camera pose each
 * section asks for, the scroll-offset rule that picks a section, and the
 * colour/icon/opacity choices made when the section changes.
 */
module Sections {
  import opened Wrappers
  import opened Numeric

  datatype Vec3 = Vec3(x: real, y: real, z: real)

  function Scale(k: real, v: Vec3): Vec3
  {
    Vec3(k * v.x, k * v.y, k * v.z)
  }

  /** The sections in page order, as the scroll handler lists them. */
  const SectionIds: seq<string> := ["hero", "about", "work", "contact"]

  /** The camera distance the poses are scaled by: `sphereSize * 1.2`. */
  function BaseDistance(sphereSize: real): real
  {
    sphereSize * 1.2
  }

  /**
   * The camera pose for a section (the `switch` in `updateSpherePosition`).
   * Total: `hero`, `contact` and every other id share the centred pose.
   */
  function SectionPose(sectionId: string, sphereSize: real): (r: Vec3)
    ensures sectionId == "about" ==>
              r == Vec3(BaseDistance(sphereSize) * 1.1, BaseDistance(sphereSize) * 0.1, BaseDistance(sphereSize) * 0.7)
    ensures sectionId == "work" ==>
              r == Vec3(-BaseDistance(sphereSize) * 1.3, -BaseDistance(sphereSize) * 0.1, BaseDistance(sphereSize) * 0.7)
    ensures sectionId != "about" && sectionId != "work" ==>
              r == Vec3(0.0, 0.0, BaseDistance(sphereSize))
  {
    var b := BaseDistance(sphereSize);
    match sectionId
    case "hero" => Vec3(0.0, 0.0, b)
    case "about" => Vec3(b * 1.1, b * 0.1, b * 0.7)
    case "work" => Vec3(-b * 1.3, -b * 0.1, b * 0.7)
    case "contact" => Vec3(0.0, 0.0, b)
    case _ => Vec3(0.0, 0.0, b)
  }

  /**
   * Every pose is the unit-size pose scaled by the sphere size, so a resize
   * moves the camera along the same direction.
   */
  lemma PoseScalesWithSphere(sectionId: string, sphereSize: real)
    ensures SectionPose(sectionId, sphereSize) == Scale(sphereSize, SectionPose(sectionId, 1.0))
  {
  }

  /**
   * For a sphere of positive size the camera is always in front of the
   * sphere, and `hero`, `about` and `work` are three distinct poses.
   */
  lemma PosesInFrontAndDistinct(sphereSize: real, sectionId: string)
    requires sphereSize > 0.0
    ensures SectionPose(sectionId, sphereSize).z > 0.0
    ensures SectionPose("about", sphereSize) != SectionPose("hero", sphereSize)
    ensures SectionPose("work", sphereSize) != SectionPose("hero", sphereSize)
    ensures SectionPose("about", sphereSize) != SectionPose("work", sphereSize)
    ensures SectionPose("contact", sphereSize) == SectionPose("hero", sphereSize)
  {
  }

  /** `Math.floor(scrollY / innerHeight)`, for a viewport of positive height. */
  function ScrollIndex(scrollY: real, innerHeight: real): (k: int)
    requires innerHeight > 0.0
    ensures (k as real) <= scrollY / innerHeight < (k as real) + 1.0
  {
    (scrollY / innerHeight).Floor
  }

  /**
   * The body of the debounced scroll handler: the section the scroll offset
   * falls in, when it is one of the four and not already the current one.
   * A zero-height viewport divides to Infinity or NaN, and indexing with that
   * gives `undefined`: no change.
   */
  function ScrollTarget(scrollY: real, innerHeight: real, current: string): (r: Option<string>)
    requires innerHeight >= 0.0
    ensures r.Some? ==> r.value in SectionIds && r.value != current
    ensures r.Some? <==>
              innerHeight > 0.0 && 0 <= ScrollIndex(scrollY, innerHeight) < |SectionIds|
              && SectionIds[ScrollIndex(scrollY, innerHeight)] != current
  {
    if innerHeight == 0.0 then None
    else
      var k := ScrollIndex(scrollY, innerHeight);
      if 0 <= k < |SectionIds| && SectionIds[k] != current then Some(SectionIds[k]) else None
  }

  /**
   * The k-th viewport-height band of the page selects the k-th section: with
   * `k * h <= scrollY < (k + 1) * h` the target is `SectionIds[k]` unless that
   * is already current.
   */
  lemma ScrollBandSelectsSection(scrollY: real, innerHeight: real, current: string, k: int)
    requires innerHeight > 0.0 && 0 <= k < |SectionIds|
    requires (k as real) * innerHeight <= scrollY < (k as real + 1.0) * innerHeight
    ensures ScrollTarget(scrollY, innerHeight, current)
            == if SectionIds[k] == current then None else Some(SectionIds[k])
  {
    BandQuotient(scrollY, innerHeight, k);
  }

  /** Above the page top or past the fourth band, scrolling changes nothing. */
  lemma ScrollOutsidePageKeepsSection(scrollY: real, innerHeight: real, current: string)
    requires innerHeight > 0.0
    requires scrollY < 0.0 || scrollY >= 4.0 * innerHeight
    ensures ScrollTarget(scrollY, innerHeight, current) == None
  {
    var q := scrollY / innerHeight;
    assert q * innerHeight == scrollY;
    if scrollY < 0.0 {
      if q >= 0.0 {
        MulMonotone(0.0, q, innerHeight);
      }
    } else {
      if q < 4.0 {
        MulStrict(q, 4.0, innerHeight);
      }
    }
  }

  /** A point of the band `[k*h, (k+1)*h)` divides by `h` to a quotient of floor `k`. */
  lemma BandQuotient(y: real, h: real, k: int)
    requires h > 0.0
    requires (k as real) * h <= y < (k as real + 1.0) * h
    ensures (k as real) <= y / h < (k as real) + 1.0
  {
    var q := y / h;
    assert q * h == y;
    if q < k as real {
      MulStrict(q, k as real, h);
    }
    if q >= (k as real) + 1.0 {
      MulMonotone((k as real) + 1.0, q, h);
    }
  }

  lemma MulMonotone(a: real, b: real, h: real)
    requires a <= b && h > 0.0
    ensures a * h <= b * h
  {
    assert (b - a) * h >= 0.0;
  }

  lemma MulStrict(a: real, b: real, h: real)
    requires a < b && h > 0.0
    ensures a * h < b * h
  {
    assert (b - a) * h > 0.0;
  }

  /** Header, footer and mobile toggle use their dark styling on `hero` and `work`. */
  function DarkChrome(section: string): bool
  {
    section == "hero" || section == "work"
  }

  /** The footer's scroll icon is the up-arrow only on the last section. */
  function ScrollIconIsArrowUp(section: string): bool
  {
    section == "contact"
  }

  /** The canvas is half transparent on `hero` and `contact`, opaque elsewhere. */
  function CanvasOpacity(section: string): (r: real)
    ensures 0.0 < r <= 1.0
    ensures r < 1.0 <==> section == "hero" || section == "contact"
    ensures section == "hero" || section == "contact" ==> r == 0.5
  {
    if section == "hero" || section == "contact" then 0.5 else 1.0
  }

  /**
   * Along the page order the chrome alternates dark, light, dark, light, the
   * arrow-up icon shows only on the last section, and the canvas is
   * translucent exactly on the first and the last.
   */
  lemma ThemeAlongThePage(k: nat)
    requires k < |SectionIds|
    ensures DarkChrome(SectionIds[k]) <==> k % 2 == 0
    ensures ScrollIconIsArrowUp(SectionIds[k]) <==> k == |SectionIds| - 1
    ensures CanvasOpacity(SectionIds[k]) < 1.0 <==> k == 0 || k == |SectionIds| - 1
  {
  }
}
