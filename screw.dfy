/** The fully parameterised crosshead screw (`drawScrewFPV`): head, shaft
    and thread as cylinders and a cone, and a cross slot of two boxes, each
    turned about the screw's axis. The random draw is a parameter: `r`
    stands for the value `np.random.rand()` returned, in [0, 1). */
module Screw {
  import opened Geometry

  /** `np.pi`: the value the double nearest to pi prints as. */
  const PI: real := 3.141592653589793

  /** One bar of the cross slot: a box (centre and size) and the rotation
      applied to it, an angle about an axis vector. */
  datatype Bar = Bar(pos: Vec, size: Vec, angle: real, turnAxis: Vec)

  datatype ScrewParts = ScrewParts(head: Rod, shaft: Rod, thread: Rod, cross1: Bar, cross2: Bar)

  /** The slot angle `np.random.rand() * np.pi / 2` for the draw `r`: a
      draw in [0, 1) gives an angle in [0, pi/2). */
  function SlotAngle(r: real): (a: real)
    ensures 0.0 <= r < 1.0 ==> 0.0 <= a < PI / 2.0
  {
    r * PI / 2.0
  }

  /** The primitives `drawScrewFPV` builds at `sPos` for a signed `scale`,
      the axis-scale triple `s` the resolver gave and the drawn `slotAngle`.
      The shaft ends where the head starts, the thread is a cone from the
      shaft's start five times as long as the shaft pointing away from the
      head, and both slot bars share centre and size, turn
      about the triple, and are turned a quarter turn apart. */
  function BuildScrew(sPos: Vec, scale: real, s: Vec, slotAngle: real): (p: ScrewParts)
    ensures p.head.pos == sPos && p.head.axis == Times(0.04, s)
    ensures RodEnd(p.shaft) == p.head.pos
    ensures p.thread.pos == p.shaft.pos
    ensures p.thread.axis == Times(-5.0, p.shaft.axis)
    ensures RodEnd(p.thread) == Sub(sPos, Times(0.30, s))
    ensures p.head.radius == 2.0 * p.shaft.radius && p.thread.radius == p.shaft.radius
    ensures p.cross1.pos == p.cross2.pos == Add(sPos, Times(0.0301, s))
    ensures p.cross1.size == p.cross2.size
    ensures p.cross1.turnAxis == p.cross2.turnAxis == s
    ensures p.cross2.angle == p.cross1.angle + PI / 2.0
    ensures p.cross1.angle == slotAngle
  {
    var slotPos := Add(Vec(s.x * 0.0301, s.y * 0.0301, s.z * 0.0301), sPos);
    var slotSize := Vec((s.x * 0.02) + (s.y * 0.1) + (s.z * 0.02),
                        (s.x * 0.02) + (s.y * 0.02) + (s.z * 0.1),
                        (s.x * 0.1) + (s.y * 0.02) + (s.z * 0.02));
    var turn := Vec(s.x, s.y, s.z);
    ScrewParts(
      // `vector(0, 0, 0) + sPos` (Lesson12b.py:55) is the placement itself.
      head := Rod(sPos,
                  Vec(s.x * 0.04, s.y * 0.04, s.z * 0.04), scale * 0.06),
      shaft := Rod(Add(Vec(s.x * -0.05, s.y * -0.05, s.z * -0.05), sPos),
                   Vec(s.x * 0.05, s.y * 0.05, s.z * 0.05), scale * 0.03),
      thread := Rod(Add(Vec(s.x * -0.05, s.y * -0.05, s.z * -0.05), sPos),
                    Vec(s.x * -0.25, s.y * -0.25, s.z * -0.25), scale * 0.03),
      cross1 := Bar(slotPos, slotSize, slotAngle, turn),
      cross2 := Bar(slotPos, slotSize, slotAngle + PI / 2.0, turn))
  }

  /** `drawScrewFPV`'s geometry: resolve the axis, then build. The screw
      lies along the axis the label selects, and a draw in [0, 1) turns the
      slot by less than a quarter turn. */
  function ScrewFpv(sPos: Vec, scale: real, axis: string, r: real): (p: ScrewParts)
    ensures p == BuildScrew(sPos, scale, OnAxis(scale, AxisOf(axis)), SlotAngle(r))
    ensures 0.0 <= r < 1.0 ==> 0.0 <= p.cross1.angle < PI / 2.0
  {
    BuildScrew(sPos, scale, AxisScale(scale, axis), SlotAngle(r))
  }

  /** The screw on the principal axis `k`: the head runs 0.04 * scale up the
      axis with radius 0.06 * scale, the shaft from 0.05 * scale below the
      placement, the thread tip lies 0.30 * scale below it, and both slot
      bars are 0.02 * scale deep along the axis, 0.02 * scale across the
      next axis and 0.1 * scale along the last one; the bar's outer face
      stands 0.0001 * scale proud of the head's face. */
  lemma {:induction false} ScrewAlongAxis(sPos: Vec, scale: real, k: Axis, slotAngle: real)
    ensures var p := BuildScrew(sPos, scale, OnAxis(scale, k), slotAngle);
      && p.head.axis == OnAxis(0.04 * scale, k)
      && p.head.radius == 0.06 * scale
      && p.shaft.pos == Add(sPos, OnAxis(-0.05 * scale, k))
      && RodEnd(p.thread) == Add(sPos, OnAxis(-0.30 * scale, k))
      && Comp(p.cross1.size, k) == 0.02 * scale
      && Comp(p.cross1.size, Next(k)) == 0.02 * scale
      && Comp(p.cross1.size, Next(Next(k))) == 0.1 * scale
      && Comp(Sub(p.cross1.pos, sPos), k) + 0.5 * Comp(p.cross1.size, k)
         == Comp(p.head.axis, k) + 0.0001 * scale
      && p.cross1.turnAxis == OnAxis(scale, k)
  {
    match k
    case X =>
    case Y =>
    case Z =>
  }

  function MovedBar(b: Bar, d: Vec): Bar { Bar(Add(b.pos, d), b.size, b.angle, b.turnAxis) }

  /** Every part shifted by `d`; axes, sizes, radii and rotations are kept. */
  function Moved(p: ScrewParts, d: Vec): ScrewParts {
    ScrewParts(MovedRod(p.head, d), MovedRod(p.shaft, d), MovedRod(p.thread, d),
               MovedBar(p.cross1, d), MovedBar(p.cross2, d))
  }

  function ScaledBar(k: real, b: Bar): Bar {
    Bar(Times(k, b.pos), Times(k, b.size), b.angle, Times(k, b.turnAxis))
  }

  /** Every position, axis, size, radius and rotation axis multiplied by
      `k`; the rotation angles are kept. */
  function Scaled(k: real, p: ScrewParts): ScrewParts {
    ScrewParts(ScaledRod(k, p.head), ScaledRod(k, p.shaft), ScaledRod(k, p.thread),
               ScaledBar(k, p.cross1), ScaledBar(k, p.cross2))
  }

  /** The placement is a pure translation of the screw built at the origin. */
  lemma ScrewTranslates(sPos: Vec, scale: real, s: Vec, slotAngle: real)
    ensures BuildScrew(sPos, scale, s, slotAngle) == Moved(BuildScrew(ORIGIN, scale, s, slotAngle), sPos)
  {
  }

  /** The geometry is linear: stretching the scale and the triple by `k`
      stretches every offset, axis, size, radius and rotation axis of the
      screw built at the origin by `k`, and leaves the slot angles alone. */
  lemma {:induction false} ScrewScalesLinearly(k: real, scale: real, s: Vec, slotAngle: real)
    ensures BuildScrew(ORIGIN, k * scale, Times(k, s), slotAngle) == Scaled(k, BuildScrew(ORIGIN, scale, s, slotAngle))
  {
    BodyScalesLinearly(k, scale, k * scale, s, slotAngle);
    CrossScalesLinearly(k, scale, k * scale, s, slotAngle);
  }

  lemma BodyScalesLinearly(k: real, scale: real, kScale: real, s: Vec, slotAngle: real)
    requires kScale == k * scale
    ensures var p, q := BuildScrew(ORIGIN, kScale, Times(k, s), slotAngle), Scaled(k, BuildScrew(ORIGIN, scale, s, slotAngle));
      p.head == q.head && p.shaft == q.shaft && p.thread == q.thread
  {
  }

  lemma CrossScalesLinearly(k: real, scale: real, kScale: real, s: Vec, slotAngle: real)
    requires kScale == k * scale
    ensures var p, q := BuildScrew(ORIGIN, kScale, Times(k, s), slotAngle), Scaled(k, BuildScrew(ORIGIN, scale, s, slotAngle));
      p.cross1 == q.cross1 && p.cross2 == q.cross2
  {
  }

  function MirroredBar(b: Bar): Bar { Bar(Neg(b.pos), Neg(b.size), b.angle, Neg(b.turnAxis)) }

  /** Every position, axis, size, radius and rotation axis negated; the
      rotation angles are kept. */
  function Mirrored(p: ScrewParts): ScrewParts {
    ScrewParts(MirroredRod(p.head), MirroredRod(p.shaft), MirroredRod(p.thread),
               MirroredBar(p.cross1), MirroredBar(p.cross2))
  }

  /** Mirroring: a negative scale negates every offset from the placement,
      every axis vector, size, radius and rotation axis, and keeps the
      slot angles. */
  lemma {:induction false} ScrewMirrors(sPos: Vec, scale: real, axis: string, r: real)
    ensures ScrewFpv(sPos, -scale, axis, r) == Moved(Mirrored(ScrewFpv(ORIGIN, scale, axis, r)), sPos)
  {
    AxisScaleMirrors(scale, axis);
    BuildScrewMirrors(sPos, scale, AxisScale(scale, axis), SlotAngle(r));
  }

  /** The same for the screw built from an axis-scale triple: negating the
      scale and the triple mirrors the screw about its placement. */
  lemma {:induction false} BuildScrewMirrors(sPos: Vec, scale: real, s: Vec, a: real)
    ensures BuildScrew(sPos, -scale, Neg(s), a) == Moved(Mirrored(BuildScrew(ORIGIN, scale, s, a)), sPos)
  {
    calc {
      BuildScrew(sPos, -scale, Neg(s), a);
    == { ScrewTranslates(sPos, -scale, Neg(s), a); }
      Moved(BuildScrew(ORIGIN, -scale, Neg(s), a), sPos);
    == { ScrewNegates(scale, s, a); }
      Moved(Mirrored(BuildScrew(ORIGIN, scale, s, a)), sPos);
    }
  }

  /** Built at the origin, negating the scale and the triple mirrors every part. */
  lemma {:induction false} ScrewNegates(scale: real, s: Vec, a: real)
    ensures BuildScrew(ORIGIN, -scale, Neg(s), a) == Mirrored(BuildScrew(ORIGIN, scale, s, a))
  {
    HeadNegates(scale, s, a);
    ShaftNegates(scale, s, a);
    ThreadNegates(scale, s, a);
    SlotNegates(scale, s, a);
  }

  lemma HeadNegates(scale: real, s: Vec, slotAngle: real)
    ensures BuildScrew(ORIGIN, -scale, Neg(s), slotAngle).head == MirroredRod(BuildScrew(ORIGIN, scale, s, slotAngle).head)
  {
  }

  lemma ShaftNegates(scale: real, s: Vec, slotAngle: real)
    ensures BuildScrew(ORIGIN, -scale, Neg(s), slotAngle).shaft == MirroredRod(BuildScrew(ORIGIN, scale, s, slotAngle).shaft)
  {
  }

  lemma ThreadNegates(scale: real, s: Vec, slotAngle: real)
    ensures BuildScrew(ORIGIN, -scale, Neg(s), slotAngle).thread == MirroredRod(BuildScrew(ORIGIN, scale, s, slotAngle).thread)
  {
  }

  lemma SlotNegates(scale: real, s: Vec, slotAngle: real)
    ensures BuildScrew(ORIGIN, -scale, Neg(s), slotAngle).cross1 == MirroredBar(BuildScrew(ORIGIN, scale, s, slotAngle).cross1)
    ensures BuildScrew(ORIGIN, -scale, Neg(s), slotAngle).cross2 == MirroredBar(BuildScrew(ORIGIN, scale, s, slotAngle).cross2)
  {
  }
}
