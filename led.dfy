/** The parameterised LED (`simpleLED`) and the Lesson 11 LED (`smallLED`):
    the geometry of the parameterised LED as a pure function of its
    placement, scale and axis label, and the colour state both LED classes
    keep and update in place. */
module Led {
  import opened Geometry

  /** A sphere: centre and radius. */
  datatype Ball = Ball(pos: Vec, radius: real)

  /** The primitives of one parameterised LED. */
  datatype LedParts = LedParts(dome: Ball, bulb: Ball, body: Rod, base: Rod, leg1: Rod, leg2: Rod)

  /** The axis along which the LED's two legs are set apart: the first axis
      other than the LED's own, x for the y and z axes and y for the x axis. */
  function LegSide(k: Axis): (j: Axis)
    ensures j != k
  {
    if k == X then Y else X
  }

  /** The primitives `simpleLED.__init__` builds for a placement `pos`, a
      signed `scale` and the axis-scale triple `s` the resolver gave: the
      base, body and dome stack end to end, the bulb shares the dome's
      centre, and the two legs, one 0.05 of the triple longer than the
      other, stand symmetrically about the point 0.025 of the triple up the
      axis. */
  function BuildLed(pos: Vec, scale: real, s: Vec): (p: LedParts)
    ensures p.base.pos == pos
    ensures p.body.pos == RodEnd(p.base)
    ensures RodEnd(p.body) == p.dome.pos == p.bulb.pos
    ensures p.base.axis == Times(0.05, s)
    ensures p.body.axis == Times(3.0, p.base.axis)
    ensures p.bulb.radius == 0.8 * p.dome.radius
    ensures p.body.radius == p.dome.radius
    ensures p.base.radius == 1.25 * p.dome.radius
    ensures p.leg2.axis == Sub(p.leg1.axis, Times(0.05, s))
    ensures Add(p.leg1.pos, p.leg2.pos) == Add(Times(2.0, pos), Times(0.05, s))
    ensures p.leg1.radius == p.leg2.radius == 0.1 * p.dome.radius
  {
    var centre := Add(Vec(s.x * 0.20, s.y * 0.20, s.z * 0.20), pos);
    LedParts(
      dome := Ball(centre, scale * 0.1),
      bulb := Ball(centre, scale * 0.08),
      body := Rod(Add(Vec(s.x * 0.05, s.y * 0.05, s.z * 0.05), pos),
                  Vec(s.x * 0.15, s.y * 0.15, s.z * 0.15), scale * 0.1),
      // `vector(0, 0, 0) + simpleLEDPos` (Lesson12a.py:77) is the placement itself.
      base := Rod(pos,
                  Vec(s.x * 0.05, s.y * 0.05, s.z * 0.05), scale * 0.125),
      leg1 := Rod(Add(Vec((s.x * 0.025) + (s.y * -0.05) + (s.z * -0.05),
                          (s.x * -0.05) + (s.y * 0.025) + (s.z * 0.0),
                          (s.x * 0.0) + (s.y * 0.0) + (s.z * 0.025)), pos),
                  Vec(s.x * -0.25, s.y * -0.25, s.z * -0.25), scale * 0.01),
      leg2 := Rod(Add(Vec((s.x * 0.025) + (s.y * 0.05) + (s.z * 0.05),
                          (s.x * 0.05) + (s.y * 0.025) + (s.z * 0.0),
                          (s.x * 0.0) + (s.y * 0.0) + (s.z * 0.025)), pos),
                  Vec(s.x * -0.30, s.y * -0.30, s.z * -0.30), scale * 0.01))
  }

  /** `simpleLED.__init__`'s geometry: resolve the axis, then build. */
  function SimpleLedParts(pos: Vec, scale: real, axis: string): (p: LedParts)
    ensures p == BuildLed(pos, scale, OnAxis(scale, AxisOf(axis)))
    ensures p.base.pos == pos && p.dome.radius == 0.1 * scale
  {
    BuildLed(pos, scale, AxisScale(scale, axis))
  }

  /** The LED on the principal axis `k`: the dome centre lies 0.20 * scale
      up the axis, the base and body are 0.05 and 0.15 * scale long, the
      legs point back down the axis with lengths 0.25 and 0.30 * scale, and
      their starts sit 0.025 * scale up the axis and 0.05 * scale to either
      side along the leg axis; the dome radius is 0.1 * scale. */
  lemma {:induction false} LedAlongAxis(pos: Vec, scale: real, k: Axis)
    ensures var p := BuildLed(pos, scale, OnAxis(scale, k));
      var side := LegSide(k);
      && p.dome.pos == Add(pos, OnAxis(0.2 * scale, k))
      && p.dome.radius == 0.1 * scale
      && p.base.axis == OnAxis(0.05 * scale, k)
      && p.body.axis == OnAxis(0.15 * scale, k)
      && p.leg1.axis == OnAxis(-0.25 * scale, k)
      && p.leg2.axis == OnAxis(-0.30 * scale, k)
      && p.leg1.pos == Add(pos, Add(OnAxis(0.025 * scale, k), OnAxis(-0.05 * scale, side)))
      && p.leg2.pos == Add(pos, Add(OnAxis(0.025 * scale, k), OnAxis(0.05 * scale, side)))
  {
    match k
    case X =>
    case Y =>
    case Z =>
  }

  function MovedBall(b: Ball, d: Vec): Ball { Ball(Add(b.pos, d), b.radius) }

  /** Every part shifted by `d`; axes and radii are kept. */
  function Moved(p: LedParts, d: Vec): LedParts {
    LedParts(MovedBall(p.dome, d), MovedBall(p.bulb, d), MovedRod(p.body, d),
             MovedRod(p.base, d), MovedRod(p.leg1, d), MovedRod(p.leg2, d))
  }

  function ScaledBall(k: real, b: Ball): Ball { Ball(Times(k, b.pos), k * b.radius) }

  /** Every position, axis vector and radius multiplied by `k`. */
  function Scaled(k: real, p: LedParts): LedParts {
    LedParts(ScaledBall(k, p.dome), ScaledBall(k, p.bulb), ScaledRod(k, p.body),
             ScaledRod(k, p.base), ScaledRod(k, p.leg1), ScaledRod(k, p.leg2))
  }

  /** The placement is a pure translation of the LED built at the origin. */
  lemma LedTranslates(pos: Vec, scale: real, s: Vec)
    ensures BuildLed(pos, scale, s) == Moved(BuildLed(ORIGIN, scale, s), pos)
  {
  }

  /** The geometry is linear: stretching the scale and the triple by `k`
      stretches every offset, axis and radius of the LED built at the
      origin by `k`. */
  lemma {:induction false} LedScalesLinearly(k: real, scale: real, s: Vec)
    ensures BuildLed(ORIGIN, k * scale, Times(k, s)) == Scaled(k, BuildLed(ORIGIN, scale, s))
  {
    LampScalesLinearly(k, scale, s);
    LegsScaleLinearly(k, scale, s);
  }

  lemma LampScalesLinearly(k: real, scale: real, s: Vec)
    ensures var p, q := BuildLed(ORIGIN, k * scale, Times(k, s)), Scaled(k, BuildLed(ORIGIN, scale, s));
      p.dome == q.dome && p.bulb == q.bulb && p.body == q.body && p.base == q.base
  {
  }

  lemma LegsScaleLinearly(k: real, scale: real, s: Vec)
    ensures var p, q := BuildLed(ORIGIN, k * scale, Times(k, s)), Scaled(k, BuildLed(ORIGIN, scale, s));
      p.leg1 == q.leg1 && p.leg2 == q.leg2
  {
  }

  function MirroredBall(b: Ball): Ball { Ball(Neg(b.pos), -b.radius) }

  /** Every position, axis vector and radius negated. */
  function Mirrored(p: LedParts): LedParts {
    LedParts(MirroredBall(p.dome), MirroredBall(p.bulb), MirroredRod(p.body),
             MirroredRod(p.base), MirroredRod(p.leg1), MirroredRod(p.leg2))
  }

  /** Mirroring: a negative scale negates every offset from the placement,
      every axis vector and every radius. */
  lemma {:induction false} LedMirrors(pos: Vec, scale: real, axis: string)
    ensures SimpleLedParts(pos, -scale, axis) == Moved(Mirrored(SimpleLedParts(ORIGIN, scale, axis)), pos)
  {
    var s := AxisScale(scale, axis);
    AxisScaleMirrors(scale, axis);
    LedTranslates(pos, -scale, Neg(s));
    LampNegates(scale, s);
    LegsNegate(scale, s);
  }

  lemma LampNegates(scale: real, s: Vec)
    ensures var p, q := BuildLed(ORIGIN, -scale, Neg(s)), Mirrored(BuildLed(ORIGIN, scale, s));
      p.dome == q.dome && p.bulb == q.bulb && p.body == q.body && p.base == q.base
  {
  }

  lemma LegsNegate(scale: real, s: Vec)
    ensures var p, q := BuildLed(ORIGIN, -scale, Neg(s)), Mirrored(BuildLed(ORIGIN, scale, s));
      p.leg1 == q.leg1 && p.leg2 == q.leg2
  {
  }

  /** A colour as the scripts pass it: a colour vector, or a bare string
      such as the sentinels "off" and "default". */
  datatype Paint = Rgb(r: real, g: real, b: real) | Word(w: string)

  /** `simpleLED.update`'s default argument. */
  const OFF: Paint := Word("off")

  /** `smallLED.update`'s default argument. */
  const DEFAULT: Paint := Word("default")

  /** `color.gray(0.5)`, both LED classes' default off colour. */
  const HALF_GRAY: Paint := Rgb(0.5, 0.5, 0.5)

  /** What a parameterised LED shows: the compound's colour and emissive flag. */
  datatype Look = Look(color: Paint, emissive: bool)

  /** The look `simpleLED.update(arg)` leaves, whatever the look before:
      the sentinel "off" shows the LED's own off colour unlit, any other
      argument is shown as given, self-lit. */
  function SimpleLook(offColor: Paint, arg: Paint): (l: Look)
    ensures l.emissive <==> arg != OFF
    ensures l.color == (if l.emissive then arg else offColor)
  {
    if arg == OFF then Look(offColor, false) else Look(arg, true)
  }

  /** smallLED's sentinel is not simpleLED's: given "default", a simpleLED
      sets its emissive flag and takes the string as its colour, it does not
      switch off. */
  lemma DefaultLightsSimpleLed(offColor: Paint)
    ensures SimpleLook(offColor, DEFAULT) == Look(DEFAULT, true)
    ensures SmallShade(offColor, DEFAULT) == offColor
  {
  }

  /** The parameterised LED: its geometry is fixed at construction, its
      compound's colour and emissive flag are updated in place. */
  class SimpleLed {
    const parts: LedParts
    const offColor: Paint
    var color: Paint
    var emissive: bool

    function Shown(): Look
      reads this
    {
      Look(color, emissive)
    }

    /** Builds the parts and groups them with the off colour; the compound
        starts unlit (the renderer's default). */
    constructor (pos: Vec := ORIGIN, offColor: Paint := HALF_GRAY, scale: real := 1.0, axis: string := "z")
      ensures parts == SimpleLedParts(pos, scale, axis)
      ensures this.offColor == offColor
      ensures Shown() == Look(offColor, false)
    {
      parts := SimpleLedParts(pos, scale, axis);
      this.offColor := offColor;
      color := offColor;
      emissive := false;
    }

    /** `update(arg)`: the new look depends on the argument only, so a
        second call with the same argument changes nothing, and only this
        LED is touched. Called without an argument it switches the LED off. */
    method Update(arg: Paint := OFF)
      modifies this
      ensures Shown() == SimpleLook(offColor, arg)
    {
      if arg == OFF {
        emissive := false;
        color := offColor;
      } else {
        emissive := true;
        color := arg;
      }
    }
  }

  /** The colour `smallLED.update(arg)` gives the dome, body and base: the
      LED's off colour for the sentinel "default", the argument otherwise. */
  function SmallShade(offColor: Paint, arg: Paint): (c: Paint)
    ensures c == offColor || c == arg
    ensures arg != DEFAULT ==> c == arg
    ensures arg == DEFAULT ==> c == offColor
  {
    if arg == DEFAULT then offColor else arg
  }

  /** The Lesson 11 LED. Its three coloured parts are recoloured together;
      its legs are not referenced by the object, so no update reaches them.
      `color` is absent until the first update. */
  class SmallLed {
    const offColor: Paint
    var color: Option<Paint>
    var domeColor: Paint
    var bodyColor: Paint
    var baseColor: Paint

    constructor (offColor: Paint := HALF_GRAY)
      ensures this.offColor == offColor && color == None
      ensures domeColor == bodyColor == baseColor == offColor
    {
      this.offColor := offColor;
      color := None;
      domeColor, bodyColor, baseColor := offColor, offColor, offColor;
    }

    /** `update(arg)`; called without an argument it restores the off colour. */
    method Update(arg: Paint := DEFAULT)
      modifies this
      ensures color == Some(SmallShade(offColor, arg))
      ensures domeColor == bodyColor == baseColor == SmallShade(offColor, arg)
    {
      if arg == DEFAULT {
        color := Some(offColor);
      } else {
        color := Some(arg);
      }
      domeColor := color.value;
      bodyColor := color.value;
      baseColor := color.value;
    }
  }

  datatype Option<T> = None | Some(value: T)
}
