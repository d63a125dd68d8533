/** Exact 3D vectors, the closed enumeration of principal axes, and the
    axis-scale resolver shared by the parameterised LED and screw builders.
    Coordinates are `real`: the builders are linear scalings, so the model
    works over exact reals rather than floating point. */
module Geometry {

  datatype Vec = Vec(x: real, y: real, z: real)

  const ORIGIN := Vec(0.0, 0.0, 0.0)

  function Add(a: Vec, b: Vec): Vec {
    Vec(a.x + b.x, a.y + b.y, a.z + b.z)
  }

  function Sub(a: Vec, b: Vec): Vec {
    Vec(a.x - b.x, a.y - b.y, a.z - b.z)
  }

  /** The vector `v` stretched by the factor `k`. */
  function Times(k: real, v: Vec): Vec {
    Vec(k * v.x, k * v.y, k * v.z)
  }

  function Neg(v: Vec): Vec {
    Vec(-v.x, -v.y, -v.z)
  }

  /** A cylinder or cone: start point, axis vector (from start to end, or
      from base to tip) and radius. */
  datatype Rod = Rod(pos: Vec, axis: Vec, radius: real)

  function RodEnd(r: Rod): Vec {
    Add(r.pos, r.axis)
  }

  /** The rod shifted by `d`; its axis and radius are kept. */
  function MovedRod(r: Rod, d: Vec): Rod { Rod(Add(r.pos, d), r.axis, r.radius) }

  /** The rod's start, axis and radius multiplied by `k`. */
  function ScaledRod(k: real, r: Rod): Rod { Rod(Times(k, r.pos), Times(k, r.axis), k * r.radius) }

  /** The rod's start, axis and radius negated. */
  function MirroredRod(r: Rod): Rod { Rod(Neg(r.pos), Neg(r.axis), -r.radius) }

  /** The three principal axes; the resolver maps every axis label onto one. */
  datatype Axis = X | Y | Z

  /** The vector of length `c` along the principal axis `k`: `c` on that
      axis and zero on the other two. */
  function OnAxis(c: real, k: Axis): Vec {
    match k
    case X => Vec(c, 0.0, 0.0)
    case Y => Vec(0.0, c, 0.0)
    case Z => Vec(0.0, 0.0, c)
  }

  /** The coordinate of `v` along the principal axis `k`. */
  function Comp(v: Vec, k: Axis): real {
    match k
    case X => v.x
    case Y => v.y
    case Z => v.z
  }

  /** The cyclic successor x -> y -> z -> x. */
  function Next(k: Axis): (n: Axis)
    ensures n != k
  {
    match k
    case X => Y
    case Y => Z
    case Z => X
  }

  /** Python's `str.lower()` restricted to ASCII letters. */
  function LowerChar(c: char): (d: char)
    ensures 'A' <= c <= 'Z' ==> 'a' <= d <= 'z' && d as int == c as int + 32
    ensures !('A' <= c <= 'Z') ==> d == c
  {
    if 'A' <= c <= 'Z' then (c as int + 32) as char else c
  }

  function Upper(c: char): char
    requires 'a' <= c <= 'z'
  {
    (c as int - 32) as char
  }

  /** `s.lower()`: the same length, every character lowered on its own. */
  function Lower(s: string): (r: string)
    ensures |r| == |s|
    ensures forall i :: 0 <= i < |s| ==> r[i] == LowerChar(s[i])
  {
    if s == [] then [] else [LowerChar(s[0])] + Lower(s[1..])
  }

  /** A lower-case letter is matched, after lowering, by exactly the
      one-character strings holding that letter in either case. */
  lemma {:induction false} LowerMatchesLetter(s: string, c: char)
    requires 'a' <= c <= 'z'
    ensures Lower(s) == [c] <==> s == [c] || s == [Upper(c)]
  {
    if Lower(s) == [c] {
      assert |s| == 1 && LowerChar(s[0]) == c;
      assert s == [s[0]];
    }
    if s == [c] || s == [Upper(c)] {
      assert |Lower(s)| == 1 && Lower(s)[0] == c;
    }
  }

  /** The axis a label selects: 'x' or 'X' is X, 'y' or 'Y' is Y, and every
      other label, 'z' included, falls back to Z. */
  function AxisOf(axis: string): (k: Axis)
    ensures k == X <==> axis == "x" || axis == "X"
    ensures k == Y <==> axis == "y" || axis == "Y"
  {
    LowerMatchesLetter(axis, 'x');
    LowerMatchesLetter(axis, 'y');
    if Lower(axis) == "x" then X
    else if Lower(axis) == "y" then Y
    else Z
  }

  /** The axis-scale triple (xScale, yScale, zScale): the signed `scale` on
      the selected axis and zero on the other two. */
  function AxisScale(scale: real, axis: string): (s: Vec)
    ensures s == OnAxis(scale, AxisOf(axis))
    ensures Comp(s, AxisOf(axis)) == scale
    ensures Comp(s, Next(AxisOf(axis))) == 0.0 && Comp(s, Next(Next(AxisOf(axis)))) == 0.0
  {
    if Lower(axis) == "x" then Vec(scale, 0.0, 0.0)
    else if Lower(axis) == "y" then Vec(0.0, scale, 0.0)
    else Vec(0.0, 0.0, scale)
  }

  /** Negating the scale negates the triple: the resolver mirrors. */
  lemma AxisScaleMirrors(scale: real, axis: string)
    ensures AxisScale(-scale, axis) == Neg(AxisScale(scale, axis))
  {
  }
}
