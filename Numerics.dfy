/**
  The floating-point primitives the simulation takes from the host language's
  math library, and the composition of polar vectors built on them.

  Floats are modelled as `real`. The primitives `cos`, `sin`, `atan2` and
  `hypot` are not modelled numerically: they are handed to every operation as
  fields of a `MathLib` value, so no property proved here depends on a
  trigonometric identity. `pi` is likewise an opaque constant.
*/
module Numerics {

  /** The math library: uninterpreted primitives and the constant pi. */
  datatype MathLib = MathLib(
    cos: real -> real,
    sin: real -> real,
    atan2: (real, real) -> real,
    hypot: (real, real) -> real,
    pi: real)

  /** The only facts about the library the model relies on: pi is positive and
      a Euclidean norm is never negative. */
  ghost predicate Sound(m: MathLib)
  {
    m.pi > 0.0 && forall a: real, b: real :: m.hypot(a, b) >= 0.0
  }

  /** A velocity or a force in polar form: a heading in radians and a magnitude. */
  datatype Polar = Polar(angle: real, speed: real)

  /** Horizontal Cartesian component of a polar vector. */
  function Dx(m: MathLib, v: Polar): real
  {
    m.cos(v.angle) * v.speed
  }

  /** Vertical Cartesian component of a polar vector. */
  function Dy(m: MathLib, v: Polar): real
  {
    m.sin(v.angle) * v.speed
  }

  /** Back from Cartesian components to polar form. */
  function FromCartesian(m: MathLib, x: real, y: real): Polar
  {
    Polar(m.atan2(y, x), m.hypot(x, y))
  }

  /** `AddVectors`: sum of two polar vectors, by way of their Cartesian
      components. The resultant's magnitude comes from `hypot`, so it is
      never negative. */
  function AddVectors(m: MathLib, v1: Polar, v2: Polar): (r: Polar)
    ensures Sound(m) ==> r.speed >= 0.0
  {
    FromCartesian(m, Dx(m, v1) + Dx(m, v2), Dy(m, v1) + Dy(m, v2))
  }

  /** Composition is commutative. */
  lemma AddVectorsCommutes(m: MathLib, v1: Polar, v2: Polar)
    ensures AddVectors(m, v1, v2) == AddVectors(m, v2, v1)
  {
  }

  /** The resultant depends on its operands only through the sum of their
      Cartesian components. */
  lemma AddVectorsBySum(m: MathLib, v1: Polar, v2: Polar, w1: Polar, w2: Polar)
    requires Dx(m, v1) + Dx(m, v2) == Dx(m, w1) + Dx(m, w2)
    requires Dy(m, v1) + Dy(m, v2) == Dy(m, w1) + Dy(m, w2)
    ensures AddVectors(m, v1, v2) == AddVectors(m, w1, w2)
  {
  }

  /** Adding a vector of zero magnitude gives the same result whatever its
      heading: the resultant is the polar form of the other operand's
      components. */
  lemma AddZeroVector(m: MathLib, v: Polar, a: real)
    ensures AddVectors(m, v, Polar(a, 0.0)) == FromCartesian(m, Dx(m, v), Dy(m, v))
  {
  }
}
