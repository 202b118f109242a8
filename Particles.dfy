/**
  One particle: its state as a value, the world constants that drive it, and
  the per-frame integration with wall reflection (`Particle.move`).
*/
module Particles {
  import opened Numerics

  /** Window width and height, the walls of the world. */
  const Width: real := 1000.0
  const Height: real := 800.0

  /** Drag: a move keeps 0.9999 of a particle's speed. */
  function Dragged(speed: real): real
  {
    speed * 0.9999
  }

  /** Magnitude of the constant force; its heading is pi/2. */
  const GravitySpeed: real := 0.00007

  /** The constant force applied to every particle once per frame. */
  function Gravity(m: MathLib): Polar
  {
    Polar(m.pi / 2.0, GravitySpeed)
  }

  /** A particle's physical state (colour and outline thickness only serve
      drawing and are not part of it). */
  datatype ParticleState = ParticleState(
    x: real, y: real, size: real, speed: real, angle: real, mass: real)
  {
    /** Its velocity as a polar vector. */
    function Velocity(): Polar
    {
      Polar(angle, speed)
    }
  }

  /** The mass a particle is given at creation: 2 pi size^2. */
  function Mass(m: MathLib, size: real): real
  {
    2.0 * m.pi * (size * size)
  }

  /** First half of `move`: compose the velocity with gravity, advance the
      position along the new velocity, then apply drag to the speed. */
  function Integrate(m: MathLib, s: ParticleState): (t: ParticleState)
    ensures t.size == s.size && t.mass == s.mass
    // the heading is the composed one, and the position advances along the
    // composed velocity before drag is applied
    ensures var v := AddVectors(m, s.Velocity(), Gravity(m));
      t.angle == v.angle && t.x == s.x + Dx(m, v) && t.y == s.y + Dy(m, v)
    ensures t.speed == Dragged(AddVectors(m, s.Velocity(), Gravity(m)).speed)
  {
    var v := AddVectors(m, s.Velocity(), Gravity(m));
    var s1 := s.(angle := v.angle, speed := v.speed);
    var s2 := s1.(x := s1.x + Dx(m, s1.Velocity()), y := s1.y + Dy(m, s1.Velocity()));
    s2.(speed := Dragged(s2.speed))
  }

  /** The wall zone a state lies in, tried in the order right, left, bottom,
      top; the first that applies is the only one acted on.
      A corner is therefore handled on the horizontal axis only. */
  datatype Wall = NoWall | RightWall | LeftWall | BottomWall | TopWall

  function WallHit(s: ParticleState): Wall
  {
    if s.x > Width - s.size then RightWall
    else if s.x < s.size then LeftWall
    else if s.y > Height - s.size then BottomWall
    else if s.y < s.size then TopWall
    else NoWall
  }

  /** Second half of `move`: mirror the position back inside the wall that was
      crossed and reflect the heading about that wall. */
  function Reflect(m: MathLib, s: ParticleState): (r: ParticleState)
    ensures r.speed == s.speed && r.size == s.size && r.mass == s.mass
    // right wall
    ensures s.x > Width - s.size ==>
      r == s.(x := 2.0 * (Width - s.size) - s.x, angle := m.pi - s.angle) && r.x < Width - s.size
    // left wall, tried only when the right one did not apply
    ensures !(s.x > Width - s.size) && s.x < s.size ==>
      r == s.(x := 2.0 * s.size - s.x, angle := m.pi - s.angle) && r.x > s.size
    // bottom wall, tried only when neither side wall applied
    ensures s.size <= s.x <= Width - s.size && s.y > Height - s.size ==>
      r == s.(y := 2.0 * (Height - s.size) - s.y, angle := -s.angle) && r.y < Height - s.size
    // top wall, tried last
    ensures s.size <= s.x <= Width - s.size && !(s.y > Height - s.size) && s.y < s.size ==>
      r == s.(y := 2.0 * s.size - s.y, angle := -s.angle) && r.y > s.size
    // no wall: nothing changes
    ensures s.size <= s.x <= Width - s.size && s.size <= s.y <= Height - s.size ==> r == s
  {
    match WallHit(s)
    case RightWall => s.(x := 2.0 * (Width - s.size) - s.x, angle := m.pi - s.angle)
    case LeftWall => s.(x := 2.0 * s.size - s.x, angle := m.pi - s.angle)
    case BottomWall => s.(y := 2.0 * (Height - s.size) - s.y, angle := -s.angle)
    case TopWall => s.(y := 2.0 * s.size - s.y, angle := -s.angle)
    case NoWall => s
  }

  /** At most one wall acts: a reflection changes one coordinate, never both,
      and flips the heading about the matching axis. */
  lemma ReflectOneAxis(m: MathLib, s: ParticleState)
    ensures var r := Reflect(m, s);
      (r.y == s.y || r.x == s.x) &&
      (r != s ==> (r.y == s.y && r.angle == m.pi - s.angle) || (r.x == s.x && r.angle == -s.angle))
  {
  }

  /** A particle that was out of the box on at most one axis, by at most the
      free width of the box on that axis, is mirrored back inside the box. */
  lemma ReflectSingleWall(m: MathLib, s: ParticleState)
    requires s.size <= s.x <= Width - s.size || s.size <= s.y <= Height - s.size
    requires 3.0 * s.size - Width <= s.x <= 2.0 * Width - 3.0 * s.size
    requires 3.0 * s.size - Height <= s.y <= 2.0 * Height - 3.0 * s.size
    ensures var r := Reflect(m, s);
      s.size <= r.x <= Width - s.size && s.size <= r.y <= Height - s.size
  {
  }

  /** `move`: integrate, then reflect off at most one wall. */
  function Moved(m: MathLib, s: ParticleState): (r: ParticleState)
    ensures r.size == s.size && r.mass == s.mass
    // wall reflection never changes the speed set by integration
    ensures r.speed == Dragged(AddVectors(m, s.Velocity(), Gravity(m)).speed)
    ensures Sound(m) ==> r.speed >= 0.0
  {
    Reflect(m, Integrate(m, s))
  }

  /** A particle object, updated in place by the simulation. */
  class Particle {
    var x: real
    var y: real
    var size: real
    var speed: real
    var angle: real
    var mass: real

    /** The abstract value of this particle. */
    function State(): ParticleState
      reads this
    {
      ParticleState(x, y, size, speed, angle, mass)
    }

    /** Creates a particle at (x0, y0) of radius size0; the initial speed and
        heading, random in the Python program, are parameters here. */
    constructor (m: MathLib, x0: real, y0: real, size0: real, speed0: real, angle0: real)
      ensures State() == ParticleState(x0, y0, size0, speed0, angle0, Mass(m, size0))
    {
      x, y := x0, y0;
      size := size0;
      speed := speed0;
      angle := angle0;
      mass := Mass(m, size0);
    }

    /** `Particle.move`. */
    method Move(m: MathLib)
      modifies this
      ensures State() == Moved(m, old(State()))
    {
      ghost var t := Integrate(m, State());
      var v := AddVectors(m, Polar(angle, speed), Gravity(m));
      angle, speed := v.angle, v.speed;
      x := x + Dx(m, Polar(angle, speed));
      y := y + Dy(m, Polar(angle, speed));
      speed := Dragged(speed);
      assert State() == t;

      if x > Width - size {
        x := 2.0 * (Width - size) - x;
        angle := m.pi - angle;
      } else if x < size {
        x := 2.0 * size - x;
        angle := m.pi - angle;
      } else if y > Height - size {
        y := 2.0 * (Height - size) - y;
        angle := -angle;
      } else if y < size {
        y := 2.0 * size - y;
        angle := -angle;
      }
    }
  }

  /** The states of a sequence of particle objects, in order. */
  ghost function States(ps: seq<Particle>): (r: seq<ParticleState>)
    reads ps
    ensures |r| == |ps|
  {
    seq(|ps|, k requires 0 <= k < |ps| reads ps => ps[k].State())
  }
}
