/**
  Pairwise collision (`collide`): an overlap test between two particles and,
  when they overlap, an in-place update of their velocities and positions,
  exactly in the order `GameWindowSetup.py` performs its assignments.
*/
module Collisions {
  import opened Numerics
  import opened Particles

  /** Distance between the two centres, as `hypot` reports it. */
  function Distance(m: MathLib, a: ParticleState, b: ParticleState): real
  {
    m.hypot(a.x - b.x, a.y - b.y)
  }

  /** The two circles overlap. */
  predicate Overlap(m: MathLib, a: ParticleState, b: ParticleState)
  {
    Distance(m, a, b) < a.size + b.size
  }

  /** What the update's divisions need: when the circles overlap, the total
      mass is not zero. */
  predicate Collidable(m: MathLib, a: ParticleState, b: ParticleState)
  {
    Overlap(m, a, b) ==> a.mass + b.mass != 0.0
  }

  /** The heading along which the collision acts: the angle of the line of
      centres plus pi/2. */
  function ContactAngle(m: MathLib, a: ParticleState, b: ParticleState): real
  {
    m.atan2(a.y - b.y, a.x - b.x) + m.pi / 2.0
  }

  /** Parts of the update: a speed scaled by a mass ratio, `speed*weight/total`.
      Real arithmetic is exact, so the grouping of the product does not matter. */
  function Share(speed: real, weight: real, total: real): real
    requires total != 0.0
  {
    speed * (weight / total)
  }

  /** The velocity `collide` composes first, from the particles as they were
      on entry. */
  function FirstImpulse(m: MathLib, a: ParticleState, b: ParticleState): (r: Polar)
    requires a.mass + b.mass != 0.0
    ensures Sound(m) ==> r.speed >= 0.0
  {
    var total := a.mass + b.mass;
    AddVectors(m, Polar(a.angle, Share(a.speed, a.mass - b.mass, total)),
                  Polar(ContactAngle(m, a, b), Share(2.0 * b.speed, b.mass, total)))
  }

  /** The velocity `collide` composes second; `a1` is the first particle as
      the first assignment left it, `contact` the contact heading computed on
      entry. */
  function SecondImpulse(m: MathLib, a1: ParticleState, b: ParticleState, contact: real): (r: Polar)
    requires a1.mass + b.mass != 0.0
    ensures Sound(m) ==> r.speed >= 0.0
  {
    var total := a1.mass + b.mass;
    AddVectors(m, Polar(b.angle, Share(b.speed, b.mass - a1.mass, total)),
                  Polar(contact + m.pi, Share(2.0 * a1.speed, a1.mass, total)))
  }

  /** Half the overlap of the two circles, plus half a unit. */
  function Depth(m: MathLib, a: ParticleState, b: ParticleState): real
  {
    0.5 * (a.size + b.size - Distance(m, a, b) + 1.0)
  }

  /** The overlap correction applied to each of the two particles. */
  function Shift(m: MathLib, s: ParticleState, contact: real, depth: real): ParticleState
  {
    s.(x := s.x + Dx(m, Polar(contact, depth)), y := s.y - Dy(m, Polar(contact, depth)))
  }

  /** The two particles after a collision. */
  datatype Pair = Pair(first: ParticleState, second: ParticleState)

  /** `collide(p1, p2)`. Both composed velocities are written to the first
      particle; the second composition reads the first particle's speed as the
      first assignment left it. Both particles are then shifted by the same
      offset. */
  function Collision(m: MathLib, a: ParticleState, b: ParticleState): (r: Pair)
    requires Collidable(m, a, b)
    // apart: nothing changes
    ensures !Overlap(m, a, b) ==> r == Pair(a, b)
    // the second particle's velocity is never changed
    ensures r.second.angle == b.angle && r.second.speed == b.speed
    // sizes and masses are never changed
    ensures r.first.size == a.size && r.first.mass == a.mass
    ensures r.second.size == b.size && r.second.mass == b.mass
    // the relative displacement of the centres is unchanged
    ensures r.first.x - r.second.x == a.x - b.x && r.first.y - r.second.y == a.y - b.y
    // the first particle's new speed comes from hypot
    ensures Sound(m) && Overlap(m, a, b) ==> r.first.speed >= 0.0
  {
    if Overlap(m, a, b) then
      var contact := ContactAngle(m, a, b);
      var v1 := FirstImpulse(m, a, b);
      var a1 := a.(angle := v1.angle, speed := v1.speed);
      var v2 := SecondImpulse(m, a1, b, contact);
      var a2 := a1.(angle := v2.angle, speed := v2.speed);
      var depth := Depth(m, a, b);
      Pair(Shift(m, a2, contact, depth), Shift(m, b, contact, depth))
    else
      Pair(a, b)
  }

  /** When the particles overlap, the first ends up with the velocity meant
      for the second: the composition of the second's scaled velocity with an
      impulse along the reversed contact heading, whose magnitude uses the
      first particle's speed after the first assignment and not its speed on
      entry. The heading of the first composition is discarded. */
  lemma CollisionOverwritesFirst(m: MathLib, a: ParticleState, b: ParticleState)
    requires Overlap(m, a, b) && a.mass + b.mass != 0.0
    ensures var total := a.mass + b.mass;
      var s1 := FirstImpulse(m, a, b).speed;
      Collision(m, a, b).first.Velocity() ==
        AddVectors(m, Polar(b.angle, Share(b.speed, b.mass - a.mass, total)),
                      Polar(ContactAngle(m, a, b) + m.pi, Share(2.0 * s1, a.mass, total)))
  {
  }

  /** When the particles overlap, both are moved by the same offset along the
      contact heading. */
  lemma CollisionShift(m: MathLib, a: ParticleState, b: ParticleState)
    requires Overlap(m, a, b) && a.mass + b.mass != 0.0
    ensures var c := ContactAngle(m, a, b);
      var depth := 0.5 * (a.size + b.size - Distance(m, a, b) + 1.0);
      var r := Collision(m, a, b);
      r.first.x == a.x + Dx(m, Polar(c, depth)) && r.first.y == a.y - Dy(m, Polar(c, depth)) &&
      r.second.x == b.x + Dx(m, Polar(c, depth)) && r.second.y == b.y - Dy(m, Polar(c, depth))
  {
  }

  /** Because the shift is common to both, a collision never changes the
      distance between the centres: particles that overlap still overlap. */
  lemma CollisionKeepsDistance(m: MathLib, a: ParticleState, b: ParticleState)
    requires Collidable(m, a, b)
    ensures var r := Collision(m, a, b);
      Distance(m, r.first, r.second) == Distance(m, a, b) &&
      (Overlap(m, r.first, r.second) <==> Overlap(m, a, b))
  {
    var r := Collision(m, a, b);
    assert r.first.x - r.second.x == a.x - b.x && r.first.y - r.second.y == a.y - b.y;
  }

  /** `collide` on particle objects, updated in place. */
  method Collide(m: MathLib, p1: Particle, p2: Particle)
    requires p1 != p2
    requires Collidable(m, p1.State(), p2.State())
    modifies p1, p2
    ensures Pair(p1.State(), p2.State()) == Collision(m, old(p1.State()), old(p2.State()))
  {
    ghost var a, b := p1.State(), p2.State();
    var dx := p1.x - p2.x;
    var dy := p1.y - p2.y;

    var distance := m.hypot(dx, dy);
    if distance < p1.size + p2.size {
      var angle := m.atan2(dy, dx) + m.pi / 2.0;
      var totalMass := p1.mass + p2.mass;
      assert Overlap(m, a, b) && angle == ContactAngle(m, a, b);

      var v := AddVectors(m, Polar(p1.angle, Share(p1.speed, p1.mass - p2.mass, totalMass)),
                             Polar(angle, Share(2.0 * p2.speed, p2.mass, totalMass)));
      assert v == FirstImpulse(m, a, b);
      p1.angle, p1.speed := v.angle, v.speed;
      ghost var a1 := p1.State();
      v := AddVectors(m, Polar(p2.angle, Share(p2.speed, p2.mass - p1.mass, totalMass)),
                         Polar(angle + m.pi, Share(2.0 * p1.speed, p1.mass, totalMass)));
      assert v == SecondImpulse(m, a1, b, angle);
      p1.angle, p1.speed := v.angle, v.speed;

      var overlap := 0.5 * (p1.size + p2.size - distance + 1.0);
      assert overlap == Depth(m, a, b);
      ghost var a2 := p1.State();
      p1.x, p1.y := p1.x + Dx(m, Polar(angle, overlap)), p1.y - Dy(m, Polar(angle, overlap));
      p2.x, p2.y := p2.x + Dx(m, Polar(angle, overlap)), p2.y - Dy(m, Polar(angle, overlap));
      assert p1.State() == Shift(m, a2, angle, overlap);
      assert p2.State() == Shift(m, b, angle, overlap);
      assert Collision(m, a, b) == Pair(Shift(m, a2, angle, overlap), Shift(m, b, angle, overlap));
    } else {
      assert !Overlap(m, a, b);
    }
  }
}
