/**
  Picking a particle with the pointer (`findParticle`): the first particle,
  in list order, whose circle contains the pointer position.
*/
module Selection {
  import opened Wrappers
  import opened Numerics
  import opened Particles

  /** The pointer at (x, y) lies within the particle's circle. */
  predicate Hits(m: MathLib, s: ParticleState, x: real, y: real)
  {
    m.hypot(s.x - x, s.y - y) <= s.size
  }

  /** `r` is the index of the first particle hit at (x, y), or None when no
      particle is hit. */
  predicate IsFirstHit(m: MathLib, s: seq<ParticleState>, x: real, y: real, r: Option<nat>)
  {
    match r
    case Some(k) => k < |s| && Hits(m, s[k], x, y) && forall j :: 0 <= j < k ==> !Hits(m, s[j], x, y)
    case None => forall j :: 0 <= j < |s| ==> !Hits(m, s[j], x, y)
  }

  /** The first particle hit at or after index `lo`. */
  function FirstHitFrom(m: MathLib, s: seq<ParticleState>, x: real, y: real, lo: nat): (r: Option<nat>)
    requires lo <= |s|
    ensures r.Some? ==> lo <= r.value < |s| && Hits(m, s[r.value], x, y)
    ensures r.Some? ==> forall j :: lo <= j < r.value ==> !Hits(m, s[j], x, y)
    ensures r.None? ==> forall j :: lo <= j < |s| ==> !Hits(m, s[j], x, y)
    decreases |s| - lo
  {
    if lo == |s| then None
    else if Hits(m, s[lo], x, y) then Some(lo)
    else FirstHitFrom(m, s, x, y, lo + 1)
  }

  /** The first particle hit at (x, y); None exactly when none is hit. */
  function FirstHit(m: MathLib, s: seq<ParticleState>, x: real, y: real): (r: Option<nat>)
    ensures IsFirstHit(m, s, x, y, r)
  {
    FirstHitFrom(m, s, x, y, 0)
  }

  /** The first-hit property determines the answer. */
  lemma FirstHitUnique(m: MathLib, s: seq<ParticleState>, x: real, y: real, r: Option<nat>)
    requires IsFirstHit(m, s, x, y, r)
    ensures r == FirstHit(m, s, x, y)
  {
  }

  /** `findParticle`: the index of the first particle hit at (x, y). */
  method FindParticle(m: MathLib, ps: seq<Particle>, x: real, y: real) returns (r: Option<nat>)
    ensures r == FirstHit(m, States(ps), x, y)
  {
    var i := 0;
    while i < |ps|
      invariant 0 <= i <= |ps|
      invariant FirstHitFrom(m, States(ps), x, y, i) == FirstHit(m, States(ps), x, y)
    {
      if m.hypot(ps[i].x - x, ps[i].y - y) <= ps[i].size {
        assert Hits(m, States(ps)[i], x, y);
        return Some(i);
      }
      i := i + 1;
    }
    return None;
  }
}
