/**
  One frame of the simulation: the pointer events select or release a
  particle, a held particle's velocity is aimed at the pointer, then every
  particle is moved and collided with every later particle.
*/
module Simulation {
  import opened Wrappers
  import opened Numerics
  import opened Particles
  import opened Collisions
  import opened Selection
  import opened FrameOrder

  /** Every particle has positive mass, as creation gives it (2 pi size^2
      with a positive size). */
  predicate Massive(s: seq<ParticleState>)
  {
    forall k :: 0 <= k < |s| ==> s[k].mass > 0.0
  }

  /** `particles[i].move()` on the states of all particles. */
  function MoveOne(m: MathLib, s: seq<ParticleState>, i: nat): (r: seq<ParticleState>)
    requires i < |s| && Massive(s)
    ensures |r| == |s| && Massive(r)
    ensures r[i] == Moved(m, s[i]) && forall k :: 0 <= k < |s| && k != i ==> r[k] == s[k]
  {
    s[i := Moved(m, s[i])]
  }

  /** `collide(particles[i], particles[j])` on the states of all particles. */
  function CollideTwo(m: MathLib, s: seq<ParticleState>, i: nat, j: nat): (r: seq<ParticleState>)
    requires i < j < |s| && Massive(s)
    ensures |r| == |s| && Massive(r)
    ensures r[i] == Collision(m, s[i], s[j]).first && r[j] == Collision(m, s[i], s[j]).second
    ensures forall k :: 0 <= k < |s| && k != i && k != j ==> r[k] == s[k]
  {
    var p := Collision(m, s[i], s[j]);
    s[i := p.first][j := p.second]
  }

  /** The effect of one operation on the states of all particles. */
  function ApplyOp(m: MathLib, s: seq<ParticleState>, op: Op): (r: seq<ParticleState>)
    requires Fits(op, |s|) && Massive(s)
    ensures |r| == |s| && Massive(r)
  {
    match op
    case MoveOp(i) => MoveOne(m, s, i)
    case CollideOp(i, j) => CollideTwo(m, s, i, j)
  }

  /** A move or a collision leaves every other particle alone, and no
      particle's size or mass changes. */
  lemma ApplyOpFrame(m: MathLib, s: seq<ParticleState>, op: Op)
    requires Fits(op, |s|) && Massive(s)
    ensures forall k :: 0 <= k < |s| ==>
      ApplyOp(m, s, op)[k].size == s[k].size && ApplyOp(m, s, op)[k].mass == s[k].mass
    ensures forall k :: 0 <= k < |s| && k != op.i && (op.CollideOp? ==> k != op.j) ==>
      ApplyOp(m, s, op)[k] == s[k]
  {
  }

  /** The speed of a particle that was just moved, or was not negative, is
      not negative. */
  lemma ApplyOpSpeed(m: MathLib, s: seq<ParticleState>, op: Op, k: nat)
    requires Sound(m) && Fits(op, |s|) && Massive(s)
    requires k < |s| && (op == MoveOp(k) || s[k].speed >= 0.0)
    ensures ApplyOp(m, s, op)[k].speed >= 0.0
  {
  }

  /** The effect of a sequence of operations, performed first to last. */
  function Apply(m: MathLib, s: seq<ParticleState>, ops: seq<Op>): (r: seq<ParticleState>)
    requires AllFit(ops, |s|) && Massive(s)
    ensures |r| == |s| && Massive(r)
    decreases |ops|
  {
    if ops == [] then s
    else ApplyOp(m, Apply(m, s, ops[..|ops| - 1]), ops[|ops| - 1])
  }

  /** No sequence of operations changes a particle's size or mass. */
  lemma {:induction false} ApplyKeepsSizes(m: MathLib, s: seq<ParticleState>, ops: seq<Op>, k: nat)
    requires AllFit(ops, |s|) && Massive(s) && k < |s|
    ensures Apply(m, s, ops)[k].size == s[k].size && Apply(m, s, ops)[k].mass == s[k].mass
    decreases |ops|
  {
    if ops != [] {
      var front := ops[..|ops| - 1];
      ApplyKeepsSizes(m, s, front, k);
      ApplyOpFrame(m, Apply(m, s, front), ops[|ops| - 1]);
    }
  }

  /** Performing two sequences of operations one after the other is
      performing their concatenation. */
  lemma {:induction false} ApplyConcat(m: MathLib, s: seq<ParticleState>, a: seq<Op>, b: seq<Op>)
    requires AllFit(a, |s|) && AllFit(b, |s|) && Massive(s)
    ensures AllFit(a + b, |s|)
    ensures Apply(m, s, a + b) == Apply(m, Apply(m, s, a), b)
    decreases |b|
  {
    assert forall k :: |a| <= k < |a + b| ==> (a + b)[k] == b[k - |a|];
    if b == [] {
      assert a + b == a;
    } else {
      var front, last := b[..|b| - 1], b[|b| - 1];
      ApplyConcat(m, s, a, front);
      assert (a + b)[..|a + b| - 1] == a + front;
      calc {
        Apply(m, s, a + b);
        ApplyOp(m, Apply(m, s, a + front), last);
        { assert Apply(m, s, a + front) == Apply(m, Apply(m, s, a), front); }
        ApplyOp(m, Apply(m, Apply(m, s, a), front), last);
        Apply(m, Apply(m, s, a), b);
      }
    }
  }

  /** Performing one more operation at the end. */
  lemma ApplySnoc(m: MathLib, s: seq<ParticleState>, ops: seq<Op>, op: Op)
    requires AllFit(ops, |s|) && Fits(op, |s|) && Massive(s)
    ensures AllFit(ops + [op], |s|)
    ensures Apply(m, s, ops + [op]) == ApplyOp(m, Apply(m, s, ops), op)
  {
    assert (ops + [op])[..|ops|] == ops;
  }

  /** One more iteration of the inner loop: collide particle i with
      particle j. Here and below, a successor index passed as a parameter
      (j' == j + 1, i' == i + 1) keeps the solver from equating `j + 1`
      with `j' - 1` inside function terms, which it does only at great cost. */
  lemma PairsStep(m: MathLib, s: seq<ParticleState>, i: nat, j: nat, j': nat)
    requires i < j < |s| && j' == j + 1 && Massive(s)
    ensures AllFit(Pairs(i, j), |s|) && AllFit(Pairs(i, j'), |s|)
    ensures Apply(m, s, Pairs(i, j')) == ApplyOp(m, Apply(m, s, Pairs(i, j)), CollideOp(i, j))
  {
    PairsUnfold(i, j, j');
    ApplySnoc(m, s, Pairs(i, j), CollideOp(i, j));
  }

  /** One more iteration of the outer loop: move particle i, then collide it
      with every later particle. */
  lemma PrefixStep(m: MathLib, s: seq<ParticleState>, i: nat)
    requires i < |s| && Massive(s)
    ensures Apply(m, s, Prefix(|s|, i + 1)) ==
      Apply(m, ApplyOp(m, Apply(m, s, Prefix(|s|, i)), MoveOp(i)), Pairs(i, |s|))
  {
    var n := |s|;
    var p, q := Prefix(n, i), Pairs(i, n);
    ApplySnoc(m, s, p, MoveOp(i));
    assert AllFit(q, n);
    ApplyConcat(m, s, p + [MoveOp(i)], q);
    PrefixUnfold(n, i);
    assert p + ([MoveOp(i)] + q) == (p + [MoveOp(i)]) + q;
  }

  /** After a sequence of operations, every particle it moved, and every
      particle whose speed was not negative, has a speed that is not
      negative. */
  lemma {:induction false} ApplySpeeds(m: MathLib, s: seq<ParticleState>, ops: seq<Op>, k: nat)
    requires Sound(m) && AllFit(ops, |s|) && Massive(s)
    requires k < |s| && (MoveOp(k) in ops || s[k].speed >= 0.0)
    ensures Apply(m, s, ops)[k].speed >= 0.0
  {
    if ops != [] {
      var front, last := ops[..|ops| - 1], ops[|ops| - 1];
      assert ops == front + [last];
      if last != MoveOp(k) {
        assert MoveOp(k) in front || s[k].speed >= 0.0;
        ApplySpeeds(m, s, front, k);
      }
      ApplyOpSpeed(m, Apply(m, s, front), last, k);
    }
  }

  /** The particle updates of one frame. */
  function Frame(m: MathLib, s: seq<ParticleState>): (r: seq<ParticleState>)
    requires Massive(s)
    ensures |r| == |s| && Massive(r)
  {
    Apply(m, s, Schedule(|s|))
  }

  /** A frame changes no particle's size or mass. */
  lemma FrameKeepsSizes(m: MathLib, s: seq<ParticleState>)
    requires Massive(s)
    ensures forall k :: 0 <= k < |s| ==> Frame(m, s)[k].size == s[k].size && Frame(m, s)[k].mass == s[k].mass
  {
    forall k | 0 <= k < |s|
      ensures Frame(m, s)[k].size == s[k].size && Frame(m, s)[k].mass == s[k].mass
    {
      ApplyKeepsSizes(m, s, Schedule(|s|), k);
    }
  }

  /** Since a frame moves every particle, no speed is negative after it. */
  lemma FrameSpeeds(m: MathLib, s: seq<ParticleState>)
    requires Sound(m) && Massive(s)
    ensures forall k :: 0 <= k < |s| ==> Frame(m, s)[k].speed >= 0.0
  {
    forall k | 0 <= k < |s| ensures Frame(m, s)[k].speed >= 0.0 {
      ScheduleMembers(|s|, MoveOp(k));
      ApplySpeeds(m, s, Schedule(|s|), k);
    }
  }

  /** The inner loop after it reached j: particle i collided, in index
      order, with particles i+1 .. j-1. */
  function Sweep(m: MathLib, s: seq<ParticleState>, i: nat, j: nat): (r: seq<ParticleState>)
    requires i < j <= |s| && Massive(s)
    ensures |r| == |s| && Massive(r)
    decreases j
  {
    if j == i + 1 then s else CollideTwo(m, Sweep(m, s, i, j - 1), i, j - 1)
  }

  /** The outer loop after it reached i: each particle k < i in turn moved,
      then swept against the particles after it. */
  function Round(m: MathLib, s: seq<ParticleState>, i: nat): (r: seq<ParticleState>)
    requires i <= |s| && Massive(s)
    ensures |r| == |s| && Massive(r)
    decreases i
  {
    if i == 0 then s else Sweep(m, MoveOne(m, Round(m, s, i - 1), i - 1), i - 1, |s|)
  }

  /** The inner loop's iteration j collides particles i and j. */
  lemma SweepUnfold(m: MathLib, s: seq<ParticleState>, i: nat, j: nat, j': nat)
    requires i < j < |s| && j' == j + 1 && Massive(s)
    ensures Sweep(m, s, i, j') == CollideTwo(m, Sweep(m, s, i, j), i, j)
  {
    assert j' - 1 == j;
  }

  /** The outer loop's iteration i moves particle i, then sweeps it. */
  lemma RoundUnfold(m: MathLib, s: seq<ParticleState>, i: nat, i': nat)
    requires i < |s| && i' == i + 1 && Massive(s)
    ensures Round(m, s, i') == Sweep(m, MoveOne(m, Round(m, s, i), i), i, |s|)
  {
    assert i' - 1 == i;
  }

  /** Before the inner loop's first iteration nothing has been collided. */
  lemma SweepStart(m: MathLib, s: seq<ParticleState>, i: nat)
    requires i < |s| && Massive(s)
    ensures AllFit(Pairs(i, i + 1), |s|)
    ensures Sweep(m, s, i, i + 1) == Apply(m, s, Pairs(i, i + 1))
  {
    assert Pairs(i, i + 1) == [];
  }

  /** One more inner-loop iteration is one more collision of `Pairs`. */
  lemma SweepNext(m: MathLib, s: seq<ParticleState>, i: nat, j: nat, j': nat)
    requires i < j < |s| && j' == j + 1 && Massive(s)
    requires AllFit(Pairs(i, j), |s|)
    requires Sweep(m, s, i, j) == Apply(m, s, Pairs(i, j))
    ensures AllFit(Pairs(i, j'), |s|)
    ensures Sweep(m, s, i, j') == Apply(m, s, Pairs(i, j'))
  {
    PairsStep(m, s, i, j, j');
    SweepUnfold(m, s, i, j, j');
  }

  /** The inner loop performs exactly the collisions `Pairs` lists. */
  lemma {:induction false} SweepIsPairs(m: MathLib, s: seq<ParticleState>, i: nat, j: nat)
    requires i < j <= |s| && Massive(s)
    ensures AllFit(Pairs(i, j), |s|)
    ensures Sweep(m, s, i, j) == Apply(m, s, Pairs(i, j))
    decreases j
  {
    if j == i + 1 {
      SweepStart(m, s, i);
    } else {
      var k := j - 1;
      SweepIsPairs(m, s, i, k);
      SweepNext(m, s, i, k, j);
    }
  }

  /** One more outer-loop pass is one more block of `Prefix`. */
  lemma RoundNext(m: MathLib, s: seq<ParticleState>, i: nat, i': nat)
    requires i < |s| && i' == i + 1 && Massive(s)
    requires Round(m, s, i) == Apply(m, s, Prefix(|s|, i))
    ensures Round(m, s, i') == Apply(m, s, Prefix(|s|, i'))
  {
    var t := ApplyOp(m, Apply(m, s, Prefix(|s|, i)), MoveOp(i));
    RoundUnfold(m, s, i, i');
    PrefixStep(m, s, i);
    SweepIsPairs(m, t, i, |s|);
  }

  /** The first i passes of the outer loop perform exactly the operations
      `Prefix` lists. */
  lemma {:induction false} RoundIsPrefix(m: MathLib, s: seq<ParticleState>, i: nat)
    requires i <= |s| && Massive(s)
    ensures Round(m, s, i) == Apply(m, s, Prefix(|s|, i))
    decreases i
  {
    if i > 0 {
      var k := i - 1;
      RoundIsPrefix(m, s, k);
      RoundNext(m, s, k, i);
    }
  }

  /** All passes of the outer loop together perform the frame. */
  lemma RoundIsFrame(m: MathLib, s: seq<ParticleState>)
    requires Massive(s)
    ensures Round(m, s, |s|) == Frame(m, s)
  {
    RoundIsPrefix(m, s, |s|);
  }

  /** A pointer event the frame reacts to; the pointer position of a
      button press is the one read when the press is handled. */
  datatype PointerEvent = ButtonDown(x: real, y: real) | ButtonUp

  /** The selection after one pointer event: a press selects the first
      particle under the pointer, or none; a release clears the selection. */
  function Select(m: MathLib, s: seq<ParticleState>, e: PointerEvent): (r: Option<nat>)
    ensures r.Some? ==> r.value < |s|
    ensures e.ButtonDown? ==> IsFirstHit(m, s, e.x, e.y, r)
    ensures e.ButtonUp? ==> r.None?
  {
    match e
    case ButtonDown(x, y) => FirstHit(m, s, x, y)
    case ButtonUp => None
  }

  /** The selection after handling the events in order, starting from `sel`. */
  function SelectAll(m: MathLib, s: seq<ParticleState>, sel: Option<nat>, events: seq<PointerEvent>): (r: Option<nat>)
    ensures (sel.Some? ==> sel.value < |s|) ==> (r.Some? ==> r.value < |s|)
    decreases |events|
  {
    if events == [] then sel else SelectAll(m, s, Select(m, s, events[0]), events[1..])
  }

  /** Only the last pointer event of a frame decides the selection; with no
      event the selection is kept. */
  lemma {:induction false} SelectAllLast(m: MathLib, s: seq<ParticleState>, sel: Option<nat>, events: seq<PointerEvent>)
    ensures SelectAll(m, s, sel, events) == if events == [] then sel else Select(m, s, events[|events| - 1])
    decreases |events|
  {
    if events != [] {
      SelectAllLast(m, s, Select(m, s, events[0]), events[1..]);
    }
  }

  /** Aiming a held particle: its heading points from its centre to the
      pointer and its speed is a hundredth of the distance to the pointer;
      nothing else changes. */
  function Override(m: MathLib, s: seq<ParticleState>, sel: Option<nat>, mouseX: real, mouseY: real): (r: seq<ParticleState>)
    requires sel.Some? ==> sel.value < |s|
    ensures |r| == |s|
    ensures forall k :: 0 <= k < |s| && sel != Some(k) ==> r[k] == s[k]
    ensures sel.Some? ==> var k := sel.value;
      r[k].x == s[k].x && r[k].y == s[k].y && r[k].size == s[k].size && r[k].mass == s[k].mass &&
      r[k].angle == m.atan2(mouseY - s[k].y, mouseX - s[k].x) &&
      r[k].speed == m.hypot(mouseX - s[k].x, mouseY - s[k].y) * 0.01
    ensures Sound(m) && sel.Some? ==> r[sel.value].speed >= 0.0
  {
    match sel
    case None => s
    case Some(k) =>
      var dx := mouseX - s[k].x;
      var dy := mouseY - s[k].y;
      s[k := s[k].(angle := m.atan2(dy, dx), speed := m.hypot(dx, dy) * 0.01)]
  }

  /** The simulated world: the particle list, fixed in length and order for
      the whole run, and the particle held by the pointer, kept as its
      index in the list. */
  class World {
    const particles: seq<Particle>
    var selected: Option<nat>

    ghost predicate Valid()
      reads this, particles
    {
      (forall a, b :: 0 <= a < b < |particles| ==> particles[a] != particles[b]) &&
      Massive(States(particles)) &&
      (selected.Some? ==> selected.value < |particles|)
    }

    /** A world over particles created beforehand; nothing is held. */
    constructor (ps: seq<Particle>)
      requires forall a, b :: 0 <= a < b < |ps| ==> ps[a] != ps[b]
      requires Massive(States(ps))
      ensures Valid() && particles == ps && selected == None
    {
      particles := ps;
      selected := None;
    }

    /** The pointer-event part of one pass of the main loop: a press
        selects the first particle under the pointer, a release clears the
        selection. */
    method HandleEvents(m: MathLib, events: seq<PointerEvent>)
      requires Valid()
      modifies this
      ensures Valid()
      ensures selected == SelectAll(m, States(particles), old(selected), events)
    {
      var e := 0;
      while e < |events|
        invariant 0 <= e <= |events|
        invariant Valid()
        invariant SelectAll(m, States(particles), selected, events[e..]) ==
                  SelectAll(m, States(particles), old(selected), events)
      {
        match events[e] {
          case ButtonDown(x, y) =>
            selected := FindParticle(m, particles, x, y);
          case ButtonUp =>
            selected := None;
        }
        e := e + 1;
      }
    }

    /** A held particle is aimed at the pointer at (mouseX, mouseY). */
    method Aim(m: MathLib, mouseX: real, mouseY: real)
      requires Valid()
      modifies particles
      ensures Valid()
      ensures States(particles) == Override(m, old(States(particles)), selected, mouseX, mouseY)
    {
      ghost var s0 := States(particles);
      if selected.Some? {
        var p := particles[selected.value];
        var dx := mouseX - p.x;
        var dy := mouseY - p.y;
        p.angle := m.atan2(dy, dx);
        p.speed := m.hypot(dx, dy) * 0.01;
      }
      assert States(particles) == Override(m, s0, selected, mouseX, mouseY);
    }

    /** `particles[i].move()`, seen on the whole list. */
    method MoveAt(m: MathLib, i: nat)
      requires Valid() && i < |particles|
      modifies particles
      ensures Valid()
      ensures States(particles) == MoveOne(m, old(States(particles)), i)
    {
      ghost var s0 := States(particles);
      particles[i].Move(m);
      assert States(particles) == MoveOne(m, s0, i);
    }

    /** `collide(particles[i], particles[j])`, seen on the whole list. */
    method CollideAt(m: MathLib, i: nat, j: nat)
      requires Valid() && i < j < |particles|
      modifies particles
      ensures Valid()
      ensures States(particles) == CollideTwo(m, old(States(particles)), i, j)
    {
      ghost var s0 := States(particles);
      assert s0[i] == particles[i].State() && s0[j] == particles[j].State();
      assert s0[i].mass > 0.0 && s0[j].mass > 0.0;
      Collide(m, particles[i], particles[j]);
      assert States(particles) == CollideTwo(m, s0, i, j);
    }

    /** The inner loop for particle i: collide it with every later particle,
        in list order. */
    method CollideLater(m: MathLib, i: nat)
      requires Valid() && i < |particles|
      modifies particles
      ensures Valid()
      ensures States(particles) == Sweep(m, old(States(particles)), i, |particles|)
    {
      var n := |particles|;
      ghost var s0 := States(particles);
      var j := i + 1;
      while j < n
        invariant i + 1 <= j <= n
        invariant Valid()
        invariant States(particles) == Sweep(m, s0, i, j)
      {
        var k := j + 1;
        CollideAt(m, i, j);
        SweepUnfold(m, s0, i, j, k);
        j := k;
      }
    }

    /** One pass of the outer loop: move particle i, then collide it with
        every later particle. */
    method MoveThenCollide(m: MathLib, i: nat, i': nat, ghost s0: seq<ParticleState>)
      requires Valid() && i < |particles| && i' == i + 1 && |s0| == |particles| && Massive(s0)
      requires States(particles) == Round(m, s0, i)
      modifies particles
      ensures Valid()
      ensures States(particles) == Round(m, s0, i')
    {
      MoveAt(m, i);
      CollideLater(m, i);
      RoundUnfold(m, s0, i, i');
    }

    /** Move each particle in list order, and right after moving it collide
        it with every later particle. */
    method UpdateAll(m: MathLib)
      requires Valid()
      modifies particles
      ensures Valid()
      ensures States(particles) == Round(m, old(States(particles)), |particles|)
    {
      var n := |particles|;
      ghost var s0 := States(particles);
      var i := 0;
      while i < n
        invariant 0 <= i <= n
        invariant Valid()
        invariant States(particles) == Round(m, s0, i)
      {
        var k := i + 1;
        MoveThenCollide(m, i, k, s0);
        i := k;
      }
    }

    /** The selection and update part of one pass of the main loop. `events`
        are the pointer events of the frame; (mouseX, mouseY) is the pointer
        position read after them. */
    method Step(m: MathLib, events: seq<PointerEvent>, mouseX: real, mouseY: real)
      requires Valid()
      modifies this, particles
      ensures Valid()
      ensures selected == SelectAll(m, old(States(particles)), old(selected), events)
      ensures States(particles) == Frame(m, Override(m, old(States(particles)), selected, mouseX, mouseY))
    {
      HandleEvents(m, events);
      Aim(m, mouseX, mouseY);
      ghost var aimed := States(particles);
      UpdateAll(m);
      RoundIsFrame(m, aimed);
    }
  }
}
