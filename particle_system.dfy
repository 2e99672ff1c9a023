/**
 * The particle system: an ordered list of particles, a gravity vector and an
 * ordered list of effectors, advanced one time step at a time.
 *
 * The first half of the module specifies each phase of a step as a function
 * on the list of particles and proves what the phases promise; the class
 * `ParticleSystem` at the end performs the phases with loops that update its
 * `particles` field, and each of its methods is proved to compute the
 * corresponding function.
 */
module Simulation {
  import opened Vectors
  import opened Particles
  import opened Effectors

  /** The gravity a new system starts with: 100 units/s^2 downwards on screen. */
  const DefaultGravity: Vec2 := Vec2(0.0, 100.0)

  // ---------------------------------------------------------------------
  // Phase 1: aging

  /** Every particle's age advanced by `dt`. */
  function Aged(ps: seq<Particle>, dt: real): seq<Particle> {
    seq(|ps|, i requires 0 <= i < |ps| => ps[i].(age := ps[i].age + dt))
  }

  /** The particles that are not expired, in their original order. */
  function Survivors(ps: seq<Particle>): (r: seq<Particle>)
    ensures |r| <= |ps|
    ensures forall k :: 0 <= k < |r| ==> !Expired(r[k])
    decreases |ps|
  {
    if ps == [] then []
    else
      var last := ps[|ps| - 1];
      Survivors(ps[..|ps| - 1]) + (if Expired(last) then [] else [last])
  }

  /** The positions in `ps` of the particles `Survivors` keeps, ascending. */
  function KeptIndices(ps: seq<Particle>): seq<nat>
    decreases |ps|
  {
    if ps == [] then []
    else
      var n := |ps| - 1;
      KeptIndices(ps[..n]) + (if Expired(ps[n]) then [] else [n])
  }

  /**
   * `Survivors` is exactly an order-preserving filter: the survivors are the
   * particles at the ascending positions `KeptIndices(ps)`, and a position is
   * kept if and only if the particle there is not expired.
   */
  lemma {:induction false} SurvivorsAreKept(ps: seq<Particle>)
    ensures |KeptIndices(ps)| == |Survivors(ps)|
    ensures forall k :: 0 <= k < |KeptIndices(ps)| ==>
              KeptIndices(ps)[k] < |ps| && Survivors(ps)[k] == ps[KeptIndices(ps)[k]]
    ensures forall k, l :: 0 <= k < l < |KeptIndices(ps)| ==> KeptIndices(ps)[k] < KeptIndices(ps)[l]
    ensures forall j :: 0 <= j < |ps| ==> (j in KeptIndices(ps) <==> !Expired(ps[j]))
    decreases |ps|
  {
    if ps != [] {
      var n := |ps| - 1;
      var pre := ps[..n];
      SurvivorsAreKept(pre);
      var idx, pidx := KeptIndices(ps), KeptIndices(pre);
      assert idx == pidx + (if Expired(ps[n]) then [] else [n]);
      forall j | 0 <= j < |ps|
        ensures j in idx <==> !Expired(ps[j])
      {
        if j < n {
          assert pre[j] == ps[j];
          assert j in idx <==> j in pidx;
        }
      }
    }
  }

  /**
   * The aging phase: after adding `dt` to every age and deleting the expired
   * particles, the remaining particles are exactly those whose old age plus
   * `dt` is below their life, in their original order, each with its age
   * advanced by `dt` and nothing else changed.
   */
  lemma {:induction false} AgingExact(ps: seq<Particle>, dt: real)
    ensures |KeptIndices(Aged(ps, dt))| == |Survivors(Aged(ps, dt))|
    ensures forall k :: 0 <= k < |KeptIndices(Aged(ps, dt))| ==>
              var j := KeptIndices(Aged(ps, dt))[k];
              j < |ps| && Survivors(Aged(ps, dt))[k] == ps[j].(age := ps[j].age + dt)
    ensures forall k, l :: 0 <= k < l < |KeptIndices(Aged(ps, dt))| ==>
              KeptIndices(Aged(ps, dt))[k] < KeptIndices(Aged(ps, dt))[l]
    ensures forall j :: 0 <= j < |ps| ==>
              (j in KeptIndices(Aged(ps, dt)) <==> ps[j].age + dt < ps[j].life)
  {
    SurvivorsAreKept(Aged(ps, dt));
  }

  // ---------------------------------------------------------------------
  // Phase 2: gravity

  /** Every particle's acceleration overwritten with `g`. */
  function WithGravity(ps: seq<Particle>, g: Vec2): seq<Particle> {
    seq(|ps|, i requires 0 <= i < |ps| => ps[i].(acceleration := g))
  }

  // ---------------------------------------------------------------------
  // Phase 3: effectors

  /** One effector applied to every particle, in order. */
  function ApplyToEach(e: Effector, ps: seq<Particle>): seq<Particle> {
    seq(|ps|, i requires 0 <= i < |ps| => Apply(e, ps[i]))
  }

  /**
   * The effector phase as the source nests it: effector-outer,
   * particle-inner, so every particle sees one effector before any particle
   * sees the next.
   */
  function Affected(ps: seq<Particle>, effs: seq<Effector>): (r: seq<Particle>)
    ensures |r| == |ps|
    decreases |effs|
  {
    if effs == [] then ps
    else ApplyToEach(effs[|effs| - 1], Affected(ps, effs[..|effs| - 1]))
  }

  /**
   * Effectors act on each particle independently, so the effector-outer
   * phase gives every particle what the whole list of effectors, applied to
   * that particle alone, gives it.
   */
  lemma {:induction false} AffectedPointwise(ps: seq<Particle>, effs: seq<Effector>, i: int)
    requires 0 <= i < |ps|
    ensures Affected(ps, effs)[i] == ApplyAll(ps[i], effs)
    decreases |effs|
  {
    if effs != [] {
      AffectedPointwise(ps, effs[..|effs| - 1], i);
    }
  }

  // ---------------------------------------------------------------------
  // Phase 4: kinematics

  /**
   * Forward Euler on one particle, position first: the position moves by the
   * velocity the particle had before this update, then the velocity moves by
   * the acceleration. Age, life, colour, size and acceleration are kept.
   */
  function Integrate(p: Particle, dt: real): (r: Particle)
    ensures r.position == p.position.Plus(p.velocity.Scale(dt))
    ensures r.velocity == p.velocity.Plus(p.acceleration.Scale(dt))
    ensures r == p.(position := r.position, velocity := r.velocity)
  {
    var moved := p.(position := p.position.Plus(p.velocity.Scale(dt)));
    moved.(velocity := moved.velocity.Plus(moved.acceleration.Scale(dt)))
  }

  /** Every particle integrated over `dt`. */
  function Moved(ps: seq<Particle>, dt: real): seq<Particle> {
    seq(|ps|, i requires 0 <= i < |ps| => Integrate(ps[i], dt))
  }

  // ---------------------------------------------------------------------
  // The whole step

  /** `simulate(dt)`: aging, gravity, effectors, kinematics, in this order. */
  function Step(ps: seq<Particle>, g: Vec2, effs: seq<Effector>, dt: real): seq<Particle> {
    Moved(Affected(WithGravity(Survivors(Aged(ps, dt)), g), effs), dt)
  }

  /**
   * What one step does to the i-th particle that survives aging: the gravity,
   * effector and kinematics phases keep the number of particles, and with
   * `v` the velocity after the effectors, the particle ends with position
   * `old position + v * dt`, velocity `v + g * dt` and acceleration `g`
   * exactly (overwritten, not accumulated); its age, life, colour and size are
   * those it had after aging.
   */
  lemma {:induction false} StepAt(ps: seq<Particle>, g: Vec2, effs: seq<Effector>, dt: real, i: int)
    requires 0 <= i < |Survivors(Aged(ps, dt))|
    ensures |Step(ps, g, effs, dt)| == |Survivors(Aged(ps, dt))|
    ensures var a := Survivors(Aged(ps, dt))[i];
            var v := ApplyAll(a, effs).velocity;
            Step(ps, g, effs, dt)[i] ==
              a.(position := a.position.Plus(v.Scale(dt)),
                 velocity := v.Plus(g.Scale(dt)),
                 acceleration := g)
  {
    var alive := Survivors(Aged(ps, dt));
    var a := alive[i];
    var pulled := WithGravity(alive, g);
    AffectedPointwise(pulled, effs, i);
    ApplyAllIgnoresAcceleration(a, g, effs);
  }

  /**
   * After a step no expired particle is left, and every particle's
   * acceleration is the gravity vector.
   */
  lemma {:induction false} StepLeavesLiveParticles(ps: seq<Particle>, g: Vec2, effs: seq<Effector>, dt: real)
    ensures forall i :: 0 <= i < |Step(ps, g, effs, dt)| ==>
              !Expired(Step(ps, g, effs, dt)[i]) && Step(ps, g, effs, dt)[i].acceleration == g
  {
    forall i | 0 <= i < |Step(ps, g, effs, dt)|
      ensures !Expired(Step(ps, g, effs, dt)[i]) && Step(ps, g, effs, dt)[i].acceleration == g
    {
      StepAt(ps, g, effs, dt, i);
    }
  }

  /**
   * Emitting a particle and then stepping: the particles already present
   * are stepped as if it were not there, and the new particle survives the
   * step if and only if its age plus `dt` is below its life, in which case
   * it comes last.
   */
  lemma {:induction false} EmitThenStep(ps: seq<Particle>, p: Particle, g: Vec2, effs: seq<Effector>, dt: real)
    ensures var a := p.(age := p.age + dt);
            Step(ps + [p], g, effs, dt) ==
              Step(ps, g, effs, dt) +
              (if a.age < a.life then [Integrate(ApplyAll(a.(acceleration := g), effs), dt)] else [])
  {
    var a := p.(age := p.age + dt);
    var tail := if a.age < a.life then [a] else [];
    var aged := Aged(ps + [p], dt);
    assert aged[..|ps|] == Aged(ps, dt);
    var alive := Survivors(aged);
    assert alive == Survivors(Aged(ps, dt)) + tail;
    var pulled := WithGravity(alive, g);
    var pre := WithGravity(Survivors(Aged(ps, dt)), g);
    var lhs := Step(ps + [p], g, effs, dt);
    var rhs := Step(ps, g, effs, dt) +
               (if a.age < a.life then [Integrate(ApplyAll(a.(acceleration := g), effs), dt)] else []);
    assert |lhs| == |rhs|;
    forall i | 0 <= i < |lhs|
      ensures lhs[i] == rhs[i]
    {
      AffectedPointwise(pulled, effs, i);
      if i < |pre| {
        AffectedPointwise(pre, effs, i);
        assert pulled[i] == pre[i];
      }
    }
  }

  /**
   * When `dt` is not negative and no particle has a negative age, every
   * particle left after a step has a positive life and is drawn with an
   * alpha in (0, 255]: the renderer's division by `life` cannot fail.
   */
  lemma {:induction false} AlphaAfterStep(ps: seq<Particle>, g: Vec2, effs: seq<Effector>, dt: real)
    requires dt >= 0.0
    requires forall j :: 0 <= j < |ps| ==> ps[j].age >= 0.0
    ensures forall i :: 0 <= i < |Step(ps, g, effs, dt)| ==>
              Step(ps, g, effs, dt)[i].life > 0.0 &&
              0.0 < Alpha(Step(ps, g, effs, dt)[i]) <= 255.0
  {
    AgingExact(ps, dt);
    forall i | 0 <= i < |Step(ps, g, effs, dt)|
      ensures Step(ps, g, effs, dt)[i].life > 0.0 &&
              0.0 < Alpha(Step(ps, g, effs, dt)[i]) <= 255.0
    {
      StepAt(ps, g, effs, dt, i);
      var j := KeptIndices(Aged(ps, dt))[i];
      assert Survivors(Aged(ps, dt))[i].age == ps[j].age + dt;
    }
  }

  // ---------------------------------------------------------------------
  // The system object

  class ParticleSystem {
    var particles: seq<Particle>
    var gravity: Vec2
    var effectors: seq<Effector>

    /** A system with no particles, no effectors and the default gravity. */
    constructor ()
      ensures particles == [] && gravity == DefaultGravity && effectors == []
    {
      particles := [];
      gravity := DefaultGravity;
      effectors := [];
    }

    /** `emit`: the particle is appended; the earlier particles are unchanged. */
    method Emit(p: Particle)
      modifies this`particles
      ensures particles == old(particles) + [p]
      ensures |particles| == |old(particles)| + 1 && particles[|particles| - 1] == p
    {
      particles := particles + [p];
    }

    /**
     * `simulate(dt)`: the four phases in order. Afterwards no expired particle
     * remains and every particle's acceleration is the gravity vector.
     */
    method Simulate(dt: real)
      modifies this`particles
      ensures particles == Step(old(particles), gravity, effectors, dt)
      ensures forall i :: 0 <= i < |particles| ==>
                !Expired(particles[i]) && particles[i].acceleration == gravity
    {
      Aging(dt);
      ApplyGravity();
      ApplyEffectors();
      Kinematics(dt);
      StepLeavesLiveParticles(old(particles), gravity, effectors, dt);
    }

    /**
     * `_aging(dt)`: every age is advanced by `dt`, then the particles with
     * `age >= life` are deleted, keeping the order of the others.
     */
    method Aging(dt: real)
      modifies this`particles
      ensures particles == Survivors(Aged(old(particles), dt))
    {
      var i := 0;
      while i < |particles|
        invariant 0 <= i <= |particles| == |old(particles)|
        invariant forall k :: 0 <= k < i ==>
                    particles[k] == old(particles)[k].(age := old(particles)[k].age + dt)
        invariant forall k :: i <= k < |particles| ==> particles[k] == old(particles)[k]
      {
        particles := particles[i := particles[i].(age := particles[i].age + dt)];
        i := i + 1;
      }
      assert particles == Aged(old(particles), dt);
      // delete_if: collect, in order, the particles that are not expired
      var kept: seq<Particle> := [];
      var j := 0;
      while j < |particles|
        invariant 0 <= j <= |particles|
        invariant kept == Survivors(particles[..j])
      {
        assert particles[..j + 1][..j] == particles[..j];
        if !Expired(particles[j]) {
          kept := kept + [particles[j]];
        }
        j := j + 1;
      }
      assert particles[..j] == particles;
      particles := kept;
    }

    /** `_apply_gravity`: every acceleration is overwritten with `gravity`. */
    method ApplyGravity()
      modifies this`particles
      ensures particles == WithGravity(old(particles), gravity)
    {
      var i := 0;
      while i < |particles|
        invariant 0 <= i <= |particles| == |old(particles)|
        invariant forall k :: 0 <= k < i ==> particles[k] == old(particles)[k].(acceleration := gravity)
        invariant forall k :: i <= k < |particles| ==> particles[k] == old(particles)[k]
      {
        particles := particles[i := particles[i].(acceleration := gravity)];
        i := i + 1;
      }
    }

    /** `_apply_effectors`: for each effector in order, apply it to each particle in order. */
    method ApplyEffectors()
      modifies this`particles
      ensures particles == Affected(old(particles), effectors)
    {
      var j := 0;
      while j < |effectors|
        invariant 0 <= j <= |effectors|
        invariant particles == Affected(old(particles), effectors[..j])
      {
        var e := effectors[j];
        ghost var before := particles;
        var i := 0;
        while i < |particles|
          invariant 0 <= i <= |particles| == |before|
          invariant forall k :: 0 <= k < i ==> particles[k] == Apply(e, before[k])
          invariant forall k :: i <= k < |particles| ==> particles[k] == before[k]
        {
          particles := particles[i := Apply(e, particles[i])];
          i := i + 1;
        }
        assert particles == ApplyToEach(e, before);
        assert effectors[..j + 1][..j] == effectors[..j];
        j := j + 1;
      }
      assert effectors[..j] == effectors;
    }

    /**
     * `_kinematics(dt)`: for each particle, first the position moves by
     * `velocity * dt`, then the velocity moves by `acceleration * dt`.
     */
    method Kinematics(dt: real)
      modifies this`particles
      ensures particles == Moved(old(particles), dt)
    {
      var i := 0;
      while i < |particles|
        invariant 0 <= i <= |particles| == |old(particles)|
        invariant forall k :: 0 <= k < i ==> particles[k] == Integrate(old(particles)[k], dt)
        invariant forall k :: i <= k < |particles| ==> particles[k] == old(particles)[k]
      {
        var e := particles[i];
        e := e.(position := e.position.Plus(e.velocity.Scale(dt)));
        e := e.(velocity := e.velocity.Plus(e.acceleration.Scale(dt)));
        particles := particles[i := e];
        i := i + 1;
      }
    }
  }
}
