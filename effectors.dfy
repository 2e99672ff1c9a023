/**
 * Effectors act on one particle at a time during the effector phase of a
 * simulation step. The only effector of the system is the chamber box,
 * an axis-aligned rectangle whose walls reflect a particle's velocity.
 */
module Effectors {
  import opened Vectors
  import opened Particles

  /** `ChamberBox.new(x1, y1, x2, y2)`: the rectangle [x1, x2] x [y1, y2]. */
  datatype Effector = ChamberBox(x1: real, y1: real, x2: real, y2: real)

  /** The particle's extent [x - size, x + size] lies within the box's x range. */
  predicate InsideX(e: Effector, p: Particle) {
    e.x1 <= p.position.x - p.size && p.position.x + p.size <= e.x2
  }

  /** The particle's extent [y - size, y + size] lies within the box's y range. */
  predicate InsideY(e: Effector, p: Particle) {
    e.y1 <= p.position.y - p.size && p.position.y + p.size <= e.y2
  }

  /**
   * `ChamberBox#apply`: each axis is tested on its own; when the particle's
   * near edge is below the box's minimum or its far edge beyond the box's
   * maximum on that axis, the velocity component on that axis is negated.
   * The source flips the component inside the particle's velocity; here the
   * updated particle is returned. Nothing but the velocity changes.
   */
  function Apply(e: Effector, p: Particle): (r: Particle)
    ensures r == p.(velocity := r.velocity)
    ensures !InsideX(e, p) ==> r.velocity.x == -p.velocity.x
    ensures InsideX(e, p) ==> r.velocity.x == p.velocity.x
    ensures !InsideY(e, p) ==> r.velocity.y == -p.velocity.y
    ensures InsideY(e, p) ==> r.velocity.y == p.velocity.y
  {
    match e
    case ChamberBox(x1, y1, x2, y2) =>
      var vx := if p.position.x - p.size < x1 || p.position.x + p.size > x2
                then -p.velocity.x else p.velocity.x;
      var vy := if p.position.y - p.size < y1 || p.position.y + p.size > y2
                then -p.velocity.y else p.velocity.y;
      p.(velocity := Vec2(vx, vy))
  }

  /**
   * A velocity component changes exactly when the particle sticks out of the
   * box on that axis and is moving on that axis; a particle outside on both
   * axes (a corner) has both components changed.
   */
  lemma {:induction false} ApplyChangesIff(e: Effector, p: Particle)
    ensures Apply(e, p).velocity.x != p.velocity.x <==> !InsideX(e, p) && p.velocity.x != 0.0
    ensures Apply(e, p).velocity.y != p.velocity.y <==> !InsideY(e, p) && p.velocity.y != 0.0
  {
  }

  /**
   * Reflection leaves position and size alone, so the second application makes
   * the same decisions as the first and applying the same box twice restores
   * the original particle.
   */
  lemma {:induction false} ApplyTwice(e: Effector, p: Particle)
    ensures Apply(e, Apply(e, p)) == p
  {
  }

  /**
   * The effectors of a list applied to one particle, first to last. This is
   * the particle-by-particle view of the effector phase.
   */
  function ApplyAll(p: Particle, effs: seq<Effector>): (r: Particle)
    ensures r == p.(velocity := r.velocity)
    decreases |effs|
  {
    if effs == [] then p
    else Apply(effs[|effs| - 1], ApplyAll(p, effs[..|effs| - 1]))
  }

  /**
   * What a list of effectors does to a particle's velocity depends only on
   * its position, size and velocity: its acceleration (set by the gravity
   * phase just before) plays no part.
   */
  lemma {:induction false} ApplyAllIgnoresAcceleration(p: Particle, g: Vec2, effs: seq<Effector>)
    ensures ApplyAll(p.(acceleration := g), effs) == ApplyAll(p, effs).(acceleration := g)
    decreases |effs|
  {
    if effs != [] {
      ApplyAllIgnoresAcceleration(p, g, effs[..|effs| - 1]);
    }
  }
}
