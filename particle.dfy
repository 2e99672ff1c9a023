/**
 * A particle: the kinematic and visual state of one simulated point.
 * In the source it is a plain record whose fields every phase of the
 * simulation reads and writes; here it is a value, and a phase that changes
 * a field produces the updated record.
 */
module Particles {
  import opened Vectors

  datatype Particle = Particle(
    position: Vec2,
    velocity: Vec2,
    acceleration: Vec2,
    age: real,    // seconds since emission
    life: real,   // lifetime budget in seconds
    color: Vec3,
    size: real)   // radius

  /**
   * `Particle.new(pos, vel, life, color, size)`: a particle that has not aged
   * yet and feels no acceleration; the other fields are stored as given.
   */
  function NewParticle(pos: Vec2, vel: Vec2, life: real, color: Vec3, size: real): (p: Particle)
    ensures p.age == 0.0 && p.acceleration == Zero2
    ensures p.position == pos && p.velocity == vel
    ensures p.life == life && p.color == color && p.size == size
  {
    Particle(pos, vel, Zero2, 0.0, life, color, size)
  }

  /** The removal test of the aging phase: the particle has used up its life. */
  predicate Expired(p: Particle) {
    p.age >= p.life
  }

  /**
   * The fade-out alpha the renderer draws a particle with,
   * `(1 - age / life) * 255`: fully opaque when it is new, fading linearly
   * to transparent as its age approaches its life.
   */
  function Alpha(p: Particle): (a: real)
    requires p.life != 0.0
    ensures 0.0 <= p.age < p.life ==> 0.0 < a <= 255.0
    ensures p.age == 0.0 ==> a == 255.0
    ensures p.life > 0.0 && p.age >= p.life ==> a <= 0.0
  {
    var a := (1.0 - p.age / p.life) * 255.0;
    if p.life > 0.0 then AgeFractionBounds(p.age, p.life); a else a
  }

  /** How the fraction `age / life` compares with 0 and 1 for a positive life. */
  lemma AgeFractionBounds(age: real, life: real)
    requires life > 0.0
    ensures 0.0 <= age ==> 0.0 <= age / life
    ensures age < life ==> age / life < 1.0
    ensures age >= life ==> age / life >= 1.0
  {
    var f := age / life;
    assert f * life == age;
  }

  /** A particle a quarter through its life is drawn at three quarters of full alpha. */
  lemma {:induction false} AlphaAtQuarterLife(p: Particle)
    requires p.life > 0.0 && p.age == p.life / 4.0
    ensures Alpha(p) == 0.75 * 255.0
  {
    assert p.age / p.life == 0.25;
  }
}
