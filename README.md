# Particle system simulation engine

A model in Dafny of the simulation engine of a small 2D particle demo
(`particle.rb`). It covers three things.

- **Particles.** A particle holds position, velocity, acceleration, age, life, colour and size.
- **The particle system.** The system owns an ordered list of particles, a gravity vector and an ordered list of effectors. `emit` appends a particle. `simulate(dt)` advances every particle through four phases in a fixed order:
  1. aging, then deletion of expired particles;
  2. gravity, which overwrites each acceleration;
  3. effectors, effector-outer and particle-inner;
  4. forward Euler kinematics, position first.
- **The chamber box.** This effector reflects a particle's velocity at the walls of an axis-aligned rectangle.

It also covers the interpolation helpers that the emitter uses to sample a particle's life, size and colour.

Scalars are exact `real`s. Vectors are immutable values (`Vec2`, `Vec3`), and so are particles (`Particle`).

## Files

- `vectors.dfy`, module `Vectors`: `Vec2` and `Vec3` with addition and scaling.
- `particle.dfy`, module `Particles`: the particle record, its constructor, the expiry test and the render alpha.
- `effectors.dfy`, module `Effectors`: the `ChamberBox` effector and its `Apply`.
- `particle_system.dfy`, module `Simulation`:
  - one specification function per phase: `Aged`, `Survivors`, `WithGravity`, `Affected`, `Moved`, and the whole step `Step`;
  - lemmas about those functions;
  - the class `ParticleSystem`. Its `particles` field is a `seq<Particle>` that the methods reassign. Each phase is a method with a loop, proved to compute its phase function.
- `sampling.dfy`, module `Sampling`: `sample_number` and `sample_color`, with the random draw `t` passed in as a parameter.

## Model

| member | source | states |
|---|---|---|
| Particles.NewParticle | particle.rb:8-11 | A new particle has age 0 and zero acceleration. Position, velocity, life, colour and size are stored as given. |
| Particles.Alpha | particle.rb:38 | The render alpha `(1 - age/life) * 255` is 255 for a new particle. It lies in (0, 255] while 0 <= age < life, and is at most 0 once a positive life is used up. |
| Particles.AlphaAtQuarterLife | particle.rb:38 | A particle a quarter of the way through its life is drawn at 0.75 of full alpha. |
| Effectors.Apply | particle.rb:73-82 | Each axis is checked on its own. The velocity component on an axis is negated when the particle's extent `position ± size` is not inside the box on that axis, and is kept otherwise. Every other field is unchanged. |
| Effectors.ApplyChangesIff | particle.rb:73-82 | A velocity component changes if and only if the particle sticks out of the box on that axis and moves on that axis. A corner collision changes both components. |
| Effectors.ApplyTwice | particle.rb:73-82 | Applying the same box twice gives back the original particle, because position and size are left alone. |
| Effectors.ApplyAll | particle.rb:54-57 | A list of effectors applied to one particle changes nothing but that particle's velocity. |
| Effectors.ApplyAllIgnoresAcceleration | particle.rb:50-57 | What the effectors do does not depend on the acceleration that the gravity phase has just written. |
| Simulation.Survivors | particle.rb:47 | The deletion pass never adds particles, and leaves no expired particle. |
| Simulation.SurvivorsAreKept | particle.rb:47 | The deletion pass is an order-preserving filter. Survivors sit at ascending source positions, and a position is kept if and only if its particle has `age < life`. |
| Simulation.AgingExact | particle.rb:45-48 | After aging, the survivors are exactly the particles with `old_age + dt < life`, in their original order. Each survivor's age is `old_age + dt` and nothing else about it changes. |
| Simulation.Affected | particle.rb:54-58 | The effector phase keeps the number of particles. |
| Simulation.AffectedPointwise | particle.rb:54-58 | The effector-outer, particle-inner loop gives each particle what the whole effector list gives it when applied to that particle alone. |
| Simulation.Integrate | particle.rb:60-64 | Position moves by the pre-update velocity times dt, then velocity moves by acceleration times dt. Age, life, colour, size and acceleration are kept. |
| Simulation.StepAt | particle.rb:29-34 | Phases 2-4 keep the particle count. Take a particle that survives aging and let `v` be its velocity after the effectors. It ends with position `old + v*dt`, velocity `v + gravity*dt` and acceleration exactly `gravity`. |
| Simulation.StepLeavesLiveParticles | particle.rb:29-34 | After a step, every particle has `age < life` and acceleration equal to gravity. |
| Simulation.EmitThenStep | particle.rb:25-34 | When a step follows an emit, the earlier particles are stepped as if the new one were absent. The new particle survives if and only if `age + dt < life`, and then it comes last. |
| Simulation.AlphaAfterStep | particle.rb:29-48 | Suppose `dt >= 0` and no age is negative. Then after a step every particle has a positive life, and its render alpha lies in (0, 255]. |
| Simulation.ParticleSystem.constructor | particle.rb:19-23 | A new system has no particles, no effectors and gravity (0, 100). |
| Simulation.ParticleSystem.Emit | particle.rb:25-27 | The particle is appended last. The count grows by one and the earlier particles are unchanged. |
| Simulation.ParticleSystem.Simulate | particle.rb:29-34 | The new particle list is `Step` of the old one. No expired particle remains, and every acceleration equals gravity. |
| Simulation.ParticleSystem.Aging | particle.rb:45-48 | The new particle list is the survivors of the aged list, computed by an aging loop and then an in-order deletion loop. |
| Simulation.ParticleSystem.ApplyGravity | particle.rb:50-52 | Every acceleration is overwritten with gravity, and nothing else changes. |
| Simulation.ParticleSystem.ApplyEffectors | particle.rb:54-58 | The nested effector-outer, particle-inner loops compute `Affected`. |
| Simulation.ParticleSystem.Kinematics | particle.rb:60-65 | Every particle is integrated by forward Euler, position first. |
| Sampling.SampleNumber | particle.rb:96-99 | The result is `value2` at t = 0 and `value1` at t = 1. For t in [0, 1] it lies between the two values. |
| Sampling.SampleColor | particle.rb:91-94 | Each channel is `sample_number` of the two colours' channels, all with the same draw. |
| Sampling.SampleColorInRange | particle.rb:91-94 | A colour sampled between two colours whose channels are in [0, 255] has its channels in [0, 255]. |

The specification functions `Aged`, `WithGravity`, `ApplyToEach`, `Moved` and `Step` have no contract of their own. The lemmas and methods above state what they mean.

The source keeps the particles in insertion order, since `delete_if` removes in place. The model keeps that order and proves it is preserved. It is not merely allowed to reorder.

## Left out

- `render` (particle.rb:36-43): the drawing call goes to the SDL graphics library, so it is not modelled. Only its alpha expression is modelled, as `Particles.Alpha`.
- Particles.Alpha: requires `life != 0`. In the source, a zero life makes the float division yield an infinity or NaN, and that value is handed to the graphics library; the model does not represent it. `Simulation.AlphaAfterStep` shows that this case cannot arise after a step with `dt >= 0` from non-negative ages.
- `sample_direction` (particle.rb:85-89): it needs `Math.cos` and `Math.sin`, which are floating-point trigonometry. Its angle interpolation is the same formula as `Sampling.SampleNumber`.
- `rand`: each sampling helper takes its draw `t` as a parameter instead of drawing it.
- `step` and `demo_main` (particle.rb:101-144): the SDL event loop, screen clearing, frame flip and delay, and the mouse-driven emission policy. These are I/O and driver code.
- Ruby `Vector` aliasing. All particles share the one gravity object, and `ChamberBox#apply` mutates the velocity object in place. Vectors are values here, and the flip is a field update of the particle; no object in the source is shared in a way this changes.
- IEEE-754 floats and Ruby's mixing of Integer and Float (age starts as the Integer 0, gravity is an Integer vector): all scalars are exact reals, with no rounding, infinities or NaN.
- `_apply_gravity(dt)` ignores its `dt` argument, so `ApplyGravity` takes none.
- `gravity` and `effectors` are public attributes that callers assign or append to directly. In the model they are ordinary class fields with no setter methods.
- Particle identity across several steps is not tracked. The model says what one step does, and how its survivors map back to the particles before it (`KeptIndices`).
