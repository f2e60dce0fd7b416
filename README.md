# Particle swarm optimisation solver, modelled in Dafny

This project models `Solve`, the particle swarm optimiser in
`ParticleSwarmOptimization/ParticleProgram.cs`, together with the `Particle`
record that it updates in place (`ParticleSwarmOptimization/Particle.cs`).

`Solve` works in three phases:

1. **Initialisation pass.** It builds `particleCount` particles at random
   positions in the box `[minX, maxX]^dimensions`, with random velocities. It
   keeps the first strictly best one as the global best, which starts as the
   zero vector with error `double.MaxValue`.
2. **Main loop.** It runs epochs while fewer than `maxEpochs` have run and the
   global error is still above `minAcceptedError`. In each epoch every particle
   takes a turn, in order:
   - it computes a new velocity from inertia and from its pulls towards its
     personal best and towards the global best;
   - it moves, and its position is clamped to the box;
   - its error is evaluated;
   - its personal best and the global best are updated, each only on a strict
     improvement;
   - with a draw below 0.01 it "dies": it is respawned at a random position,
     which also becomes its personal best.
3. **Result.** It returns a copy of the global best position, the swarm, the
   epoch count and the global error.

The model has two layers.

- **`SwarmModel`** (`swarm_model.dfy`) describes every step as a function of
  four things: the configuration, the objective `f: seq<real> -> real`, a
  stream of pseudo-random draws in `[0, 1)`, and the state before the step.
  The state counts the draws taken so far. This fixes the order in which the
  solver consumes random numbers:
  - one draw per coordinate for an initial position, then one per coordinate
    for the initial velocity;
  - two draws per coordinate for a new velocity, the cognitive one first;
  - one draw for the death check, then one per coordinate for a respawned
    position.

  `Solution(c, f, s)` is the final state and epoch of a whole run.
- **Imperative code** mirrors the source: the `Particle` class (`particle.dfy`),
  the generator (`random.dfy`), and `Solve` with its loops over arrays
  (`particle_program.dfy`). Each method is proved to produce exactly the
  value-level step it implements. `Solve` is proved to return what `Solution`
  says.

`SwarmProperties` (`swarm_properties.dfy`) proves what the bookkeeping
guarantees about the value-level model:

- where initial draws land;
- clamping to the box;
- the strict-improvement rule for both bests;
- every stored error being the objective at its stored position;
- the global error never rising;
- the exit condition.

## Model

| member | source | states |
|---|---|---|
| SwarmModel.Uniform | ParticleSwarmOptimization/ParticleProgram.cs:52-54 | `(hi - lo) * r + lo` with `0 <= r < 1` lies in `[lo, hi)` when `lo < hi`, and is `lo` when `lo == hi` |
| SwarmModel.Clamp | ParticleSwarmOptimization/ParticleProgram.cs:94-101 | the clamped coordinate lies in `[minX, maxX]` whenever `minX <= maxX`; a coordinate already inside is unchanged; the result is always the coordinate itself, `minX` or `maxX` |
| SwarmModel.Improve | ParticleSwarmOptimization/ParticleProgram.cs:67-71 | a candidate replaces a best exactly when its error is strictly lower; the resulting error is no greater than either error |
| SwarmModel.RespawnStep | ParticleSwarmOptimization/ParticleProgram.cs:118-131 | the death check never changes the particle's velocity |
| SwarmModel.Step | ParticleSwarmOptimization/ParticleProgram.cs:85-131 | one particle's turn leaves every other particle of the swarm unchanged |
| SwarmModel.Run | ParticleSwarmOptimization/ParticleProgram.cs:79-134 | the loop ends with `epoch >= maxEpochs` or global error `<= minAcceptedError`; the final epoch is never below the starting one and never above `maxEpochs` when it starts at or below it; starting at or beyond `maxEpochs` leaves the state untouched |
| SwarmModel.Zeros | ParticleSwarmOptimization/ParticleProgram.cs:47 | the initial global best position: `n` coordinates, each zero, as a freshly allocated `double[]` holds |
| SwarmModel.UniformVector | ParticleSwarmOptimization/ParticleProgram.cs:53-54 | `n` scaled draws taken in order from one starting draw; each lies in `[lo, hi)` when `lo < hi` and equals `lo` when `lo == hi` |
| SwarmModel.InitialParticle | ParticleSwarmOptimization/ParticleProgram.cs:52-65 | a new particle has `dimensions` coordinates in all three vectors; its ranges and errors are stated by `InitialParticleRanges` and `InitialParticleConsistent` |
| SwarmModel.Initialized | ParticleSwarmOptimization/ParticleProgram.cs:46-72 | after `n` iterations of the initialisation loop the swarm holds exactly `n` particles, every one of the problem's dimension, and a global best of that dimension; `InitializedDraws`, `InitialGlobalBest` and `InitializedConsistent` state the rest |
| SwarmModel.Joined | ParticleSwarmOptimization/ParticleProgram.cs:52-71 | one iteration of the initialisation loop adds exactly one particle and keeps every vector at the problem's dimension |
| SwarmModel.NewVelocity | ParticleSwarmOptimization/ParticleProgram.cs:87-90 | the new velocity has one coordinate per coordinate of the old one |
| SwarmModel.MovedPosition | ParticleSwarmOptimization/ParticleProgram.cs:94-101 | every new coordinate lies in `[minX, maxX]` whenever `minX <= maxX`, and a coordinate whose unclamped sum is already inside the box is exactly position plus velocity |
| SwarmModel.MoveStep | ParticleSwarmOptimization/ParticleProgram.cs:87-116 | the move keeps every vector at the problem's dimension and takes exactly `2 * dimensions` draws; `MoveStepProperties` states its effect on the bests |
| SwarmModel.ParticleTurn | ParticleSwarmOptimization/ParticleProgram.cs:87-131 | a whole turn keeps the dimensions and takes between `2 * dimensions + 1` draws (no death) and `3 * dimensions + 1` draws (death and respawn) |
| SwarmModel.Sweep | ParticleSwarmOptimization/ParticleProgram.cs:85-132 | any prefix of an epoch keeps the swarm's size and every vector's dimension; `SweepProperties` states the invariant it keeps |
| SwarmModel.Epoch | ParticleSwarmOptimization/ParticleProgram.cs:85-133 | a whole epoch keeps the swarm's size and every vector's dimension; `EpochProperties` states the invariant it keeps |
| SwarmModel.Solution | ParticleSwarmOptimization/ParticleProgram.cs:40-134 | a whole run ends with exactly `particleCount` particles of the problem's dimension; `SolutionProperties` states the exit condition and the invariant |
| SwarmProperties.InitialParticleRanges | ParticleSwarmOptimization/ParticleProgram.cs:52-65 | a new particle has `dimensions` coordinates, starts at its personal best, and has `Error == BestError == f(Position)`; when `minX < maxX` every coordinate lies in `[minX, maxX)` and every velocity in `[0.1 minX, 0.1 maxX)` |
| SwarmProperties.InitialParticleConsistent | ParticleSwarmOptimization/ParticleProgram.cs:52-65 | a new particle's errors are the objective at its positions, and its positions lie in the box whenever `minX <= maxX` |
| SwarmProperties.InitializedDraws | ParticleSwarmOptimization/ParticleProgram.cs:50-64 | the initialisation pass takes `2 * dimensions` draws per particle, and particle `i` is built from the draws starting at number `2 * dimensions * i` |
| SwarmProperties.InitialGlobalBest | ParticleSwarmOptimization/ParticleProgram.cs:46-72 | after initialisation the global error is at most `double.MaxValue` and at most every initial error. If no error is below `double.MaxValue`, the global best is still the zero vector. Otherwise it is the first particle reaching the least error, because every earlier particle's error is strictly larger |
| SwarmProperties.InitializedConsistent | ParticleSwarmOptimization/ParticleProgram.cs:46-72 | the swarm after initialisation satisfies the run invariant `Consistent`: every error is the objective at its position; positions lie in the box when `minX <= maxX`; the global best is the initial pair or a recorded point below `double.MaxValue` with its objective value; the global error is at most every personal best error |
| SwarmProperties.MoveStepProperties | ParticleSwarmOptimization/ParticleProgram.cs:87-116 | the move keeps the invariant and leaves the position in the box. The personal best changes exactly when the new error is strictly below `BestError`, and then becomes the new position and error, so `BestError` never rises. The global best changes exactly when the new error is strictly below the global error, and then becomes the new position and error |
| SwarmProperties.RespawnStepProperties | ParticleSwarmOptimization/ParticleProgram.cs:118-131 | the death check keeps the invariant, keeps the velocity, and changes the global best only on a strict improvement. On a draw below 0.01 it takes `1 + dimensions` draws and places the particle in `[minX, maxX)` when `minX < maxX`, with `BestPosition == Position` and `BestError == Error == f(Position)`; a new error strictly below the global error then becomes the global best. Otherwise only the draw counter moves |
| SwarmProperties.StepProperties | ParticleSwarmOptimization/ParticleProgram.cs:85-131 | a particle's turn keeps the invariant and never raises the global error |
| SwarmProperties.SweepProperties | ParticleSwarmOptimization/ParticleProgram.cs:85-132 | any prefix of an epoch keeps the invariant and never raises the global error |
| SwarmProperties.EpochProperties | ParticleSwarmOptimization/ParticleProgram.cs:85-133 | a whole epoch keeps the invariant and never raises the global error |
| SwarmProperties.RunProperties | ParticleSwarmOptimization/ParticleProgram.cs:83-134 | the main loop keeps the invariant and never raises the global error |
| SwarmProperties.SolutionProperties | ParticleSwarmOptimization/ParticleProgram.cs:46-134 | a whole run ends in a consistent state. Its global error is no worse than after initialisation. It stopped on the epoch cap or the accepted error, with `epoch <= maxEpochs` when `maxEpochs >= 0`. With `maxEpochs <= 0` the epoch is 0 and the state is exactly the initialisation-time state |
| SwarmProperties.InfeasibleObjectiveKeepsZeroBest | ParticleSwarmOptimization/ParticleProgram.cs:46-131 | if the objective is never below `double.MaxValue`, the run ends with the zero vector and `double.MaxValue` as its global best |
| SwarmProperties.UnreachableThresholdRunsAllEpochs | ParticleSwarmOptimization/ParticleProgram.cs:79-134 | if no objective value reaches `minAcceptedError` (nor does `double.MaxValue`), the loop runs exactly `max(maxEpochs, 0)` epochs |
| Particles.CopyTo | ParticleSwarmOptimization/Particle.cs:16 | `source.CopyTo(target, 0)` puts the source's values in the first `source.Length` cells of the target and leaves the rest alone |
| Particles.Particle.constructor | ParticleSwarmOptimization/Particle.cs:13-25 | the three arrays are freshly allocated and pairwise distinct, and hold the arguments' elements (same lengths); `Error` and `BestError` are the arguments |
| Particles.WriteAfterConstruction | ParticleSwarmOptimization/Particle.cs:13-25 | the same array may be passed as position and best position. A later write to that array does not reach the particle, which keeps the values the array had |
| Randomness.Random.constructor | ParticleSwarmOptimization/ParticleProgram.cs:43 | a new generator starts at the first value of its stream |
| Randomness.Random.NextDouble | ParticleSwarmOptimization/ParticleProgram.cs:54 | each call yields the next value of the stream, which lies in `[0, 1)` |
| ParticleProgram.FillUniform | ParticleSwarmOptimization/ParticleProgram.cs:53-54 | the loop fills the array with one scaled draw per coordinate, in order, using exactly `Length` draws |
| ParticleProgram.NewParticle | ParticleSwarmOptimization/ParticleProgram.cs:52-65 | builds exactly the model's `InitialParticle` from the next `2 * dimensions` draws, as a valid particle with fresh arrays |
| ParticleProgram.ComputeVelocity | ParticleSwarmOptimization/ParticleProgram.cs:87-90 | the scratch velocity is the model's `NewVelocity` (inertia 0.729, weights 1.49445, two draws per coordinate) |
| ParticleProgram.ComputePosition | ParticleSwarmOptimization/ParticleProgram.cs:94-101 | the scratch position is each coordinate plus its velocity, clamped to the box |
| ParticleProgram.Move | ParticleSwarmOptimization/ParticleProgram.cs:87-116 | the particle, the global best and the draw counter end up as the model's `MoveStep` of their old values |
| ParticleProgram.Respawn | ParticleSwarmOptimization/ParticleProgram.cs:118-131 | the particle, the global best and the draw counter end up as the model's `RespawnStep` of their old values |
| ParticleProgram.MoveAndRespawn | ParticleSwarmOptimization/ParticleProgram.cs:87-131 | one particle's whole turn is the model's `ParticleTurn` |
| ParticleProgram.TakeTurn | ParticleSwarmOptimization/ParticleProgram.cs:85-131 | turn `i` of the `foreach` turns the swarm into the model's `Step(st, i)`, with every other particle's values unchanged |
| ParticleProgram.OfferGlobalBest | ParticleSwarmOptimization/ParticleProgram.cs:67-71 | the global best becomes `Improve` of the old one and the new particle |
| ParticleProgram.Enlist | ParticleSwarmOptimization/ParticleProgram.cs:52-65 | particle `i` is stored in `swarm[i]`, holds the model's initial particle for the current draw count, and shares no object with earlier particles. No other cell of `swarm` changes |
| ParticleProgram.InitializeSwarm | ParticleSwarmOptimization/ParticleProgram.cs:46-72 | the swarm, the global best and the draw counter are the model's `Initialized(particleCount)`; the particles are pairwise separate and apart from the global best |
| ParticleProgram.RunEpoch | ParticleSwarmOptimization/ParticleProgram.cs:85-132 | one pass of the `foreach` turns the swarm into the model's `Epoch` of it |
| ParticleProgram.RunEpochs | ParticleSwarmOptimization/ParticleProgram.cs:79-134 | the `while` loop ends in the model's `Run` from epoch 0 |
| ParticleProgram.Solve | ParticleSwarmOptimization/ParticleProgram.cs:40-141 | returns a fresh `result` of length `dimensions` holding the final global best position. The swarm, epoch and error are those of `Solution`, and the particles share no arrays. It also restates the guarantees: stop on cap or accepted error; `f(result) == minError` once below `double.MaxValue`, else `result` is the zero vector; every particle's `BestError` is `f(BestPosition)` and at least `minError` |

## Left out

- `ParticleProgram.Run` (console output and `Console.ReadLine`), `Particle.ToString` (number formatting) and `Form1.cs` (the user interface and its benchmark objectives) are not modelled. They are I/O or transcendental floating-point code; the objective is a parameter.
- `System.Random(0)` is not modelled bit for bit. The generator is a stream `nat -> [0, 1)` passed to `Solve`, so the model covers every seed at once and not the specific sequence that seed 0 yields.
- Doubles are modelled as unbounded reals. NaN comparisons, infinities, overflow and rounding are not modelled. `double.MaxValue` is its exact value as the constant `MAX_VALUE`.
- The objective is a pure function `seq<real> -> real`. The source hands it live arrays: the new position at line 56, the scratch `newPosition` at line 104 and the particle's own `Position` at line 122. An objective that writes into its argument or keeps a reference to it is not modelled. Such an objective would break `BestError == f(BestPosition)` in the source, because lines 109 and 114 copy `newPosition` after the call.
- Nothing is claimed about convergence: the velocity update is stated exactly, but where it leads depends on the draws and the objective.
- `epoch` is a `double` in the source and a `nat` in the model. Every value it takes is a small whole number, so the comparisons with the `int` `maxEpochs` are the same.
- `dimensions` and `particleCount` are `nat`. The source throws on a negative array size; that exception path is not modelled.
- `Particle`'s three arrays are public mutable fields in the source. The model fixes each array reference at construction (`const`), because the solver only ever copies values into them and never reassigns them. Code outside the solver that swaps a particle's arrays is not covered.
- `Array.CopyTo` is modelled for arrays of reals, with the target long enough. Its argument checks (null arrays, a target that is too short) are not modelled, because the solver never triggers them.
- `InitializeSwarm` expects a generator that has drawn nothing yet. That is how `Solve` creates it.
- The bounds in `InitialParticleRanges`, `RespawnStepProperties` and `Consistent` are stated for `minX < maxX`, or `minX <= maxX` for the clamp. The source does not check the box, and with `minX > maxX` the clamp can leave a coordinate outside it. The model follows the code there and claims nothing about bounds.
- One described behaviour differs from the code. When no objective value is below `double.MaxValue`, the code never takes a particle's position as the global best, because it compares with a strict `<`. The result is therefore the zero vector with error `double.MaxValue`, not the first particle's position. The model follows the code (`InfeasibleObjectiveKeepsZeroBest`).
