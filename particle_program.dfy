/**
 * The solver: an initialisation pass over a fresh swarm, then epochs in which
 * every particle moves and may be respawned, then a copy of the global best.
 * Each method is proved to do exactly what the value-level model in
 * SwarmModel says, and Solve's contract restates what SwarmProperties proves
 * about that model.
 */
module ParticleProgram {
  import opened SwarmModel
  import opened SwarmProperties
  import opened Particles
  import opened Randomness

  /** target[j] := (hi - lo) * NextDouble() + lo for every j, in order. */
  method FillUniform(random: Random, target: array<real>, lo: real, hi: real)
    modifies random, target
    ensures random.drawn == old(random.drawn) + target.Length
    ensures target[..] == UniformVector(random.stream, old(random.drawn), target.Length, lo, hi)
  {
    for j := 0 to target.Length
      invariant random.drawn == old(random.drawn) + j
      invariant forall k :: 0 <= k < j ==>
                  target[k] == Uniform(lo, hi, random.stream(old(random.drawn) + k))
    {
      var r := random.NextDouble();
      target[j] := (hi - lo) * r + lo;
    }
  }

  /** One particle of the initialisation pass: random position, its error, random velocity. */
  method NewParticle(c: Config, f: Objective, random: Random) returns (p: Particle)
    modifies random
    ensures fresh(p) && fresh(p.position) && fresh(p.velocity) && fresh(p.bestPosition)
    ensures p.Valid(c.dimensions)
    ensures p.State() == InitialParticle(c, f, random.stream, old(random.drawn))
    ensures random.drawn == old(random.drawn) + 2 * c.dimensions
  {
    var randomPosition := new real[c.dimensions];
    FillUniform(random, randomPosition, c.minX, c.maxX);
    var error := f(randomPosition[..]);
    var randomVelocity := new real[c.dimensions];
    FillUniform(random, randomVelocity, c.minX * MAGIC_MULTIPLIER, c.maxX * MAGIC_MULTIPLIER);
    p := new Particle(randomPosition, error, randomVelocity, randomPosition, error);
  }

  /** The arrays a particle's turn writes besides its own are three other arrays. */
  ghost predicate Apart(p: Particle, bestGlobalPosition: array<real>,
                        newVelocity: array<real>, newPosition: array<real>)
  {
    && bestGlobalPosition !in p.Arrays()
    && newVelocity !in p.Arrays()
    && newPosition !in p.Arrays()
    && bestGlobalPosition != newVelocity
    && bestGlobalPosition != newPosition
    && newVelocity != newPosition
  }

  /** newVelocity[j] := w v[j] + c1 r1 (best[j] - x[j]) + c2 r2 (global[j] - x[j]), two draws per j. */
  method ComputeVelocity(random: Random, p: Particle, bestGlobalPosition: array<real>,
                         newVelocity: array<real>)
    requires p.position.Length == p.velocity.Length == p.bestPosition.Length
    requires p.velocity.Length == bestGlobalPosition.Length == newVelocity.Length
    requires newVelocity !in p.Arrays() && newVelocity != bestGlobalPosition
    modifies newVelocity, random
    ensures newVelocity[..] == NewVelocity(p.State(), bestGlobalPosition[..], random.stream, old(random.drawn))
    ensures random.drawn == old(random.drawn) + 2 * newVelocity.Length
  {
    ghost var v := NewVelocity(p.State(), bestGlobalPosition[..], random.stream, random.drawn);
    for j := 0 to p.velocity.Length
      invariant random.drawn == old(random.drawn) + 2 * j
      invariant forall k :: 0 <= k < j ==> newVelocity[k] == v[k]
    {
      var r1 := random.NextDouble();
      var r2 := random.NextDouble();
      newVelocity[j] := (INERTIA_WEIGHT * p.velocity[j])
                        + (COGNITIVE_WEIGHT * r1 * (p.bestPosition[j] - p.position[j]))
                        + (SOCIAL_WEIGHT * r2 * (bestGlobalPosition[j] - p.position[j]));
    }
  }

  /** newPosition[j] := position[j] + newVelocity[j], clamped to [minX, maxX]. */
  method ComputePosition(c: Config, position: array<real>, newVelocity: array<real>,
                         newPosition: array<real>)
    requires position.Length == newVelocity.Length == newPosition.Length
    requires newPosition != position && newPosition != newVelocity
    modifies newPosition
    ensures newPosition[..] == MovedPosition(c, position[..], newVelocity[..])
  {
    for j := 0 to position.Length
      invariant forall k :: 0 <= k < j ==>
                  newPosition[k] == Clamp(position[k] + newVelocity[k], c.minX, c.maxX)
    {
      newPosition[j] := position[j] + newVelocity[j];
      if newPosition[j] < c.minX {
        newPosition[j] := c.minX;
      } else if newPosition[j] > c.maxX {
        newPosition[j] := c.maxX;
      }
    }
  }

  /**
   * The move of one particle: velocity, clamped position, error, personal
   * best, global best.  Returns the new global error.
   */
  method Move(c: Config, f: Objective, random: Random, p: Particle,
              bestGlobalPosition: array<real>, minGlobalError: real,
              newVelocity: array<real>, newPosition: array<real>)
    returns (globalError: real)
    requires p.Valid(c.dimensions)
    requires bestGlobalPosition.Length == newVelocity.Length == newPosition.Length == c.dimensions
    requires Apart(p, bestGlobalPosition, newVelocity, newPosition)
    modifies p, p.position, p.velocity, p.bestPosition
    modifies bestGlobalPosition, newVelocity, newPosition, random
    ensures Turn(p.State(), Best(bestGlobalPosition[..], globalError), random.drawn)
         == MoveStep(c, f, random.stream,
                     Turn(old(p.State()), Best(old(bestGlobalPosition[..]), minGlobalError),
                          old(random.drawn)))
  {
    ghost var t := Turn(p.State(), Best(bestGlobalPosition[..], minGlobalError), random.drawn);
    ghost var m := MoveStep(c, f, random.stream, t);

    ComputeVelocity(random, p, bestGlobalPosition, newVelocity);
    CopyTo(newVelocity, p.velocity);
    assert p.velocity[..] == newVelocity[..] == m.particle.velocity;

    ComputePosition(c, p.position, newVelocity, newPosition);
    CopyTo(newPosition, p.position);
    assert newPosition[..] == p.position[..] == m.particle.position;

    var newError := f(newPosition[..]);
    p.error := newError;

    if newError < p.bestError {
      CopyTo(newPosition, p.bestPosition);
      p.bestError := newError;
    }
    globalError := minGlobalError;
    if newError < minGlobalError {
      CopyTo(newPosition, bestGlobalPosition);
      globalError := newError;
    }
  }

  /**
   * The death check: with a draw below DEATH_PROBABILITY the particle is put
   * at a fresh random position, which also becomes its personal best, and the
   * global best is checked against it.  Returns the new global error.
   */
  method Respawn(c: Config, f: Objective, random: Random, p: Particle,
                 bestGlobalPosition: array<real>, minGlobalError: real)
    returns (globalError: real)
    requires p.Valid(c.dimensions)
    requires bestGlobalPosition.Length == c.dimensions
    requires bestGlobalPosition !in p.Arrays()
    modifies p, p.position, p.bestPosition, bestGlobalPosition, random
    ensures Turn(p.State(), Best(bestGlobalPosition[..], globalError), random.drawn)
         == RespawnStep(c, f, random.stream,
                        Turn(old(p.State()), Best(old(bestGlobalPosition[..]), minGlobalError),
                             old(random.drawn)))
  {
    globalError := minGlobalError;
    var death := random.NextDouble();
    if death < DEATH_PROBABILITY {
      FillUniform(random, p.position, c.minX, c.maxX);
      p.error := f(p.position[..]);
      CopyTo(p.position, p.bestPosition);
      p.bestError := p.error;

      if p.error < globalError {
        globalError := p.error;
        CopyTo(p.position, bestGlobalPosition);
      }
    }
  }

  /** A particle's whole turn: its move, then its death check. */
  method MoveAndRespawn(c: Config, f: Objective, random: Random, p: Particle,
                     bestGlobalPosition: array<real>, minGlobalError: real,
                     newVelocity: array<real>, newPosition: array<real>)
    returns (globalError: real)
    requires p.Valid(c.dimensions)
    requires bestGlobalPosition.Length == newVelocity.Length == newPosition.Length == c.dimensions
    requires Apart(p, bestGlobalPosition, newVelocity, newPosition)
    modifies p, p.position, p.velocity, p.bestPosition
    modifies bestGlobalPosition, newVelocity, newPosition, random
    ensures Turn(p.State(), Best(bestGlobalPosition[..], globalError), random.drawn)
         == ParticleTurn(c, f, random.stream,
                         Turn(old(p.State()), Best(old(bestGlobalPosition[..]), minGlobalError),
                              old(random.drawn)))
  {
    globalError := Move(c, f, random, p, bestGlobalPosition, minGlobalError, newVelocity, newPosition);
    globalError := Respawn(c, f, random, p, bestGlobalPosition, globalError);
  }

  /** The objects of particle p, each recorded as belonging to particle i. */
  ghost function Claimed(owner: map<object, nat>, p: Particle, i: nat): (owner': map<object, nat>)
    ensures owner'.Keys == owner.Keys + {p, p.position, p.velocity, p.bestPosition}
  {
    owner[p := i][p.position := i][p.velocity := i][p.bestPosition := i]
  }

  /**
   * Every particle of ps and each of its arrays is recorded in owner as
   * belonging to that particle's index, so no object serves two particles.
   */
  ghost predicate Covers(ps: seq<Particle>, owner: map<object, nat>) {
    forall j :: 0 <= j < |ps| ==>
      && ps[j] in owner && owner[ps[j]] == j
      && ps[j].position in owner && owner[ps[j].position] == j
      && ps[j].velocity in owner && owner[ps[j].velocity] == j
      && ps[j].bestPosition in owner && owner[ps[j].bestPosition] == j
  }

  /** The particles of ps are valid, and no two share a particle or an array. */
  ghost predicate Separated(ps: seq<Particle>, dimensions: nat, owner: map<object, nat>) {
    && Covers(ps, owner)
    && (forall j :: 0 <= j < |ps| ==> ps[j].Valid(dimensions))
  }

  /** The particles of ps hold the values of the model's particles. */
  ghost predicate Holds(ps: seq<Particle>, owner: map<object, nat>, particles: seq<ParticleState>)
    reads owner.Keys
    requires Covers(ps, owner)
  {
    |ps| == |particles| && forall j :: 0 <= j < |ps| ==> ps[j].State() == particles[j]
  }

  /** A new particle, apart from everything so far, extends a separated sequence. */
  lemma SeparatedExtended(ps: seq<Particle>, p: Particle, dimensions: nat, owner: map<object, nat>)
    requires Separated(ps, dimensions, owner) && p.Valid(dimensions)
    requires p !in owner && p.position !in owner && p.velocity !in owner && p.bestPosition !in owner
    ensures Separated(ps + [p], dimensions, Claimed(owner, p, |ps|))
  {
  }

  /** ... and so does its value. */
  lemma HoldsExtended(ps: seq<Particle>, p: Particle, owner: map<object, nat>,
                      particles: seq<ParticleState>)
    requires Covers(ps, owner) && Holds(ps, owner, particles)
    requires p !in owner && p.position !in owner && p.velocity !in owner && p.bestPosition !in owner
    requires p.Valid(p.position.Length)
    ensures Covers(ps + [p], Claimed(owner, p, |ps|))
    ensures Holds(ps + [p], Claimed(owner, p, |ps|), particles + [p.State()])
  {
  }

  /** Particle i takes its turn (one iteration of the solver's foreach over the swarm). */
  method TakeTurn(c: Config, f: Objective, random: Random, swarm: array<Particle?>, ghost ps: seq<Particle>,
                  i: nat, bestGlobalPosition: array<real>, minGlobalError: real,
                  newVelocity: array<real>, newPosition: array<real>,
                  ghost owner: map<object, nat>, ghost st: SwarmState)
    returns (globalError: real, ghost st': SwarmState)
    requires swarm[..] == ps && i < |ps| && WellFormed(c, st)
    requires bestGlobalPosition.Length == newVelocity.Length == newPosition.Length == c.dimensions
    requires bestGlobalPosition != newVelocity && bestGlobalPosition != newPosition && newVelocity != newPosition
    requires Separated(ps, c.dimensions, owner)
    requires owner.Keys !! {bestGlobalPosition, newVelocity, newPosition, random}
    requires Holds(ps, owner, st.particles)
    requires random.drawn == st.drawn
    requires bestGlobalPosition[..] == st.global.position && minGlobalError == st.global.error
    modifies owner.Keys, bestGlobalPosition, newVelocity, newPosition, random
    ensures st' == Step(c, f, random.stream, st, i)
    ensures Holds(ps, owner, st'.particles)
    ensures random.drawn == st'.drawn
    ensures bestGlobalPosition[..] == st'.global.position && globalError == st'.global.error
  {
    var currentParticle: Particle := swarm[i];
    assert currentParticle.State() == st.particles[i];
    globalError := MoveAndRespawn(c, f, random, currentParticle, bestGlobalPosition, minGlobalError,
                                  newVelocity, newPosition);
    st' := Step(c, f, random.stream, st, i);
  }

  /** A particle whose error is strictly below the global error becomes the global best. */
  method OfferGlobalBest(p: Particle, bestGlobalPosition: array<real>, minGlobalError: real)
    returns (globalError: real)
    requires p.position.Length == bestGlobalPosition.Length && p.position != bestGlobalPosition
    modifies bestGlobalPosition
    ensures Best(bestGlobalPosition[..], globalError)
         == Improve(Best(old(bestGlobalPosition[..]), minGlobalError), p.position[..], p.error)
  {
    globalError := minGlobalError;
    if p.error < globalError {
      globalError := p.error;
      CopyTo(p.position, bestGlobalPosition);
    }
  }

  /**
   * The first half of one iteration of the initialisation pass: particle i
   * is built from the next draws and stored in the swarm.
   */
  method Enlist(c: Config, f: Objective, random: Random, swarm: array<Particle?>, i: nat,
                ghost ps: seq<Particle>, ghost owner: map<object, nat>, ghost particles: seq<ParticleState>)
    returns (p: Particle, ghost ps': seq<Particle>, ghost owner': map<object, nat>)
    requires i < swarm.Length && swarm[..i] == ps && swarm !in owner
    requires Separated(ps, c.dimensions, owner) && Holds(ps, owner, particles)
    modifies swarm, random
    ensures fresh(owner'.Keys - owner.Keys) && swarm[..i + 1] == ps' && swarm !in owner'
    ensures ps' == ps + [p] && swarm[..] == old(swarm[..])[i := p]
    ensures ps'[i] == p && p.State() == InitialParticle(c, f, random.stream, old(random.drawn))
    ensures random.drawn == old(random.drawn) + 2 * c.dimensions
    ensures Separated(ps', c.dimensions, owner') && Holds(ps', owner', particles + [p.State()])
  {
    p := NewParticle(c, f, random);
    swarm[i] := p;
    SeparatedExtended(ps, p, c.dimensions, owner);
    HoldsExtended(ps, p, owner, particles);
    ps' := ps + [p];
    owner' := Claimed(owner, p, i);
  }

  /**
   * The initialisation pass, with a generator that has drawn nothing yet:
   * particleCount new particles, in order, and the global best taken over
   * them on strict improvement, starting from the zero vector and MAX_VALUE.
   */
  method InitializeSwarm(c: Config, f: Objective, random: Random)
    returns (swarm: array<Particle?>, bestGlobalPosition: array<real>, minGlobalError: real,
             ghost ps: seq<Particle>, ghost owner: map<object, nat>)
    requires random.drawn == 0
    modifies random
    ensures fresh(swarm) && fresh(bestGlobalPosition) && fresh(owner.Keys)
    ensures swarm.Length == c.particleCount && bestGlobalPosition.Length == c.dimensions
    ensures swarm[..] == ps && swarm !in owner
    ensures var st := Initialized(c, f, random.stream, c.particleCount);
      && random.drawn == st.drawn
      && bestGlobalPosition[..] == st.global.position && minGlobalError == st.global.error
      && Separated(ps, c.dimensions, owner) && owner.Keys !! {bestGlobalPosition, random}
      && Holds(ps, owner, st.particles)
  {
    swarm := new Particle?[c.particleCount];
    bestGlobalPosition := new real[c.dimensions](_ => 0.0);
    minGlobalError := MAX_VALUE;
    ps := [];
    owner := map[];

    ghost var st := Initialized(c, f, random.stream, 0);
    for i := 0 to swarm.Length
      invariant st == Initialized(c, f, random.stream, i)
      invariant random.drawn == st.drawn
      invariant bestGlobalPosition[..] == st.global.position && minGlobalError == st.global.error
      invariant fresh(owner.Keys) && swarm !in owner && swarm[..i] == ps
      invariant Separated(ps, c.dimensions, owner) && owner.Keys !! {bestGlobalPosition, random}
      invariant Holds(ps, owner, st.particles)
    {
      ghost var next := Joined(c, f, random.stream, st);
      var p;
      p, ps, owner := Enlist(c, f, random, swarm, i, ps, owner, st.particles);
      minGlobalError := OfferGlobalBest(p, bestGlobalPosition, minGlobalError);
      st := next;
    }
  }

  /** One epoch: every particle of the swarm takes its turn, in order. */
  method RunEpoch(c: Config, f: Objective, random: Random, swarm: array<Particle?>, ghost ps: seq<Particle>,
                  bestGlobalPosition: array<real>, minGlobalError: real,
                  newVelocity: array<real>, newPosition: array<real>,
                  ghost owner: map<object, nat>, ghost st: SwarmState)
    returns (globalError: real, ghost st': SwarmState)
    requires swarm[..] == ps && swarm !in owner && WellFormed(c, st)
    requires bestGlobalPosition.Length == newVelocity.Length == newPosition.Length == c.dimensions
    requires bestGlobalPosition != newVelocity && bestGlobalPosition != newPosition && newVelocity != newPosition
    requires Separated(ps, c.dimensions, owner)
    requires owner.Keys !! {bestGlobalPosition, newVelocity, newPosition, random}
    requires Holds(ps, owner, st.particles)
    requires random.drawn == st.drawn
    requires bestGlobalPosition[..] == st.global.position && minGlobalError == st.global.error
    modifies owner.Keys, bestGlobalPosition, newVelocity, newPosition, random
    ensures st' == Epoch(c, f, random.stream, st)
    ensures Holds(ps, owner, st'.particles)
    ensures random.drawn == st'.drawn
    ensures bestGlobalPosition[..] == st'.global.position && globalError == st'.global.error
  {
    globalError := minGlobalError;
    st' := st;
    for i := 0 to swarm.Length
      invariant st' == Sweep(c, f, random.stream, st, i)
      invariant swarm[..] == ps
      invariant random.drawn == st'.drawn
      invariant bestGlobalPosition[..] == st'.global.position && globalError == st'.global.error
      invariant Holds(ps, owner, st'.particles)
    {
      globalError, st' := TakeTurn(c, f, random, swarm, ps, i, bestGlobalPosition,
                                   globalError, newVelocity, newPosition, owner, st');
    }
  }

  /**
   * The main loop: epochs run while fewer than maxEpochs have run and the
   * global error is above minAcceptedError.
   */
  method RunEpochs(c: Config, f: Objective, random: Random, swarm: array<Particle?>, ghost ps: seq<Particle>,
                   bestGlobalPosition: array<real>, minGlobalError: real,
                   ghost owner: map<object, nat>, ghost st: SwarmState)
    returns (epoch: nat, globalError: real, ghost st': SwarmState)
    requires swarm[..] == ps && swarm !in owner && WellFormed(c, st)
    requires bestGlobalPosition.Length == c.dimensions
    requires Separated(ps, c.dimensions, owner) && owner.Keys !! {bestGlobalPosition, random}
    requires Holds(ps, owner, st.particles)
    requires random.drawn == st.drawn
    requires bestGlobalPosition[..] == st.global.position && minGlobalError == st.global.error
    modifies owner.Keys, bestGlobalPosition, random
    ensures (st', epoch) == Run(c, f, random.stream, st, 0)
    ensures Holds(ps, owner, st'.particles)
    ensures bestGlobalPosition[..] == st'.global.position && globalError == st'.global.error
  {
    epoch := 0;
    var newVelocity := new real[c.dimensions];
    var newPosition := new real[c.dimensions];
    globalError := minGlobalError;
    st' := st;
    while epoch < c.maxEpochs && globalError > c.minAcceptedError
      invariant WellFormed(c, st')
      invariant Run(c, f, random.stream, st', epoch) == Run(c, f, random.stream, st, 0)
      invariant random.drawn == st'.drawn
      invariant bestGlobalPosition[..] == st'.global.position && globalError == st'.global.error
      invariant swarm[..] == ps
      invariant Holds(ps, owner, st'.particles)
      invariant owner.Keys !! {bestGlobalPosition, newVelocity, newPosition, random}
      decreases c.maxEpochs - epoch
    {
      globalError, st' := RunEpoch(c, f, random, swarm, ps, bestGlobalPosition,
                                   globalError, newVelocity, newPosition, owner, st');
      epoch := epoch + 1;
    }
  }

  /**
   * Particle swarm optimisation of `errorFunction` over the box [minX, maxX]
   * in `dimensions` coordinates, with `particleCount` particles, drawing from
   * the stream `seeded` of the generator's values.  Returns a copy of the
   * global best position, the final swarm, the epoch reached and the global error.
   */
  method Solve(dimensions: nat, particleCount: nat, minX: real, maxX: real, maxEpochs: int,
               minAcceptedError: real, errorFunction: Objective, seeded: Stream)
    returns (result: array<real>, swarm: array<Particle?>, epoch: nat, minError: real,
             ghost ps: seq<Particle>, ghost owner: map<object, nat>)
    ensures fresh(result) && fresh(swarm)
    ensures result.Length == dimensions && swarm[..] == ps
    ensures Separated(ps, dimensions, owner) && result !in owner
    ensures var (final, finalEpoch) :=
              Solution(Config(dimensions, particleCount, minX, maxX, maxEpochs, minAcceptedError),
                       errorFunction, seeded);
      && result[..] == final.global.position
      && minError == final.global.error
      && epoch == finalEpoch
      && Holds(ps, owner, final.particles)
    ensures epoch >= maxEpochs || minError <= minAcceptedError
    ensures minError < MAX_VALUE ==> errorFunction(result[..]) == minError
    ensures minError >= MAX_VALUE ==> minError == MAX_VALUE && result[..] == Zeros(dimensions)
    ensures forall j :: 0 <= j < |ps| ==>
              minError <= ps[j].bestError == errorFunction(ps[j].bestPosition[..])
  {
    var c := Config(dimensions, particleCount, minX, maxX, maxEpochs, minAcceptedError);
    var random := new Random(seeded);
    var bestGlobalPosition, minGlobalError;
    swarm, bestGlobalPosition, minGlobalError, ps, owner := InitializeSwarm(c, errorFunction, random);
    ghost var st;
    epoch, minGlobalError, st := RunEpochs(c, errorFunction, random, swarm, ps, bestGlobalPosition,
                                           minGlobalError, owner,
                                           Initialized(c, errorFunction, seeded, particleCount));
    result := new real[dimensions];
    CopyTo(bestGlobalPosition, result);
    minError := minGlobalError;
    SolutionProperties(c, errorFunction, seeded);
  }
}
