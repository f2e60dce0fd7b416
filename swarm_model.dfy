/**
 * A value-level model of one run of the particle swarm optimiser.
 *
 * Every step of the solver is a function of the configuration, the objective,
 * the stream of pseudo-random draws and the state before the step.  The state
 * carries `drawn`, the number of draws taken from the stream so far, so the
 * order in which the solver consumes random numbers is part of the model:
 * two runs with the same inputs and the same stream are the same run.
 */
module SwarmModel {

  /** A draw of the generator's NextDouble: a real in [0, 1). */
  type UnitDraw = r: real | 0.0 <= r < 1.0

  /** The values a seeded generator yields, in order. */
  type Stream = nat -> UnitDraw

  /** The function being minimised; it sees the coordinates of a position. */
  type Objective = seq<real> -> real

  /** double.MaxValue, (2^53 - 1) * 2^971: the initial global error. */
  const MAX_VALUE: real := 179769313486231570814527423731704356798070567525844996598917476803157260780028538760589558632766878171540458953514382464234321326889464182768467546703537516986049910576551282076245490090389328944075868508455133942304583236903222948165808559332123348274797826204144723168738177180919299881250404026184124858368.0

  /** Initial velocities are drawn from the position bounds scaled by this factor. */
  const MAGIC_MULTIPLIER: real := 0.1
  const INERTIA_WEIGHT: real := 0.729
  const COGNITIVE_WEIGHT: real := 1.49445
  const SOCIAL_WEIGHT: real := 1.49445
  /** A particle is respawned when its draw falls below this. */
  const DEATH_PROBABILITY: real := 0.01

  /** The solver's arguments, apart from the objective. */
  datatype Config = Config(
    dimensions: nat,
    particleCount: nat,
    minX: real,
    maxX: real,
    maxEpochs: int,
    minAcceptedError: real)

  /** The values held by one particle. */
  datatype ParticleState = ParticleState(
    position: seq<real>,
    error: real,
    velocity: seq<real>,
    bestPosition: seq<real>,
    bestError: real)

  /** The shared global best: bestGlobalPosition and minGlobalError. */
  datatype Best = Best(position: seq<real>, error: real)

  /** Everything one particle's turn reads and writes. */
  datatype Turn = Turn(particle: ParticleState, global: Best, drawn: nat)

  /** The whole solver state between two particle turns. */
  datatype SwarmState = SwarmState(particles: seq<ParticleState>, global: Best, drawn: nat)

  function Zeros(n: nat): (z: seq<real>)
    ensures |z| == n && forall j :: 0 <= j < n ==> z[j] == 0.0
  {
    seq(n, _ => 0.0)
  }

  /** A draw r scaled onto the interval from lo to hi, as (hi - lo) * r + lo. */
  function Uniform(lo: real, hi: real, r: UnitDraw): (u: real)
    ensures lo < hi ==> lo <= u < hi
    ensures lo == hi ==> u == lo
  {
    Scale(hi - lo, r) + lo
  }

  /** A draw times a width: in [0, width) when the width is positive. */
  function Scale(width: real, r: UnitDraw): (x: real)
    ensures width > 0.0 ==> 0.0 <= x < width
    ensures width == 0.0 ==> x == 0.0
  {
    ScaleBounds(width, r); width * r
  }

  lemma ScaleBounds(width: real, r: UnitDraw)
    ensures width > 0.0 ==> 0.0 <= width * r < width
  {
  }

  /** n coordinates, the j-th scaled from draw number start + j. */
  function UniformVector(s: Stream, start: nat, n: nat, lo: real, hi: real): (v: seq<real>)
    ensures |v| == n
    ensures lo < hi ==> forall j :: 0 <= j < n ==> lo <= v[j] < hi
    ensures lo == hi ==> forall j :: 0 <= j < n ==> v[j] == lo
  {
    var v := seq(n, j requires 0 <= j < n => Uniform(lo, hi, s(start + j)));
    assert forall j :: 0 <= j < n ==> v[j] == Uniform(lo, hi, s(start + j));
    v
  }

  /** The hard clamp of a coordinate to the search box. */
  function Clamp(x: real, minX: real, maxX: real): (r: real)
    ensures minX <= maxX ==> minX <= r <= maxX
    ensures minX <= x <= maxX ==> r == x
    ensures r == x || r == minX || r == maxX
  {
    if x < minX then minX else if x > maxX then maxX else x
  }

  /** A candidate replaces the best only when its error is strictly lower. */
  function Improve(g: Best, position: seq<real>, error: real): (r: Best)
    ensures r.error <= g.error && r.error <= error
    ensures error < g.error ==> r == Best(position, error)
    ensures error >= g.error ==> r == g
  {
    if error < g.error then Best(position, error) else g
  }

  predicate Shaped(p: ParticleState, n: nat) {
    |p.position| == n && |p.velocity| == n && |p.bestPosition| == n
  }

  predicate TurnShaped(c: Config, t: Turn) {
    Shaped(t.particle, c.dimensions) && |t.global.position| == c.dimensions
  }

  predicate WellFormed(c: Config, st: SwarmState) {
    && |st.global.position| == c.dimensions
    && forall i :: 0 <= i < |st.particles| ==> Shaped(st.particles[i], c.dimensions)
  }

  /**
   * A freshly initialised particle whose draws start at number k: dimensions
   * draws for the position, then dimensions draws for the velocity.  Its
   * personal best is its starting point.
   */
  function InitialParticle(c: Config, f: Objective, s: Stream, k: nat): (p: ParticleState)
    ensures Shaped(p, c.dimensions)
  {
    var position := UniformVector(s, k, c.dimensions, c.minX, c.maxX);
    var error := f(position);
    var velocity := UniformVector(s, k + c.dimensions, c.dimensions,
                                  c.minX * MAGIC_MULTIPLIER, c.maxX * MAGIC_MULTIPLIER);
    ParticleState(position, error, velocity, position, error)
  }

  /** The state after the initialisation pass has created the first n particles. */
  function Initialized(c: Config, f: Objective, s: Stream, n: nat): (st: SwarmState)
    ensures WellFormed(c, st) && |st.particles| == n
  {
    if n == 0 then
      SwarmState([], Best(Zeros(c.dimensions), MAX_VALUE), 0)
    else
      Joined(c, f, s, Initialized(c, f, s, n - 1))
  }

  /** One more particle of the initialisation pass joins the swarm and is offered as global best. */
  function Joined(c: Config, f: Objective, s: Stream, prev: SwarmState): (st: SwarmState)
    requires WellFormed(c, prev)
    ensures WellFormed(c, st) && |st.particles| == |prev.particles| + 1
  {
    var p := InitialParticle(c, f, s, prev.drawn);
    SwarmState(prev.particles + [p], Improve(prev.global, p.position, p.error),
               prev.drawn + 2 * c.dimensions)
  }

  /**
   * The new velocity: inertia plus the pulls towards the personal and the
   * global best, each scaled by its own draw (two draws per coordinate,
   * the cognitive one first).
   */
  function NewVelocity(p: ParticleState, globalPosition: seq<real>, s: Stream, k: nat): (v: seq<real>)
    requires |p.position| == |p.velocity| == |p.bestPosition| == |globalPosition|
    ensures |v| == |p.velocity|
  {
    seq(|p.velocity|, j requires 0 <= j < |p.velocity| =>
      INERTIA_WEIGHT * p.velocity[j]
      + COGNITIVE_WEIGHT * s(k + 2 * j) * (p.bestPosition[j] - p.position[j])
      + SOCIAL_WEIGHT * s(k + 2 * j + 1) * (globalPosition[j] - p.position[j]))
  }

  /** Each coordinate moved by its velocity and clamped to the box. */
  function MovedPosition(c: Config, position: seq<real>, velocity: seq<real>): (r: seq<real>)
    requires |position| == |velocity|
    ensures |r| == |position|
    ensures c.minX <= c.maxX ==> forall j :: 0 <= j < |r| ==> c.minX <= r[j] <= c.maxX
    ensures forall j :: 0 <= j < |r| && c.minX <= position[j] + velocity[j] <= c.maxX ==>
              r[j] == position[j] + velocity[j]
  {
    seq(|position|, j requires 0 <= j < |position| => Clamp(position[j] + velocity[j], c.minX, c.maxX))
  }

  /**
   * The move of one particle: new velocity (kept unclamped), new clamped
   * position, its error, then the personal and the global best.
   */
  function MoveStep(c: Config, f: Objective, s: Stream, t: Turn): (r: Turn)
    requires TurnShaped(c, t)
    ensures TurnShaped(c, r)
    ensures r.drawn == t.drawn + 2 * c.dimensions
  {
    var p := t.particle;
    var velocity := NewVelocity(p, t.global.position, s, t.drawn);
    var position := MovedPosition(c, p.position, velocity);
    var error := f(position);
    var improved := error < p.bestError;
    Turn(ParticleState(position, error, velocity,
                       if improved then position else p.bestPosition,
                       if improved then error else p.bestError),
         Improve(t.global, position, error),
         t.drawn + 2 * c.dimensions)
  }

  /**
   * The death check: one draw; below DEATH_PROBABILITY the particle gets a
   * fresh position, its personal best is reset to it, and the global best is
   * checked against it.  The velocity is left alone.
   */
  function RespawnStep(c: Config, f: Objective, s: Stream, t: Turn): (r: Turn)
    requires TurnShaped(c, t)
    ensures TurnShaped(c, r)
    ensures r.particle.velocity == t.particle.velocity
  {
    if s(t.drawn) < DEATH_PROBABILITY then
      var position := UniformVector(s, t.drawn + 1, c.dimensions, c.minX, c.maxX);
      var error := f(position);
      Turn(t.particle.(position := position, error := error,
                       bestPosition := position, bestError := error),
           Improve(t.global, position, error),
           t.drawn + 1 + c.dimensions)
    else
      t.(drawn := t.drawn + 1)
  }

  /** One particle's full turn within an epoch. */
  function ParticleTurn(c: Config, f: Objective, s: Stream, t: Turn): (r: Turn)
    requires TurnShaped(c, t)
    ensures TurnShaped(c, r)
    ensures t.drawn + 2 * c.dimensions + 1 <= r.drawn <= t.drawn + 3 * c.dimensions + 1
  {
    RespawnStep(c, f, s, MoveStep(c, f, s, t))
  }

  /** Particle i takes its turn against the shared global best; no other particle changes. */
  function Step(c: Config, f: Objective, s: Stream, st: SwarmState, i: nat): (r: SwarmState)
    requires WellFormed(c, st) && i < |st.particles|
    ensures WellFormed(c, r) && |r.particles| == |st.particles|
    ensures forall j :: 0 <= j < |st.particles| && j != i ==> r.particles[j] == st.particles[j]
  {
    var t := ParticleTurn(c, f, s, Turn(st.particles[i], st.global, st.drawn));
    SwarmState(st.particles[i := t.particle], t.global, t.drawn)
  }

  /** The state after particles 0 .. n-1 of an epoch have taken their turns, in order. */
  function Sweep(c: Config, f: Objective, s: Stream, st: SwarmState, n: nat): (r: SwarmState)
    requires WellFormed(c, st) && n <= |st.particles|
    ensures WellFormed(c, r) && |r.particles| == |st.particles|
  {
    if n == 0 then st else Step(c, f, s, Sweep(c, f, s, st, n - 1), n - 1)
  }

  function Epoch(c: Config, f: Objective, s: Stream, st: SwarmState): (r: SwarmState)
    requires WellFormed(c, st)
    ensures WellFormed(c, r) && |r.particles| == |st.particles|
  {
    Sweep(c, f, s, st, |st.particles|)
  }

  /**
   * The main loop from epoch `epoch` on: it runs while the epoch cap is not
   * reached and the global error is above the accepted error.
   */
  function Run(c: Config, f: Objective, s: Stream, st: SwarmState, epoch: nat): (r: (SwarmState, nat))
    requires WellFormed(c, st)
    ensures WellFormed(c, r.0) && |r.0.particles| == |st.particles|
    ensures r.1 >= c.maxEpochs || r.0.global.error <= c.minAcceptedError
    ensures r.1 >= epoch && (epoch <= c.maxEpochs ==> r.1 <= c.maxEpochs)
    ensures epoch >= c.maxEpochs ==> r == (st, epoch)
    decreases c.maxEpochs - epoch
  {
    if epoch < c.maxEpochs && st.global.error > c.minAcceptedError then
      Run(c, f, s, Epoch(c, f, s, st), epoch + 1)
    else
      (st, epoch)
  }

  /** The final state and epoch of a whole run. */
  function Solution(c: Config, f: Objective, s: Stream): (r: (SwarmState, nat))
    ensures WellFormed(c, r.0) && |r.0.particles| == c.particleCount
  {
    Run(c, f, s, Initialized(c, f, s, c.particleCount), 0)
  }
}
