/**
 * What the solver's bookkeeping guarantees, proved about the value-level model:
 * ranges of the initial draws, the clamp, the strict-improvement rule for the
 * personal and the global best, the consistency of every best with the
 * objective, the global error never rising, and the exit condition.
 */
module SwarmProperties {
  import opened SwarmModel

  ghost predicate InBounds(v: seq<real>, lo: real, hi: real) {
    forall j :: 0 <= j < |v| ==> lo <= v[j] <= hi
  }

  /** Each error is the objective at its position, and positions stay in the box. */
  ghost predicate ParticleConsistent(c: Config, f: Objective, p: ParticleState) {
    && Shaped(p, c.dimensions)
    && p.error == f(p.position)
    && p.bestError == f(p.bestPosition)
    && (c.minX <= c.maxX ==>
          InBounds(p.position, c.minX, c.maxX) && InBounds(p.bestPosition, c.minX, c.maxX))
  }

  /**
   * The global best is either still the initial pair (the zero vector and
   * MAX_VALUE) or a point of the box whose objective value it records.
   */
  ghost predicate GlobalConsistent(c: Config, f: Objective, g: Best) {
    && |g.position| == c.dimensions
    && (|| g == Best(Zeros(c.dimensions), MAX_VALUE)
        || (&& g.error < MAX_VALUE
            && g.error == f(g.position)
            && (c.minX <= c.maxX ==> InBounds(g.position, c.minX, c.maxX))))
  }

  ghost predicate TurnConsistent(c: Config, f: Objective, t: Turn) {
    && ParticleConsistent(c, f, t.particle)
    && GlobalConsistent(c, f, t.global)
    && t.global.error <= t.particle.bestError
  }

  /** The invariant of the whole run: consistent particles, a consistent global best no worse than any personal best. */
  ghost predicate Consistent(c: Config, f: Objective, st: SwarmState) {
    && GlobalConsistent(c, f, st.global)
    && forall i :: 0 <= i < |st.particles| ==>
         ParticleConsistent(c, f, st.particles[i]) && st.global.error <= st.particles[i].bestError
  }

  // ---------------------------------------------------------------- initialisation

  /**
   * A new particle starts at its personal best, with both errors the objective
   * there; when minX < maxX its coordinates fall in [minX, maxX) and its
   * velocities in [0.1 minX, 0.1 maxX).
   */
  lemma InitialParticleRanges(c: Config, f: Objective, s: Stream, k: nat)
    ensures var p := InitialParticle(c, f, s, k);
      && |p.position| == |p.velocity| == c.dimensions
      && p.bestPosition == p.position
      && p.error == p.bestError == f(p.position)
      && (c.minX < c.maxX ==> forall j :: 0 <= j < c.dimensions ==> c.minX <= p.position[j] < c.maxX)
      && (c.minX < c.maxX ==> forall j :: 0 <= j < c.dimensions ==>
            c.minX * MAGIC_MULTIPLIER <= p.velocity[j] < c.maxX * MAGIC_MULTIPLIER)
  {
  }

  /** A particle built from draws in the box is consistent (box may be a single point). */
  lemma InitialParticleConsistent(c: Config, f: Objective, s: Stream, k: nat)
    ensures ParticleConsistent(c, f, InitialParticle(c, f, s, k))
  {
  }

  /**
   * The initialisation pass takes 2 * dimensions draws per particle, in
   * swarm order: particle i is built from draws 2*dimensions*i onwards.
   */
  lemma {:induction false} InitializedDraws(c: Config, f: Objective, s: Stream, n: nat)
    ensures var st := Initialized(c, f, s, n);
      && st.drawn == 2 * c.dimensions * n
      && forall i :: 0 <= i < n ==> st.particles[i] == InitialParticle(c, f, s, 2 * c.dimensions * i)
  {
    if n > 0 {
      InitializedDraws(c, f, s, n - 1);
      assert 2 * c.dimensions * (n - 1) + 2 * c.dimensions == 2 * c.dimensions * n;
    }
  }

  /**
   * After the initialisation pass the global error is the least of MAX_VALUE
   * and every initial error.  When some error is below MAX_VALUE the global
   * best is the first particle that reaches that least error (ties keep the
   * earlier particle); otherwise it is still the zero vector.
   */
  lemma {:induction false} InitialGlobalBest(c: Config, f: Objective, s: Stream, n: nat)
    ensures var st := Initialized(c, f, s, n);
      && st.global.error <= MAX_VALUE
      && (forall i :: 0 <= i < n ==> st.global.error <= st.particles[i].error)
      && ((forall i :: 0 <= i < n ==> st.particles[i].error >= MAX_VALUE) ==>
            st.global == Best(Zeros(c.dimensions), MAX_VALUE))
      && ((exists i :: 0 <= i < n && st.particles[i].error < MAX_VALUE) ==>
            exists k :: && 0 <= k < n
                        && st.global == Best(st.particles[k].position, st.particles[k].error)
                        && forall i :: 0 <= i < k ==> st.global.error < st.particles[i].error)
  {
    if n > 0 {
      InitialGlobalBest(c, f, s, n - 1);
      var prev := Initialized(c, f, s, n - 1);
      var st := Initialized(c, f, s, n);
      var p := st.particles[n - 1];
      assert st.particles == prev.particles + [p];
      assert forall i :: 0 <= i < n - 1 ==> st.particles[i] == prev.particles[i];
      if p.error < prev.global.error {
        assert st.global == Best(p.position, p.error);
      } else {
        assert st.global == prev.global;
        if exists i :: 0 <= i < n && st.particles[i].error < MAX_VALUE {
          var i :| 0 <= i < n && st.particles[i].error < MAX_VALUE;
          if i == n - 1 {
            assert prev.global.error <= p.error < MAX_VALUE;
            assert prev.global != Best(Zeros(c.dimensions), MAX_VALUE);
          }
          assert exists i :: 0 <= i < n - 1 && prev.particles[i].error < MAX_VALUE;
        }
      }
    }
  }

  lemma {:induction false} InitializedConsistent(c: Config, f: Objective, s: Stream, n: nat)
    ensures Consistent(c, f, Initialized(c, f, s, n))
  {
    if n > 0 {
      InitializedConsistent(c, f, s, n - 1);
      var prev := Initialized(c, f, s, n - 1);
      InitialParticleConsistent(c, f, s, prev.drawn);
      var st := Initialized(c, f, s, n);
      assert forall i :: 0 <= i < n - 1 ==> st.particles[i] == prev.particles[i];
    }
  }

  // ---------------------------------------------------------------- one particle's turn

  /**
   * The move keeps the particle in the box, changes the personal and the
   * global best exactly when the new error is strictly lower (so neither ever
   * rises), and keeps every best equal to the objective at its position.
   */
  lemma MoveStepProperties(c: Config, f: Objective, s: Stream, t: Turn)
    requires TurnConsistent(c, f, t)
    ensures var r := MoveStep(c, f, s, t);
      && TurnConsistent(c, f, r)
      && (c.minX <= c.maxX ==> InBounds(r.particle.position, c.minX, c.maxX))
      && r.particle.bestError <= t.particle.bestError
      && ((r.particle.bestPosition, r.particle.bestError) != (t.particle.bestPosition, t.particle.bestError) ==>
            r.particle.error < t.particle.bestError && r.particle.bestPosition == r.particle.position)
      && (r.particle.error < t.particle.bestError ==>
            r.particle.bestPosition == r.particle.position && r.particle.bestError == r.particle.error)
      && r.global.error <= t.global.error
      && (r.global != t.global ==>
            r.particle.error < t.global.error && r.global == Best(r.particle.position, r.particle.error))
      && (r.particle.error < t.global.error ==> r.global == Best(r.particle.position, r.particle.error))
  {
  }

  /**
   * A respawn draws a new position in the box, keeps the velocity, resets the
   * personal best to the new position, and changes the global best exactly
   * when the new error is strictly lower; without a respawn only the draw
   * counter moves.
   */
  lemma RespawnStepProperties(c: Config, f: Objective, s: Stream, t: Turn)
    requires TurnConsistent(c, f, t)
    ensures var r := RespawnStep(c, f, s, t);
      && TurnConsistent(c, f, r)
      && r.particle.velocity == t.particle.velocity
      && r.global.error <= t.global.error
      && (r.global != t.global ==>
            r.particle.error < t.global.error && r.global == Best(r.particle.position, r.particle.error))
      && (if s(t.drawn) < DEATH_PROBABILITY then
            && r.drawn == t.drawn + 1 + c.dimensions
            && r.particle.bestPosition == r.particle.position
            && r.particle.bestError == r.particle.error == f(r.particle.position)
            && (r.particle.error < t.global.error ==>
                  r.global == Best(r.particle.position, r.particle.error))
            && (c.minX < c.maxX ==>
                  forall j :: 0 <= j < c.dimensions ==> c.minX <= r.particle.position[j] < c.maxX)
          else
            r == t.(drawn := t.drawn + 1))
  {
  }

  /** One particle's turn keeps the invariant and never raises the global error. */
  lemma StepProperties(c: Config, f: Objective, s: Stream, st: SwarmState, i: nat)
    requires Consistent(c, f, st) && i < |st.particles|
    ensures var r := Step(c, f, s, st, i);
      && Consistent(c, f, r)
      && r.global.error <= st.global.error
  {
    var t := Turn(st.particles[i], st.global, st.drawn);
    MoveStepProperties(c, f, s, t);
    var m := MoveStep(c, f, s, t);
    RespawnStepProperties(c, f, s, m);
    var r := Step(c, f, s, st, i);
    forall j | 0 <= j < |r.particles|
      ensures ParticleConsistent(c, f, r.particles[j]) && r.global.error <= r.particles[j].bestError
    {
      if j != i {
        assert r.particles[j] == st.particles[j];
      }
    }
  }

  // ---------------------------------------------------------------- epochs and the run

  lemma {:induction false} SweepProperties(c: Config, f: Objective, s: Stream, st: SwarmState, n: nat)
    requires Consistent(c, f, st) && n <= |st.particles|
    ensures var r := Sweep(c, f, s, st, n);
      Consistent(c, f, r) && r.global.error <= st.global.error
  {
    if n > 0 {
      SweepProperties(c, f, s, st, n - 1);
      StepProperties(c, f, s, Sweep(c, f, s, st, n - 1), n - 1);
    }
  }

  /** An epoch keeps the invariant and never raises the global error. */
  lemma EpochProperties(c: Config, f: Objective, s: Stream, st: SwarmState)
    requires Consistent(c, f, st)
    ensures var r := Epoch(c, f, s, st);
      Consistent(c, f, r) && r.global.error <= st.global.error
  {
    SweepProperties(c, f, s, st, |st.particles|);
  }

  lemma {:induction false} RunProperties(c: Config, f: Objective, s: Stream, st: SwarmState, epoch: nat)
    requires Consistent(c, f, st)
    ensures var r := Run(c, f, s, st, epoch);
      Consistent(c, f, r.0) && r.0.global.error <= st.global.error
    decreases c.maxEpochs - epoch
  {
    if epoch < c.maxEpochs && st.global.error > c.minAcceptedError {
      EpochProperties(c, f, s, st);
      RunProperties(c, f, s, Epoch(c, f, s, st), epoch + 1);
    }
  }

  /**
   * The whole run: the invariant holds at the end, the final global error is
   * no worse than the one after initialisation, the loop stopped on the epoch
   * cap or the accepted error, and with no epochs to run the result is the
   * initialisation-time global best.
   */
  lemma SolutionProperties(c: Config, f: Objective, s: Stream)
    ensures var init := Initialized(c, f, s, c.particleCount);
      var (final, epoch) := Solution(c, f, s);
      && Consistent(c, f, final)
      && final.global.error <= init.global.error
      && (epoch >= c.maxEpochs || final.global.error <= c.minAcceptedError)
      && (c.maxEpochs >= 0 ==> epoch <= c.maxEpochs)
      && (c.maxEpochs <= 0 ==> epoch == 0 && final == init)
  {
    var init := Initialized(c, f, s, c.particleCount);
    InitializedConsistent(c, f, s, c.particleCount);
    RunProperties(c, f, s, init, 0);
  }

  /**
   * An objective that is nowhere below MAX_VALUE never moves the global best:
   * the result is the zero vector with error MAX_VALUE.
   */
  lemma InfeasibleObjectiveKeepsZeroBest(c: Config, f: Objective, s: Stream)
    requires forall x :: f(x) >= MAX_VALUE
    ensures Solution(c, f, s).0.global == Best(Zeros(c.dimensions), MAX_VALUE)
  {
    SolutionProperties(c, f, s);
    var g := Solution(c, f, s).0.global;
    assert f(g.position) >= MAX_VALUE;
  }

  /**
   * When no objective value reaches the accepted error (and MAX_VALUE does not
   * either), the loop runs the full epoch cap.
   */
  lemma UnreachableThresholdRunsAllEpochs(c: Config, f: Objective, s: Stream)
    requires MAX_VALUE > c.minAcceptedError
    requires forall x :: f(x) > c.minAcceptedError
    ensures Solution(c, f, s).1 == if c.maxEpochs > 0 then c.maxEpochs else 0
  {
    SolutionProperties(c, f, s);
    var g := Solution(c, f, s).0.global;
    assert f(g.position) > c.minAcceptedError;
  }
}
