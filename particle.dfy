/**
 * The particle record the solver updates in place, and the array copy it is
 * built with.
 */
module Particles {
  import opened SwarmModel

  /**
   * Array.CopyTo(target, 0): the first source.Length cells of target take the
   * values source had, the rest of target is left alone.
   */
  method CopyTo(source: array<real>, target: array<real>)
    requires source.Length <= target.Length
    modifies target
    ensures target[..source.Length] == old(source[..])
    ensures target[source.Length..] == old(target[source.Length..])
  {
    forall j | 0 <= j < source.Length {
      target[j] := source[j];
    }
  }

  /**
   * A particle.  The three array references are fixed at construction (the
   * solver only ever copies values into them); the two errors are updated.
   */
  class Particle {
    const position: array<real>
    const velocity: array<real>
    const bestPosition: array<real>
    var error: real
    var bestError: real

    /** The three arrays have the problem's dimension and are three different arrays. */
    ghost predicate Valid(dimensions: nat) {
      && position.Length == dimensions
      && velocity.Length == dimensions
      && bestPosition.Length == dimensions
      && position != velocity && position != bestPosition && velocity != bestPosition
    }

    function Arrays(): set<array<real>> {
      {position, velocity, bestPosition}
    }

    /** The values the particle holds. */
    function State(): ParticleState
      reads this, position, velocity, bestPosition
    {
      ParticleState(position[..], error, velocity[..], bestPosition[..], bestError)
    }

    /**
     * Every array argument is copied into a new array of its own, so the
     * particle shares storage with neither the caller nor itself, even when
     * one array is passed for both position and bestPosition.
     */
    constructor (position: array<real>, error: real, velocity: array<real>,
                 bestPosition: array<real>, bestError: real)
      ensures fresh(this.position) && fresh(this.velocity) && fresh(this.bestPosition)
      ensures && this.position != this.velocity
              && this.position != this.bestPosition
              && this.velocity != this.bestPosition
      ensures this.position[..] == position[..]
      ensures this.velocity[..] == velocity[..]
      ensures this.bestPosition[..] == bestPosition[..]
      ensures this.error == error && this.bestError == bestError
    {
      var p := new real[position.Length];
      CopyTo(position, p);
      var v := new real[velocity.Length];
      CopyTo(velocity, v);
      var b := new real[bestPosition.Length];
      CopyTo(bestPosition, b);
      this.position := p;
      this.error := error;
      this.velocity := v;
      this.bestPosition := b;
      this.bestError := bestError;
    }
  }

  /**
   * A write to an array after it was handed to the constructor does not reach
   * the particle: the particle keeps the values the array had.
   */
  method WriteAfterConstruction(position: array<real>, velocity: array<real>, j: nat, x: real)
    returns (p: Particle)
    requires j < position.Length
    modifies position
    ensures position[j] == x
    ensures p.position[..] == old(position[..]) && p.bestPosition[..] == old(position[..])
    ensures p.velocity[..] == old(velocity[..])
  {
    p := new Particle(position, 0.0, velocity, position, 0.0);
    position[j] := x;
  }
}
