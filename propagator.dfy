/**
 * The propagator provider the stepper consumes: a fixed timestep `dt` and four
 * queries giving, for a simulation time, the full and half kinetic propagators
 * (one factor per grid point) and the full and half potential propagators (an
 * S x S matrix per grid point, indexed V[j][k][i]).
 */
module Propagators {

  /** A potential propagator of shape (nstates, nstates, ngrid). */
  ghost predicate PotentialShaped(v: seq<seq<seq<real>>>, s: nat, g: nat) {
    |v| == s && forall j :: 0 <= j < s ==> |v[j]| == s && forall k :: 0 <= k < s ==> |v[j][k]| == g
  }

  /** Which of the four queries was made. */
  datatype Query = KineticFull | KineticHalf | PotentialFull | PotentialHalf

  /**
   * The four queries are pure functions of the time; `fetched` is a ghost log of
   * the queries made, with the time each was made at, so that callers can state
   * in what order and at what time the operators were fetched.
   */
  class Propagator {
    const dt: real
    const ngrid: nat
    const nstates: nat
    const kineticAt: real -> seq<real>
    const halfKineticAt: real -> seq<real>
    const potentialAt: real -> seq<seq<seq<real>>>
    const halfPotentialAt: real -> seq<seq<seq<real>>>
    ghost var fetched: seq<(Query, real)>

    constructor (dt: real, ngrid: nat, nstates: nat,
                 kineticAt: real -> seq<real>, halfKineticAt: real -> seq<real>,
                 potentialAt: real -> seq<seq<seq<real>>>, halfPotentialAt: real -> seq<seq<seq<real>>>)
      requires forall t :: |kineticAt(t)| == ngrid
      requires forall t :: |halfKineticAt(t)| == ngrid
      requires forall t :: PotentialShaped(potentialAt(t), nstates, ngrid)
      requires forall t :: PotentialShaped(halfPotentialAt(t), nstates, ngrid)
      ensures this.dt == dt && this.ngrid == ngrid && this.nstates == nstates
      ensures this.kineticAt == kineticAt && this.halfKineticAt == halfKineticAt
      ensures this.potentialAt == potentialAt && this.halfPotentialAt == halfPotentialAt
      ensures fetched == []
      ensures Valid()
    {
      this.dt := dt;
      this.ngrid := ngrid;
      this.nstates := nstates;
      this.kineticAt := kineticAt;
      this.halfKineticAt := halfKineticAt;
      this.potentialAt := potentialAt;
      this.halfPotentialAt := halfPotentialAt;
      fetched := [];
    }

    /** Every query returns an operator shaped for ngrid grid points and nstates states. */
    ghost predicate Valid() {
      && (forall t :: |kineticAt(t)| == ngrid)
      && (forall t :: |halfKineticAt(t)| == ngrid)
      && (forall t :: PotentialShaped(potentialAt(t), nstates, ngrid))
      && (forall t :: PotentialShaped(halfPotentialAt(t), nstates, ngrid))
    }

    method GetTPropagator(time: real) returns (T: seq<real>)
      modifies this`fetched
      ensures T == kineticAt(time)
      ensures fetched == old(fetched) + [(KineticFull, time)]
    {
      T := kineticAt(time);
      fetched := fetched + [(KineticFull, time)];
    }

    method GetHalfTPropagator(time: real) returns (T: seq<real>)
      modifies this`fetched
      ensures T == halfKineticAt(time)
      ensures fetched == old(fetched) + [(KineticHalf, time)]
    {
      T := halfKineticAt(time);
      fetched := fetched + [(KineticHalf, time)];
    }

    method GetVPropagator(time: real) returns (V: seq<seq<seq<real>>>)
      modifies this`fetched
      ensures V == potentialAt(time)
      ensures fetched == old(fetched) + [(PotentialFull, time)]
    {
      V := potentialAt(time);
      fetched := fetched + [(PotentialFull, time)];
    }

    method GetHalfVPropagator(time: real) returns (V: seq<seq<seq<real>>>)
      modifies this`fetched
      ensures V == halfPotentialAt(time)
      ensures fetched == old(fetched) + [(PotentialHalf, time)]
    {
      V := halfPotentialAt(time);
      fetched := fetched + [(PotentialHalf, time)];
    }
  }
}
