/** The resampling cursor the bootstrap engine draws from.

    How a resample is drawn (a random choice of indices with replacement) is
    not part of this model: a cursor is created over a stream of resamples
    `draws`, and its `k`-th call to `Next` returns `draws(k)`.  A bootstrap
    call that creates several cursors is given one stream per cursor,
    `rng(c)` for the `c`-th. */
module Resampling {

  class Resamples<T> {
    const sample: seq<T>
    const draws: nat -> seq<T>
    /** How many times `Next` has been called. */
    var taken: nat

    constructor (sample: seq<T>, draws: nat -> seq<T>)
      ensures this.sample == sample && this.draws == draws
      ensures taken == 0
    {
      this.sample := sample;
      this.draws := draws;
      taken := 0;
    }

    /** Returns the next resample and advances the cursor by one. */
    method Next() returns (resample: seq<T>)
      modifies this
      ensures resample == draws(old(taken))
      ensures taken == old(taken) + 1
    {
      resample := draws(taken);
      taken := taken + 1;
    }
  }

  /** `r` is drawn with replacement from `sample`: same length, and every
      element of `r` is an element of `sample`. */
  ghost predicate IsResample<T>(sample: seq<T>, r: seq<T>)
  {
    |r| == |sample| && forall i :: 0 <= i < |r| ==> r[i] in sample
  }

  /** Every stream of every cursor yields resamples of `sample`. */
  ghost predicate DrawsFrom<T>(sample: seq<T>, rng: nat -> nat -> seq<T>)
  {
    forall c: nat, k: nat :: IsResample(sample, rng(c)(k))
  }
}
