/** The seeded generator the Rust extension owns (rand's `StdRng`).

    rand's algorithm (ChaCha12 and its rejection sampling) is not part of
    this model. The state is one 64-bit word, `Step` stands in for the
    generator's block function, and a draw reduces one output to the bound.
    What the model relies on is only what the generator guarantees: a draw is
    in range, and everything is determined by the state. */
module Rng {
  import opened PyValues

  datatype StdRng = StdRng(state: u64)

  /** `StdRng::seed_from_u64`. */
  function SeedFromU64(seed: u64): StdRng {
    StdRng(seed)
  }

  function Step(g: StdRng): StdRng {
    StdRng((g.state * 6364136223846793005 + 1442695040888963407) % U64_LIMIT)
  }

  /** The two ways the extension draws: `Rng::gen_range` for single samples
      and the iterator of `Uniform::sample_iter` for batches. rand does not
      promise that they turn the same state into the same value, so each has
      its own reduction here. */
  datatype Sampler = GenRange | UniformIter

  /** The bound times a 64-bit output, over 2^64, stays below the bound. */
  lemma WideningMultiplyBelow(x: u64, bound: nat)
    requires 0 < bound
    ensures x * bound / U64_LIMIT < bound
  {
    assert x * bound < U64_LIMIT * bound;
  }

  /** One uniform draw from [0, bound): the value and the advanced state.
      `bound` must be positive: rand panics on an empty range. `GenRange`
      takes the remainder of the output, `UniformIter` the high word of its
      product with the bound. */
  function Draw(s: Sampler, g: StdRng, bound: nat): (r: (nat, StdRng))
    requires 0 < bound
    ensures r.0 < bound
    ensures r.1 == Step(g)
  {
    match s
    case GenRange => (Step(g).state % bound, Step(g))
    case UniformIter =>
      WideningMultiplyBelow(Step(g).state, bound);
      (Step(g).state * bound / U64_LIMIT, Step(g))
  }

  /** The values of `count` successive draws from `g`, in draw order. */
  function Draws(s: Sampler, g: StdRng, bound: nat, count: nat): (r: seq<nat>)
    requires 0 < bound
    ensures |r| == count
    ensures forall i :: 0 <= i < count ==> r[i] < bound
    decreases count
  {
    if count == 0 then [] else [Draw(s, g, bound).0] + Draws(s, Draw(s, g, bound).1, bound, count - 1)
  }

  /** The state left after `count` successive draws from `g`. */
  function AfterDraws(s: Sampler, g: StdRng, bound: nat, count: nat): StdRng
    requires 0 < bound
    decreases count
  {
    if count == 0 then g else AfterDraws(s, Draw(s, g, bound).1, bound, count - 1)
  }

  /** One more draw extends the run by the draw taken from the state the run left. */
  lemma {:induction false} DrawsSnoc(s: Sampler, g: StdRng, bound: nat, count: nat)
    requires 0 < bound
    ensures Draws(s, g, bound, count + 1) == Draws(s, g, bound, count) + [Draw(s, AfterDraws(s, g, bound, count), bound).0]
    ensures AfterDraws(s, g, bound, count + 1) == Draw(s, AfterDraws(s, g, bound, count), bound).1
    decreases count
  {
    if count > 0 {
      DrawsSnoc(s, Draw(s, g, bound).1, bound, count - 1);
    }
  }
}
