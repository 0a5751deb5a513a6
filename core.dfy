/** The Rust extension (src/lib.rs): a discrete space over [0, n) that owns
    a seeded generator. The `#[pymethods]` `sample`, `sample_batch` and `seed`
    only forward to the `Space` trait's `_sample`, `_sample_batch` and
    `_seed`; each pair is one member here. */
module Core {
  import opened PyValues
  import opened Rng
  import opened Text

  /** The argument of `_contains`, a `&dyn Any`. `contains` passes a borrowed
      `isize`; `__contains__` passes the borrowed `PyInt` object itself. Only
      the former downcasts to `isize`. */
  datatype DynAny = IsizeRef(v: isize) | PyIntRef(i: int)

  /** The largest capacity of a `Vec<usize>`: its buffer may span at most
      `isize::MAX` bytes of 8-byte elements. A larger request panics with
      "capacity overflow". */
  const MAX_BATCH: int := ISIZE_MAX / 8

  class Discrete {
    var n: usize
    var rng: StdRng

    /** `newbob`: a given seed fixes the generator; without one it comes
        from the operating system's entropy, passed in here as `entropy`. */
    constructor (n: usize, rngSeed: Option<u64>, entropy: StdRng)
      ensures this.n == n
      ensures rng == (if rngSeed.Some? then SeedFromU64(rngSeed.value) else entropy)
    {
      this.n := n;
      rng := if rngSeed.Some? then SeedFromU64(rngSeed.value) else entropy;
    }

    /** `_sample`: `gen_range(0..n)`, which panics before drawing when n is 0. */
    method Sample() returns (r: Result<usize>)
      modifies this`rng
      ensures n == 0 ==> r == Err(PanicException) && rng == old(rng)
      ensures n > 0 ==> r == Ok(Draw(GenRange, old(rng), n).0) && rng == Draw(GenRange, old(rng), n).1
      ensures r.Ok? ==> r.value < n
    {
      if n == 0 {
        r := Err(PanicException);
      } else {
        var v;
        v, rng := Draw(GenRange, rng, n).0, Draw(GenRange, rng, n).1;
        r := Ok(v);
      }
    }

    /** `_sample_batch`: `count` draws from `Uniform::new(0, n)` over a clone
        of the generator, so the generator itself does not move.
        `Uniform::new` panics when n is 0, whatever the count. `collect`
        takes the first value and then reserves room for all `count`, which
        panics when that exceeds `MAX_BATCH`. */
    function SampleBatch(count: usize): (r: Result<seq<usize>>)
      reads this
      ensures r.Ok? <==> n > 0 && count <= MAX_BATCH
      ensures r.Err? ==> r.error == PanicException
      ensures r.Ok? ==> |r.value| == count && forall i :: 0 <= i < count ==> r.value[i] < n
      ensures r.Ok? ==> r.value == Draws(UniformIter, rng, n, count)
    {
      if n == 0 then Err(PanicException)
      else if count > MAX_BATCH then Err(PanicException)
      else Ok(Draws(UniformIter, rng, n, count))
    }

    /** `_contains`: only an `isize` is a candidate, and then
        `0 <= value && value < n.try_into().unwrap()`. The conversion of n to
        `isize` panics when n exceeds `isize::MAX`; a negative value
        short-circuits before it. */
    function ContainsAny(value: DynAny): (r: Result<bool>)
      reads this
      ensures r == Ok(true) <==> value.IsizeRef? && 0 <= value.v < n && n <= ISIZE_MAX
      ensures r.Err? <==> value.IsizeRef? && 0 <= value.v && n > ISIZE_MAX
      ensures r.Err? ==> r.error == PanicException
    {
      match value
      case PyIntRef(_) => Ok(false)
      case IsizeRef(v) =>
        if !(0 <= v) then Ok(false)
        else if n > ISIZE_MAX then Err(PanicException)
        else Ok(v < n)
    }

    /** What `_contains` evidently means to compute: membership of an `isize`
        in [0, n), compared without converting n. */
    function ContainsAnyIntended(value: DynAny): (r: bool)
      reads this
      ensures r <==> value.IsizeRef? && 0 <= value.v < n
      ensures ContainsAny(value).Ok? ==> ContainsAny(value) == Ok(r)
    {
      value.IsizeRef? && 0 <= value.v && value.v < n
    }

    /** `contains(value: isize)`: `_contains` on the borrowed integer. */
    function Contains(value: isize): (r: Result<bool>)
      reads this
      ensures n <= ISIZE_MAX ==> r == Ok(0 <= value < n)
      ensures n > ISIZE_MAX ==> r == (if value < 0 then Ok(false) else Err(PanicException))
    {
      ContainsAny(IsizeRef(value))
    }

    /** `__contains__`: a `PyInt` passes the downcast, but `_contains` then
        receives the `PyInt` object, which is not an `isize`. */
    function ContainsOperator(value: PyObject): (r: Result<bool>)
      reads this
      ensures r == Ok(false)
    {
      match value
      case PyInt(i) => ContainsAny(PyIntRef(i))
      case _ => Ok(false)
    }

    /** What `__contains__` evidently means: a Python int in [0, n), and
        nothing else. */
    function ContainsOperatorIntended(value: PyObject): (r: bool)
      reads this
      ensures r ==> value.PyInt?
      ensures value.PyInt? && InIsize(value.i) ==> r == ContainsAnyIntended(IsizeRef(value.i))
      ensures value.PyInt? && InIsize(value.i) && n <= ISIZE_MAX ==> Contains(value.i) == Ok(r)
    {
      value.PyInt? && 0 <= value.i < n
    }

    /** `_seed`: a fresh generator from the given seed. */
    method Seed(state: u64)
      modifies this`rng
      ensures rng == SeedFromU64(state)
    {
      rng := SeedFromU64(state);
    }

    /** `__repr__`: the class name and n in parentheses; the rendering
        reads back as the size. */
    function Repr(): (r: string)
      reads this
      ensures ParseCall("Discrete", r) == Some((None, n as int))
    {
      ParseCallPositional("Discrete", n);
      "Discrete(" + NatToString(n) + ")"
    }
  }

  /** `3 in Discrete(10)`, asked of the Rust object directly, is false. */
  lemma OperatorRejectsMember(d: Discrete)
    requires d.n == 10
    ensures d.ContainsOperator(PyInt(3)) == Ok(false)
    ensures d.ContainsOperatorIntended(PyInt(3))
  {
  }

  /** A batch one value longer than a `Vec<usize>` can hold panics, even
      from a space that can sample. */
  lemma OversizedBatchPanics(d: Discrete)
    requires d.n == 10
    ensures d.SampleBatch(MAX_BATCH + 1) == Err(PanicException)
    ensures d.SampleBatch(MAX_BATCH).Ok?
  {
  }

  /** A space of 2^63 values panics when asked whether it contains 0. */
  lemma HugeSizeMembershipPanics(d: Discrete)
    requires d.n == ISIZE_MAX + 1
    ensures d.ContainsAny(IsizeRef(0)) == Err(PanicException)
    ensures d.ContainsAnyIntended(IsizeRef(0))
  {
  }
}
