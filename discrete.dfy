/** The Python wrapper (spatial/discrete.py): a discrete space with an
    optional start. Without a start the domain is [0, n); with one, n is an
    exclusive upper bound and the domain is [start, n). The wrapper keeps a
    Rust space of size `n - start` and shifts values by `start` on the way
    out and on the way in. */
module Spatial {
  import opened PyValues
  import opened Rng
  import opened Text
  import Core

  /** The size handed to the Rust space: after `assert n > start`, `n - start`
      when a start is given and `n` otherwise, converted to `usize` by pyo3. */
  function InnerSize(n: int, start: Option<int>): (r: Result<usize>)
    ensures start.Some? && n <= start.value ==> r == Err(AssertionError)
    ensures r.Ok? <==> (if start.Some? then start.value < n && n - start.value < USIZE_LIMIT else 0 <= n < USIZE_LIMIT)
    ensures r.Err? && r.error != AssertionError ==> r.error == OverflowError
    ensures r.Ok? ==> r.value == n - start.GetOr(0)
  {
    match start
    case Some(s) => if !(n > s) then Err(AssertionError) else ToUsize(n - s)
    case None => ToUsize(n)
  }

  /** The inner space of size `n - lower` holds, shifted by `lower`, exactly the
      integers of [lower, n). */
  lemma InnerSizeDomain(n: int, start: Option<int>, v: int)
    requires InnerSize(n, start).Ok?
    ensures 0 <= v - start.GetOr(0) < InnerSize(n, start).value <==> start.GetOr(0) <= v < n
  {
  }

  /** Construction succeeds exactly when both the inner size and the seed
      convert; the assertion on `start` is checked first. A seed converts
      when it is absent or lies in `[0, 2^64)`, and pyo3 raises
      OverflowError otherwise. */
  function Arguments(n: int, start: Option<int>, rngSeed: Option<int>): (r: Result<(usize, Option<u64>)>)
    ensures InnerSize(n, start).Err? ==> r == Err(InnerSize(n, start).error)
    ensures InnerSize(n, start).Ok? ==> (r.Ok? <==> rngSeed.None? || 0 <= rngSeed.value < U64_LIMIT)
    ensures InnerSize(n, start).Ok? && r.Err? ==> r.error == OverflowError
    ensures r.Ok? ==> r.value.0 == InnerSize(n, start).value && r.value.1 == rngSeed
  {
    match InnerSize(n, start)
    case Err(e) => Err(e)
    case Ok(size) =>
      match ToSeed(rngSeed)
      case Err(e) => Err(e)
      case Ok(seed) => Ok((size, seed))
  }

  class Discrete {
    var n: int
    var start: Option<int>
    var inner: Core.Discrete

    ghost predicate Valid()
      reads this, inner
    {
      InnerSize(n, start) == Ok(inner.n)
    }

    /** The least value of the domain: `start`, or 0 without one. */
    function Lower(): int
      reads this
    {
      start.GetOr(0)
    }

    /** `__init__`; the failing cases are those of `Arguments`. */
    constructor (n: int, start: Option<int>, rngSeed: Option<int>, entropy: StdRng)
      requires Arguments(n, start, rngSeed).Ok?
      ensures Valid() && fresh(inner)
      ensures this.n == n && this.start == start
      ensures inner.rng == (if rngSeed.Some? then SeedFromU64(rngSeed.value) else entropy)
    {
      var args := Arguments(n, start, rngSeed).value;
      this.n := n;
      this.start := start;
      inner := new Core.Discrete(args.0, args.1, entropy);
    }

    /** `sample`: the inner sample, shifted by `start` when there is one. */
    method Sample() returns (r: Result<int>)
      requires Valid()
      modifies inner`rng
      ensures Valid()
      ensures inner.n == 0 ==> r == Err(PanicException) && inner.rng == old(inner.rng)
      ensures inner.n > 0 ==> r == Ok(Lower() + Draw(GenRange, old(inner.rng), inner.n).0)
      ensures inner.n > 0 ==> inner.rng == Draw(GenRange, old(inner.rng), inner.n).1
      ensures r.Ok? ==> Lower() <= r.value < n
      ensures r.Ok? ==> ContainsOperatorIntended(PyInt(r.value))
    {
      var v := inner.Sample();
      match v
      case Err(e) =>
        r := Err(e);
      case Ok(x) =>
        if start.None? {
          r := Ok(x);
        } else {
          r := Ok(start.value + x);
        }
    }

    /** `sample_batch`: pyo3 converts the count to `usize`, the inner batch is
        drawn from a clone of the generator, and each value is shifted by
        `start` in order. Nothing is modified. */
    method SampleBatch(numSamples: int) returns (r: Result<seq<int>>)
      requires Valid()
      ensures r.Err? <==> !(0 <= numSamples < USIZE_LIMIT) || inner.n == 0 || numSamples > Core.MAX_BATCH
      ensures !(0 <= numSamples < USIZE_LIMIT) ==> r == Err(OverflowError)
      ensures 0 <= numSamples < USIZE_LIMIT && (inner.n == 0 || numSamples > Core.MAX_BATCH) ==>
        r == Err(PanicException)
      ensures r.Ok? ==> |r.value| == numSamples
      ensures r.Ok? ==> forall i :: 0 <= i < numSamples ==>
        r.value[i] == Lower() + inner.SampleBatch(numSamples).value[i]
      ensures r.Ok? ==> forall i :: 0 <= i < numSamples ==> Lower() <= r.value[i] < n
      ensures r.Ok? ==> forall i :: 0 <= i < numSamples ==> ContainsOperatorIntended(PyInt(r.value[i]))
    {
      var count := ToUsize(numSamples);
      if count.Err? {
        return Err(count.error);
      }
      var batch := inner.SampleBatch(count.value);
      if batch.Err? {
        return Err(batch.error);
      }
      if start.None? {
        return Ok(batch.value);
      }
      var values, offset := batch.value, start.value;
      r := Ok(seq(|values|, i requires 0 <= i < |values| => offset + values[i]));
    }

    /** `contains`: subtract `start`, then ask the Rust `contains`, whose
        argument pyo3 converts to `isize`. A non-int fails that conversion (or
        the subtraction) with TypeError; an int outside `isize` fails it with
        OverflowError. */
    function Contains(v: PyObject): (r: Result<bool>)
      reads this, inner
      requires Valid()
      ensures !v.PyInt? ==> r == Err(TypeError)
      ensures v.PyInt? && !InIsize(v.i - Lower()) ==> r == Err(OverflowError)
      ensures r.Ok? ==> (r.value <==> v.PyInt? && Lower() <= v.i < n)
      ensures inner.n <= ISIZE_MAX && v.PyInt? && InIsize(v.i - Lower()) ==>
        r == Ok(Lower() <= v.i < n)
      ensures inner.n > ISIZE_MAX && v.PyInt? && InIsize(v.i - Lower()) ==>
        r == (if v.i < Lower() then Ok(false) else Err(PanicException))
    {
      match v
      case PyInt(i) =>
        var shifted := if start.Some? then i - start.value else i;
        if !InIsize(shifted) then Err(OverflowError) else inner.Contains(shifted)
      case _ => Err(TypeError)
    }

    /** `__contains__`: a value that is not an int, or whose `int()` differs
        from it, is not a member; otherwise `contains` decides. For an int the
        second gate always passes. */
    function ContainsOperator(v: PyObject): (r: Result<bool>)
      reads this, inner
      requires Valid()
      ensures !v.PyInt? ==> r == Ok(false)
      ensures v.PyInt? ==> r == Contains(v)
      ensures r == Ok(true) ==> v.PyInt? && Lower() <= v.i < n
      ensures inner.n <= ISIZE_MAX && v.PyInt? && Lower() <= v.i < n ==> r == Ok(true)
    {
      if !v.PyInt? then Ok(false) else Contains(v)
    }

    /** What `in` evidently means: an int of [lower, n), never an exception. */
    function ContainsOperatorIntended(v: PyObject): (r: bool)
      reads this, inner
      requires Valid()
      ensures r <==> v.PyInt? && Lower() <= v.i < n
      ensures ContainsOperator(v).Ok? ==> ContainsOperator(v) == Ok(r)
    {
      v.PyInt? && 0 <= v.i - Lower() < inner.n
    }

    /** `__repr__`: `Discrete(n)` without a start, `Discrete(start=s, n=n)`
        with one. The f-string renders each int with `str`, which raises
        ValueError for one of more than 4300 digits. */
    function Repr(): (r: Result<string>)
      reads this
      ensures r.Err? <==> DigitCount(n) > MAX_STR_DIGITS || (start.Some? && DigitCount(start.value) > MAX_STR_DIGITS)
      ensures r.Err? ==> r.error == ValueError
    {
      if start.None? then
        if Str(n).Err? then Err(ValueError) else Ok(PositionalForm(Str(n).value))
      else if Str(start.value).Err? || Str(n).Err? then Err(ValueError)
      else Ok(KeywordForm(Str(start.value).value, Str(n).value))
    }
  }

  /** Any rendering reads back as the start (or its absence) and the bound,
      so the two forms never coincide. */
  lemma ReprRoundTrip(d: Discrete)
    requires d.Repr().Ok?
    ensures ParseCall("Discrete", d.Repr().value) == Some((d.start, d.n))
  {
    if d.start.None? {
      PositionalReadsBack(d.n);
    } else {
      KeywordsReadBack(d.start.value, d.n);
    }
  }

  /** The text of a space without a start, given the rendered bound. */
  function PositionalForm(b: string): string {
    "Discrete(" + b + ")"
  }

  /** The text of a space with a start, given the rendered start and bound. */
  function KeywordForm(a: string, b: string): string {
    "Discrete(start=" + a + ", n=" + b + ")"
  }

  /** `Discrete(<n>)`, rendered with `str`, reads back as no start and bound n. */
  lemma PositionalReadsBack(n: int)
    requires Str(n).Ok?
    ensures ParseCall("Discrete", PositionalForm(Str(n).value)) == Some((None, n))
  {
    assert PositionalForm(Str(n).value) == "Discrete" + "(" + IntToString(n) + ")";
    ParseCallPositional("Discrete", n);
  }

  /** `Discrete(start=<s>, n=<n>)`, rendered with `str`, reads back as start s and bound n. */
  lemma KeywordsReadBack(s: int, n: int)
    requires Str(s).Ok? && Str(n).Ok?
    ensures ParseCall("Discrete", KeywordForm(Str(s).value, Str(n).value)) == Some((Some(s), n))
  {
    assert KeywordForm(Str(s).value, Str(n).value) ==
      "Discrete" + "(start=" + IntToString(s) + ", n=" + IntToString(n) + ")";
    ParseCallKeywords("Discrete", s, n);
  }

  /** A bound of 10^4300 or more has 4301 digits or more, so `repr` raises
      ValueError. */
  lemma WideReprRaises(d: Discrete)
    requires d.n >= Pow10(MAX_STR_DIGITS)
    ensures d.Repr() == Err(ValueError)
  {
    NatToStringLength(d.n, MAX_STR_DIGITS);
  }

  /** Every value the space can draw is a member, and `in` answers true for
      it whenever the inner size fits `isize`. */
  lemma DrawnValuesAreMembers(d: Discrete, raw: nat)
    requires d.Valid() && raw < d.inner.n
    ensures d.ContainsOperatorIntended(PyInt(d.Lower() + raw))
    ensures d.inner.n <= ISIZE_MAX ==> d.ContainsOperator(PyInt(d.Lower() + raw)) == Ok(true)
  {
  }

  /** `2**63 in Discrete(10)` raises OverflowError instead of answering false. */
  lemma WideIntMembershipRaises(d: Discrete)
    requires d.Valid() && d.n == 10 && d.start == None
    ensures d.ContainsOperator(PyInt(ISIZE_MAX + 1)) == Err(OverflowError)
    ensures !d.ContainsOperatorIntended(PyInt(ISIZE_MAX + 1))
  {
  }
}
