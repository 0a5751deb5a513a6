/** The behaviour tests/test_discrete.py checks, stated of the model. The
    operating system's entropy, used when no seed is given, is a parameter. */
module DiscreteTests {
  import opened PyValues
  import opened Rng
  import Text
  import Core
  import Spatial

  /** test_discrete: a sample of `Discrete(10)` lies in `range(10)`. */
  method SampleInRange(entropy: StdRng) returns (v: int)
    ensures 0 <= v < 10
  {
    var space := new Spatial.Discrete(10, None, None, entropy);
    var r := space.Sample();
    v := r.value;
  }

  /** `count` successive samples: the values the generator draws, shifted by
      the space's lower bound, in order. */
  method SampleMany(space: Spatial.Discrete, count: nat) returns (values: seq<int>)
    requires space.Valid() && space.inner.n > 0
    modifies space.inner`rng
    ensures space.Valid()
    ensures |values| == count
    ensures forall i :: 0 <= i < count ==>
      values[i] == space.Lower() + Draws(GenRange, old(space.inner.rng), space.inner.n, count)[i]
    ensures space.inner.rng == AfterDraws(GenRange, old(space.inner.rng), space.inner.n, count)
  {
    values := [];
    var i := 0;
    while i < count
      invariant 0 <= i <= count
      invariant space.Valid()
      invariant |values| == i
      invariant forall j :: 0 <= j < i ==>
        values[j] == space.Lower() + Draws(GenRange, old(space.inner.rng), space.inner.n, i)[j]
      invariant space.inner.rng == AfterDraws(GenRange, old(space.inner.rng), space.inner.n, i)
    {
      DrawsSnoc(GenRange, old(space.inner.rng), space.inner.n, i);
      var r := space.Sample();
      values := values + [r.value];
      i := i + 1;
    }
  }

  /** test_same_seed_same_values: two spaces built with the same seed give
      the same samples, however many are taken. */
  method SameSeedSameValues(n: int, seed: u64, count: nat, entropy: StdRng, otherEntropy: StdRng)
    returns (values: seq<int>, sameSeedValues: seq<int>)
    requires 0 < n < USIZE_LIMIT
    ensures |values| == count
    ensures values == sameSeedValues
  {
    var space := new Spatial.Discrete(n, None, Some(seed), entropy);
    values := SampleMany(space, count);
    var sameSeedSpace := new Spatial.Discrete(n, None, Some(seed), otherEntropy);
    sameSeedValues := SampleMany(sameSeedSpace, count);
  }

  /** `seed(s)` on a Rust space built from entropy makes it draw exactly what a
      space built with seed `s` draws. */
  method ReseedMatchesSeeded(n: usize, seed: u64, count: nat, entropy: StdRng)
    returns (seeded: seq<Result<usize>>, reseeded: seq<Result<usize>>)
    ensures |seeded| == count
    ensures seeded == reseeded
  {
    var a := new Core.Discrete(n, Some(seed), entropy);
    var b := new Core.Discrete(n, None, entropy);
    b.Seed(seed);
    seeded, reseeded := [], [];
    var i := 0;
    while i < count
      invariant 0 <= i <= count
      invariant a.n == b.n && a.rng == b.rng
      invariant |seeded| == i
      invariant seeded == reseeded
    {
      var x := a.Sample();
      var y := b.Sample();
      seeded, reseeded := seeded + [x], reseeded + [y];
      i := i + 1;
    }
  }

  /** Two batches with no sample between them are equal: the batch does not
      advance the generator. */
  method RepeatedBatchesAgree(space: Spatial.Discrete, count: int) returns (first: Result<seq<int>>, second: Result<seq<int>>)
    requires space.Valid()
    ensures first == second
  {
    first := space.SampleBatch(count);
    second := space.SampleBatch(count);
    if first.Ok? {
      assert forall i :: 0 <= i < count ==> first.value[i] == second.value[i];
      assert first.value == second.value;
    }
  }

  /** test_sample_batch: 100 values of `Discrete(10, rng_seed=123)`, all in
      [0, 10). */
  method BatchOfHundred(entropy: StdRng) returns (values: seq<int>)
    ensures |values| == 100
    ensures forall i :: 0 <= i < |values| ==> 0 <= values[i] < 10
  {
    var space := new Spatial.Discrete(10, None, Some(123), entropy);
    var r := space.SampleBatch(100);
    values := r.value;
  }

  /** test_bad_arguments_to_methods: negative sizes and counts are refused
      with OverflowError. */
  method NegativeArgumentsRejected(entropy: StdRng) returns (size: Result<usize>, otherSize: Result<usize>, batch: Result<seq<int>>)
    ensures size == Err(OverflowError) && otherSize == Err(OverflowError)
    ensures batch == Err(OverflowError)
  {
    size := Spatial.InnerSize(-1, None);
    otherSize := Spatial.InnerSize(-123, None);
    var space := new Spatial.Discrete(10, None, None, entropy);
    batch := space.SampleBatch(-123);
  }

  /** test_contains: 3 and 0 are members of `Discrete(10)`; 3.12, 10, 123 and
      "bob" are not. */
  method MembershipTable(entropy: StdRng) returns (answers: seq<Result<bool>>)
    ensures answers == [Ok(true), Ok(false), Ok(false), Ok(true), Ok(false), Ok(false)]
  {
    var space := new Spatial.Discrete(10, None, Some(123), entropy);
    answers := [
      space.ContainsOperator(PyInt(3)),
      space.ContainsOperator(PyFloat(3.12)),
      space.ContainsOperator(PyInt(10)),
      space.ContainsOperator(PyInt(0)),
      space.ContainsOperator(PyInt(123)),
      space.ContainsOperator(PyStr("bob"))
    ];
  }

  /** With `start=-10, n=10` the domain is [-10, 10): -10 and 9 are members,
      10 is not. */
  method OffsetMembershipTable(entropy: StdRng) returns (answers: seq<Result<bool>>)
    ensures answers == [Ok(true), Ok(true), Ok(false)]
  {
    var space := new Spatial.Discrete(10, Some(-10), None, entropy);
    answers := [
      space.ContainsOperator(PyInt(-10)),
      space.ContainsOperator(PyInt(9)),
      space.ContainsOperator(PyInt(10))
    ];
  }

  /** `str(10)` is "10" and `str(2)` is "2". */
  lemma SmallRenderings()
    ensures Text.Str(10) == Ok("10") && Text.Str(2) == Ok("2")
  {
    assert Text.NatToString(10) == Text.NatToString(1) + "0" == "10";
  }

  /** test_repr: `Discrete(10)` renders as `Discrete(10)`. */
  method ReprWithoutStart(entropy: StdRng) returns (text: Result<string>)
    ensures text == Ok("Discrete(10)")
  {
    var space := new Spatial.Discrete(10, None, None, entropy);
    SmallRenderings();
    text := space.Repr();
    assert Spatial.PositionalForm("10") == "Discrete(" + "10" + ")" == "Discrete(10)";
  }

  /** With a start both fields are named: `Discrete(start=2, n=10)`. */
  method ReprWithStart(entropy: StdRng) returns (text: Result<string>)
    ensures text == Ok("Discrete(start=2, n=10)")
  {
    var space := new Spatial.Discrete(10, Some(2), None, entropy);
    SmallRenderings();
    text := space.Repr();
    assert Spatial.KeywordForm("2", "10") == "Discrete(start=" + "2" + ", n=" + "10" + ")" == "Discrete(start=2, n=10)";
  }
}
