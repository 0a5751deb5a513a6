# Discrete sampling space, modelled in Dafny

The repository provides `Discrete`, a finite integer space that draws seeded
random values and answers membership queries. It comes in two layers:

- a Rust extension (`src/lib.rs`, module `Core` here): a struct with a size
  `n: usize` and an owned `StdRng`, offering `_sample`, `_sample_batch`,
  `_contains`, `_seed`, their Python-facing `#[pymethods]`, and `__repr__`;
- a Python wrapper (`spatial/discrete.py`, module `Spatial` here) that adds an
  optional `start`, keeps a Rust space of size `n - start`, and shifts values
  by `start` on the way out and on the way in.

Files:

- `py_values.dfy` (`PyValues`): Python objects, the exceptions that surface
  (`OverflowError`, `TypeError`, `AssertionError`, and `PanicException` for a
  Rust panic), a `Result` type, and pyo3's conversions to `usize`, `isize` and
  `u64` on a 64-bit target.
- `rng.dfy` (`Rng`): the generator as a deterministic state, with `Draw`
  (one value in `[0, bound)`), `Draws` and `AfterDraws` (a run of draws).
  Single samples (`gen_range`) and batches (the `Uniform` iterator) are two
  different samplers, so the model does not equate a batch with the same
  number of single samples.
- `text.dfy` (`Text`): decimal rendering of integers, Python's `str` of an
  int with its 4300-digit limit, and a reader (`ParseCall`) for both textual
  forms of a space.
- `core.dfy` (`Core`): `class Discrete` with fields `n` and `rng`.
- `discrete.dfy` (`Spatial`): `class Discrete` with
  fields `n`, `start` and `inner`.
- `discrete_tests.dfy` (`DiscreteTests`): what `tests/test_discrete.py`
  checks, as methods whose postconditions state it.

Methods that change the generator (`Sample`, `Seed`) are class methods with
`modifies` frames that name only `rng`, so `n` and `start` never change after
construction. `_sample_batch` draws from a clone of the generator. It is
therefore a function of `(rng, n, count)` that reads the object and changes
nothing. The `#[pymethods]` `sample`, `sample_batch` and `seed` only forward
to `_sample`, `_sample_batch` and `_seed`, so each pair is one member here.

Points where the code behaves differently from what its names and comments
suggest; the model follows the code:

- With a `start`, `n` is an exclusive upper bound, so the domain is
  `[start, n)` and not `[start, start + n)`. The constructor asserts
  `n > start` and builds an inner space of size `n - start`.
- `contains` and `in` can raise. An int whose offset from `start` does not fit
  `isize` fails pyo3's conversion with `OverflowError`. A space of more than
  `isize::MAX` values panics in `_contains` (see Findings).
- A space of size 0 can be built, but `sample` and `sample_batch` on it panic
  (`gen_range(0..0)` and `Uniform::new(0, 0)`). `sample_batch` panics even
  for a count of 0, because the distribution is built before any value is
  taken.
- `_contains` evaluates `0 <= value` first, so a negative value is answered
  `false` without reaching the conversion that can panic.
- `sample_batch` panics with "capacity overflow" for a count above
  `isize::MAX / 8`: `collect` reserves room for the whole count of 8-byte
  values at once.
- `repr` of the Python space raises ValueError when `start` or `n` has more
  than 4300 decimal digits, CPython's default limit for `str` of an int.

## Model

| member | source | states |
|---|---|---|
| Rng.Draw | src/lib.rs:75-84 | one draw, by `gen_range(0..n)` or from the `Uniform::new(0, n)` iterator, lies in `[0, n)` for `n > 0` and advances the state by one step |
| Rng.Draws | src/lib.rs:82-83 | a run of `count` draws has exactly `count` values, each below the bound |
| Rng.DrawsSnoc | src/lib.rs:75-79 | one more `_sample` extends a run of samples by the draw taken from the state the run left, and leaves the state that draw produced |
| Text.NatToStringInverse | src/lib.rs:70 | the decimal rendering of a size reads back as that size |
| Text.IntToStringInverse | spatial/discrete.py:87-89 | Python's rendering of an int, sign included, reads back as that int |
| Text.ParseCallPositional | spatial/discrete.py:87 | `Discrete(<n>)` reads back as "no start, bound n" |
| Text.ParseCallKeywords | spatial/discrete.py:89 | `Discrete(start=<s>, n=<n>)` reads back as "start s, bound n" |
| Text.ParseIntCanonical | spatial/discrete.py:87-89 | the reader accepts only renderings Python produces: any text it reads as `i` is exactly `str(i)`, so no leading zeros and no `-0` |
| Text.Str | spatial/discrete.py:87-89 | Python's `str` of an int succeeds exactly when it has at most 4300 digits, and then reads back as the int; otherwise ValueError |
| Text.NatToStringLength | spatial/discrete.py:87-89 | a number of at least `10^k` renders with more than `k` digits |
| Core.Discrete.constructor | src/lib.rs:24-35 | the size is stored; a given seed fixes the generator to `seed_from_u64(seed)`, otherwise it is the entropy state |
| Core.Discrete.Sample | src/lib.rs:75-79 | panics and leaves the generator alone when `n == 0`; otherwise returns a value below `n`, namely the draw from the old state, and the generator advances by that draw |
| Core.Discrete.SampleBatch | src/lib.rs:80-84 | fails (panic) exactly when `n == 0` or the count exceeds `isize::MAX / 8`; otherwise exactly `count` values, each below `n`, drawn from the current state without changing it |
| Core.Discrete.ContainsAny | src/lib.rs:85-92 | true exactly for an `isize` in `[0, n)` when `n` fits `isize`; panics exactly for a non-negative `isize` when `n` does not; any other argument is not a member |
| Core.Discrete.ContainsAnyIntended | src/lib.rs:85-92 | membership of an `isize` in `[0, n)` without the panic, agreeing with `_contains` wherever that does not panic |
| Core.Discrete.Contains | src/lib.rs:46-48 | for a size that fits `isize`, `contains(v)` is `0 <= v < n`; otherwise negative values are rejected and the rest panic |
| Core.Discrete.ContainsOperator | src/lib.rs:49-61 | `__contains__` as written answers false for every argument, members included |
| Core.Discrete.ContainsOperatorIntended | src/lib.rs:49-61 | the intended `__contains__`: true only for a Python int; for an int that fits `isize` it agrees with the intended `_contains`, and with `contains` when `n` also fits `isize` |
| Core.Discrete.Seed | src/lib.rs:94-96 | after `seed(s)` the generator equals a fresh `seed_from_u64(s)`, and nothing else changes |
| Core.Discrete.Repr | src/lib.rs:66-71 | `__repr__` renders `Discrete(<n>)`, which reads back as the size |
| Core.OversizedBatchPanics | src/lib.rs:83 | a batch of `isize::MAX / 8 + 1` values panics although one value fewer is drawn |
| Core.OperatorRejectsMember | src/lib.rs:55 | `3 in` a Rust space of size 10 answers false although 3 is a member |
| Core.HugeSizeMembershipPanics | src/lib.rs:91 | a Rust space of `2^63` values panics when asked about 0, which is a member |
| Spatial.InnerSize | spatial/discrete.py:47-53 | with a start, `n <= start` fails the assertion; the construction succeeds exactly when the inner size fits `usize`, and the inner size is `n - start` (or `n` without a start); other failures are OverflowError |
| Spatial.InnerSizeDomain | spatial/discrete.py:49-53 | shifting by the start maps the inner domain `[0, n - start)` onto exactly `[start, n)` |
| Spatial.Arguments | spatial/discrete.py:39-53 | a failing inner size is reported first; given a valid size, construction succeeds exactly when the seed is absent or lies in `[0, 2^64)`, and otherwise raises OverflowError; on success the inner size and the seed are passed on unchanged |
| Spatial.Discrete.constructor | spatial/discrete.py:39-53 | stores `n` and `start`, and owns a fresh Rust space of the inner size seeded as given |
| Spatial.Discrete.Sample | spatial/discrete.py:55-58 | returns the inner draw plus the start (unchanged without one), so the value lies in `[start, n)` (or `[0, n)`) and satisfies the intended membership; an empty space panics without moving the generator |
| Spatial.Discrete.SampleBatch | spatial/discrete.py:60-64 | a count outside `usize` is OverflowError; an empty space, or a count above `isize::MAX / 8`, panics; otherwise exactly that many values, element `i` equal to inner element `i` plus the start, each in the domain and satisfying the intended membership, with no state changed |
| Spatial.Discrete.Contains | spatial/discrete.py:66-71 | a non-int is TypeError and an int whose offset leaves `isize` is OverflowError; any answer given is `start <= v < n`, and that answer is always given when the inner size fits `isize`; when it does not, an int below the start is false and any other int panics |
| Spatial.Discrete.ContainsOperator | spatial/discrete.py:73-83 | a non-int (float, string, other) is not a member and raises nothing; for an int it equals `contains`; true only inside `[start, n)`, and always true there when the inner size fits `isize` |
| Spatial.Discrete.ContainsOperatorIntended | spatial/discrete.py:73-83 | the intended `in`: exactly the ints of `[start, n)`, agreeing with `__contains__` wherever that does not raise |
| Spatial.Discrete.Repr | spatial/discrete.py:85-89 | raises ValueError exactly when the start or the bound has more than 4300 digits, and renders otherwise |
| Spatial.ReprRoundTrip | spatial/discrete.py:85-89 | any rendering reads back as the start (or its absence) and the bound |
| Spatial.PositionalReadsBack | spatial/discrete.py:87 | `Discrete(<n>)`, rendered with `str`, reads back as no start and bound `n` |
| Spatial.KeywordsReadBack | spatial/discrete.py:89 | `Discrete(start=<s>, n=<n>)`, rendered with `str`, reads back as start `s` and bound `n` |
| Spatial.WideReprRaises | spatial/discrete.py:87-89 | `repr` of a space whose bound is at least `10^4300` raises ValueError |
| Spatial.DrawnValuesAreMembers | spatial/discrete.py:55-71 | every value the space can produce satisfies the intended membership, and `in` answers true for it when the inner size fits `isize` |
| Spatial.WideIntMembershipRaises | spatial/discrete.py:66-71 | `2**63 in Discrete(10)` raises OverflowError instead of answering false |
| DiscreteTests.SampleInRange | tests/test_discrete.py:8-11 | a sample of `Discrete(10)` lies in `range(10)` |
| DiscreteTests.SameSeedSameValues | tests/test_discrete.py:44-53 | two spaces built with the same seed produce equal lists of any length |
| DiscreteTests.ReseedMatchesSeeded | src/lib.rs:94-96 | a Rust space re-seeded with `s` draws the same results as one built with seed `s`, for any number of samples |
| DiscreteTests.RepeatedBatchesAgree | src/lib.rs:82 | two batches with no sample in between are equal |
| DiscreteTests.BatchOfHundred | tests/test_discrete.py:67-77 | `sample_batch(100)` of `Discrete(10)` has 100 values, all in `[0, 10)` |
| DiscreteTests.NegativeArgumentsRejected | tests/test_discrete.py:16-29 | `Discrete(-1)`, `Discrete(-123)` and `sample_batch(-123)` raise OverflowError |
| DiscreteTests.MembershipTable | tests/test_discrete.py:81-90 | 3 and 0 are in `Discrete(10)`; 3.12, 10, 123 and "bob" are not |
| DiscreteTests.OffsetMembershipTable | spatial/discrete.py:66-71 | with `start=-10, n=10`, -10 and 9 are members and 10 is not |
| DiscreteTests.ReprWithoutStart | tests/test_discrete.py:92-93 | `Discrete(10)` renders as `Discrete(10)` |
| DiscreteTests.ReprWithStart | spatial/discrete.py:89 | `Discrete(10, start=2)` renders as `Discrete(start=2, n=10)` |

## Findings

| source | as written | input that shows it | evidently intended | confidence | as-written member | corrected member |
|---|---|---|---|---|---|---|
| src/lib.rs:55 | `__contains__` passes the downcast `&PyInt` to `_contains`, whose `downcast_ref::<isize>` then fails, so the answer is always false | `3 in spatial.spatial.Discrete(10)` (the Rust class) gives False | true for a Python int in `[0, n)`, as `contains` answers | high, not executed | Core.Discrete.ContainsOperator, Core.OperatorRejectsMember | Core.Discrete.ContainsOperatorIntended |
| src/lib.rs:91 | `n.try_into().unwrap()` converts the size to `isize` and panics when it does not fit | a space of size `2^63`, asked about 0 | `0 <= value < n` compared without the conversion | high, not executed | Core.Discrete.ContainsAny, Core.HugeSizeMembershipPanics | Core.Discrete.ContainsAnyIntended |
| spatial/discrete.py:68-69 | `contains` hands `v - start` to a Rust method taking `isize`, so pyo3 raises OverflowError for a wide int and `in` propagates it | `2**63 in Discrete(10)` | False for an int outside the domain, never an exception | high, not executed | Spatial.Discrete.ContainsOperator, Spatial.WideIntMembershipRaises | Spatial.Discrete.ContainsOperatorIntended |

The rest of the model keeps the code as written. The corrected members are
proved to agree with it wherever it returns an answer. The round trip
"sampled values are members" is proved of the corrected membership
unconditionally, and of the written one for inner sizes that fit `isize`.

## Left out

- The generator algorithm: rand's `StdRng` (ChaCha12), `seed_from_u64` and
  `Uniform` are foreign code. The model uses a one-word state and a fixed
  step function in their place. Nothing proved depends on which step it is,
  only on draws being in range and determined by the state.
- `from_entropy`: the state drawn from the operating system is a constructor
  parameter.
- rand's rejection sampling: `gen_range` and `Uniform` reject some outputs and
  use different acceptance zones. The model reduces one output per draw,
  with a different reduction for each sampler, and never rejects.
- Statistical properties are not provable: uniformity, coverage of the whole
  range (test_discrete, test_sample_batch's distinct-count bound), and
  different seeds giving different values.
- pyo3 glue: module registration, and the type lookup in `__repr__` (the class
  name is the constant `Discrete`, so a subclass's name is not modelled).
- Argument types other than int for `n`, `start`, `rng_seed` and the batch
  count (the TypeError of `Discrete("123")` and `sample_batch(1.23)`). These
  arguments are ints here. Negative and too-large values are modelled as
  OverflowError.
- Python's `bool` being an `int` subclass, a size `n` of a type other than
  `int` in `__contains__`'s `isinstance(v, type(self.n))`, and the
  `assert isinstance(v, bool)` in `contains`, which always holds here.
- Spatial.Discrete.ContainsOperator: the integrality gate `int(v) != v` is
  not modelled separately, because only an int passes the type gate before
  it and an int always equals its `int()`.
- Spatial.Discrete.Contains: a non-int argument is modelled as TypeError, as
  an int subtraction or pyo3's `isize` conversion raises. User objects that
  define their own subtraction are not modelled. Nor are objects with
  `__index__`, such as numpy integers: pyo3 converts them to `isize`, so
  `contains(np.int64(3))` answers True where the model gives TypeError.
- Core.Discrete.SampleBatch: a count at or below `isize::MAX / 8` that the
  allocator still cannot serve aborts the process. The model returns the
  values instead, because memory is not modelled.
- Spatial.Discrete.Repr: the 4300-digit limit is CPython's default. A
  process that changes it with `sys.set_int_max_str_digits`, or a Python
  release older than the limit, is not modelled.
- Spatial.InnerSize: `assert self.n > self.start` is modelled as always
  checked. Under `python -O` it is skipped, and then `n == start` builds an
  empty space and `n < start` fails the `usize` conversion with
  OverflowError. That mode is not modelled.
- The `Space` protocol in `src/spatial/space.py` and the Rust `Space` trait
  only declare the operations. `spatial/__init__.py` holds package metadata.
  Neither is modelled.
- Concurrency: none is present.
