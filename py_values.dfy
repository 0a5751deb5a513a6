/** Values that cross the boundary between the Python wrapper and the Rust
    extension: Python objects, the exceptions that can surface, and the
    fixed-width integers pyo3 converts Python ints into (64-bit target). */
module PyValues {

  datatype Option<+T> = None | Some(value: T) {
    function GetOr(default: T): T {
      if Some? then value else default
    }
  }

  /** The exceptions the core can raise. A Rust panic surfaces in Python as
      pyo3's PanicException; ValueError is Python's refusal to render an int
      with too many digits. */
  datatype PyError = OverflowError | TypeError | AssertionError | PanicException | ValueError

  datatype Result<+T> = Ok(value: T) | Err(error: PyError)

  /** A Python object handed to `contains` or `in`: the kinds the core tells apart. */
  datatype PyObject = PyInt(i: int) | PyFloat(x: real) | PyStr(s: string) | PyOther

  const U64_LIMIT: int := 0x1_0000_0000_0000_0000
  const USIZE_LIMIT: int := U64_LIMIT
  const ISIZE_MIN: int := -0x8000_0000_0000_0000
  const ISIZE_MAX: int := 0x7FFF_FFFF_FFFF_FFFF

  type u64 = x: int | 0 <= x < U64_LIMIT
  type usize = x: int | 0 <= x < USIZE_LIMIT
  type isize = x: int | ISIZE_MIN <= x <= ISIZE_MAX

  /** pyo3's extraction of a Python int as `usize`: a negative int ("can't
      convert negative int to unsigned") or one too large raises OverflowError. */
  function ToUsize(x: int): (r: Result<usize>)
    ensures r.Ok? <==> 0 <= x < USIZE_LIMIT
    ensures r.Ok? ==> r.value == x
    ensures r.Err? ==> r.error == OverflowError
  {
    if 0 <= x < USIZE_LIMIT then Ok(x) else Err(OverflowError)
  }

  /** pyo3's extraction of an optional Python int as `Option<u64>`. */
  function ToSeed(x: Option<int>): (r: Result<Option<u64>>)
    ensures r.Ok? <==> x.None? || 0 <= x.value < U64_LIMIT
    ensures r.Ok? ==> r.value == x
    ensures r.Err? ==> r.error == OverflowError
  {
    match x
    case None => Ok(None)
    case Some(s) => if 0 <= s < U64_LIMIT then Ok(Some(s)) else Err(OverflowError)
  }

  predicate InIsize(x: int) {
    ISIZE_MIN <= x <= ISIZE_MAX
  }
}
