/** Decimal rendering of integers (Rust's `{}` for `usize`, Python's `str`
    of an int) and a reader for the two textual forms of a Discrete space,
    used to show that a rendering determines the fields it shows. */
module Text {
  import opened PyValues

  predicate IsDigit(c: char) {
    '0' <= c <= '9'
  }

  predicate AllDigits(s: string) {
    forall i :: 0 <= i < |s| ==> IsDigit(s[i])
  }

  function DigitChar(d: nat): (c: char)
    requires d < 10
    ensures IsDigit(c) && c as int - '0' as int == d
  {
    ('0' as int + d) as char
  }

  /** Decimal digits of `n`, most significant first. */
  function NatToString(n: nat): (s: string)
    ensures |s| > 0 && AllDigits(s)
    ensures s[0] == '0' <==> n == 0
    decreases n
  {
    if n < 10 then [DigitChar(n)] else NatToString(n / 10) + [DigitChar(n % 10)]
  }

  /** A leading '-' for negative values, then the digits. */
  function IntToString(i: int): (s: string)
    ensures |s| > 0
    ensures forall k :: 0 <= k < |s| ==> s[k] == '-' || IsDigit(s[k])
    ensures i >= 0 ==> s == NatToString(i)
  {
    if i < 0 then "-" + NatToString(-i) else NatToString(i)
  }

  /** CPython's default limit on the decimal digits `str` renders for an int
      (`sys.get_int_max_str_digits()`); the sign does not count. */
  const MAX_STR_DIGITS: nat := 4300

  /** The number of decimal digits of `i`, sign not counted. */
  function DigitCount(i: int): nat {
    |NatToString(if i < 0 then -i else i)|
  }

  /** Python's `str` of an int, as an f-string renders it: the decimal
      rendering, or ValueError when it would have more than 4300 digits. */
  function Str(i: int): (r: Result<string>)
    ensures r.Ok? <==> DigitCount(i) <= MAX_STR_DIGITS
    ensures r.Err? ==> r.error == ValueError
    ensures r.Ok? ==> r.value == IntToString(i) && ParseInt(r.value) == Some(i)
  {
    if DigitCount(i) > MAX_STR_DIGITS then Err(ValueError)
    else
      IntToStringInverse(i);
      Ok(IntToString(i))
  }

  function Pow10(k: nat): (p: nat)
    ensures p >= 1
  {
    if k == 0 then 1 else 10 * Pow10(k - 1)
  }

  /** A number of at least 10^k has more than k digits. */
  lemma {:induction false} NatToStringLength(n: nat, k: nat)
    requires Pow10(k) <= n
    ensures |NatToString(n)| > k
    decreases k
  {
    if k > 0 {
      NatToStringLength(n / 10, k - 1);
    }
  }

  /** The number a string of digits denotes. */
  function DigitsValue(s: string): nat
    requires AllDigits(s)
  {
    if s == [] then 0 else 10 * DigitsValue(s[..|s| - 1]) + (s[|s| - 1] as int - '0' as int)
  }

  /** At least one digit, and no leading zero unless the digits are "0". */
  predicate Canonical(d: string) {
    |d| > 0 && AllDigits(d) && (d[0] == '0' ==> |d| == 1)
  }

  /** An optional '-' followed by canonical digits; "-0" is refused, as no
      int renders that way. */
  function ParseInt(s: string): Option<int> {
    if |s| > 1 && s[0] == '-' && Canonical(s[1..]) && s[1] != '0' then Some(0 - DigitsValue(s[1..]))
    else if Canonical(s) then Some(DigitsValue(s))
    else None
  }

  /** Position of the first `c` in `s`, or `|s|` when there is none. */
  function IndexOf(s: string, c: char): (k: nat)
    ensures k <= |s|
    ensures forall i :: 0 <= i < k ==> s[i] != c
    ensures k < |s| ==> s[k] == c
  {
    if s == [] then 0 else if s[0] == c then 0 else 1 + IndexOf(s[1..], c)
  }

  /** Reads `name(<int>)` as `(None, n)` and `name(start=<int>, n=<int>)` as
      `(Some(start), n)`; anything else is `None`. */
  function ParseCall(name: string, s: string): Option<(Option<int>, int)> {
    var p := |name| + 1;
    if |s| < p + 1 || s[..p] != name + "(" || s[|s| - 1] != ')' then None
    else ParseArguments(s[p..|s| - 1])
  }

  /** The text between the parentheses: `<int>` or `start=<int>, n=<int>`. */
  function ParseArguments(args: string): Option<(Option<int>, int)> {
    if |args| >= 6 && args[..6] == "start=" then
      var rest := args[6..];
      var k := IndexOf(rest, ',');
      if k + 4 <= |rest| && rest[k..k + 4] == ", n=" then
        match (ParseInt(rest[..k]), ParseInt(rest[k + 4..]))
        case (Some(a), Some(b)) => Some((Some(a), b))
        case _ => None
      else None
    else
      match ParseInt(args)
      case Some(b) => Some((None, b))
      case None => None
  }

  /** Stripping `name(` and `)` gives back the arguments. */
  lemma ParseCallStrips(name: string, args: string)
    ensures ParseCall(name, name + "(" + args + ")") == ParseArguments(args)
  {
    var s := name + "(" + args + ")";
    var p := |name| + 1;
    assert s[..p] == name + "(";
    assert s[p..|s| - 1] == args;
  }

  lemma {:induction false} NatToStringInverse(n: nat)
    ensures DigitsValue(NatToString(n)) == n
    decreases n
  {
    if n >= 10 {
      NatToStringInverse(n / 10);
      var s := NatToString(n);
      assert s[..|s| - 1] == NatToString(n / 10);
    }
  }

  /** Digits without a leading zero denote at least 1. */
  lemma {:induction false} DigitsValuePositive(d: string)
    requires |d| > 0 && AllDigits(d) && d[0] != '0'
    ensures DigitsValue(d) >= 1
    decreases |d|
  {
    if |d| > 1 {
      DigitsValuePositive(d[..|d| - 1]);
    }
  }

  /** Canonical digits are the rendering of the number they denote. */
  lemma {:induction false} CanonicalDigitsRender(d: string)
    requires Canonical(d)
    ensures NatToString(DigitsValue(d)) == d
    decreases |d|
  {
    var last := d[|d| - 1] as int - '0' as int;
    if |d| > 1 {
      var init := d[..|d| - 1];
      DigitsValuePositive(init);
      CanonicalDigitsRender(init);
      var n := DigitsValue(d);
      assert n / 10 == DigitsValue(init) && n % 10 == last;
      assert [DigitChar(last)] == [d[|d| - 1]];
      assert d == init + [d[|d| - 1]];
    } else {
      assert [DigitChar(last)] == d;
    }
  }

  /** Whatever `ParseInt` accepts is exactly the rendering of the int it
      reads, so a reading fixes the text. */
  lemma ParseIntCanonical(s: string)
    requires ParseInt(s).Some?
    ensures IntToString(ParseInt(s).value) == s
  {
    if |s| > 1 && s[0] == '-' && Canonical(s[1..]) && s[1] != '0' {
      DigitsValuePositive(s[1..]);
      CanonicalDigitsRender(s[1..]);
      assert s == "-" + s[1..];
    } else {
      CanonicalDigitsRender(s);
    }
  }

  lemma IntToStringInverse(i: int)
    ensures ParseInt(IntToString(i)) == Some(i)
  {
    var s := IntToString(i);
    if i < 0 {
      assert s[1..] == NatToString(-i);
      NatToStringInverse(-i);
    } else {
      NatToStringInverse(i);
    }
  }

  /** `name(<i>)` reads back as `(None, i)`. */
  lemma ParseCallPositional(name: string, i: int)
    ensures ParseCall(name, name + "(" + IntToString(i) + ")") == Some((None, i))
  {
    var args := IntToString(i);
    ParseCallStrips(name, args);
    assert |args| >= 6 ==> args[..6] != "start=" by {
      if |args| >= 6 { assert args[0] == '-' || IsDigit(args[0]); }
    }
    IntToStringInverse(i);
  }

  /** The first ',' of `a + t` is where `t` starts, when `a` has none and `t` begins with one. */
  lemma IndexOfSeparator(a: string, t: string)
    requires forall k :: 0 <= k < |a| ==> a[k] != ','
    requires |t| > 0 && t[0] == ','
    ensures IndexOf(a + t, ',') == |a|
  {
    assert (a + t)[|a|] == ',';
  }

  /** `start=<a>, n=<b>` reads back as `(Some(a), b)`. */
  lemma ParseArgumentsKeywords(a: int, b: int)
    ensures ParseArguments("start=" + IntToString(a) + ", n=" + IntToString(b)) == Some((Some(a), b))
  {
    var sa, sb := IntToString(a), IntToString(b);
    var rest := sa + (", n=" + sb);
    var args := "start=" + rest;
    assert "start=" + sa + ", n=" + sb == args;
    assert args[..6] == "start=" && args[6..] == rest;
    IndexOfSeparator(sa, ", n=" + sb);
    var k := |sa|;
    assert rest[k..k + 4] == ", n=";
    assert rest[..k] == sa;
    assert rest[k + 4..] == sb;
    IntToStringInverse(a);
    IntToStringInverse(b);
  }

  /** `name(start=<a>, n=<b>)` reads back as `(Some(a), b)`. */
  lemma ParseCallKeywords(name: string, a: int, b: int)
    ensures ParseCall(name, name + "(start=" + IntToString(a) + ", n=" + IntToString(b) + ")") == Some((Some(a), b))
  {
    var args := "start=" + IntToString(a) + ", n=" + IntToString(b);
    assert name + "(start=" + IntToString(a) + ", n=" + IntToString(b) + ")" == name + "(" + args + ")";
    ParseCallStrips(name, args);
    ParseArgumentsKeywords(a, b);
  }
}
