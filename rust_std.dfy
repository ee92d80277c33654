/**
 * The pieces of the Rust standard library that the tutorial programs lean on:
 * the `u32` type, `Option`/`Result`, `str::trim`, `u32: FromStr` (`str::parse`),
 * `String::len` (a byte count) and the growable `String` with `push_str`.
 * Only the behaviour the programs observe is modelled.
 */
module RustStd {

  const U32_MAX: int := 0xFFFF_FFFF

  /** Rust's `u32`: arithmetic on it is done on `int` and range-checked explicitly. */
  newtype u32 = x: int | 0 <= x <= 0xFFFF_FFFF

  datatype Option<T> = None | Some(value: T)

  datatype Result<T, E> = Ok(value: T) | Err(error: E)

  /** The kinds of `core::num::ParseIntError` that `u32::from_str` can produce. */
  datatype IntErrorKind = Empty | InvalidDigit | PosOverflow

  // ---------------------------------------------------------------------------
  // str::trim
  // ---------------------------------------------------------------------------

  /** Unicode White_Space, the set `char::is_whitespace` (and so `str::trim`) uses. */
  predicate IsWhiteSpace(c: char)
  {
    ('\U{9}' <= c <= '\U{D}') || c == '\U{20}' || c == '\U{85}' || c == '\U{A0}' ||
    c == '\U{1680}' || ('\U{2000}' <= c <= '\U{200A}') || c == '\U{2028}' || c == '\U{2029}' ||
    c == '\U{202F}' || c == '\U{205F}' || c == '\U{3000}'
  }

  predicate AllWhiteSpace(s: string)
  {
    forall i :: 0 <= i < |s| ==> IsWhiteSpace(s[i])
  }

  /** `str::trim_start` */
  function TrimStart(s: string): string
  {
    if |s| > 0 && IsWhiteSpace(s[0]) then TrimStart(s[1..]) else s
  }

  /** `str::trim_end` */
  function TrimEnd(s: string): string
  {
    if |s| > 0 && IsWhiteSpace(s[|s| - 1]) then TrimEnd(s[..|s| - 1]) else s
  }

  /** `trim_start` leaves the suffix that follows the leading white space. */
  lemma {:induction false} TrimStartSpec(s: string)
    ensures var r := TrimStart(s);
      && |r| <= |s| && r == s[|s| - |r|..]
      && AllWhiteSpace(s[..|s| - |r|])
      && (r == [] || !IsWhiteSpace(r[0]))
  {
    if |s| > 0 && IsWhiteSpace(s[0]) {
      TrimStartSpec(s[1..]);
      var r := TrimStart(s);
      assert s[1..][|s| - 1 - |r|..] == s[|s| - |r|..];
      forall i | 0 <= i < |s| - |r| ensures IsWhiteSpace(s[i]) {
        if i > 0 { assert s[i] == s[1..][..|s| - 1 - |r|][i - 1]; }
      }
    }
  }

  /** `trim_end` leaves the prefix that precedes the trailing white space. */
  lemma {:induction false} TrimEndSpec(s: string)
    ensures var r := TrimEnd(s);
      && |r| <= |s| && r == s[..|r|]
      && AllWhiteSpace(s[|r|..])
      && (r == [] || !IsWhiteSpace(r[|r| - 1]))
  {
    if |s| > 0 && IsWhiteSpace(s[|s| - 1]) {
      var s' := s[..|s| - 1];
      TrimEndSpec(s');
      var r := TrimEnd(s);
      assert s'[..|r|] == s[..|r|];
      forall i | |r| <= i < |s| ensures IsWhiteSpace(s[i]) {
        if i < |s| - 1 { assert s[i] == s'[|r|..][i - |r|]; }
      }
    }
  }

  /** `str::trim` */
  function Trim(s: string): string
  {
    TrimEnd(TrimStart(s))
  }

  /** `trim` leaves the infix `s[i..j]` with white space only outside it and at neither end of it. */
  lemma TrimSpec(s: string)
    ensures exists i, j :: 0 <= i <= j <= |s| && Trim(s) == s[i..j] && AllWhiteSpace(s[..i]) && AllWhiteSpace(s[j..])
    ensures Trim(s) == [] || (!IsWhiteSpace(Trim(s)[0]) && !IsWhiteSpace(Trim(s)[|Trim(s)| - 1]))
  {
    TrimStartSpec(s);
    TrimEndSpec(TrimStart(s));
    var t := TrimStart(s);
    var r := TrimEnd(t);
    var i := |s| - |t|;
    assert r == s[i..i + |r|] && AllWhiteSpace(s[i + |r|..]) by {
      assert s[i + |r|..] == t[|r|..];
    }
  }

  lemma {:induction false} TrimStartAppend(s: string, t: string)
    ensures TrimStart(s + t) == if AllWhiteSpace(s) then TrimStart(t) else TrimStart(s) + t
  {
    if s != [] {
      assert (s + t)[1..] == s[1..] + t;
      TrimStartAppend(s[1..], t);
      if IsWhiteSpace(s[0]) {
        assert AllWhiteSpace(s) <==> AllWhiteSpace(s[1..]) by {
          if AllWhiteSpace(s[1..]) {
            forall i | 0 <= i < |s| ensures IsWhiteSpace(s[i]) {
              if i > 0 { assert s[i] == s[1..][i - 1]; }
            }
          }
        }
      } else {
        assert !AllWhiteSpace(s);
      }
    } else {
      assert s + t == t;
    }
  }

  lemma {:induction false} TrimEndPrepend(s: string, t: string)
    ensures TrimEnd(s + t) == if AllWhiteSpace(t) then TrimEnd(s) else s + TrimEnd(t)
  {
    if t != [] {
      var t' := t[..|t| - 1];
      assert (s + t)[..|s + t| - 1] == s + t';
      TrimEndPrepend(s, t');
      if IsWhiteSpace(t[|t| - 1]) {
        assert AllWhiteSpace(t) <==> AllWhiteSpace(t') by {
          if AllWhiteSpace(t') {
            forall i | 0 <= i < |t| ensures IsWhiteSpace(t[i]) {
              if i < |t| - 1 { assert t[i] == t'[i]; }
            }
          }
        }
      } else {
        assert !AllWhiteSpace(t);
      }
    } else {
      assert s + t == s;
    }
  }

  lemma {:induction false} TrimStartOfWhiteSpace(s: string)
    requires AllWhiteSpace(s)
    ensures TrimStart(s) == []
  {
    if s != [] {
      assert AllWhiteSpace(s[1..]) by {
        forall i | 0 <= i < |s[1..]| ensures IsWhiteSpace(s[1..][i]) { assert s[1..][i] == s[i + 1]; }
      }
      TrimStartOfWhiteSpace(s[1..]);
    }
  }

  /** White space around a text does not change what `trim` leaves of it. */
  lemma TrimIgnoresPadding(pre: string, s: string, post: string)
    requires AllWhiteSpace(pre) && AllWhiteSpace(post)
    ensures Trim(pre + s + post) == Trim(s)
  {
    assert pre + s + post == pre + (s + post);
    TrimStartAppend(pre, s + post);
    TrimStartAppend(s, post);
    if AllWhiteSpace(s) {
      TrimStartOfWhiteSpace(post);
      TrimStartOfWhiteSpace(s);
    } else {
      TrimEndPrepend(TrimStart(s), post);
    }
  }

  // ---------------------------------------------------------------------------
  // u32: FromStr
  // ---------------------------------------------------------------------------

  predicate IsAsciiDigit(c: char)
  {
    '0' <= c <= '9'
  }

  function DigitValue(c: char): (d: nat)
    requires IsAsciiDigit(c)
    ensures d < 10
  {
    c as int - '0' as int
  }

  function DigitChar(d: nat): (c: char)
    requires d < 10
    ensures IsAsciiDigit(c) && DigitValue(c) == d
  {
    ('0' as int + d) as char
  }

  predicate AllDigits(s: string)
  {
    forall i :: 0 <= i < |s| ==> IsAsciiDigit(s[i])
  }

  function Pow10(n: nat): (p: nat)
    ensures p >= 1
  {
    if n == 0 then 1 else 10 * Pow10(n - 1)
  }

  /**
   * The number a string of decimal digits denotes, written positionally:
   * the first digit weighs 10^(n-1), the rest are the value of the tail.
   */
  function DecimalValue(ds: string): nat
    requires AllDigits(ds)
  {
    if ds == [] then 0 else DigitValue(ds[0]) * Pow10(|ds| - 1) + DecimalValue(ds[1..])
  }

  /** The digits `u32::from_str` reads: everything after one optional leading `+`. */
  function UnsignedDigits(s: string): string
  {
    if |s| > 0 && s[0] == '+' then s[1..] else s
  }

  /** Text that `u32::from_str` accepts: an optional `+`, one or more ASCII digits, at most `U32_MAX`. */
  predicate IsU32Text(s: string)
  {
    var ds := UnsignedDigits(s);
    ds != [] && AllDigits(ds) && DecimalValue(ds) <= U32_MAX
  }

  /**
   * The digit loop of `from_str_radix`: left to right, each character must be a
   * digit (else `InvalidDigit`), then `acc * 10 + digit` must stay within `u32`
   * (else `PosOverflow`, as `checked_mul`/`checked_add` report).
   */
  function AccumulateDigits(acc: u32, ds: string): Result<u32, IntErrorKind>
    decreases |ds|
  {
    if ds == [] then Ok(acc)
    else if !IsAsciiDigit(ds[0]) then Err(InvalidDigit)
    else
      var next := acc as int * 10 + DigitValue(ds[0]);
      if next > U32_MAX then Err(PosOverflow) else AccumulateDigits(next as u32, ds[1..])
  }

  /** `u32::from_str` (what `str::parse::<u32>` calls). */
  function ParseU32(s: string): Result<u32, IntErrorKind>
  {
    if s == [] then Err(Empty)
    else if (s[0] == '+' || s[0] == '-') && |s| == 1 then Err(InvalidDigit)
    else if s[0] == '+' then AccumulateDigits(0, s[1..])
    else AccumulateDigits(0, s)
  }

  /** Splitting off the first digit: what the digit loop's accumulator carries forward. */
  lemma AccumulateStep(acc: int, ds: string)
    requires ds != [] && AllDigits(ds)
    ensures AllDigits(ds[1..])
    ensures acc * Pow10(|ds|) + DecimalValue(ds) ==
              (acc * 10 + DigitValue(ds[0])) * Pow10(|ds| - 1) + DecimalValue(ds[1..])
  {
    var tail := ds[1..];
    assert AllDigits(tail) by {
      forall i | 0 <= i < |tail| ensures IsAsciiDigit(tail[i]) { assert tail[i] == ds[i + 1]; }
    }
    var p := Pow10(|ds| - 1);
    assert Pow10(|ds|) == 10 * p;
    Distribute(acc, DigitValue(ds[0]), p);
  }

  lemma Distribute(a: int, d: int, p: int)
    ensures a * (10 * p) + d * p == (a * 10 + d) * p
  {
  }

  lemma {:induction false} AccumulateDigitsSpec(acc: u32, ds: string)
    ensures AccumulateDigits(acc, ds).Ok? <==>
              AllDigits(ds) && acc as int * Pow10(|ds|) + DecimalValue(ds) <= U32_MAX
    ensures AccumulateDigits(acc, ds).Ok? ==>
              AccumulateDigits(acc, ds).value as int == acc as int * Pow10(|ds|) + DecimalValue(ds)
    decreases |ds|
  {
    if ds != [] {
      var tail := ds[1..];
      if !IsAsciiDigit(ds[0]) {
        assert !AllDigits(ds);
      } else {
        var next := acc as int * 10 + DigitValue(ds[0]);
        assert AllDigits(ds) <==> AllDigits(tail) by {
          if AllDigits(tail) {
            forall i | 0 <= i < |ds| ensures IsAsciiDigit(ds[i]) {
              if i > 0 { assert ds[i] == tail[i - 1]; }
            }
          }
        }
        if AllDigits(ds) {
          AccumulateStep(acc as int, ds);
        }
        if next > U32_MAX {
          if AllDigits(ds) {
            GrowsWithPower(next, |tail|);
          }
        } else {
          AccumulateDigitsSpec(next as u32, tail);
        }
      }
    }
  }

  lemma GrowsWithPower(x: nat, n: nat)
    ensures x * Pow10(n) >= x
  {
  }

  /** `u32::from_str` succeeds exactly on `IsU32Text`, and then yields the denoted number. */
  lemma ParseU32Spec(s: string)
    ensures ParseU32(s).Ok? <==> IsU32Text(s)
    ensures ParseU32(s).Ok? ==> ParseU32(s).value as int == DecimalValue(UnsignedDigits(s))
  {
    if s != [] {
      AccumulateDigitsSpec(0, UnsignedDigits(s));
      if s[0] == '-' && |s| > 1 {
        assert !IsAsciiDigit(UnsignedDigits(s)[0]);
      }
    }
  }

  /** The error cases the guessing game's "Not a number!" covers. */
  lemma ParseU32Errors(s: string, n: string)
    ensures ParseU32("") == Err(Empty)
    ensures |s| > 0 && s[0] == '-' ==> ParseU32(s) == Err(InvalidDigit)
    ensures AllDigits(n) && DecimalValue(n) > U32_MAX ==> ParseU32(n) == Err(PosOverflow)
  {
    if |s| > 0 && s[0] == '-' {
      assert |s| == 1 || AccumulateDigits(0, s) == Err(InvalidDigit);
    }
    if AllDigits(n) && DecimalValue(n) > U32_MAX {
      ParseU32Spec(n);
      assert n != [] && !IsU32Text(n);
      OverflowIsPosOverflow(0, n);
    }
  }

  lemma {:induction false} OverflowIsPosOverflow(acc: u32, ds: string)
    requires AllDigits(ds) && acc as int * Pow10(|ds|) + DecimalValue(ds) > U32_MAX
    ensures AccumulateDigits(acc, ds) == Err(PosOverflow)
    decreases |ds|
  {
    if ds != [] {
      AccumulateStep(acc as int, ds);
      var next := acc as int * 10 + DigitValue(ds[0]);
      if next <= U32_MAX {
        OverflowIsPosOverflow(next as u32, ds[1..]);
      }
    }
  }

  /** The shortest decimal text of `n` (what `to_string`/`{}` prints for an integer). */
  function ToDecimal(n: nat): (s: string)
    ensures s != [] && AllDigits(s)
    ensures IsAsciiDigit(s[0])
  {
    if n < 10 then [DigitChar(n)] else ToDecimal(n / 10) + [DigitChar(n % 10)]
  }

  lemma {:induction false} DecimalValueSnoc(ds: string, c: char)
    requires AllDigits(ds) && IsAsciiDigit(c)
    ensures AllDigits(ds + [c])
    ensures DecimalValue(ds + [c]) == DecimalValue(ds) * 10 + DigitValue(c)
    decreases |ds|
  {
    assert AllDigits(ds + [c]) by {
      forall i | 0 <= i < |ds + [c]| ensures IsAsciiDigit((ds + [c])[i]) {
        if i < |ds| { assert (ds + [c])[i] == ds[i]; }
      }
    }
    if ds != [] {
      var tail := ds[1..];
      assert AllDigits(tail) by {
        forall i | 0 <= i < |tail| ensures IsAsciiDigit(tail[i]) { assert tail[i] == ds[i + 1]; }
      }
      assert (ds + [c])[1..] == tail + [c];
      DecimalValueSnoc(tail, c);
      var d := DigitValue(ds[0]);
      var p := Pow10(|tail|);
      assert Pow10(|ds + [c]| - 1) == 10 * p;
      calc {
        DecimalValue(ds + [c]);
        d * (10 * p) + DecimalValue(tail + [c]);
        d * (10 * p) + DecimalValue(tail) * 10 + DigitValue(c);
        { assert d * (10 * p) == (d * p) * 10; }
        (d * p + DecimalValue(tail)) * 10 + DigitValue(c);
      }
    } else {
      assert ds + [c] == [c];
    }
  }

  lemma {:induction false} ToDecimalValue(n: nat)
    ensures DecimalValue(ToDecimal(n)) == n
    decreases n
  {
    if n >= 10 {
      ToDecimalValue(n / 10);
      DecimalValueSnoc(ToDecimal(n / 10), DigitChar(n % 10));
    }
  }

  /** Round trip: parsing the decimal text of any `u32` gives it back. */
  lemma ParseU32ToDecimal(n: u32)
    ensures ParseU32(ToDecimal(n as nat)) == Ok(n)
  {
    var s := ToDecimal(n as nat);
    ToDecimalValue(n as nat);
    ParseU32Spec(s);
    assert UnsignedDigits(s) == s;
  }

  // ---------------------------------------------------------------------------
  // Option accessors
  // ---------------------------------------------------------------------------

  /** A Rust panic, the error path of `unwrap`/`expect`. */
  datatype Panic = Panic(message: string)

  /** `Option::unwrap`: the carried value, or a panic on `None`. */
  function Unwrap<T>(o: Option<T>): (r: Result<T, Panic>)
    ensures r.Ok? <==> o.Some?
    ensures r.Ok? ==> r.value == o.value
  {
    match o
    case Some(v) => Ok(v)
    case None => Err(Panic("called `Option::unwrap()` on a `None` value"))
  }

  /** `Option<String>::unwrap_or_default`: the carried text, or `String::default()`, the empty string. */
  function UnwrapOrDefault(o: Option<string>): (r: string)
    ensures o.Some? ==> r == o.value
    ensures o.None? ==> r == []
  {
    match o
    case Some(v) => v
    case None => ""
  }

  /** `Result::unwrap`/`expect` as used on `parse`: the value, or a panic. */
  function UnwrapResult<T, E>(r: Result<T, E>, message: string): (v: Result<T, Panic>)
    ensures v.Ok? <==> r.Ok?
    ensures v.Ok? ==> v.value == r.value
  {
    match r
    case Ok(x) => Ok(x)
    case Err(_) => Err(Panic(message))
  }

  // ---------------------------------------------------------------------------
  // String
  // ---------------------------------------------------------------------------

  /** Number of bytes `c` takes in UTF-8. */
  function Utf8Width(c: char): (w: nat)
    ensures 1 <= w <= 4
    ensures w == 1 <==> c as int < 0x80
  {
    if c as int < 0x80 then 1
    else if c as int < 0x800 then 2
    else if c as int < 0x1_0000 then 3
    else 4
  }

  /** `String::len`: the length in UTF-8 bytes, not in characters. */
  function ByteLength(s: string): (n: nat)
    ensures |s| <= n <= 4 * |s|
    ensures n == |s| <==> forall i :: 0 <= i < |s| ==> s[i] as int < 0x80
  {
    if s == [] then 0
    else
      var n := Utf8Width(s[0]) + ByteLength(s[1..]);
      assert (forall i :: 0 <= i < |s| ==> s[i] as int < 0x80) <==>
             s[0] as int < 0x80 && (forall i :: 0 <= i < |s[1..]| ==> s[1..][i] as int < 0x80) by {
        if forall i :: 0 <= i < |s[1..]| ==> s[1..][i] as int < 0x80 {
          forall i | 1 <= i < |s| ensures s[i] as int < 0x80 { assert s[i] == s[1..][i - 1]; }
        }
      }
      n
  }

  /** Rust's owned, growable `String`; `contents` is the text it holds. */
  class StringBuffer {
    var contents: string

    /** `String::from(s)` */
    constructor From(s: string)
      ensures contents == s
    {
      contents := s;
    }

    /** `String::push_str`: appends in place. */
    method PushStr(t: string)
      modifies this
      ensures contents == old(contents) + t
    {
      contents := contents + t;
    }
  }
}
