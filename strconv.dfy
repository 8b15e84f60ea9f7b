/**
 * Base-10, 64-bit signed integer parsing as done by Go's
 * `strconv.ParseInt(s, 10, 64)`, which `NewConfig` uses to read
 * `DEFAULT_MAX_FILE_SIZE`.
 *
 * `ParseUint` and `ParseInt` follow the library's steps (sign stripping, the
 * digit loop with its two overflow checks, the signed range check).
 * `IsDecimalLiteral` and `LiteralValue` say independently which strings are
 * decimal literals and what they denote, and `ParseIntCharacterization`
 * proves that the two agree.
 */
module Strconv {
  import opened Wrappers

  const MaxInt64: int := 0x7FFF_FFFF_FFFF_FFFF
  const MinInt64: int := -0x8000_0000_0000_0000
  const MaxUint64: int := 0xFFFF_FFFF_FFFF_FFFF

  /** Go's `int64`. */
  type Int64 = x: int | MinInt64 <= x <= MaxInt64

  predicate InInt64(x: int) {
    MinInt64 <= x <= MaxInt64
  }

  /** The `Err` field of Go's `*strconv.NumError`. */
  datatype ErrKind = ErrSyntax | ErrRange

  /** Go's `*strconv.NumError`: the function that failed, its input and the reason. */
  datatype NumError = NumError(func: string, num: string, err: ErrKind)

  // ---------------------------------------------------------------------------
  // Reference definition: decimal literals and their values
  // ---------------------------------------------------------------------------

  predicate IsDigit(c: char) {
    '0' <= c <= '9'
  }

  predicate AllDigits(s: string) {
    forall i :: 0 <= i < |s| ==> IsDigit(s[i])
  }

  function DigitValue(c: char): (d: nat)
    requires IsDigit(c)
    ensures d < 10
  {
    c as int - '0' as int
  }

  function Pow10(k: nat): (p: nat)
    ensures p >= 1
  {
    if k == 0 then 1 else 10 * Pow10(k - 1)
  }

  /** Positional value of a digit string: the first digit weighs 10^(|s|-1). */
  function DecimalValue(s: string): nat
    requires AllDigits(s)
  {
    if s == [] then 0 else DigitValue(s[0]) * Pow10(|s| - 1) + DecimalValue(s[1..])
  }

  /** Whether a literal starts with a minus sign. */
  predicate Negative(s: string) {
    |s| > 0 && s[0] == '-'
  }

  /** A literal with its one optional leading sign removed. */
  function Magnitude(s: string): (m: string)
    ensures |m| <= |s|
  {
    if |s| > 0 && (s[0] == '+' || s[0] == '-') then s[1..] else s
  }

  /** An optional `+` or `-`, then one or more ASCII digits, and nothing else. */
  predicate IsDecimalLiteral(s: string) {
    Magnitude(s) != [] && AllDigits(Magnitude(s))
  }

  function LiteralValue(s: string): int
    requires IsDecimalLiteral(s)
  {
    var v: int := DecimalValue(Magnitude(s));
    if Negative(s) then -v else v
  }

  // ---------------------------------------------------------------------------
  // The library's algorithm
  // ---------------------------------------------------------------------------

  /** Smallest n such that n * 10 exceeds MaxUint64 (ParseUint's `cutoff` for base 10). */
  const Cutoff10: int := MaxUint64 / 10 + 1

  /**
   * ParseUint's digit loop for base 10 and bitSize 64, continuing from the
   * accumulated value `n` over the characters still to read. A non-digit is a
   * syntax error; an accumulator that would leave the uint64 range is a range
   * error, reported as soon as it happens.
   */
  function ScanDecimal(rest: string, n: nat): Result<nat, ErrKind>
    requires n <= MaxUint64
  {
    if rest == [] then Success(n)
    else if !IsDigit(rest[0]) then Failure(ErrSyntax)
    else if n >= Cutoff10 then Failure(ErrRange)
    else
      var n1 := n * 10 + DigitValue(rest[0]);
      if n1 > MaxUint64 then Failure(ErrRange)
      else ScanDecimal(rest[1..], n1)
  }

  /** `strconv.ParseUint(s, 10, 64)`. */
  function ParseUint(s: string): (r: Result<nat, NumError>)
    ensures r.Success? ==> r.value <= MaxUint64
  {
    if s == [] then Failure(NumError("ParseUint", s, ErrSyntax))
    else
      match ScanDecimal(s, 0)
      case Success(n) => ScanDecimalBounded(s, 0); Success(n)
      case Failure(k) => Failure(NumError("ParseUint", s, k))
  }

  /** `strconv.ParseInt(s, 10, 64)`. Every error names ParseInt and the whole input. */
  function ParseInt(s: string): (r: Result<Int64, NumError>)
    ensures r.Failure? ==> r.error.func == "ParseInt" && r.error.num == s
  {
    if s == [] then Failure(NumError("ParseInt", s, ErrSyntax))
    else
      var neg := s[0] == '-';
      var unsigned := if s[0] == '+' || s[0] == '-' then s[1..] else s;
      match ParseUint(unsigned)
      // a syntax error is re-labelled; a range error leaves un = MaxUint64,
      // which the signed check below turns into a range error of ParseInt
      case Failure(e) => Failure(NumError("ParseInt", s, e.err))
      case Success(un) =>
        var cutoff := MaxInt64 + 1;
        if !neg && un >= cutoff then Failure(NumError("ParseInt", s, ErrRange))
        else if neg && un > cutoff then Failure(NumError("ParseInt", s, ErrRange))
        else Success(if neg then 0 - un else un)
  }

  // ---------------------------------------------------------------------------
  // The algorithm against the reference definition
  // ---------------------------------------------------------------------------

  lemma {:induction false} ScanDecimalBounded(rest: string, n: nat)
    requires n <= MaxUint64
    ensures ScanDecimal(rest, n).Success? ==> ScanDecimal(rest, n).value <= MaxUint64
  {
    if rest != [] && IsDigit(rest[0]) && n < Cutoff10 {
      var n1 := n * 10 + DigitValue(rest[0]);
      if n1 <= MaxUint64 {
        ScanDecimalBounded(rest[1..], n1);
      }
    }
  }

  /** Shifting the accumulator by one digit position, in ScanDecimalValue's terms. */
  lemma ShiftDigit(n: nat, d: nat, p: nat)
    requires p >= 1
    ensures n * (10 * p) + d * p == (n * 10 + d) * p
    ensures (n * 10 + d) * p >= n * 10 + d
  {
  }

  lemma {:induction false} ScanDecimalValue(rest: string, n: nat)
    requires n <= MaxUint64 && AllDigits(rest)
    ensures var total := n * Pow10(|rest|) + DecimalValue(rest);
            ScanDecimal(rest, n) == if total <= MaxUint64 then Success(total) else Failure(ErrRange)
  {
    if rest != [] {
      var p := Pow10(|rest| - 1);
      var d := DigitValue(rest[0]);
      var tail := rest[1..];
      assert AllDigits(tail) by {
        forall i | 0 <= i < |tail| ensures IsDigit(tail[i]) {
          assert tail[i] == rest[i + 1];
        }
      }
      assert Pow10(|rest|) == 10 * p;
      assert DecimalValue(rest) == d * p + DecimalValue(tail);
      ShiftDigit(n, d, p);
      if n < Cutoff10 && n * 10 + d <= MaxUint64 {
        ScanDecimalValue(tail, n * 10 + d);
      }
    }
  }

  lemma {:induction false} ScanDecimalRejectsNonDigit(rest: string, n: nat)
    requires n <= MaxUint64 && !AllDigits(rest)
    ensures ScanDecimal(rest, n).Failure?
  {
    var i :| 0 <= i < |rest| && !IsDigit(rest[i]);
    if IsDigit(rest[0]) && n < Cutoff10 {
      var n1 := n * 10 + DigitValue(rest[0]);
      if n1 <= MaxUint64 {
        assert rest[1..][i - 1] == rest[i];
        ScanDecimalRejectsNonDigit(rest[1..], n1);
      }
    }
  }

  /**
   * ParseInt accepts exactly the decimal literals whose value is an int64, and
   * then returns that value; a literal outside the int64 range is a range error.
   */
  lemma ParseIntCharacterization(s: string)
    ensures ParseInt(s).Success? <==> IsDecimalLiteral(s) && InInt64(LiteralValue(s))
    ensures ParseInt(s).Success? ==> ParseInt(s).value == LiteralValue(s)
    ensures IsDecimalLiteral(s) && !InInt64(LiteralValue(s)) ==>
              ParseInt(s) == Failure(NumError("ParseInt", s, ErrRange))
  {
    var m := Magnitude(s);
    if m != [] {
      if AllDigits(m) {
        ScanDecimalValue(m, 0);
        assert 0 * Pow10(|m|) == 0;
      } else {
        ScanDecimalRejectsNonDigit(m, 0);
      }
    }
  }

  /** A non-digit, a lone sign and the empty string are syntax errors; "-0" is zero. */
  lemma ParseIntSyntaxExamples()
    ensures ParseInt("") == Failure(NumError("ParseInt", "", ErrSyntax))
    ensures ParseInt("+") == Failure(NumError("ParseInt", "+", ErrSyntax))
    ensures ParseInt("abc") == Failure(NumError("ParseInt", "abc", ErrSyntax))
    ensures ParseInt("12a") == Failure(NumError("ParseInt", "12a", ErrSyntax))
    ensures ParseInt("-0") == Success(0)
  {
    assert Magnitude("-0") == "0";
    ParseIntCharacterization("-0");
  }

  // ---------------------------------------------------------------------------
  // Decimal rendering, to name a literal for every int64
  // ---------------------------------------------------------------------------

  function DigitChar(d: nat): (c: char)
    requires d < 10
    ensures IsDigit(c) && DigitValue(c) == d
  {
    ('0' as int + d) as char
  }

  /** The shortest decimal digits of `n`, as `strconv.FormatUint(n, 10)` writes them. */
  function FormatUint(n: nat): (s: string)
    ensures s != [] && AllDigits(s)
  {
    if n < 10 then [DigitChar(n)] else FormatUint(n / 10) + [DigitChar(n % 10)]
  }

  /** `strconv.FormatInt(v, 10)`: a minus sign for negative values, then the digits. */
  function FormatInt(v: int): (s: string)
    ensures IsDecimalLiteral(s)
  {
    if v < 0 then "-" + FormatUint(-v) else FormatUint(v)
  }

  lemma {:induction false} DecimalValueAppend(s: string, c: char)
    requires AllDigits(s) && IsDigit(c)
    ensures AllDigits(s + [c])
    ensures DecimalValue(s + [c]) == DecimalValue(s) * 10 + DigitValue(c)
  {
    var t := s + [c];
    assert AllDigits(t) by {
      forall i | 0 <= i < |t| ensures IsDigit(t[i]) {
        if i < |s| { assert t[i] == s[i]; }
      }
    }
    if s != [] {
      var tail := s[1..];
      assert AllDigits(tail) by {
        forall i | 0 <= i < |tail| ensures IsDigit(tail[i]) {
          assert tail[i] == s[i + 1];
        }
      }
      assert t[1..] == tail + [c];
      DecimalValueAppend(tail, c);
      var d := DigitValue(s[0]);
      var p := Pow10(|s| - 1);
      calc {
        DecimalValue(t);
        d * Pow10(|s|) + DecimalValue(tail + [c]);
        d * (10 * p) + DecimalValue(tail) * 10 + DigitValue(c);
        { assert d * (10 * p) == (d * p) * 10; }
        (d * p + DecimalValue(tail)) * 10 + DigitValue(c);
        DecimalValue(s) * 10 + DigitValue(c);
      }
    }
  }

  lemma {:induction false} FormatUintValue(n: nat)
    ensures DecimalValue(FormatUint(n)) == n
  {
    if n < 10 {
      assert DecimalValue([DigitChar(n)]) == DigitValue(DigitChar(n)) * Pow10(0) + DecimalValue([]);
    } else {
      FormatUintValue(n / 10);
      DecimalValueAppend(FormatUint(n / 10), DigitChar(n % 10));
    }
  }

  /** Every int64 survives FormatInt followed by ParseInt. */
  lemma ParseFormatRoundTrip(v: Int64)
    ensures ParseInt(FormatInt(v)) == Success(v)
  {
    var s := FormatInt(v);
    FormatLiteralValue(v);
    ParseIntCharacterization(s);
  }

  lemma FormatLiteralValue(v: int)
    ensures LiteralValue(FormatInt(v)) == v
  {
    var s := FormatInt(v);
    if v < 0 {
      var digits := FormatUint(-v);
      assert s == "-" + digits;
      assert Negative(s) && Magnitude(s) == digits;
      FormatUintValue(-v);
    } else {
      assert !Negative(s) && Magnitude(s) == FormatUint(v);
      FormatUintValue(v);
    }
  }
}
