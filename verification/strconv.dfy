/**
 * Go's 64-bit `int` and the decimal parsing the handlers apply to query
 * parameters (`n, _ := strconv.Atoi(s)`).
 *
 * Atoi is modelled by its slow path (ParseInt with base 10 and 64 bits);
 * its fast path for short strings accepts exactly the same strings with the
 * same values, so one definition serves both.
 */
module Strconv {

  const MaxInt64: int := 0x7FFF_FFFF_FFFF_FFFF
  const MinInt64: int := -0x8000_0000_0000_0000
  const MaxUint64: int := 0xFFFF_FFFF_FFFF_FFFF
  /** 2^64, the modulus of Go's wrap-around arithmetic on `int`. */
  const Modulus64: int := 0x1_0000_0000_0000_0000

  predicate IsInt64(n: int) {
    MinInt64 <= n <= MaxInt64
  }

  /** The value a Go `int` computation with mathematical result `n` holds
      after two's-complement wrap-around. */
  function Wrap64(n: int): (r: int)
    ensures IsInt64(r)
    ensures IsInt64(n) ==> r == n
    ensures exists k :: r == n + k * Modulus64
  {
    var m := (n - MinInt64) % Modulus64;
    var q := (n - MinInt64) / Modulus64;
    assert n - MinInt64 == q * Modulus64 + m;
    assert m + MinInt64 == n + (-q) * Modulus64;
    m + MinInt64
  }

  predicate IsDigit(c: char) {
    '0' <= c <= '9'
  }

  function DigitValue(c: char): (d: nat)
    requires IsDigit(c)
    ensures d < 10
  {
    c as int - '0' as int
  }

  function DigitChar(d: nat): (c: char)
    requires d < 10
    ensures IsDigit(c) && DigitValue(c) == d
  {
    ('0' as int + d) as char
  }

  /** Progress of scanning an unsigned decimal numeral left to right, as
      strconv.ParseUint does: the first non-digit is a syntax error, and the
      first prefix whose value exceeds 2^64-1 is a range error, whichever
      comes first. */
  datatype Scan = Value(n: nat) | BadSyntax | TooLarge

  function ScanDigits(s: string): (r: Scan)
    ensures r.Value? ==> r.n <= MaxUint64
    ensures r.Value? ==> forall i :: 0 <= i < |s| ==> IsDigit(s[i])
    decreases |s|
  {
    if |s| == 0 then Value(0)
    else
      match ScanDigits(s[..|s| - 1])
      case Value(n) =>
        var c := s[|s| - 1];
        if !IsDigit(c) then BadSyntax
        else if n * 10 + DigitValue(c) > MaxUint64 then TooLarge
        else Value(n * 10 + DigitValue(c))
      case other => other
  }

  /** strconv.Atoi's outcome: a value, a syntax error (value 0), or a range
      error carrying the value clamped to the nearest end of `int`. */
  datatype AtoiResult = Parsed(n: int) | SyntaxError | RangeError(clamped: int)

  function Atoi(s: string): (r: AtoiResult)
    ensures r.Parsed? ==> IsInt64(r.n)
    ensures r.RangeError? ==> r.clamped == MaxInt64 || r.clamped == MinInt64
    ensures |s| == 0 ==> r == SyntaxError
  {
    if |s| == 0 then SyntaxError
    else
      var neg := s[0] == '-';
      var body := if s[0] == '+' || s[0] == '-' then s[1..] else s;
      if |body| == 0 then SyntaxError
      else
        match ScanDigits(body)
        case BadSyntax => SyntaxError
        case TooLarge => RangeError(if neg then MinInt64 else MaxInt64)
        case Value(u) =>
          if !neg && u > MaxInt64 then RangeError(MaxInt64)
          else if neg && u > -MinInt64 then RangeError(MinInt64)
          else Parsed(if neg then -(u as int) else u as int)
  }

  /** What `n, _ := strconv.Atoi(s)` leaves in `n`: the error is dropped, so
      a malformed string reads as 0 and an out-of-range one as the clamp. */
  function AtoiIgnoringError(s: string): (n: int)
    ensures IsInt64(n)
    ensures Atoi(s).SyntaxError? ==> n == 0
  {
    match Atoi(s)
    case Parsed(v) => v
    case SyntaxError => 0
    case RangeError(c) => c
  }

  /** Decimal digits of `m`, most significant first, as strconv.Itoa writes them. */
  function Digits(m: nat): (s: string)
    ensures |s| > 0
    ensures forall i :: 0 <= i < |s| ==> IsDigit(s[i])
    decreases m
  {
    if m < 10 then [DigitChar(m)] else Digits(m / 10) + [DigitChar(m % 10)]
  }

  /** strconv.Itoa. */
  function Itoa(n: int): (s: string)
    ensures |s| > 0
  {
    if n < 0 then "-" + Digits(-n) else Digits(n)
  }

  lemma {:induction false} ScanDigitsOfDigits(m: nat)
    requires m <= MaxUint64
    ensures ScanDigits(Digits(m)) == Value(m)
    decreases m
  {
    if m < 10 {
      assert Digits(m)[..0] == [];
    } else {
      var s := Digits(m);
      assert s[..|s| - 1] == Digits(m / 10);
      ScanDigitsOfDigits(m / 10);
    }
  }

  /** Every 64-bit integer survives formatting followed by Atoi. */
  lemma AtoiItoa(n: int)
    requires IsInt64(n)
    ensures Atoi(Itoa(n)) == Parsed(n)
    ensures AtoiIgnoringError(Itoa(n)) == n
  {
    if n < 0 {
      var s := Itoa(n);
      assert s[1..] == Digits(-n);
      ScanDigitsOfDigits(-n);
    } else {
      ScanDigitsOfDigits(n);
    }
  }

  /** A numeral beyond the 64-bit range but within the unsigned one is a
      range error clamped to the end of `int` on its side. */
  lemma AtoiClampsOutOfRange(n: int)
    requires (n > MaxInt64 && n <= MaxUint64) || (n < MinInt64 && -n <= MaxUint64)
    ensures Atoi(Itoa(n)) == RangeError(if n < 0 then MinInt64 else MaxInt64)
    ensures AtoiIgnoringError(Itoa(n)) == (if n < 0 then MinInt64 else MaxInt64)
  {
    if n < 0 {
      var s := Itoa(n);
      assert s[1..] == Digits(-n);
      ScanDigitsOfDigits(-n);
    } else {
      ScanDigitsOfDigits(n);
    }
  }

  /** Only a numeral parses: after an optional sign, every character is a
      decimal digit and there is at least one. */
  lemma AtoiParsedOnlyDigits(s: string)
    requires Atoi(s).Parsed?
    ensures |s| > 0
    ensures var body := if s[0] == '+' || s[0] == '-' then s[1..] else s;
      |body| > 0 && forall i :: 0 <= i < |body| ==> IsDigit(body[i])
  {
  }
}
