/**
 * JSON numbers decoded into Go's `interface{}` and written out again.
 * Decoding makes every number a float64: an integer is exact up to 2^53 in
 * magnitude, and beyond that is rounded to the nearest float64, ties to the
 * even one, as in IEEE 754 binary64 (section 4.3.1 of IEEE 754-2008).
 * json.Marshal then writes that float64 as the shortest decimal that reads
 * back as it, without an exponent below 1e21, so large values come out
 * padded with zeros: 2^60 is written 1152921504606847000.
 */
module JsonNumbers {
  import opened Wrappers
  import opened Strconv

  /** 2^53: the float64 significand has 53 bits. */
  const Float64Exact: int := 0x20_0000_0000_0000

  function Abs(x: int): nat {
    if x < 0 then -x else x
  }

  /** The spacing of float64 values around a magnitude `a`: the least
      power-of-two multiple `u` of `p` with `a < 2^53 * u`. Starting from
      p = 1 this is 1 below 2^53, 2 in [2^53, 2^54), and so on. */
  function Float64Spacing(a: nat, p: nat): (u: nat)
    requires p >= 1
    ensures u >= p && a < Float64Exact * u
    ensures u == p || Float64Exact * u <= 2 * a
    decreases a - Float64Exact * p
  {
    if a < Float64Exact * p then p else Float64Spacing(a, 2 * p)
  }

  lemma DivMod(a: nat, u: nat)
    requires u >= 1
    ensures a == (a / u) * u + a % u && 0 <= a % u < u && a / u >= 0
  {
  }

  /** The multiple of `u` nearest `a`, ties going to the even multiple. */
  function NearestMultiple(a: nat, u: nat): (m: nat)
    requires u >= 1
    ensures 2 * Abs(m - a) <= u
    ensures a % u == 0 ==> m == a
  {
    var q, rem := a / u, a % u;
    DivMod(a, u);
    if 2 * rem < u || (2 * rem == u && q % 2 == 0) then q * u else (q + 1) * u
  }

  /** Moving by at most half the spacing at `a` changes `a` by at most
      2^-53 of it. */
  lemma HalfSpacingIsRelativelySmall(a: nat, u: nat, m: nat)
    requires u >= 1 && (u == 1 || Float64Exact * u <= 2 * a)
    requires 2 * Abs(m - a) <= u
    ensures Abs(m - a) * Float64Exact <= a
  {
    if u == 1 {
      assert m == a;
    } else {
      var e := Abs(m - a);
      assert 2 * e * Float64Exact <= u * Float64Exact;
    }
  }

  /** float64(n) read back as an integer: the nearest multiple of the
      spacing at n's magnitude, ties going to the even multiple. */
  function RoundToFloat64(n: int): (r: int)
    ensures -Float64Exact <= n <= Float64Exact ==> r == n
    ensures (n >= 0 ==> r >= 0) && (n <= 0 ==> r <= 0)
    ensures Abs(r - n) * Float64Exact <= Abs(n)
  {
    var a := Abs(n);
    var u := Float64Spacing(a, 1);
    var m: int := NearestMultiple(a, u);
    HalfSpacingIsRelativelySmall(a, u, m);
    assert a <= Float64Exact ==> m == a by {
      if a < Float64Exact {
        assert u == 1;
      } else if a == Float64Exact {
        assert Float64Spacing(a, 2) == 2;
        assert u == 2;
      }
    }
    if n < 0 then -m else m
  }

  /** 2^53 + 1 is the first integer float64 cannot hold: it lies halfway
      between 2^53 and 2^53 + 2 and rounds to the even 2^53. */
  lemma FirstInexactInteger()
    ensures RoundToFloat64(Float64Exact + 1) == Float64Exact
  {
    assert Float64Spacing(Float64Exact + 1, 2) == 2;
  }

  /** The largest int rounds to 2^63, which no Go `int` holds. */
  lemma MaxInt64RoundsPastRange()
    ensures RoundToFloat64(MaxInt64) == MaxInt64 + 1
  {
    var a := MaxInt64;
    assert Float64Spacing(a, 1024) == 1024;
    assert Float64Spacing(a, 512) == 1024;
    assert Float64Spacing(a, 256) == 1024;
    assert Float64Spacing(a, 128) == 1024;
    assert Float64Spacing(a, 64) == 1024;
    assert Float64Spacing(a, 32) == 1024;
    assert Float64Spacing(a, 16) == 1024;
    assert Float64Spacing(a, 8) == 1024;
    assert Float64Spacing(a, 4) == 1024;
    assert Float64Spacing(a, 2) == 1024;
    assert Float64Spacing(a, 1) == 1024;
  }

  /** Whether the decimal integer `c` reads back (nearest float64, ties to
      even) as the float64 whose value is the integer `v` >= 2^53: `c` lies
      within half a spacing of `v`, the gap below a power of two being half
      as wide, and the bounds count exactly when `v`'s significand is even.
      Everything is scaled by 4 to stay in integers. */
  predicate ReadsBackAs(c: int, v: nat)
    requires v >= Float64Exact
  {
    ReadsBackWithin(c, v, Float64Spacing(v, 1))
  }

  /** ReadsBackAs for the float64 `v` whose spacing is `u`. */
  predicate ReadsBackWithin(c: int, v: nat, u: nat)
    requires u >= 1
  {
    var lo := 4 * v - (if v == Float64Exact / 2 * u then u else 2 * u);
    var hi := 4 * v + 2 * u;
    if (v / u) % 2 == 0 then lo <= 4 * c <= hi else lo < 4 * c < hi
  }

  /** A decimal that reads back as `v` is within half a spacing of it, so
      positive. */
  lemma ReadsBackPositive(c: int, v: nat)
    requires v >= Float64Exact && ReadsBackAs(c, v)
    ensures c > 0
  {
    var u := Float64Spacing(v, 1);
    assert Float64Exact * u <= 2 * v;
    assert 4 * c >= 4 * v - 2 * u;
  }

  /** The shortest decimal integer that reads back as `v`, whose spacing is
      `u`: working down from the power of ten `p`, the first multiple of a
      power of ten that reads back as `v`, the nearer one when both
      neighbours of `v` do, and the even multiple on a tie. */
  function ShortestFrom(v: nat, u: nat, p: nat): (c: nat)
    requires v >= Float64Exact && p >= 1 && u == Float64Spacing(v, 1)
    ensures ReadsBackAs(c, v)
    decreases p
  {
    var down := v / p * p;
    var up := down + p;
    if p < 10 then v
    else if ReadsBackWithin(down, v, u) && ReadsBackWithin(up, v, u) then
      if v - down < up - v then down
      else if up - v < v - down then up
      else if (down / p) % 2 == 0 then down else up
    else if ReadsBackWithin(down, v, u) then down
    else if ReadsBackWithin(up, v, u) then up
    else ShortestFrom(v, u, p / 10)
  }

  /** When neither multiple of `p` around `v` reads back as it, the
      search moves on to the next smaller power of ten. */
  lemma SkipPower(v: nat, u: nat, p: nat)
    requires v >= Float64Exact && p >= 10 && u == Float64Spacing(v, 1)
    requires !ReadsBackWithin(v / p * p, v, u) && !ReadsBackWithin(v / p * p + p, v, u)
    ensures ShortestFrom(v, u, p) == ShortestFrom(v, u, p / 10)
  {
  }

  /** When a multiple of `p` around `v` reads back as it, the search stops
      at one of them. */
  lemma StopAtPower(v: nat, u: nat, p: nat)
    requires v >= Float64Exact && p >= 10 && u == Float64Spacing(v, 1)
    requires ReadsBackWithin(v / p * p, v, u) || ReadsBackWithin(v / p * p + p, v, u)
    ensures ShortestFrom(v, u, p) in {v / p * p, v / p * p + p}
  {
  }

  /** 10^k. */
  function Pow10(k: nat): (p: nat)
    ensures p >= 1
  {
    if k == 0 then 1 else 10 * Pow10(k - 1)
  }

  lemma MulMonotone(a: int, b: int, p: nat)
    requires a <= b
    ensures a * p <= b * p
  {
  }

  lemma MulSucc(a: int, p: int)
    ensures (a + 1) * p == a * p + p
  {
  }

  /** A multiple of `y` leaves no remainder. */
  lemma MultipleOfMultiple(x: int, y: nat)
    requires y >= 1
    ensures (x * y) % y == 0
  {
    var d, r := (x * y) / y, (x * y) % y;
    assert x * y == d * y + r && 0 <= r < y;
    assert (x - d) * y == r;
    if x - d >= 1 {
      MulMonotone(1, x - d, y);
    } else if x - d <= -1 {
      MulMonotone(x - d, -1, y);
    }
  }

  /** A multiple of 10^k is a multiple of every smaller power of ten. */
  lemma {:induction false} MultipleOfCoarserPower(q: int, j: nat, k: nat)
    requires j <= k
    ensures (q * Pow10(k)) % Pow10(j) == 0
    decreases k
  {
    if j == k {
      MultipleOfMultiple(q, Pow10(j));
    } else {
      MultipleOfCoarserPower(10 * q, j, k - 1);
      assert q * Pow10(k) == 10 * q * Pow10(k - 1);
    }
  }

  /** The decimals reading back as `v` form an interval around `v`. */
  lemma ReadsBackBetween(v: nat, u: nat, x: int, z: int)
    requires u >= 1 && ReadsBackWithin(x, v, u) && (x <= z <= v || v <= z <= x)
    ensures ReadsBackWithin(z, v, u)
  {
  }

  /** When neither multiple of `p` around `v` reads back as it, no
      multiple of `p` does. */
  lemma NoMultipleReadsBack(v: nat, u: nat, p: nat, m: int)
    requires u >= 1 && p >= 1
    requires !ReadsBackWithin(v / p * p, v, u) && !ReadsBackWithin(v / p * p + p, v, u)
    requires m % p == 0
    ensures !ReadsBackWithin(m, v, u)
  {
    var down, q := v / p * p, m / p;
    DivMod(v, p);
    assert m == q * p;
    assert down <= v < down + p;
    if q <= v / p {
      MulMonotone(q, v / p, p);
      if ReadsBackWithin(m, v, u) {
        ReadsBackBetween(v, u, m, down);
      }
    } else {
      MulMonotone(v / p + 1, q, p);
      MulSucc(v / p, p);
      if ReadsBackWithin(m, v, u) {
        ReadsBackBetween(v, u, m, down + p);
      }
    }
  }

  /** Both multiples of 10^k around `v` are multiples of every smaller
      power of ten. */
  lemma NeighboursAreMultiples(v: nat, j: nat, k: nat)
    requires j <= k
    ensures var p := Pow10(k);
      (v / p * p) % Pow10(j) == 0 && (v / p * p + p) % Pow10(j) == 0
  {
    var p, q := Pow10(k), v / Pow10(k);
    MultipleOfCoarserPower(q, j, k);
    MultipleOfCoarserPower(q + 1, j, k);
    MulSucc(q, p);
    assert (q + 1) * p == q * p + p;
  }

  /** The search from 10^k stops at the largest power of ten some multiple
      of which reads back as `v`: its result is a multiple of every power
      of ten 10^j <= 10^k that has a multiple reading back as `v`. */
  lemma {:induction false} ShortestIsCoarsest(v: nat, u: nat, k: nat, m: int, j: nat)
    requires v >= Float64Exact && u == Float64Spacing(v, 1)
    requires j <= k && ReadsBackWithin(m, v, u) && m % Pow10(j) == 0
    ensures ShortestFrom(v, u, Pow10(k)) % Pow10(j) == 0
    decreases k
  {
    var p := Pow10(k);
    var down := v / p * p;
    if k == 0 {
      assert ShortestFrom(v, u, p) == v;
      assert Pow10(j) == 1;
    } else if ReadsBackWithin(down, v, u) || ReadsBackWithin(down + p, v, u) {
      StopAtPower(v, u, p);
      NeighboursAreMultiples(v, j, k);
    } else {
      if j == k {
        NoMultipleReadsBack(v, u, p, m);
      }
      SkipPower(v, u, p);
      assert p / 10 == Pow10(k - 1);
      ShortestIsCoarsest(v, u, k - 1, m, j);
    }
  }

  /** 10^20, above every magnitude ShortestFrom is asked about. */
  const DecimalSearchStart: nat := 100_000_000_000_000_000_000

  /** The decimal json.Marshal writes for the float64 whose value is the
      integer `a`, 2^53 < a <= 2^64. */
  function ShortestDecimal(a: nat): (d: nat)
    requires Float64Exact <= a
    ensures d > 0 && ReadsBackAs(d, a)
  {
    var d := ShortestFrom(a, Float64Spacing(a, 1), DecimalSearchStart);
    ReadsBackPositive(d, a);
    d
  }

  /** 10^20 is the power of ten the search starts from. */
  lemma SearchStartIsPow10()
    ensures Pow10(20) == DecimalSearchStart
  {
    assert Pow10(1) == 10;
    assert Pow10(2) == 100;
    assert Pow10(3) == 1_000;
    assert Pow10(4) == 10_000;
    assert Pow10(5) == 100_000;
    assert Pow10(6) == 1_000_000;
    assert Pow10(7) == 10_000_000;
    assert Pow10(8) == 100_000_000;
    assert Pow10(9) == 1_000_000_000;
    assert Pow10(10) == 10_000_000_000;
    assert Pow10(11) == 100_000_000_000;
    assert Pow10(12) == 1_000_000_000_000;
    assert Pow10(13) == 10_000_000_000_000;
    assert Pow10(14) == 100_000_000_000_000;
    assert Pow10(15) == 1_000_000_000_000_000;
    assert Pow10(16) == 10_000_000_000_000_000;
    assert Pow10(17) == 100_000_000_000_000_000;
    assert Pow10(18) == 1_000_000_000_000_000_000;
    assert Pow10(19) == 10_000_000_000_000_000_000;
    assert Pow10(20) == 100_000_000_000_000_000_000;
  }

  /** The decimal written is the shortest: a multiple of every power of ten
      up to 10^20 some multiple of which reads back as the float64. */
  lemma ShortestDecimalIsShortest(a: nat, m: int, j: nat)
    requires Float64Exact <= a && ReadsBackAs(m, a)
    requires j <= 20 && m % Pow10(j) == 0
    ensures ShortestDecimal(a) % Pow10(j) == 0
  {
    SearchStartIsPow10();
    ShortestIsCoarsest(a, Float64Spacing(a, 1), 20, m, j);
  }

  /** The decimal json.Marshal writes for the float64 whose value is the
      integer `f`: `f` itself up to 2^53 in magnitude, otherwise the
      shortest decimal reading back as it, with `f`'s sign. */
  function DecimalOf(f: int): (c: int)
    requires Abs(f) <= Modulus64
    ensures Abs(f) <= Float64Exact ==> c == f
    ensures (f > 0 ==> c > 0) && (f < 0 ==> c < 0) && (f == 0 ==> c == 0)
    ensures Abs(f) > Float64Exact ==> ReadsBackAs(Abs(c), Abs(f))
  {
    var a := Abs(f);
    if a <= Float64Exact then f
    else
      var d: int := ShortestDecimal(a);
      if f < 0 then -d else d
  }

  /** A JSON integer decoded into `interface{}`, marshalled again and decoded
      into a Go `int`: the decimal written for its float64, or None when that
      decimal is outside the `int` range. A float64 beyond 2^64 in magnitude
      has every decimal reading back as it beyond that range too. */
  function ReadBackInt(n: int): (r: Option<int>)
    ensures Abs(n) <= Float64Exact ==> r == Some(n)
    ensures r.Some? ==> IsInt64(r.value)
    ensures r.Some? ==> (n > 0 ==> r.value > 0) && (n < 0 ==> r.value < 0) && (n == 0 ==> r.value == 0)
    ensures r.Some? ==> Abs(RoundToFloat64(n)) <= Modulus64 && r.value == DecimalOf(RoundToFloat64(n))
    ensures Abs(RoundToFloat64(n)) <= Modulus64 ==>
              (r.Some? <==> IsInt64(DecimalOf(RoundToFloat64(n))))
  {
    var f := RoundToFloat64(n);
    if Abs(f) > Modulus64 then None
    else
      var c := DecimalOf(f);
      if IsInt64(c) then Some(c) else None
  }


  /** Float64s near 2^60 are 256 apart. */
  lemma SpacingAt2To60()
    ensures Float64Spacing(1_152_921_504_606_846_976, 1) == 256
  {
    assert Float64Spacing(1_152_921_504_606_846_976, 256) == 256;
    assert Float64Spacing(1_152_921_504_606_846_976, 128) == 256;
    assert Float64Spacing(1_152_921_504_606_846_976, 64) == 256;
    assert Float64Spacing(1_152_921_504_606_846_976, 32) == 256;
    assert Float64Spacing(1_152_921_504_606_846_976, 16) == 256;
    assert Float64Spacing(1_152_921_504_606_846_976, 8) == 256;
    assert Float64Spacing(1_152_921_504_606_846_976, 4) == 256;
    assert Float64Spacing(1_152_921_504_606_846_976, 2) == 256;
    assert Float64Spacing(1_152_921_504_606_846_976, 1) == 256;
  }

  /** Near 2^60 no multiple of 10^20 down to 10^15 reads back as it. */
  lemma SkipPowersAbove10To14At2To60()
    ensures ShortestFrom(1_152_921_504_606_846_976, 256, 100_000_000_000_000_000_000) == ShortestFrom(1_152_921_504_606_846_976, 256, 100_000_000_000_000)
  {
    SpacingAt2To60();
    SkipPower(1_152_921_504_606_846_976, 256, 100_000_000_000_000_000_000);
    SkipPower(1_152_921_504_606_846_976, 256, 10_000_000_000_000_000_000);
    SkipPower(1_152_921_504_606_846_976, 256, 1_000_000_000_000_000_000);
    SkipPower(1_152_921_504_606_846_976, 256, 100_000_000_000_000_000);
    SkipPower(1_152_921_504_606_846_976, 256, 10_000_000_000_000_000);
    SkipPower(1_152_921_504_606_846_976, 256, 1_000_000_000_000_000);
  }

  /** Near 2^60 no multiple of 10^14 down to 10^9 reads back as it. */
  lemma SkipPowersAbove10To8At2To60()
    ensures ShortestFrom(1_152_921_504_606_846_976, 256, 100_000_000_000_000) == ShortestFrom(1_152_921_504_606_846_976, 256, 100_000_000)
  {
    SpacingAt2To60();
    SkipPower(1_152_921_504_606_846_976, 256, 100_000_000_000_000);
    SkipPower(1_152_921_504_606_846_976, 256, 10_000_000_000_000);
    SkipPower(1_152_921_504_606_846_976, 256, 1_000_000_000_000);
    SkipPower(1_152_921_504_606_846_976, 256, 100_000_000_000);
    SkipPower(1_152_921_504_606_846_976, 256, 10_000_000_000);
    SkipPower(1_152_921_504_606_846_976, 256, 1_000_000_000);
  }

  /** Near 2^60 no multiple of 10^8 down to 10^4 reads back as it. */
  lemma SkipPowersAbove10To3At2To60()
    ensures ShortestFrom(1_152_921_504_606_846_976, 256, 100_000_000) == ShortestFrom(1_152_921_504_606_846_976, 256, 1_000)
  {
    SpacingAt2To60();
    SkipPower(1_152_921_504_606_846_976, 256, 100_000_000);
    SkipPower(1_152_921_504_606_846_976, 256, 10_000_000);
    SkipPower(1_152_921_504_606_846_976, 256, 1_000_000);
    SkipPower(1_152_921_504_606_846_976, 256, 100_000);
    SkipPower(1_152_921_504_606_846_976, 256, 10_000);
  }

  /** json.Marshal writes the float64 2^60 as 1152921504606847000. */
  lemma ShortestDecimalOf2To60()
    ensures ShortestDecimal(1_152_921_504_606_846_976) == 1_152_921_504_606_847_000
  {
    SpacingAt2To60();
    SkipPowersAbove10To14At2To60();
    SkipPowersAbove10To8At2To60();
    SkipPowersAbove10To3At2To60();
    assert ShortestFrom(1_152_921_504_606_846_976, 256, 1_000) == 1_152_921_504_606_847_000;
  }

  /** 2^60 is a float64, and json.Marshal writes it as
      1152921504606847000, which is what a Go `int` reads back. */
  lemma PowerOfTwoReadsBackPadded()
    ensures ReadBackInt(1_152_921_504_606_846_976) == Some(1_152_921_504_606_847_000)
  {
    SpacingAt2To60();
    assert RoundToFloat64(1_152_921_504_606_846_976) == 1_152_921_504_606_846_976;
    ShortestDecimalOf2To60();
  }

  /** Float64s near 2^63 are 2048 apart. */
  lemma SpacingAt2To63()
    ensures Float64Spacing(9_223_372_036_854_775_808, 1) == 2_048
  {
    assert Float64Spacing(9_223_372_036_854_775_808, 2_048) == 2_048;
    assert Float64Spacing(9_223_372_036_854_775_808, 1_024) == 2_048;
    assert Float64Spacing(9_223_372_036_854_775_808, 512) == 2_048;
    assert Float64Spacing(9_223_372_036_854_775_808, 256) == 2_048;
    assert Float64Spacing(9_223_372_036_854_775_808, 128) == 2_048;
    assert Float64Spacing(9_223_372_036_854_775_808, 64) == 2_048;
    assert Float64Spacing(9_223_372_036_854_775_808, 32) == 2_048;
    assert Float64Spacing(9_223_372_036_854_775_808, 16) == 2_048;
    assert Float64Spacing(9_223_372_036_854_775_808, 8) == 2_048;
    assert Float64Spacing(9_223_372_036_854_775_808, 4) == 2_048;
    assert Float64Spacing(9_223_372_036_854_775_808, 2) == 2_048;
    assert Float64Spacing(9_223_372_036_854_775_808, 1) == 2_048;
  }

  /** Near 2^63 no multiple of 10^20 down to 10^15 reads back as it. */
  lemma SkipPowersAbove10To14At2To63()
    ensures ShortestFrom(9_223_372_036_854_775_808, 2_048, 100_000_000_000_000_000_000) == ShortestFrom(9_223_372_036_854_775_808, 2_048, 100_000_000_000_000)
  {
    SpacingAt2To63();
    SkipPower(9_223_372_036_854_775_808, 2_048, 100_000_000_000_000_000_000);
    SkipPower(9_223_372_036_854_775_808, 2_048, 10_000_000_000_000_000_000);
    SkipPower(9_223_372_036_854_775_808, 2_048, 1_000_000_000_000_000_000);
    SkipPower(9_223_372_036_854_775_808, 2_048, 100_000_000_000_000_000);
    SkipPower(9_223_372_036_854_775_808, 2_048, 10_000_000_000_000_000);
    SkipPower(9_223_372_036_854_775_808, 2_048, 1_000_000_000_000_000);
  }

  /** Near 2^63 no multiple of 10^14 down to 10^9 reads back as it. */
  lemma SkipPowersAbove10To8At2To63()
    ensures ShortestFrom(9_223_372_036_854_775_808, 2_048, 100_000_000_000_000) == ShortestFrom(9_223_372_036_854_775_808, 2_048, 100_000_000)
  {
    SpacingAt2To63();
    SkipPower(9_223_372_036_854_775_808, 2_048, 100_000_000_000_000);
    SkipPower(9_223_372_036_854_775_808, 2_048, 10_000_000_000_000);
    SkipPower(9_223_372_036_854_775_808, 2_048, 1_000_000_000_000);
    SkipPower(9_223_372_036_854_775_808, 2_048, 100_000_000_000);
    SkipPower(9_223_372_036_854_775_808, 2_048, 10_000_000_000);
    SkipPower(9_223_372_036_854_775_808, 2_048, 1_000_000_000);
  }

  /** Near 2^63 no multiple of 10^8 down to 10^4 reads back as it. */
  lemma SkipPowersAbove10To3At2To63()
    ensures ShortestFrom(9_223_372_036_854_775_808, 2_048, 100_000_000) == ShortestFrom(9_223_372_036_854_775_808, 2_048, 1_000)
  {
    SpacingAt2To63();
    SkipPower(9_223_372_036_854_775_808, 2_048, 100_000_000);
    SkipPower(9_223_372_036_854_775_808, 2_048, 10_000_000);
    SkipPower(9_223_372_036_854_775_808, 2_048, 1_000_000);
    SkipPower(9_223_372_036_854_775_808, 2_048, 100_000);
    SkipPower(9_223_372_036_854_775_808, 2_048, 10_000);
  }

  /** json.Marshal writes the float64 2^63 as 9223372036854776000. */
  lemma ShortestDecimalOf2To63()
    ensures ShortestDecimal(9_223_372_036_854_775_808) == 9_223_372_036_854_776_000
  {
    SpacingAt2To63();
    SkipPowersAbove10To14At2To63();
    SkipPowersAbove10To8At2To63();
    SkipPowersAbove10To3At2To63();
    assert ShortestFrom(9_223_372_036_854_775_808, 2_048, 1_000) == 9_223_372_036_854_776_000;
  }

  /** The float64 2^63 is written 9223372036854776000, beyond Go's `int`
      on either sign, so neither MaxInt64 (which rounds to it) nor MinInt64
      reads back. */
  lemma ExtremeIntsDoNotReadBack()
    ensures ReadBackInt(MaxInt64) == None
    ensures ReadBackInt(MinInt64) == None
  {
    SpacingAt2To63();
    MaxInt64RoundsPastRange();
    assert RoundToFloat64(MinInt64) == MinInt64;
    ShortestDecimalOf2To63();
  }

  /** 2^53 + 1 reads back as 2^53, the float64 it rounds to. */
  lemma FirstInexactIntegerReadsBackRounded()
    ensures ReadBackInt(Float64Exact + 1) == Some(Float64Exact)
  {
    FirstInexactInteger();
  }
}
