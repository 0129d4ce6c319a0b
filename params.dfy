/** Request parameters as the route handlers read them: JavaScript truthiness
    of body fields and `parseInt` on path and body ids. */
module Params {
  import opened Wrappers

  /** A request-body field as it arrives: absent (or null), a JSON number,
      text, a boolean, or an object. */
  datatype BodyValue = Missing | Num(x: real) | Text(s: string) | Bool(b: bool) | Object

  /** JavaScript truthiness: absent, 0, "" and false are falsy; every object is truthy. */
  predicate TruthyValue(v: BodyValue) {
    match v
    case Missing => false
    case Num(x) => x != 0.0
    case Text(s) => s != ""
    case Bool(b) => b
    case Object => true
  }

  /** The whitespace `parseInt` skips before the number (the ASCII part of it). */
  predicate IsSpace(c: char) {
    c == ' ' || c == '\t' || c == '\n' || c == '\r' || c == '\U{000B}' || c == '\U{000C}'
  }

  predicate IsDecimalDigit(c: char) {
    '0' <= c <= '9'
  }

  function HexDigitValue(c: char): Option<nat> {
    if '0' <= c <= '9' then Some(c as nat - '0' as nat)
    else if 'a' <= c <= 'f' then Some(c as nat - 'a' as nat + 10)
    else if 'A' <= c <= 'F' then Some(c as nat - 'A' as nat + 10)
    else None
  }

  function SkipSpace(s: string): (r: string)
    ensures |r| <= |s| && r == s[|s| - |r|..]
    ensures r == [] || !IsSpace(r[0])
  {
    if s != [] && IsSpace(s[0]) then
      var r := SkipSpace(s[1..]);
      assert s[1..][|s| - 1 - |r|..] == s[|s| - |r|..];
      r
    else s
  }

  /** Length of the run of digits of the given base at the front of `s`. */
  function DigitRun(s: string, base: nat): (n: nat)
    requires base == 10 || base == 16
    ensures n <= |s|
    ensures forall i :: 0 <= i < n ==> DigitIn(s[i], base).Some?
    ensures n < |s| ==> DigitIn(s[n], base).None?
  {
    if s != [] && DigitIn(s[0], base).Some? then 1 + DigitRun(s[1..], base) else 0
  }

  function DigitIn(c: char, base: nat): (r: Option<nat>)
    ensures r.Some? ==> r.value < base || base < 10
  {
    if base == 10 then (if IsDecimalDigit(c) then Some(c as nat - '0' as nat) else None)
    else match HexDigitValue(c)
      case Some(d) => if d < base then Some(d) else None
      case None => None
  }

  /** The value of a string of digits, most significant first. */
  function ValueOf(ds: string, base: nat): nat
    requires base == 10 || base == 16
    requires forall i :: 0 <= i < |ds| ==> DigitIn(ds[i], base).Some?
  {
    if ds == [] then 0
    else ValueOf(ds[..|ds| - 1], base) * base + DigitIn(ds[|ds| - 1], base).value
  }

  /** The longest run of digits at the front of `body`, or None when there is none. */
  function LeadingNumber(body: string, base: nat): (r: Option<nat>)
    requires base == 10 || base == 16
    ensures r.None? <==> DigitRun(body, base) == 0
  {
    var n := DigitRun(body, base);
    if n == 0 then None else Some(ValueOf(body[..n], base))
  }

  predicate HexPrefixed(u: string) {
    |u| >= 2 && u[0] == '0' && (u[1] == 'x' || u[1] == 'X')
  }

  /** A numeral without its sign: hexadecimal after `0x`, decimal otherwise. */
  function UnsignedNumber(u: string): Option<nat> {
    if HexPrefixed(u) then LeadingNumber(u[2..], 16) else LeadingNumber(u, 10)
  }

  /** `parseInt(s)` with no radix: leading whitespace, an optional sign, a
      `0x` prefix for hexadecimal, then the longest run of digits; anything
      after the run is ignored, and no digit at all is NaN (None). */
  function ParseInt(s: string): (r: Option<int>)
  {
    var t := SkipSpace(s);
    if t != [] && t[0] == '-' then
      match UnsignedNumber(t[1..])
      case None => None
      case Some(v) => Some(-(v as int))
    else if t != [] && t[0] == '+' then
      match UnsignedNumber(t[1..])
      case None => None
      case Some(v) => Some(v)
    else
      match UnsignedNumber(t)
      case None => None
      case Some(v) => Some(v)
  }

  /** The shape of what `parseInt` returns: blank text is NaN, text whose
      first non-blank character is a decimal digit (and not the start of a
      `0x` prefix) is a number that is never negative, and only a minus sign
      gives a negative number. */
  lemma {:induction false} ParseIntLeading(s: string)
    ensures SkipSpace(s) == [] ==> ParseInt(s).None?
    ensures SkipSpace(s) != [] && IsDecimalDigit(SkipSpace(s)[0]) && !HexPrefixed(SkipSpace(s)) ==>
              ParseInt(s).Some? && ParseInt(s).value >= 0
    ensures ParseInt(s).Some? && ParseInt(s).value < 0 ==> SkipSpace(s)[0] == '-'
  {
  }

  /** The decimal numeral of a natural number, as `String(n)` writes it. */
  function DecimalString(n: nat): (s: string)
    ensures |s| > 0
    ensures forall i :: 0 <= i < |s| ==> IsDecimalDigit(s[i])
    ensures n >= 10 ==> s[0] != '0'
  {
    if n < 10 then [('0' as nat + n) as char]
    else DecimalString(n / 10) + [('0' as nat + n % 10) as char]
  }

  /** The decimal numeral of an integer, with a minus sign when negative.
      JavaScript's `String` writes an integral number this way only when its
      magnitude is below 10^21; larger ones get an exponent (`NumberId`). */
  function IntString(n: int): (s: string)
    ensures |s| > 0
  {
    if n < 0 then "-" + DecimalString(-n) else DecimalString(n)
  }

  lemma {:induction false} ValueOfDecimalString(n: nat)
    ensures ValueOf(DecimalString(n), 10) == n
  {
    var s := DecimalString(n);
    if n >= 10 {
      ValueOfDecimalString(n / 10);
      assert s[..|s| - 1] == DecimalString(n / 10);
    }
  }

  /** What may follow a numeral without extending it: not a digit, and not
      the `x` that would turn a lone "0" into a hexadecimal prefix. */
  predicate EndsNumeral(tail: string) {
    tail == [] || (!IsDecimalDigit(tail[0]) && tail[0] != 'x' && tail[0] != 'X')
  }

  /** A decimal numeral followed by anything that does not extend it reads as its value. */
  lemma {:induction false} UnsignedNumberDecimal(n: nat, tail: string)
    requires EndsNumeral(tail)
    ensures UnsignedNumber(DecimalString(n) + tail) == Some(n)
  {
    var d := DecimalString(n);
    var s := d + tail;
    assert !HexPrefixed(s) by {
      if |s| >= 2 && s[0] == '0' {
        assert d[0] == '0';
        assert n < 10;
        assert |d| == 1;
        assert s[1] == tail[0];
      }
    }
    DigitRunPrefix(d, tail);
    assert s[..|d|] == d;
    ValueOfDecimalString(n);
  }

  lemma {:induction false} ParseIntNegated(u: string, v: nat)
    requires UnsignedNumber(u) == Some(v)
    ensures ParseInt("-" + u) == Some(-(v as int))
  {
    var s := "-" + u;
    assert s[0] == '-' && s[1..] == u;
    assert SkipSpace(s) == s;
  }

  lemma {:induction false} ParseIntPlain(u: string, v: nat)
    requires UnsignedNumber(u) == Some(v) && u != [] && IsDecimalDigit(u[0])
    ensures ParseInt(u) == Some(v)
  {
    assert SkipSpace(u) == u;
  }

  /** Printing an integer and parsing it gives it back: a numeral written by the server or the
      client reads back as the same id. */
  lemma {:induction false} ParseIntString(n: int)
    ensures ParseInt(IntString(n)) == Some(n)
  {
    var m: nat := if n < 0 then -n else n;
    var d := DecimalString(m);
    UnsignedNumberDecimal(m, []);
    assert d + [] == d;
    if n < 0 {
      ParseIntNegated(d, m);
    } else {
      ParseIntPlain(d, m);
    }
  }

  /** `parseInt` reads only the numeral at the front: whatever follows the
      digits (a unit, a fraction, another word) does not change the id. */
  lemma {:induction false} ParseIntIgnoresTail(n: nat, tail: string)
    requires EndsNumeral(tail)
    ensures ParseInt(DecimalString(n) + tail) == Some(n)
  {
    var s := DecimalString(n) + tail;
    assert s[0] == DecimalString(n)[0];
    UnsignedNumberDecimal(n, tail);
    ParseIntPlain(s, n);
  }

  lemma {:induction false} DigitRunPrefix(d: string, tail: string)
    requires forall i :: 0 <= i < |d| ==> IsDecimalDigit(d[i])
    requires EndsNumeral(tail)
    ensures DigitRun(d + tail, 10) == |d|
  {
    if d != [] {
      assert (d + tail)[1..] == d[1..] + tail;
      DigitRunPrefix(d[1..], tail);
    } else {
      assert d + tail == tail;
    }
  }

  // ------------------------------------------------ numbers through String

  function Abs(x: real): real { if x < 0.0 then -x else x }

  /** Whether JavaScript's `String` writes `x` in plain decimal notation:
      magnitudes from 10^-6 up to, not including, 10^21. Others get an
      exponent, as in `1e+21` or `5e-7`. */
  predicate FixedNotation(x: real) {
    0.000001 <= Abs(x) < 1000000000000000000000.0
  }

  /** The integer before the point of `x` written plainly: `x` rounded toward zero. */
  function Truncated(x: real): (r: int)
    ensures 0.0 <= x ==> r as real <= x < r as real + 1.0
    ensures x < 0.0 ==> r as real - 1.0 < x <= r as real
  {
    if x >= 0.0 then x.Floor else -((-x).Floor)
  }

  /** The first digit of `y` written in decimal, for `y` of at least 1. */
  function LeadingDigitAbove(y: real): (d: int)
    requires y >= 1.0
    ensures 1 <= d <= 9
    decreases y.Floor
  {
    if y < 10.0 then y.Floor
    else
      assert (y / 10.0).Floor < y.Floor;
      LeadingDigitAbove(y / 10.0)
  }

  /** The first significant digit of `y` written in decimal, for `y` between 0 and 1. */
  function LeadingDigitBelow(y: real): (d: int)
    requires 0.0 < y < 1.0
    ensures 1 <= d <= 9
    decreases (1.0 / y).Floor
  {
    if y * 10.0 >= 1.0 then LeadingDigitAbove(y * 10.0)
    else
      assert 1.0 / (y * 10.0) == (1.0 / y) / 10.0;
      assert (1.0 / (y * 10.0)).Floor < (1.0 / y).Floor;
      LeadingDigitBelow(y * 10.0)
  }

  /** `parseInt(String(x))` for a JSON number `x`. In plain notation the
      digits before the point are read; in exponent notation the numeral
      stops at the point or at the `e`, so only the first significant digit
      is read, with the sign. */
  function NumberId(x: real): (r: int)
    ensures FixedNotation(x) ==> r == Truncated(x)
    ensures x != 0.0 && !FixedNotation(x) ==> 1.0 <= Abs(r as real) <= 9.0
    ensures r != 0 ==> (r < 0 <==> x < 0.0)
  {
    if x == 0.0 then 0
    else if FixedNotation(x) then Truncated(x)
    else
      var y := Abs(x);
      var d := if y >= 1.0 then LeadingDigitAbove(y) else LeadingDigitBelow(y);
      if x < 0.0 then -d else d
  }

  /** An integral number below 10^21 in magnitude reads back as itself, as
      its numeral does. */
  lemma {:induction false} NumberIdWhole(n: int)
    requires -1000000000000000000000 < n < 1000000000000000000000
    ensures NumberId(n as real) == n
    ensures ParseInt(IntString(n)) == Some(NumberId(n as real))
  {
    if n != 0 {
      assert FixedNotation(n as real);
      if n > 0 {
        assert (n as real).Floor == n;
      } else {
        assert (-(n as real)).Floor == -n;
      }
    }
    ParseIntString(n);
  }

  /** `d` times 10^k. */
  function Scaled(d: real, k: nat): real {
    if k == 0 then d else 10.0 * Scaled(d, k - 1)
  }

  /** `d` times 10^-k. */
  function Shrunk(d: real, k: nat): real {
    if k == 0 then d else Shrunk(d, k - 1) / 10.0
  }

  lemma {:induction false} ScaledGrows(d: real, j: nat, k: nat)
    requires d > 0.0 && j <= k
    ensures d <= Scaled(d, j) <= Scaled(d, k)
  {
    if j < k {
      ScaledGrows(d, j, k - 1);
    } else if j > 0 {
      ScaledGrows(d, j - 1, k - 1);
    }
  }

  lemma {:induction false} ShrunkShrinks(d: real, j: nat, k: nat)
    requires d > 0.0 && j <= k
    ensures 0.0 < Shrunk(d, k) <= Shrunk(d, j) <= d
  {
    if j < k {
      ShrunkShrinks(d, j, k - 1);
    } else if j > 0 {
      ShrunkShrinks(d, j - 1, k - 1);
    }
  }

  lemma {:induction false} ScaledMonotone(c: real, d: real, k: nat)
    requires c <= d
    ensures Scaled(c, k) <= Scaled(d, k)
  {
    if k > 0 {
      ScaledMonotone(c, d, k - 1);
    }
  }

  lemma {:induction false} ShrunkMonotone(c: real, d: real, k: nat)
    requires c <= d
    ensures Shrunk(c, k) <= Shrunk(d, k)
  {
    if k > 0 {
      ShrunkMonotone(c, d, k - 1);
    }
  }

  lemma {:induction false} LeadingDigitOfScaled(d: int, k: nat)
    requires 1 <= d <= 9
    ensures Scaled(d as real, k) >= 1.0
    ensures LeadingDigitAbove(Scaled(d as real, k)) == d
  {
    ScaledGrows(d as real, 0, k);
    if k > 0 {
      LeadingDigitOfScaled(d, k - 1);
    }
  }

  lemma {:induction false} LeadingDigitOfShrunk(d: int, k: nat)
    requires 1 <= d <= 9 && k >= 1
    ensures 0.0 < Shrunk(d as real, k) < 1.0
    ensures LeadingDigitBelow(Shrunk(d as real, k)) == d
  {
    ShrunkShrinks(d as real, 0, k);
    if k == 1 {
      LeadingDigitOfScaled(d, 0);
    } else {
      ShrunkShrinks(d as real, 1, k - 1);
      LeadingDigitOfShrunk(d, k - 1);
    }
  }

  /** A digit followed by 21 or more zeros is printed as `d` then `e+k`, so
      it reads as the digit alone: 10^21 reads as 1 and 2 times 10^21 as 2. */
  lemma {:induction false} HugeNumberReadsLeadingDigit(d: int, k: nat)
    requires 1 <= d <= 9 && k >= 21
    ensures NumberId(Scaled(d as real, k)) == d
    ensures NumberId(-Scaled(d as real, k)) == -d
  {
    ScaledGrows(d as real, 21, k);
    ScaledMonotone(1.0, d as real, 21);
    assert Scaled(1.0, 7) == 10000000.0;
    assert Scaled(1.0, 14) == 100000000000000.0;
    assert Scaled(1.0, 21) == 1000000000000000000000.0;
    LeadingDigitOfScaled(d, k);
  }

  /** A digit 7 or more places after the point is printed as `d` then
      `e-k`, so it reads as the digit alone: 5 times 10^-7 reads as 5. */
  lemma {:induction false} TinyNumberReadsLeadingDigit(d: int, k: nat)
    requires 1 <= d <= 9 && k >= 7
    ensures NumberId(Shrunk(d as real, k)) == d
  {
    ShrunkShrinks(d as real, 7, k);
    ShrunkMonotone(d as real, 9.0, 7);
    assert Shrunk(9.0, 7) == 0.0000009;
    LeadingDigitOfShrunk(d, k);
  }

  /** Text that starts with neither whitespace, a sign nor a digit has no numeral: NaN. */
  lemma {:induction false} ParseIntNoNumeral(s: string)
    requires s != [] && !IsSpace(s[0]) && !IsDecimalDigit(s[0]) && s[0] != '-' && s[0] != '+'
    ensures ParseInt(s).None?
  {
    assert SkipSpace(s) == s;
    assert !HexPrefixed(s);
    assert DigitRun(s, 10) == 0;
  }

  /** `parseInt` of a field's printed form. */
  function TextId(text: string): ParsedId {
    match ParseInt(text)
    case None => NaNId
    case Some(n) => IntId(n)
  }

  /** An optional id in a request body: null when the field is falsy, otherwise parsed. */
  datatype ParsedId = NullId | IntId(n: int) | NaNId

  function OptionalId(v: BodyValue): (r: ParsedId)
    ensures !TruthyValue(v) <==> r == NullId
    ensures v.Num? && v.x != 0.0 ==> r == IntId(NumberId(v.x))
    ensures v.Text? && v.s != "" ==> (r == NaNId <==> ParseInt(v.s).None?)
    ensures v == Bool(true) || v == Object ==> r == NaNId
  {
    match v
    case Missing => NullId
    case Num(x) => if x == 0.0 then NullId else IntId(NumberId(x))
    // `String(true)` is "true" and an object prints as "[object Object]":
    // neither starts with a numeral.
    case Bool(b) =>
      if b then ParseIntNoNumeral("true"); TextId("true") else NullId
    case Object => ParseIntNoNumeral("[object Object]"); TextId("[object Object]")
    case Text(s) => if s == "" then NullId else TextId(s)
  }

  /** Drops trailing whitespace. */
  function TrimEnd(s: string): (r: string)
    ensures |r| <= |s| && r == s[..|r|]
    ensures r == [] || !IsSpace(r[|r| - 1])
    ensures forall i :: |r| <= i < |s| ==> IsSpace(s[i])
  {
    if s != [] && IsSpace(s[|s| - 1]) then TrimEnd(s[..|s| - 1]) else s
  }

  /** `s.trim()`: what is left once the whitespace at both ends is dropped, so
      the result is a slice of `s`, everything dropped is whitespace, and no
      whitespace is left at either end. */
  function Trim(s: string): (r: string)
    ensures r == [] || (!IsSpace(r[0]) && !IsSpace(r[|r| - 1]))
    ensures var i := LeadingSpaces(s);
            && i + |r| <= |s| && r == s[i..i + |r|]
            && (forall j :: 0 <= j < i ==> IsSpace(s[j]))
            && (forall j :: i + |r| <= j < |s| ==> IsSpace(s[j]))
  {
    var t := SkipSpace(s);
    var r := TrimEnd(t);
    TrimSlice(s, t, r);
    SkipSpaceDropsSpaces(s);
    r
  }

  /** Everything `SkipSpace` drops is whitespace. */
  lemma {:induction false} SkipSpaceDropsSpaces(s: string)
    ensures forall i :: 0 <= i < LeadingSpaces(s) ==> IsSpace(s[i])
  {
    if s != [] && IsSpace(s[0]) {
      SkipSpaceDropsSpaces(s[1..]);
      forall i | 1 <= i < LeadingSpaces(s) ensures IsSpace(s[i]) {
        assert s[i] == s[1..][i - 1];
      }
    }
  }

  lemma {:induction false} TrimSlice(s: string, t: string, r: string)
    requires |t| <= |s| && t == s[|s| - |t|..]
    requires |r| <= |t| && r == t[..|r|]
    requires forall j :: |r| <= j < |t| ==> IsSpace(t[j])
    ensures var i := |s| - |t|;
            && r == s[i..i + |r|]
            && (forall j :: i + |r| <= j < |s| ==> IsSpace(s[j]))
  {
    var i := |s| - |t|;
    forall j | i + |r| <= j < |s| ensures IsSpace(s[j]) {
      assert s[j] == t[j - i];
    }
  }

  /** How many whitespace characters `s` starts with. */
  function LeadingSpaces(s: string): nat {
    |s| - |SkipSpace(s)|
  }
}
