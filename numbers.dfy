/** Rust's fixed-width integers, `from_str_radix` / `str::parse` on them,
    and decimal formatting (`{}` on an unsigned integer). */
module Numbers {
  import opened Text

  const U16_MAX: int := 0xFFFF
  const U32_MAX: int := 0xFFFF_FFFF
  const I16_MIN: int := -0x8000
  const I16_MAX: int := 0x7FFF
  const I32_MIN: int := -0x8000_0000
  const I32_MAX: int := 0x7FFF_FFFF

  type u16 = x: int | 0 <= x <= 0xFFFF
  type u32 = x: int | 0 <= x <= 0xFFFF_FFFF
  type i16 = x: int | -0x8000 <= x <= 0x7FFF
  type i32 = x: int | -0x8000_0000 <= x <= 0x7FFF_FFFF

  /** The integer types the codecs parse into. */
  datatype IntType = U16 | U32 | I16 | I32 {
    function Min(): int {
      match this
      case U16 => 0
      case U32 => 0
      case I16 => I16_MIN
      case I32 => I32_MIN
    }
    function Max(): int {
      match this
      case U16 => U16_MAX
      case U32 => U32_MAX
      case I16 => I16_MAX
      case I32 => I32_MAX
    }
    predicate Signed() {
      I16? || I32?
    }
  }

  predicate IsDecimalDigit(c: char) {
    '0' <= c <= '9'
  }

  /** `char::to_digit(radix)`. */
  function DigitValue(c: char, radix: nat): (d: Option<nat>)
    requires 2 <= radix <= 36
    ensures d.Some? ==> d.value < radix
    ensures IsDecimalDigit(c) && radix >= 10 ==> d == Some(c as int - '0' as int)
    ensures d.Some? ==> IsDecimalDigit(c) || IsAsciiLetter(c)
  {
    var v := if '0' <= c <= '9' then c as int - '0' as int
             else if 'a' <= c <= 'z' then c as int - 'a' as int + 10
             else if 'A' <= c <= 'Z' then c as int - 'A' as int + 10
             else radix;
    if v < radix then Some(v) else None
  }

  /** The digit character for `d`: `0`-`9`, then lower-case letters. */
  function DigitChar(d: nat): char
    requires d < 36
  {
    if d < 10 then ('0' as int + d) as char else ('a' as int + d - 10) as char
  }

  lemma DigitCharValue(d: nat, radix: nat)
    requires 2 <= radix <= 36 && d < radix
    ensures DigitValue(DigitChar(d), radix) == Some(d)
    ensures !IsWhitespace(DigitChar(d)) && DigitChar(d) != '+' && DigitChar(d) != '-'
    ensures IsAsciiLetter(DigitChar(d)) <==> d >= 10
  {
  }

  /** The states of `from_str_radix`'s left-to-right scan: nothing read, a
      sign read, or a magnitude accumulated so far (negative after a `-`). */
  datatype IntScan = Begin | Plus | Minus | Magnitude(negative: bool, value: nat) | Invalid

  /** One more digit character after `value`. */
  function Digit(negative: bool, value: nat, c: char, radix: nat): IntScan
    requires 2 <= radix <= 36
  {
    match DigitValue(c, radix)
    case None => Invalid
    case Some(d) => Magnitude(negative, value * radix + d)
  }

  /** A sign is only read first, and `-` only for a signed type; anything
      else must be a digit. */
  function IntStep(q: IntScan, c: char, radix: nat, t: IntType): IntScan
    requires 2 <= radix <= 36
  {
    match q
    case Begin =>
      if c == '+' then Plus else if c == '-' && t.Signed() then Minus else Digit(false, 0, c, radix)
    case Plus => Digit(false, 0, c, radix)
    case Minus => Digit(true, 0, c, radix)
    case Magnitude(negative, value) => Digit(negative, value, c, radix)
    case Invalid => Invalid
  }

  function IntRun(q: IntScan, s: string, radix: nat, t: IntType): IntScan
    requires 2 <= radix <= 36
    decreases |s|
  {
    if s == [] then q else IntRun(IntStep(q, s[0], radix, t), s[1..], radix, t)
  }

  /** `<t>::from_str_radix(s, radix)`: an optional `+` (or `-` when `t` is
      signed) and then at least one digit; the value must fit `t`. Rust
      accumulates with checked arithmetic, and since every step moves the
      value away from zero, an overflow anywhere is an overflow of the final
      value. */
  function FromStrRadix(s: string, radix: nat, t: IntType): (r: Option<int>)
    requires 2 <= radix <= 36
    ensures r.Some? ==> t.Min() <= r.value <= t.Max()
  {
    match IntRun(Begin, s, radix, t)
    case Magnitude(negative, value) =>
      var v := if negative then 0 - value else value;
      if t.Min() <= v <= t.Max() then Some(v) else None
    case _ => None
  }

  /** `str::parse::<t>`: base 10. */
  function Parse(s: string, t: IntType): (r: Option<int>)
    ensures r.Some? ==> t.Min() <= r.value <= t.Max()
  {
    FromStrRadix(s, 10, t)
  }

  /** The digits of `n` in `radix`, no leading zeros (`"0"` for zero). */
  function ToDigits(n: nat, radix: nat): (r: string)
    requires 2 <= radix <= 36
    ensures |r| >= 1
  {
    if n < radix then [DigitChar(n)] else ToDigits(n / radix, radix) + [DigitChar(n % radix)]
  }

  /** `{}` on an unsigned integer. */
  function Decimal(n: nat): string {
    ToDigits(n, 10)
  }

  function Pow(b: nat, e: nat): nat {
    if e == 0 then 1 else b * Pow(b, e - 1)
  }

  lemma {:induction false} IntRunAppend(q: IntScan, a: string, b: string, radix: nat, t: IntType)
    requires 2 <= radix <= 36
    ensures IntRun(q, a + b, radix, t) == IntRun(IntRun(q, a, radix, t), b, radix, t)
    decreases |a|
  {
    if a != [] {
      assert (a + b)[1..] == a[1..] + b;
      IntRunAppend(IntStep(q, a[0], radix, t), a[1..], b, radix, t);
    } else {
      assert a + b == b;
    }
  }

  /** Scanning the digits of `n` from a state that expects a first digit
      accumulates `n`. */
  lemma {:induction false} DigitsRoundTrip(q: IntScan, negative: bool, n: nat, radix: nat, t: IntType)
    requires 2 <= radix <= 36
    requires q == Magnitude(negative, 0) || (q == Minus && negative) || ((q == Plus || q == Begin) && !negative)
    ensures IntRun(q, ToDigits(n, radix), radix, t) == Magnitude(negative, n)
    decreases n
  {
    if n < radix {
      DigitCharValue(n, radix);
      assert [DigitChar(n)][1..] == [];
    } else {
      var h, d := n / radix, n % radix;
      DivMod(n, radix);
      DivLess(n, radix);
      DigitsRoundTrip(q, negative, h, radix, t);
      DigitCharValue(d, radix);
      IntRunAppend(q, ToDigits(h, radix), [DigitChar(d)], radix, t);
      assert [DigitChar(d)][1..] == [];
    }
  }

  /** The digits of `n` are letters and digits only: no sign, no whitespace. */
  lemma {:induction false} DigitsAreDigits(n: nat, radix: nat)
    requires 2 <= radix <= 36
    ensures forall k :: 0 <= k < |ToDigits(n, radix)| ==>
      var c := ToDigits(n, radix)[k];
      !IsWhitespace(c) && c != '+' && c != '-' && (radix <= 10 ==> IsDecimalDigit(c))
    decreases n
  {
    var s := ToDigits(n, radix);
    if n < radix {
      DigitCharValue(n, radix);
    } else {
      var h := ToDigits(n / radix, radix);
      DivLess(n, radix);
      DigitsAreDigits(n / radix, radix);
      DigitCharValue(n % radix, radix);
      assert s == h + [DigitChar(n % radix)];
      forall k | 0 <= k < |s|
        ensures !IsWhitespace(s[k]) && s[k] != '+' && s[k] != '-' && (radix <= 10 ==> IsDecimalDigit(s[k]))
      {
        if k < |h| { assert s[k] == h[k]; }
      }
    }
  }

  /** `n` in base `radix` has at most `e >= 1` digits when `n < radix^e`. */
  lemma {:induction false} DigitsLength(n: nat, radix: nat, e: nat)
    requires 2 <= radix <= 36 && e >= 1 && n < Pow(radix, e)
    ensures |ToDigits(n, radix)| <= e
    decreases e
  {
    assert Pow(radix, 0) == 1;
    if n >= radix {
      assert Pow(radix, 1) == radix;
      var p := Pow(radix, e - 1);
      assert Pow(radix, e) == radix * p;
      DivBelow(n, radix, p);
      DivLess(n, radix);
      DigitsLength(n / radix, radix, e - 1);
      assert |ToDigits(n, radix)| == |ToDigits(n / radix, radix)| + 1;
    }
  }

  lemma DivMod(n: nat, d: nat)
    requires d > 0
    ensures (n / d) * d + n % d == n && n % d < d
  {
  }

  lemma DivLess(n: nat, d: nat)
    requires 2 <= d <= n
    ensures 0 < n / d < n
  {
    var q := n / d;
    assert q * d + n % d == n;
    assert q >= 1;
    assert q * d >= q * 2;
  }

  lemma DivBelow(n: nat, d: nat, m: nat)
    requires d > 0 && n < d * m
    ensures n / d < m
  {
  }

  lemma MulLe(a: int, b: int, c: nat)
    requires a <= b
    ensures a * c <= b * c
  {
  }

  lemma MulMono(a: nat, b: nat, c: nat, d: nat)
    requires a <= b && c <= d
    ensures a * c <= b * d
  {
    MulLe(a, b, c);
    assert b * c <= b * d by { MulLe(c, d, b); }
  }

  /** Powers grow with the base and with the exponent. */
  lemma {:induction false} PowMono(b1: nat, b2: nat, e1: nat, e2: nat)
    requires 1 <= b1 <= b2 && e1 <= e2
    ensures Pow(b1, e1) <= Pow(b2, e2)
    decreases e2
  {
    if e2 == 0 {
    } else if e1 == e2 {
      PowMono(b1, b2, e1 - 1, e2 - 1);
      MulMono(b1, b2, Pow(b1, e1 - 1), Pow(b2, e2 - 1));
    } else {
      PowMono(b1, b2, e1, e2 - 1);
      MulLe(1, b2, Pow(b2, e2 - 1));
    }
  }

  /** Nothing leaves `Invalid`. */
  lemma {:induction false} IntRunInvalid(s: string, radix: nat, t: IntType)
    requires 2 <= radix <= 36
    ensures IntRun(Invalid, s, radix, t) == Invalid
    decreases |s|
  {
    if s != [] {
      IntRunInvalid(s[1..], radix, t);
    }
  }

  /** The magnitude accumulated from `s` is below `(m + 1) * radix^|s|` when
      the scan starts with magnitude `m` (0 before any digit). */
  lemma {:induction false} IntRunBound(q: IntScan, s: string, radix: nat, t: IntType)
    requires 2 <= radix <= 36 && IntRun(q, s, radix, t).Magnitude?
    ensures IntRun(q, s, radix, t).value < (Accumulated(q) + 1) * Pow(radix, |s|)
    decreases |s|
  {
    if s != [] {
      var q' := IntStep(q, s[0], radix, t);
      if q' == Invalid {
        IntRunInvalid(s[1..], radix, t);
      }
      IntRunBound(q', s[1..], radix, t);
      StepAccumulated(q, s[0], radix, t);
      ScaleBound(IntRun(q, s, radix, t).value, Accumulated(q') + 1, Accumulated(q) + 1, radix, Pow(radix, |s| - 1));
    }
  }

  lemma StepAccumulated(q: IntScan, c: char, radix: nat, t: IntType)
    requires 2 <= radix <= 36
    ensures Accumulated(IntStep(q, c, radix, t)) + 1 <= (Accumulated(q) + 1) * radix
  {
    var q' := IntStep(q, c, radix, t);
    if q'.Magnitude? && q.Magnitude? {
      StepBound(q.value, q'.value - q.value * radix, radix, q.value + 1);
    }
  }

  /** `v < b * p` and `b <= a * r` give `v < a * (r * p)`. */
  lemma ScaleBound(v: nat, b: nat, a: nat, r: nat, p: nat)
    requires v < b * p && b <= a * r
    ensures v < a * (r * p)
  {
    MulLe(b, a * r, p);
    assert (a * r) * p == a * (r * p);
  }

  function Accumulated(q: IntScan): nat {
    if q.Magnitude? then q.value else 0
  }

  lemma StepBound(h: nat, d: nat, radix: nat, p: nat)
    requires h < p && d < radix
    ensures h * radix + d < radix * p
  {
    MulLe(h + 1, p, radix);
  }

  /** An unsigned value read from `s` is below `radix^|s|`: a field of `w`
      columns holds at most `w` digits. */
  lemma UnsignedBound(s: string, radix: nat, t: IntType)
    requires 2 <= radix <= 36 && !t.Signed() && FromStrRadix(s, radix, t).Some?
    ensures FromStrRadix(s, radix, t).value < Pow(radix, |s|)
  {
    IntRunBound(Begin, s, radix, t);
  }

  /** Parsing what `{}` prints gives the number back (for every value of `t`'s
      non-negative range). */
  lemma ParseDecimal(n: nat, t: IntType)
    requires n <= t.Max()
    ensures Parse(Decimal(n), t) == Some(n)
  {
    DigitsRoundTrip(Begin, false, n, 10, t);
  }

  /** A signed type reads a minus sign before the digits of `n` as `-n`. */
  lemma ParseNegatedDecimal(n: nat, t: IntType)
    requires t.Signed() && t.Min() <= -(n as int)
    ensures Parse("-" + Decimal(n), t) == Some(-(n as int))
  {
    var d := "-" + Decimal(n);
    assert d[1..] == Decimal(n);
    DigitsRoundTrip(Minus, true, n, 10, t);
  }

  /** Base-16 counterpart: parsing lower-case hex digits gives the number back. */
  lemma ParseHex(n: nat, t: IntType)
    requires n <= t.Max()
    ensures FromStrRadix(ToDigits(n, 16), 16, t) == Some(n)
  {
    DigitsRoundTrip(Begin, false, n, 16, t);
  }

  /** A lone sign, the empty string, a leading `-` on an unsigned type and an
      embedded space are all rejected. */
  lemma ParseRejects(t: IntType)
    ensures Parse("", t) == None && Parse("+", t) == None && Parse("-", t) == None
    ensures !t.Signed() ==> Parse("-1", t) == None
    ensures Parse("1 2", t) == None
  {
    assert "+"[1..] == [] && "-"[1..] == [];
    assert "-1"[1..] == "1" && "1"[1..] == [];
    IntRunInvalid("1", 10, t);
    assert "1 2"[1..] == " 2" && " 2"[1..] == "2";
    IntRunInvalid("2", 10, t);
  }

  /** An unsigned type rejects anything that starts with `-`. */
  lemma UnsignedRejectsMinus(s: string, t: IntType)
    requires !t.Signed()
    ensures Parse("-" + s, t) == None
  {
    var d := "-" + s;
    assert d[1..] == s;
    IntRunInvalid(s, 10, t);
  }

  /** The scan depends on the target type only through its signedness, and
      only at its first character. */
  lemma {:induction false} IntRunSameSign(q: IntScan, s: string, radix: nat, t: IntType, u: IntType)
    requires 2 <= radix <= 36 && (t.Signed() == u.Signed() || q != Begin)
    ensures IntRun(q, s, radix, t) == IntRun(q, s, radix, u)
    decreases |s|
  {
    if s != [] {
      IntRunSameSign(IntStep(q, s[0], radix, t), s[1..], radix, t, u);
    }
  }

  /** Without a leading `-`, signed and unsigned types scan alike. */
  lemma UnsignedScanWithoutMinus(s: string, t: IntType, u: IntType)
    requires s == [] || s[0] != '-'
    ensures IntRun(Begin, s, 10, t) == IntRun(Begin, s, 10, u)
  {
    if s != [] {
      assert IntStep(Begin, s[0], 10, t) == IntStep(Begin, s[0], 10, u);
      IntRunSameSign(IntStep(Begin, s[0], 10, t), s[1..], 10, t, u);
    }
  }

  /** An unsigned scan never accumulates a negative magnitude. */
  lemma {:induction false} UnsignedScanNonNegative(q: IntScan, s: string, radix: nat, t: IntType)
    requires 2 <= radix <= 36 && !t.Signed()
    requires q == Begin || q == Plus || q == Invalid || (q.Magnitude? && !q.negative)
    ensures IntRun(q, s, radix, t).Magnitude? ==> !IntRun(q, s, radix, t).negative
    decreases |s|
  {
    if s != [] {
      UnsignedScanNonNegative(IntStep(q, s[0], radix, t), s[1..], radix, t);
    }
  }

  /** At most four characters that an unsigned type reads are read alike by
      a signed type wide enough for 9999. */
  lemma UnsignedFitsSigned(s: string, u: IntType, t: IntType)
    requires !u.Signed() && t.Signed() && t.Max() >= 9999 && |s| <= 4 && Parse(s, u).Some?
    ensures Parse(s, t) == Parse(s, u)
  {
    if s != [] && s[0] == '-' {
      IntRunInvalid(s[1..], 10, u);
      assert false;
    }
    UnsignedScanWithoutMinus(s, t, u);
    UnsignedScanNonNegative(Begin, s, 10, u);
    UnsignedBound(s, 10, u);
    PowMono(10, 10, |s|, 4);
    assert Pow(10, 4) == 10000;
  }
}
