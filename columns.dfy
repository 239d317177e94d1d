/** Fixed-column field access on one line of a PDB file, with Rust's failure
    behaviour made explicit: slicing past the end of the line
    (`line[a..b]`), `unwrap` on a failed parse and the codecs' own `panic!`s
    all give `Panic`, which stops the whole decode. */
module Columns {
  import opened Text
  import opened Numbers
  import opened Floats

  /** The result of a codec: a value, or a Rust panic. */
  datatype Decoded<+T> = Done(value: T) | Panic {
    predicate IsFailure() {
      Panic?
    }
    function PropagateFailure<U>(): Decoded<U>
      requires IsFailure()
    {
      Panic
    }
    function Extract(): T
      requires Done?
    {
      value
    }
  }

  /** `TryFrom<&str>` outcomes: a record, an error message, or a panic inside
      the codec the line was routed to. */
  datatype Outcome<+T> = Ok(record: T) | Err(message: string) | Panicked

  /** The `Ok` or panic outcome of a codec whose record is wrapped by `wrap`. */
  function Route<T, R>(d: Decoded<T>, wrap: T -> R): (r: Outcome<R>)
    ensures r.Ok? <==> d.Done?
    ensures r.Ok? ==> r.record == wrap(d.value)
    ensures !r.Err?
  {
    match d
    case Done(v) => Ok(wrap(v))
    case Panic => Panicked
  }

  /** A one-character column read with `trim().parse::<char>().ok()`. */
  function CharOrNone(c: char): Option<char> {
    if IsWhitespace(c) then None else Some(c)
  }

  /** `line[a..b]`: panics unless `a <= b <= |line|`. */
  function Slice(line: string, a: nat, b: nat): (r: Decoded<string>)
    ensures r.Done? <==> a <= b <= |line|
    ensures r.Done? ==> r.value == line[a..b]
  {
    if a <= b <= |line| then Done(line[a..b]) else Panic
  }

  /** `line.get(a..b)`: `None` where the slice would panic. */
  function Get(line: string, a: nat, b: nat): (r: Option<string>)
    ensures r.Some? <==> a <= b <= |line|
    ensures r.Some? ==> r.value == line[a..b]
  {
    if a <= b <= |line| then Some(line[a..b]) else None
  }

  /** `line.chars().nth(i).unwrap()`: the raw character, untrimmed. */
  function CharAt(line: string, i: nat): (r: Decoded<char>)
    ensures r.Done? <==> i < |line|
    ensures r.Done? ==> r.value == line[i]
  {
    if i < |line| then Done(line[i]) else Panic
  }

  /** `line[a..b].trim()`. */
  function Field(line: string, a: nat, b: nat): (r: Decoded<string>)
    ensures r.Done? <==> a <= b <= |line|
    ensures r.Done? ==> r.value == Trim(line[a..b])
  {
    if a <= b <= |line| then Done(Trim(line[a..b])) else Panic
  }

  /** `line[a..].trim()`: the rest of the line, of any length. */
  function FieldFrom(line: string, a: nat): (r: Decoded<string>)
    ensures r.Done? <==> a <= |line|
    ensures r.Done? ==> r.value == Trim(line[a..])
  {
    if a <= |line| then Done(Trim(line[a..])) else Panic
  }

  /** `line.get(a..b).map(trim).filter(non-empty)`: never panics; `None` for
      a line too short or a blank slice. */
  function OptField(line: string, a: nat, b: nat): (r: Option<string>)
    ensures r.Some? <==> a <= b <= |line| && !IsBlank(line[a..b])
    ensures r.Some? ==> r.value == Trim(line[a..b]) && r.value != []
  {
    match Get(line, a, b)
    case None => None
    case Some(s) =>
      assert s == line[a..b];
      TrimEmptyIffBlank(s);
      var t := Trim(s);
      if t == [] then None else Some(t)
  }

  /** `None` when the slice is out of range or blank, else the trimmed slice. */
  predicate OptionalColumn(v: Option<string>, line: string, a: nat, b: nat)
    requires a <= b
  {
    if b <= |line| && !IsBlank(line[a..b]) then v == Some(Trim(line[a..b])) else v == None
  }

  /** `line[i..i + 1].trim().parse::<char>().ok()`: `None` for a blank
      column (`OptCharIsTrimParse` relates it to the Rust composition). */
  function OptChar(line: string, i: nat): (r: Decoded<Option<char>>)
    ensures r.Done? <==> i < |line|
    ensures r.Done? ==> (r.value == None <==> IsWhitespace(line[i]))
    ensures r.Done? && r.value.Some? ==> r.value.value == line[i]
  {
    if i < |line| then Done(CharOrNone(line[i])) else Panic
  }

  /** Trimming a one-column slice and parsing it as a `char` is `OptChar`. */
  lemma OptCharIsTrimParse(line: string, i: nat)
    requires i < |line|
    ensures OptChar(line, i) == Done(ParseChar(Trim(line[i..i + 1])))
  {
    assert line[i..i + 1] == [line[i]];
    TrimOneChar(line[i]);
  }

  /** `line[i..i + 1].trim().parse::<char>().unwrap()`: a blank column panics. */
  function MustChar(line: string, i: nat): (r: Decoded<char>)
    ensures r.Done? <==> i < |line| && !IsWhitespace(line[i])
    ensures r.Done? ==> r.value == line[i]
  {
    if i < |line| && !IsWhitespace(line[i]) then Done(line[i]) else Panic
  }

  /** `MustChar` is `unwrap` on trimming the one-column slice and parsing it
      as a `char`: it succeeds exactly when that parse does, with its value. */
  lemma MustCharIsTrimParse(line: string, i: nat)
    requires i < |line|
    ensures MustChar(line, i).Done? <==> ParseChar(Trim(line[i..i + 1])).Some?
    ensures MustChar(line, i).Done? ==> MustChar(line, i).value == ParseChar(Trim(line[i..i + 1])).value
  {
    OptCharIsTrimParse(line, i);
  }

  /** `line[a..b].trim().parse::<t>().ok()`. */
  function OptInt(line: string, a: nat, b: nat, t: IntType): (r: Decoded<Option<int>>)
    ensures r.Done? <==> a <= b <= |line|
    ensures r.Done? ==> r.value == Parse(Trim(line[a..b]), t)
  {
    if a <= b <= |line| then Done(Parse(Trim(line[a..b]), t)) else Panic
  }

  /** `line[a..b].trim().parse::<t>().unwrap_or_default()`. */
  function IntOr0(line: string, a: nat, b: nat, t: IntType): (r: Decoded<int>)
    ensures r.Done? <==> a <= b <= |line|
    ensures r.Done? ==> t.Min() <= r.value <= t.Max()
    ensures r.Done? ==> r.value == (if Parse(Trim(line[a..b]), t).Some? then Parse(Trim(line[a..b]), t).value else 0)
  {
    if a <= b <= |line| then Done(Parse(Trim(line[a..b]), t).GetOr(0)) else Panic
  }

  /** The column `[a, b)` exists and holds an integer of type `t`. */
  predicate ReadsInt(line: string, a: nat, b: nat, t: IntType) {
    a <= b <= |line| && Parse(Trim(line[a..b]), t).Some?
  }

  /** The column `[a, b)` exists and holds a float literal. */
  predicate ReadsFloat(line: string, a: nat, b: nat) {
    a <= b <= |line| && IsFloatLiteral(Trim(line[a..b]))
  }

  /** `line[a..b].trim().parse::<t>().unwrap()`. */
  function MustInt(line: string, a: nat, b: nat, t: IntType): (r: Decoded<int>)
    ensures r.Done? <==> ReadsInt(line, a, b, t)
    ensures r.Done? ==> t.Min() <= r.value <= t.Max() && Parse(Trim(line[a..b]), t) == Some(r.value)
  {
    if ReadsInt(line, a, b, t) then Done(Parse(Trim(line[a..b]), t).value) else Panic
  }

  /** `line[a..b].trim().parse::<f32>().unwrap_or_default()`. */
  function FloatOr0(line: string, a: nat, b: nat): (r: Decoded<F32>)
    ensures r.Done? <==> a <= b <= |line|
    ensures r.Done? ==> r.value == (if IsFloatLiteral(Trim(line[a..b])) then Value(Trim(line[a..b])) else Zero)
  {
    if a <= b <= |line| then Done(ParseF32(Trim(line[a..b])).GetOr(Zero)) else Panic
  }

  /** `line[a..b].trim().parse::<f32>().unwrap()`. */
  function MustFloat(line: string, a: nat, b: nat): (r: Decoded<F32>)
    ensures r.Done? <==> ReadsFloat(line, a, b)
    ensures r.Done? ==> r.value == Value(Trim(line[a..b]))
  {
    if ReadsFloat(line, a, b) then Done(Value(Trim(line[a..b]))) else Panic
  }

  /** Reading a column that holds `pad + v + post`, blanks around a trimmed
      value, gives `v`. */
  lemma FieldIs(line: string, a: nat, b: nat, pad: string, v: string, post: string)
    requires a <= b <= |line| && line[a..b] == pad + v + post
    requires IsBlank(pad) && IsBlank(post) && Trimmed(v)
    ensures Field(line, a, b) == Done(v)
  {
    TrimPadded(pad, v, post);
  }

  /** The fields of a column never depend on characters outside it. */
  lemma FieldLocal(line: string, other: string, a: nat, b: nat)
    requires a <= b <= |line| && b <= |other| && line[a..b] == other[a..b]
    ensures Field(line, a, b) == Field(other, a, b)
    ensures OptField(line, a, b) == OptField(other, a, b)
  {
  }

  /** A column holding blanks and then the decimal digits of `n` reads as `n`
      wherever `n` fits the target type. */
  lemma DecimalColumn(line: string, a: nat, b: nat, pad: string, n: nat, t: IntType)
    requires a <= b <= |line| && line[a..b] == pad + Decimal(n)
    requires IsBlank(pad) && n <= t.Max()
    ensures MustInt(line, a, b, t) == Done(n) && IntOr0(line, a, b, t) == Done(n)
    ensures OptInt(line, a, b, t) == Done(Some(n))
  {
    DigitsAreDigits(n, 10);
    var d := Decimal(n);
    assert Trimmed(d);
    FieldIs(line, a, b, pad, d, []);
    assert pad + d + [] == pad + d;
    ParseDecimal(n, t);
  }

  /** A column holding blanks, a minus sign and the digits of `n` reads as
      `-n` for a signed type that holds it. */
  lemma NegativeColumn(line: string, a: nat, b: nat, pad: string, n: nat, t: IntType)
    requires a <= b <= |line| && line[a..b] == pad + ("-" + Decimal(n))
    requires IsBlank(pad) && n >= 1 && t.Signed() && t.Min() <= -(n as int)
    ensures MustInt(line, a, b, t) == Done(-(n as int))
  {
    var d := "-" + Decimal(n);
    NegativeTrimmed(n);
    FieldIs(line, a, b, pad, d, []);
    assert pad + d + [] == pad + d;
    ParseNegatedDecimal(n, t);
  }

  lemma NegativeTrimmed(n: nat)
    ensures Trimmed("-" + Decimal(n))
  {
    DigitsAreDigits(n, 10);
    var d := "-" + Decimal(n);
    assert d[|d| - 1] == Decimal(n)[|Decimal(n)| - 1];
  }

  /** A column holding blanks and then an optionally signed fixed-point
      number reads as that number. */
  lemma PointColumn(line: string, a: nat, b: nat, pad: string, sign: string, ip: string, fp: string)
    requires a <= b <= |line| && line[a..b] == pad + (sign + ip + "." + fp)
    requires IsBlank(pad) && (sign == [] || sign == "-" || sign == "+")
    requires IsDigits(ip) && IsDigits(fp) && |ip| + |fp| >= 1
    ensures MustFloat(line, a, b) == Done(Value(sign + ip + "." + fp))
    ensures FloatOr0(line, a, b) == Done(Value(sign + ip + "." + fp))
  {
    var v := sign + ip + "." + fp;
    PointTrimmed(sign, ip, fp);
    FieldIs(line, a, b, pad, v, []);
    assert pad + v + [] == pad + v;
    PointNumberAccepted(sign, ip, fp);
  }

  lemma PointTrimmed(sign: string, ip: string, fp: string)
    requires sign == [] || sign == "-" || sign == "+"
    requires IsDigits(ip) && IsDigits(fp)
    ensures Trimmed(sign + ip + "." + fp)
  {
    var v := sign + ip + "." + fp;
    assert v[|sign| + |ip|] == '.';
    if sign != [] {
      assert v[0] == sign[0];
    } else if ip != [] {
      assert v[0] == ip[0];
    }
    if fp != [] {
      assert v[|v| - 1] == fp[|fp| - 1];
    }
  }

  /** A column that holds the text `s`, which trims to `v`, reads as `v`;
      a column is optional exactly when `v` is empty. */
  lemma TextColumnIs(line: string, a: nat, b: nat, s: string, v: string)
    requires a <= b <= |line| && line[a..b] == s && Trim(s) == v
    ensures Field(line, a, b) == Done(v)
    ensures OptField(line, a, b) == if v == [] then None else Some(v)
  {
    TrimEmptyIffBlank(s);
  }

  /** A column that holds the text `s`, which parses as `n`, reads as `n`
      whichever way it is read. */
  lemma IntColumnIs(line: string, a: nat, b: nat, s: string, t: IntType, n: int)
    requires a <= b <= |line| && line[a..b] == s && Parse(Trim(s), t) == Some(n)
    ensures MustInt(line, a, b, t) == Done(n) && IntOr0(line, a, b, t) == Done(n)
    ensures OptInt(line, a, b, t) == Done(Some(n))
  {
  }

  /** A column that holds text trimming to a float literal `v` reads as `v`. */
  lemma FloatColumnIs(line: string, a: nat, b: nat, s: string, v: string)
    requires a <= b <= |line| && line[a..b] == s && Trim(s) == v && IsFloatLiteral(v)
    ensures MustFloat(line, a, b) == Done(Value(v)) && FloatOr0(line, a, b) == Done(Value(v))
  {
  }

  /** A column that holds the rest of the line, `s`, trimming to `v`,
      reads as `v`. */
  lemma RestColumnIs(line: string, a: nat, s: string, v: string)
    requires a <= |line| && line[a..] == s && Trim(s) == v
    ensures FieldFrom(line, a) == Done(v)
  {
  }

  /** What a lenient float column holds: its float, or 0. */
  function LenientFloat(s: string): F32 {
    if IsFloatLiteral(Trim(s)) then Value(Trim(s)) else Zero
  }

  /** `line.chars().nth(i).unwrap() as u16 - 48`: the cast keeps the low 16
      bits of the code point, and the subtraction panics below zero (the
      behaviour of a debug build). */
  function CodeU16Minus48(line: string, i: nat): (r: Decoded<u16>)
    ensures r.Done? <==> i < |line| && line[i] as int % 0x1_0000 >= 48
  {
    if i < |line| && line[i] as int % 0x1_0000 >= 48 then Done(line[i] as int % 0x1_0000 - 48) else Panic
  }

  /** `line.chars().nth(i).unwrap() as u32 - 48`: every code point fits
      `u32`, and the subtraction panics below zero. */
  function CodeU32Minus48(line: string, i: nat): (r: Decoded<u32>)
    ensures r.Done? <==> i < |line| && line[i] as int >= 48
  {
    if i < |line| && line[i] as int >= 48 then Done(line[i] as int - 48) else Panic
  }

  /** On a decimal digit both subtractions give the digit's value. */
  lemma CodeOfDigit(line: string, i: nat, d: nat)
    requires i < |line| && d < 10 && line[i] == DigitChar(d)
    ensures CodeU16Minus48(line, i) == Done(d) && CodeU32Minus48(line, i) == Done(d)
  {
  }

  /** A character below `'0'`, a blank included, makes both fail. */
  lemma CodeBelowZero(line: string, i: nat)
    requires i < |line| && line[i] as int < 48
    ensures CodeU16Minus48(line, i) == Panic && CodeU32Minus48(line, i) == Panic
  {
  }
}
