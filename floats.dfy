/** Rust's `str::parse::<f32>`, as far as the record codecs depend on it:
    which texts it accepts. The numeric value is not modelled; an accepted
    field keeps its lexeme, and `f32::default()` is `Zero`. */
module Floats {
  import opened Text

  datatype F32 = Value(lexeme: string) | Zero

  predicate IsDigit(c: char) {
    '0' <= c <= '9'
  }

  predicate IsDigits(s: string) {
    forall k :: 0 <= k < |s| ==> IsDigit(s[k])
  }

  /** The states of a left-to-right scan of a decimal literal: an optional
      sign, `Digit+`, `Digit+ '.' Digit*` or `Digit* '.' Digit+`, then an
      optional exponent `[eE] Sign? Digit+`. */
  datatype Scan =
    | Start | Signed | IntDigits | PointAfterInt | PointOnly | FracDigits
    | ExpMark | ExpSign | ExpDigits | Reject

  function Step(q: Scan, c: char): Scan {
    match q
    case Start =>
      if c == '+' || c == '-' then Signed else if IsDigit(c) then IntDigits
      else if c == '.' then PointOnly else Reject
    case Signed =>
      if IsDigit(c) then IntDigits else if c == '.' then PointOnly else Reject
    case IntDigits =>
      if IsDigit(c) then IntDigits else if c == '.' then PointAfterInt
      else if c == 'e' || c == 'E' then ExpMark else Reject
    case PointAfterInt =>
      if IsDigit(c) then FracDigits else if c == 'e' || c == 'E' then ExpMark else Reject
    case PointOnly =>
      if IsDigit(c) then FracDigits else Reject
    case FracDigits =>
      if IsDigit(c) then FracDigits else if c == 'e' || c == 'E' then ExpMark else Reject
    case ExpMark =>
      if c == '+' || c == '-' then ExpSign else if IsDigit(c) then ExpDigits else Reject
    case ExpSign =>
      if IsDigit(c) then ExpDigits else Reject
    case ExpDigits =>
      if IsDigit(c) then ExpDigits else Reject
    case Reject => Reject
  }

  function Run(q: Scan, s: string): Scan
    decreases |s|
  {
    if s == [] then q else Run(Step(q, s[0]), s[1..])
  }

  /** The states in which a complete number has been read. */
  predicate Accepting(q: Scan) {
    q == IntDigits || q == PointAfterInt || q == FracDigits || q == ExpDigits
  }

  function LowerAscii(c: char): char {
    if 'A' <= c <= 'Z' then (c as int - 'A' as int + 'a' as int) as char else c
  }

  /** ASCII case-insensitive equality with a lower-case word. */
  predicate WordIgnoringCase(s: string, word: string) {
    if s == [] || word == [] then s == word
    else LowerAscii(s[0]) == word[0] && WordIgnoringCase(s[1..], word[1..])
  }

  predicate HasSign(s: string) {
    |s| > 0 && (s[0] == '+' || s[0] == '-')
  }

  /** An optional sign, then `inf`, `infinity` or `nan` in any case. */
  predicate IsSpecial(s: string) {
    var body := if HasSign(s) then s[1..] else s;
    WordIgnoringCase(body, "inf") || WordIgnoringCase(body, "infinity") || WordIgnoringCase(body, "nan")
  }

  /** What `str::parse::<f32>` accepts. No surrounding whitespace is allowed. */
  predicate IsFloatLiteral(s: string) {
    Accepting(Run(Start, s)) || IsSpecial(s)
  }

  function ParseF32(s: string): Option<F32> {
    if IsFloatLiteral(s) then Some(Value(s)) else None
  }

  lemma {:induction false} RunAppend(q: Scan, a: string, b: string)
    ensures Run(q, a + b) == Run(Run(q, a), b)
    decreases |a|
  {
    if a != [] {
      assert (a + b)[1..] == a[1..] + b;
      RunAppend(Step(q, a[0]), a[1..], b);
    } else {
      assert a + b == b;
    }
  }

  /** A run of digits keeps a digit state where it is. */
  lemma {:induction false} RunDigits(q: Scan, d: string)
    requires q == IntDigits || q == FracDigits || q == ExpDigits
    requires IsDigits(d)
    ensures Run(q, d) == q
    decreases |d|
  {
    if d != [] {
      assert IsDigit(d[0]);
      RunDigits(q, d[1..]);
    }
  }

  /** No state leaves `Reject`. */
  lemma {:induction false} RunReject(s: string)
    ensures Run(Reject, s) == Reject
    decreases |s|
  {
    if s != [] {
      RunReject(s[1..]);
    }
  }

  /** A text that starts with a blank is not a float; in particular an empty
      or blank field is not. */
  lemma LeadingBlankRejected(s: string)
    requires s == [] || IsWhitespace(s[0])
    ensures ParseF32(s) == None
  {
    if s != [] {
      assert Step(Start, s[0]) == Reject;
      RunReject(s[1..]);
      assert LowerAscii(s[0]) == s[0];
    }
  }

  /** An optionally signed fixed-point number with digits on at least one side
      of the point (the shape of every coordinate and factor column) is
      accepted as it stands. */
  lemma PointNumberAccepted(sign: string, a: string, b: string)
    requires sign == [] || sign == "-" || sign == "+"
    requires IsDigits(a) && IsDigits(b) && |a| + |b| >= 1
    ensures ParseF32(sign + a + "." + b) == Some(Value(sign + a + "." + b))
  {
    var s := sign + a + "." + b;
    var q0 := Run(Start, sign);
    assert q0 == Start || q0 == Signed by {
      if sign != [] {
        assert sign[0] == '-' || sign[0] == '+';
        assert sign[1..] == [];
        assert Run(Start, sign) == Run(Signed, []);
      }
    }
    assert s == sign + (a + ("." + b));
    RunAppend(Start, sign, a + ("." + b));
    RunAppend(q0, a, "." + b);
    var q1 := Run(q0, a);
    assert ("." + b)[1..] == b;
    if a == [] {
      assert Run(q1, "." + b) == Run(PointOnly, b);
      assert Run(PointOnly, b) == Run(FracDigits, b[1..]) by { assert IsDigit(b[0]); }
      RunDigits(FracDigits, b[1..]);
    } else {
      assert Run(q0, a) == Run(IntDigits, a[1..]) by { assert IsDigit(a[0]); }
      RunDigits(IntDigits, a[1..]);
      assert Run(q1, "." + b) == Run(PointAfterInt, b);
      if b != [] {
        assert Run(PointAfterInt, b) == Run(FracDigits, b[1..]) by { assert IsDigit(b[0]); }
        RunDigits(FracDigits, b[1..]);
      }
    }
  }

  /** `Digit+` alone is accepted too. */
  lemma IntegerAccepted(a: string)
    requires IsDigits(a) && |a| >= 1
    ensures ParseF32(a) == Some(Value(a))
  {
    assert Run(Start, a) == Run(IntDigits, a[1..]) by { assert IsDigit(a[0]); }
    RunDigits(IntDigits, a[1..]);
  }

  /** Neither a bare point nor a number with an empty exponent is a float. */
  lemma IncompleteRejected(a: string)
    requires IsDigits(a) && |a| >= 1
    ensures ParseF32(".") == None
    ensures ParseF32(a + "e") == None
  {
    assert Run(Start, ".") == PointOnly by { assert "."[1..] == []; }
    assert !WordIgnoringCase(".", "inf") && !WordIgnoringCase(".", "nan") && !WordIgnoringCase(".", "infinity");
    var s := a + "e";
    RunAppend(Start, a, "e");
    assert Run(Start, a) == IntDigits by {
      assert Run(Start, a) == Run(IntDigits, a[1..]) by { assert IsDigit(a[0]); }
      RunDigits(IntDigits, a[1..]);
    }
    assert Run(IntDigits, "e") == ExpMark by { assert "e"[1..] == []; }
    assert s[0] == a[0];
    assert LowerAscii(s[0]) == s[0];
  }
}
