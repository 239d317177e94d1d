/** SCALE1, SCALE2 and SCALE3 lines (`ScalenRecord::new` and `ScaleN::new`):
    one row of the transformation from orthogonal to fractional
    coordinates. */
module Scalen {
  import opened Text
  import opened Numbers
  import opened Floats
  import opened Columns

  datatype ScalenRecord = ScalenRecord(n: u16, scalen: seq<F32>, un: F32)

  /** The record tagged with its row; the row must be 1, 2 or 3. */
  datatype ScaleN = Scale1(record: ScalenRecord) | Scale2(record: ScalenRecord) | Scale3(record: ScalenRecord)

  function Row(s: ScaleN): (k: nat)
    ensures 1 <= k <= 3
  {
    match s
    case Scale1(_) => 1
    case Scale2(_) => 2
    case Scale3(_) => 3
  }

  /** The row number is the character after `SCALE` counted from `'0'` (a
      `u16` subtraction); the floats are read leniently, so the line fails
      only when it is shorter than the `un` column or that character lies
      below `'0'`. */
  function New(line: string): (r: Decoded<ScalenRecord>)
    ensures r.Done? <==> |line| >= 55 && line[5] as int % 0x1_0000 >= 48
    ensures r.Done? ==> r.value.n as int == line[5] as int % 0x1_0000 - 48
    ensures r.Done? ==>
      r.value.scalen == [LenientFloat(line[10..20]), LenientFloat(line[20..30]), LenientFloat(line[30..40])]
    ensures r.Done? ==> r.value.un == LenientFloat(line[45..55])
  {
    var n :- CodeU16Minus48(line, 5);
    if |line| >= 55 then
      Done(ScalenRecord(n, [FloatOr0(line, 10, 20).value, FloatOr0(line, 20, 30).value, FloatOr0(line, 30, 40).value],
        FloatOr0(line, 45, 55).value))
    else
      Panic
  }

  /** `ScaleN::new`: the record under the variant for its row, and a panic
      for any other row number. */
  function Family(line: string): (r: Decoded<ScaleN>)
    ensures r.Done? <==> New(line).Done? && 1 <= New(line).value.n <= 3
    ensures r.Done? ==> r.value.record == New(line).value && Row(r.value) == New(line).value.n as int
  {
    var record :- New(line);
    match record.n
    case 1 => Done(Scale1(record))
    case 2 => Done(Scale2(record))
    case 3 => Done(Scale3(record))
    case _ => Panic
  }

  /** A line whose tag ends in the digit `d` decodes to the variant for row
      `d` when `d` is 1, 2 or 3 and the line reaches the `un` column, and
      fails for every other digit. */
  lemma RowOfTag(line: string, d: nat)
    requires |line| >= 55 && d < 10 && line[5] == DigitChar(d)
    ensures Family(line).Done? <==> 1 <= d <= 3
    ensures Family(line).Done? ==> Row(Family(line).value) == d
  {
    CodeOfDigit(line, 5, d);
  }

  /** A blank float column reads as 0. */
  lemma BlankColumnIsZero(line: string)
    requires New(line).Done? && IsBlank(line[45..55])
    ensures New(line).value.un == Zero
  {
    TrimEmptyIffBlank(line[45..55]);
    LeadingBlankRejected([]);
  }

  /** The crate's SCALEn test line: row 1 under `Scale1`, with its three factors and `un`. */
  lemma TestLine(line: string)
    requires |line| == 80 && line[5] == '1' && line[10..20] == "  0.019231"
    requires line[20..30] == "  0.000000" && line[30..40] == "  0.000000"
    requires line[45..55] == "   0.00000"
    ensures New(line).Done? && New(line).value.n == 1
    ensures New(line).value.scalen == [Value("0.019231"), Value("0.000000"), Value("0.000000")]
    ensures New(line).value.un == Value("0.00000")
    ensures Family(line).Done? && Family(line).value.Scale1?
  {
    CodeOfDigit(line, 5, 1);
    TestLineColumns0(line);
  }

  lemma TestLineColumns0(line: string)
    requires |line| >= 55 && line[10..20] == "  0.019231" && line[20..30] == "  0.000000"
    requires line[30..40] == "  0.000000" && line[45..55] == "   0.00000"
    ensures MustFloat(line, 10, 20) == Done(Value("0.019231"))
    ensures FloatOr0(line, 10, 20) == Done(Value("0.019231"))
    ensures MustFloat(line, 20, 30) == Done(Value("0.000000"))
    ensures FloatOr0(line, 20, 30) == Done(Value("0.000000"))
    ensures MustFloat(line, 30, 40) == Done(Value("0.000000"))
    ensures FloatOr0(line, 30, 40) == Done(Value("0.000000"))
    ensures MustFloat(line, 45, 55) == Done(Value("0.00000"))
    ensures FloatOr0(line, 45, 55) == Done(Value("0.00000"))
  {
    TestLineFloat10();
    TestLineCol10();
    TestLineFloat20();
    TestLineCol20();
    TestLineFloat30();
    TestLineCol30();
    TestLineFloat45();
    TestLineCol45();
    FloatColumnIs(line, 10, 20, "  0.019231", "0.019231");
    FloatColumnIs(line, 20, 30, "  0.000000", "0.000000");
    FloatColumnIs(line, 30, 40, "  0.000000", "0.000000");
    FloatColumnIs(line, 45, 55, "   0.00000", "0.00000");
  }

  lemma TestLineFloat10()
    ensures IsFloatLiteral("0.019231")
  {
  }

  lemma TestLineCol10()
    ensures Trim("  0.019231") == "0.019231"
  {
  }

  lemma TestLineFloat20()
    ensures IsFloatLiteral("0.000000")
  {
  }

  lemma TestLineCol20()
    ensures Trim("  0.000000") == "0.000000"
  {
  }

  lemma TestLineFloat30()
    ensures IsFloatLiteral("0.000000")
  {
  }

  lemma TestLineCol30()
    ensures Trim("  0.000000") == "0.000000"
  {
  }

  lemma TestLineFloat45()
    ensures IsFloatLiteral("0.00000")
  {
  }

  lemma TestLineCol45()
    ensures Trim("   0.00000") == "0.00000"
  {
  }
}
