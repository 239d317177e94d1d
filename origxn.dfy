/** ORIGX1, ORIGX2 and ORIGX3 lines (`OrigxnRecord::new` and `OrigxN::new`
    of the top-level `src/records`): one row of the transformation from
    orthogonal to submitted coordinates. */
module Origxn {
  import opened Text
  import opened Numbers
  import opened Floats
  import opened Columns

  datatype OrigxnRecord = OrigxnRecord(n: u16, origxn: seq<F32>, tn: F32)

  /** The record tagged with its row; the row must be 1, 2 or 3. */
  datatype OrigxN = Origx1(record: OrigxnRecord) | Origx2(record: OrigxnRecord) | Origx3(record: OrigxnRecord)

  function Row(s: OrigxN): (k: nat)
    ensures 1 <= k <= 3
  {
    match s
    case Origx1(_) => 1
    case Origx2(_) => 2
    case Origx3(_) => 3
  }

  /** The row number is the character after `ORIGX` counted from `'0'` (a
      `u16` subtraction); the floats are read leniently, so the line fails
      only when it is shorter than the `tn` column or that character lies
      below `'0'`. */
  function New(line: string): (r: Decoded<OrigxnRecord>)
    ensures r.Done? <==> |line| >= 55 && line[5] as int % 0x1_0000 >= 48
    ensures r.Done? ==> r.value.n as int == line[5] as int % 0x1_0000 - 48
    ensures r.Done? ==>
      r.value.origxn == [LenientFloat(line[10..20]), LenientFloat(line[20..30]), LenientFloat(line[30..40])]
    ensures r.Done? ==> r.value.tn == LenientFloat(line[45..55])
  {
    var n :- CodeU16Minus48(line, 5);
    if |line| >= 55 then
      Done(OrigxnRecord(n, [FloatOr0(line, 10, 20).value, FloatOr0(line, 20, 30).value, FloatOr0(line, 30, 40).value],
        FloatOr0(line, 45, 55).value))
    else
      Panic
  }

  /** `OrigxN::new`: the record under the variant for its row, and a panic
      for any other row number. */
  function Family(line: string): (r: Decoded<OrigxN>)
    ensures r.Done? <==> New(line).Done? && 1 <= New(line).value.n <= 3
    ensures r.Done? ==> r.value.record == New(line).value && Row(r.value) == New(line).value.n as int
  {
    var record :- New(line);
    match record.n
    case 1 => Done(Origx1(record))
    case 2 => Done(Origx2(record))
    case 3 => Done(Origx3(record))
    case _ => Panic
  }

  /** A line whose tag ends in the digit `d` decodes to the variant for row
      `d` when `d` is 1, 2 or 3 and the line reaches the `tn` column, and
      fails for every other digit. */
  lemma RowOfTag(line: string, d: nat)
    requires |line| >= 55 && d < 10 && line[5] == DigitChar(d)
    ensures Family(line).Done? <==> 1 <= d <= 3
    ensures Family(line).Done? ==> Row(Family(line).value) == d
  {
    CodeOfDigit(line, 5, d);
  }

  /** A blank float column reads as 0. */
  lemma BlankColumnIsZero(line: string)
    requires New(line).Done? && IsBlank(line[45..55])
    ensures New(line).value.tn == Zero
  {
    TrimEmptyIffBlank(line[45..55]);
    LeadingBlankRejected([]);
  }

  /** The crate's ORIGXn test line: row 1 under `Origx1`, with its three factors and `tn`. */
  lemma TestLine(line: string)
    requires |line| == 80 && line[5] == '1' && line[10..20] == "  0.963457"
    requires line[20..30] == "  0.136613" && line[30..40] == "  0.230424"
    requires line[45..55] == "  16.61000"
    ensures New(line).Done? && New(line).value.n == 1
    ensures New(line).value.origxn == [Value("0.963457"), Value("0.136613"), Value("0.230424")]
    ensures New(line).value.tn == Value("16.61000")
    ensures Family(line).Done? && Family(line).value.Origx1?
  {
    CodeOfDigit(line, 5, 1);
    TestLineColumns0(line);
  }

  lemma TestLineColumns0(line: string)
    requires |line| >= 55 && line[10..20] == "  0.963457" && line[20..30] == "  0.136613"
    requires line[30..40] == "  0.230424" && line[45..55] == "  16.61000"
    ensures MustFloat(line, 10, 20) == Done(Value("0.963457"))
    ensures FloatOr0(line, 10, 20) == Done(Value("0.963457"))
    ensures MustFloat(line, 20, 30) == Done(Value("0.136613"))
    ensures FloatOr0(line, 20, 30) == Done(Value("0.136613"))
    ensures MustFloat(line, 30, 40) == Done(Value("0.230424"))
    ensures FloatOr0(line, 30, 40) == Done(Value("0.230424"))
    ensures MustFloat(line, 45, 55) == Done(Value("16.61000"))
    ensures FloatOr0(line, 45, 55) == Done(Value("16.61000"))
  {
    TestLineFloat10();
    TestLineCol10();
    TestLineFloat20();
    TestLineCol20();
    TestLineFloat30();
    TestLineCol30();
    TestLineFloat45();
    TestLineCol45();
    FloatColumnIs(line, 10, 20, "  0.963457", "0.963457");
    FloatColumnIs(line, 20, 30, "  0.136613", "0.136613");
    FloatColumnIs(line, 30, 40, "  0.230424", "0.230424");
    FloatColumnIs(line, 45, 55, "  16.61000", "16.61000");
  }

  lemma TestLineFloat10()
    ensures IsFloatLiteral("0.963457")
  {
  }

  lemma TestLineCol10()
    ensures Trim("  0.963457") == "0.963457"
  {
  }

  lemma TestLineFloat20()
    ensures IsFloatLiteral("0.136613")
  {
  }

  lemma TestLineCol20()
    ensures Trim("  0.136613") == "0.136613"
  {
  }

  lemma TestLineFloat30()
    ensures IsFloatLiteral("0.230424")
  {
  }

  lemma TestLineCol30()
    ensures Trim("  0.230424") == "0.230424"
  {
  }

  lemma TestLineFloat45()
    ensures IsFloatLiteral("16.61000")
  {
  }

  lemma TestLineCol45()
    ensures Trim("  16.61000") == "16.61000"
  {
  }
}
