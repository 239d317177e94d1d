/** MTRIX1, MTRIX2 and MTRIX3 lines (`MtrixnRecord::from` and `MtrixN::new`
    of the top-level `src/records`): one row of a non-crystallographic
    symmetry operation. */
module Mtrixn {
  import opened Text
  import opened Numbers
  import opened Floats
  import opened Columns

  datatype MtrixnRecord = MtrixnRecord(n: u32, serialNumber: u32, matrix: seq<F32>, vn: F32, iGiven: bool)

  /** The record tagged with its row; the row must be 1, 2 or 3. */
  datatype MtrixN = Mtrix1(record: MtrixnRecord) | Mtrix2(record: MtrixnRecord) | Mtrix3(record: MtrixnRecord)

  function Row(m: MtrixN): (k: nat)
    ensures 1 <= k <= 3
  {
    match m
    case Mtrix1(_) => 1
    case Mtrix2(_) => 2
    case Mtrix3(_) => 3
  }

  /** The columns a successful decode needs: a row character not below
      `'0'`, a `u32` serial number, four floats and a line reaching column
      60, where the `iGiven` flag sits. */
  predicate Decodable(line: string) {
    |line| >= 60 && line[5] as int >= 48 && ReadsInt(line, 7, 10, U32) &&
    ReadsFloat(line, 10, 20) && ReadsFloat(line, 20, 30) && ReadsFloat(line, 30, 40) && ReadsFloat(line, 45, 55)
  }

  /** Every column is read strictly: the row number is the character after
      `MTRIX` counted from `'0'` (a `u32` subtraction), and `iGiven` holds
      exactly when column 59 is `1`. */
  function New(line: string): (r: Decoded<MtrixnRecord>)
    ensures r.Done? <==> Decodable(line)
    ensures r.Done? ==> r.value.n as int == line[5] as int - 48
    ensures r.Done? ==> Parse(Trim(line[7..10]), U32) == Some(r.value.serialNumber as int)
    ensures r.Done? ==>
      r.value.matrix == [Value(Trim(line[10..20])), Value(Trim(line[20..30])), Value(Trim(line[30..40]))]
    ensures r.Done? ==> r.value.vn == Value(Trim(line[45..55])) && (r.value.iGiven <==> line[59] == '1')
  {
    if Decodable(line) then
      Done(MtrixnRecord(
        CodeU32Minus48(line, 5).value,
        MustInt(line, 7, 10, U32).value,
        [MustFloat(line, 10, 20).value, MustFloat(line, 20, 30).value, MustFloat(line, 30, 40).value],
        MustFloat(line, 45, 55).value,
        CharAt(line, 59).value == '1'))
    else
      Panic
  }

  /** `MtrixN::new`: the record under the variant for its row, and a panic
      for any other row number. */
  function Family(line: string): (r: Decoded<MtrixN>)
    ensures r.Done? <==> New(line).Done? && 1 <= New(line).value.n <= 3
    ensures r.Done? ==> r.value.record == New(line).value && Row(r.value) == New(line).value.n as int
  {
    var record :- New(line);
    match record.n
    case 1 => Done(Mtrix1(record))
    case 2 => Done(Mtrix2(record))
    case 3 => Done(Mtrix3(record))
    case _ => Panic
  }

  /** A decodable line whose tag ends in the digit `d` gets the variant for
      row `d` when `d` is 1, 2 or 3, and fails for every other digit. */
  lemma RowOfTag(line: string, d: nat)
    requires Decodable(line) && d < 10 && line[5] == DigitChar(d)
    ensures Family(line).Done? <==> 1 <= d <= 3
    ensures Family(line).Done? ==> Row(Family(line).value) == d
  {
    CodeOfDigit(line, 5, d);
  }

  /** A blank float column is not a float, so the line fails. */
  lemma BlankColumnFails(line: string)
    requires |line| >= 60 && IsBlank(line[45..55])
    ensures New(line) == Panic
  {
    TrimEmptyIffBlank(line[45..55]);
    LeadingBlankRejected([]);
  }

  /** A line that ends before the `iGiven` column fails, whatever it holds. */
  lemma NoFlagFails(line: string)
    requires |line| < 60
    ensures New(line) == Panic && Family(line) == Panic
  {
  }

  /** The crate's first MTRIXn test line: row 1 under `Mtrix1`, a negative factor, and `iGiven` set. */
  lemma TestLine(line: string)
    requires |line| == 79 && line[5] == '1' && line[7..10] == "  1"
    requires line[10..20] == " -1.000000" && line[20..30] == "  0.000000"
    requires line[30..40] == "  0.000000" && line[45..55] == "   0.00000" && line[59] == '1'
    ensures New(line).Done? && New(line).value.n == 1 && New(line).value.serialNumber == 1
    ensures New(line).value.matrix == [Value("-1.000000"), Value("0.000000"), Value("0.000000")]
    ensures New(line).value.vn == Value("0.00000") && New(line).value.iGiven
    ensures Family(line).Done? && Family(line).value.Mtrix1?
  {
    CodeOfDigit(line, 5, 1);
    TestLineColumns0(line);
    TestLineColumns1(line);
  }

  lemma TestLineColumns0(line: string)
    requires |line| >= 40 && line[7..10] == "  1" && line[10..20] == " -1.000000"
    requires line[20..30] == "  0.000000" && line[30..40] == "  0.000000"
    ensures MustInt(line, 7, 10, U32) == Done(1) && IntOr0(line, 7, 10, U32) == Done(1)
    ensures OptInt(line, 7, 10, U32) == Done(Some(1))
    ensures MustFloat(line, 10, 20) == Done(Value("-1.000000"))
    ensures FloatOr0(line, 10, 20) == Done(Value("-1.000000"))
    ensures MustFloat(line, 20, 30) == Done(Value("0.000000"))
    ensures FloatOr0(line, 20, 30) == Done(Value("0.000000"))
    ensures MustFloat(line, 30, 40) == Done(Value("0.000000"))
    ensures FloatOr0(line, 30, 40) == Done(Value("0.000000"))
  {
    TestLineCol7();
    TestLineFloat10();
    TestLineCol10();
    TestLineFloat20();
    TestLineCol20();
    TestLineFloat30();
    TestLineCol30();
    IntColumnIs(line, 7, 10, "  1", U32, 1);
    FloatColumnIs(line, 10, 20, " -1.000000", "-1.000000");
    FloatColumnIs(line, 20, 30, "  0.000000", "0.000000");
    FloatColumnIs(line, 30, 40, "  0.000000", "0.000000");
  }

  lemma TestLineColumns1(line: string)
    requires |line| >= 55 && line[45..55] == "   0.00000"
    ensures MustFloat(line, 45, 55) == Done(Value("0.00000"))
    ensures FloatOr0(line, 45, 55) == Done(Value("0.00000"))
  {
    TestLineFloat45();
    TestLineCol45();
    FloatColumnIs(line, 45, 55, "   0.00000", "0.00000");
  }

  lemma TestLineCol7()
    ensures Parse(Trim("  1"), U32) == Some(1)
  {
  }

  lemma TestLineFloat10()
    ensures IsFloatLiteral("-1.000000")
  {
  }

  lemma TestLineCol10()
    ensures Trim(" -1.000000") == "-1.000000"
  {
  }

  lemma TestLineFloat20()
    ensures IsFloatLiteral("0.000000")
  {
  }

  lemma TestLineCol20()
    ensures Trim("  0.000000") == "0.000000"
  {
  }

  lemma TestLineFloat30()
    ensures IsFloatLiteral("0.000000")
  {
  }

  lemma TestLineCol30()
    ensures Trim("  0.000000") == "0.000000"
  {
  }

  lemma TestLineFloat45()
    ensures IsFloatLiteral("0.00000")
  {
  }

  lemma TestLineCol45()
    ensures Trim("   0.00000") == "0.00000"
  {
  }

  /** The crate's second MTRIXn test line: row 2, on a line that ends right after the flag. */
  lemma SecondTestLine(line: string)
    requires |line| == 60 && line[5] == '2' && line[7..10] == "  1"
    requires line[10..20] == "  0.000000" && line[20..30] == "  1.000000"
    requires line[30..40] == "  0.000000" && line[45..55] == "   0.00000" && line[59] == '1'
    ensures New(line).Done? && New(line).value.n == 2 && New(line).value.serialNumber == 1
    ensures New(line).value.matrix == [Value("0.000000"), Value("1.000000"), Value("0.000000")]
    ensures New(line).value.vn == Value("0.00000") && New(line).value.iGiven
    ensures Family(line).Done? && Family(line).value.Mtrix2?
  {
    CodeOfDigit(line, 5, 2);
    SecondTestLineColumns0(line);
    SecondTestLineColumns1(line);
  }

  lemma SecondTestLineColumns0(line: string)
    requires |line| >= 40 && line[7..10] == "  1" && line[10..20] == "  0.000000"
    requires line[20..30] == "  1.000000" && line[30..40] == "  0.000000"
    ensures MustInt(line, 7, 10, U32) == Done(1) && IntOr0(line, 7, 10, U32) == Done(1)
    ensures OptInt(line, 7, 10, U32) == Done(Some(1))
    ensures MustFloat(line, 10, 20) == Done(Value("0.000000"))
    ensures FloatOr0(line, 10, 20) == Done(Value("0.000000"))
    ensures MustFloat(line, 20, 30) == Done(Value("1.000000"))
    ensures FloatOr0(line, 20, 30) == Done(Value("1.000000"))
    ensures MustFloat(line, 30, 40) == Done(Value("0.000000"))
    ensures FloatOr0(line, 30, 40) == Done(Value("0.000000"))
  {
    SecondTestLineCol7();
    SecondTestLineFloat10();
    SecondTestLineCol10();
    SecondTestLineFloat20();
    SecondTestLineCol20();
    SecondTestLineFloat30();
    SecondTestLineCol30();
    IntColumnIs(line, 7, 10, "  1", U32, 1);
    FloatColumnIs(line, 10, 20, "  0.000000", "0.000000");
    FloatColumnIs(line, 20, 30, "  1.000000", "1.000000");
    FloatColumnIs(line, 30, 40, "  0.000000", "0.000000");
  }

  lemma SecondTestLineColumns1(line: string)
    requires |line| >= 55 && line[45..55] == "   0.00000"
    ensures MustFloat(line, 45, 55) == Done(Value("0.00000"))
    ensures FloatOr0(line, 45, 55) == Done(Value("0.00000"))
  {
    SecondTestLineFloat45();
    SecondTestLineCol45();
    FloatColumnIs(line, 45, 55, "   0.00000", "0.00000");
  }

  lemma SecondTestLineCol7()
    ensures Parse(Trim("  1"), U32) == Some(1)
  {
  }

  lemma SecondTestLineFloat10()
    ensures IsFloatLiteral("0.000000")
  {
  }

  lemma SecondTestLineCol10()
    ensures Trim("  0.000000") == "0.000000"
  {
  }

  lemma SecondTestLineFloat20()
    ensures IsFloatLiteral("1.000000")
  {
  }

  lemma SecondTestLineCol20()
    ensures Trim("  1.000000") == "1.000000"
  {
  }

  lemma SecondTestLineFloat30()
    ensures IsFloatLiteral("0.000000")
  {
  }

  lemma SecondTestLineCol30()
    ensures Trim("  0.000000") == "0.000000"
  {
  }

  lemma SecondTestLineFloat45()
    ensures IsFloatLiteral("0.00000")
  {
  }

  lemma SecondTestLineCol45()
    ensures Trim("   0.00000") == "0.00000"
  {
  }
}
