/** CRYST1 lines (`CrystalRecord::new`): the unit cell and space group. */
module Crystal {
  import opened Text
  import opened Numbers
  import opened Floats
  import opened Columns

  datatype CrystalRecord = CrystalRecord(
    a: F32,
    b: F32,
    c: F32,
    alpha: F32,
    beta: F32,
    gamma: F32,
    spaceGroup: string,
    z: u32)

  /** Every column is read leniently, so a CRYST1 line fails only when it is
      shorter than the `z` column. */
  function New(line: string): (r: Decoded<CrystalRecord>)
    ensures r.Done? <==> |line| >= 70
    ensures r.Done? ==>
      r.value.a == LenientFloat(line[6..15]) && r.value.b == LenientFloat(line[15..24]) &&
      r.value.c == LenientFloat(line[24..33])
    ensures r.Done? ==>
      r.value.alpha == LenientFloat(line[33..40]) && r.value.beta == LenientFloat(line[40..47]) &&
      r.value.gamma == LenientFloat(line[47..54])
    ensures r.Done? ==> r.value.spaceGroup == Trim(line[55..66])
    ensures r.Done? ==> r.value.z == Parse(Trim(line[66..70]), U32).GetOr(0)
  {
    if |line| >= 70 then
      Done(CrystalRecord(
        FloatOr0(line, 6, 15).value,
        FloatOr0(line, 15, 24).value,
        FloatOr0(line, 24, 33).value,
        FloatOr0(line, 33, 40).value,
        FloatOr0(line, 40, 47).value,
        FloatOr0(line, 47, 54).value,
        Field(line, 55, 66).value,
        IntOr0(line, 66, 70, U32).value))
    else
      Panic
  }

  /** A blank cell column, any of the six, reads as 0 rather than failing. */
  lemma BlankCellIsZero(line: string)
    requires |line| >= 70
    ensures IsBlank(line[6..15]) ==> New(line).value.a == Zero
    ensures IsBlank(line[15..24]) ==> New(line).value.b == Zero
    ensures IsBlank(line[24..33]) ==> New(line).value.c == Zero
    ensures IsBlank(line[33..40]) ==> New(line).value.alpha == Zero
    ensures IsBlank(line[40..47]) ==> New(line).value.beta == Zero
    ensures IsBlank(line[47..54]) ==> New(line).value.gamma == Zero
  {
    BlankIsZero(line[6..15]);
    BlankIsZero(line[15..24]);
    BlankIsZero(line[24..33]);
    BlankIsZero(line[33..40]);
    BlankIsZero(line[40..47]);
    BlankIsZero(line[47..54]);
  }

  /** A blank text is no float literal, so it reads as 0. */
  lemma BlankIsZero(s: string)
    ensures IsBlank(s) ==> LenientFloat(s) == Zero
  {
    TrimEmptyIffBlank(s);
    LeadingBlankRejected([]);
  }

  /** The space group keeps its inner blanks: only the ends of its column
      are trimmed. */
  lemma SpaceGroupKeepsInnerBlanks(line: string, pad: string, group: string, post: string)
    requires |line| >= 70 && line[55..66] == pad + group + post
    requires IsBlank(pad) && IsBlank(post) && Trimmed(group)
    ensures New(line).value.spaceGroup == group
  {
    TrimPadded(pad, group, post);
  }

  /** The crate's CRYST1 test line: a space group with inner blanks, and `z`. */
  lemma TestLine(line: string)
    requires |line| == 80 && line[6..15] == "   52.000" && line[15..24] == "   58.600"
    requires line[24..33] == "   61.900" && line[33..40] == "  90.00"
    requires line[40..47] == "  90.00" && line[47..54] == "  90.00"
    requires line[55..66] == "P 21 21 21 " && line[66..70] == "   8"
    ensures New(line).Done? && New(line).value.a == Value("52.000")
    ensures New(line).value.b == Value("58.600") && New(line).value.c == Value("61.900")
    ensures New(line).value.alpha == Value("90.00") && New(line).value.beta == Value("90.00")
    ensures New(line).value.gamma == Value("90.00") && New(line).value.spaceGroup == "P 21 21 21"
    ensures New(line).value.z == 8
  {
    TestLineColumns0(line);
    TestLineColumns1(line);
    TestLineColumns2(line);
  }

  lemma TestLineColumns0(line: string)
    requires |line| >= 33 && line[6..15] == "   52.000" && line[15..24] == "   58.600"
    requires line[24..33] == "   61.900"
    ensures MustFloat(line, 6, 15) == Done(Value("52.000"))
    ensures FloatOr0(line, 6, 15) == Done(Value("52.000"))
    ensures MustFloat(line, 15, 24) == Done(Value("58.600"))
    ensures FloatOr0(line, 15, 24) == Done(Value("58.600"))
    ensures MustFloat(line, 24, 33) == Done(Value("61.900"))
    ensures FloatOr0(line, 24, 33) == Done(Value("61.900"))
  {
    TestLineFloat6();
    TestLineCol6();
    TestLineFloat15();
    TestLineCol15();
    TestLineFloat24();
    TestLineCol24();
    FloatColumnIs(line, 6, 15, "   52.000", "52.000");
    FloatColumnIs(line, 15, 24, "   58.600", "58.600");
    FloatColumnIs(line, 24, 33, "   61.900", "61.900");
  }

  lemma TestLineColumns1(line: string)
    requires |line| >= 54 && line[33..40] == "  90.00" && line[40..47] == "  90.00"
    requires line[47..54] == "  90.00"
    ensures MustFloat(line, 33, 40) == Done(Value("90.00"))
    ensures FloatOr0(line, 33, 40) == Done(Value("90.00"))
    ensures MustFloat(line, 40, 47) == Done(Value("90.00"))
    ensures FloatOr0(line, 40, 47) == Done(Value("90.00"))
    ensures MustFloat(line, 47, 54) == Done(Value("90.00"))
    ensures FloatOr0(line, 47, 54) == Done(Value("90.00"))
  {
    TestLineFloat33();
    TestLineCol33();
    TestLineFloat40();
    TestLineCol40();
    TestLineFloat47();
    TestLineCol47();
    FloatColumnIs(line, 33, 40, "  90.00", "90.00");
    FloatColumnIs(line, 40, 47, "  90.00", "90.00");
    FloatColumnIs(line, 47, 54, "  90.00", "90.00");
  }

  lemma TestLineColumns2(line: string)
    requires |line| >= 70 && line[55..66] == "P 21 21 21 " && line[66..70] == "   8"
    ensures Field(line, 55, 66) == Done("P 21 21 21")
    ensures OptField(line, 55, 66) == Some("P 21 21 21") && MustInt(line, 66, 70, U32) == Done(8)
    ensures IntOr0(line, 66, 70, U32) == Done(8) && OptInt(line, 66, 70, U32) == Done(Some(8))
  {
    TestLineCol55();
    TestLineCol66();
    TextColumnIs(line, 55, 66, "P 21 21 21 ", "P 21 21 21");
    IntColumnIs(line, 66, 70, "   8", U32, 8);
  }

  lemma TestLineFloat6()
    ensures IsFloatLiteral("52.000")
  {
  }

  lemma TestLineCol6()
    ensures Trim("   52.000") == "52.000"
  {
  }

  lemma TestLineFloat15()
    ensures IsFloatLiteral("58.600")
  {
  }

  lemma TestLineCol15()
    ensures Trim("   58.600") == "58.600"
  {
  }

  lemma TestLineFloat24()
    ensures IsFloatLiteral("61.900")
  {
  }

  lemma TestLineCol24()
    ensures Trim("   61.900") == "61.900"
  {
  }

  lemma TestLineFloat33()
    ensures IsFloatLiteral("90.00")
  {
  }

  lemma TestLineCol33()
    ensures Trim("  90.00") == "90.00"
  {
  }

  lemma TestLineFloat40()
    ensures IsFloatLiteral("90.00")
  {
  }

  lemma TestLineCol40()
    ensures Trim("  90.00") == "90.00"
  {
  }

  lemma TestLineFloat47()
    ensures IsFloatLiteral("90.00")
  {
  }

  lemma TestLineCol47()
    ensures Trim("  90.00") == "90.00"
  {
  }

  lemma TestLineCol55()
    ensures Trim("P 21 21 21 ") == "P 21 21 21"
  {
    TrimPadded([], "P 21 21 21", " ");
    assert [] + "P 21 21 21" + " " == "P 21 21 21 ";
  }

  lemma TestLineCol66()
    ensures Parse(Trim("   8"), U32) == Some(8)
  {
  }
}
