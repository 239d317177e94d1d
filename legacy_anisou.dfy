/** ANISOU lines in the first version of the crate
    (`AnisotropicRecord::new` of the top-level `src/records`): the residue
    number is a `u16`. */
module LegacyAnisou {
  import opened Text
  import opened Numbers
  import opened Columns
  import Anisou

  datatype AnisouRecord = AnisouRecord(
    serial: u32,
    name: string,
    altLoc: Option<char>,
    resName: string,
    chainId: char,
    resSeq: u16,
    iCode: Option<char>,
    u00: i32,
    u11: i32,
    u22: i32,
    u01: i32,
    u02: i32,
    u12: i32,
    element: Option<string>,
    charge: Option<string>)

  /** The columns a successful decode needs: a non-blank chain identifier,
      a `u16` residue number and six `i32` tensor components, the last of
      which ends at column 70. */
  predicate Decodable(line: string) {
    |line| >= 70 && !IsWhitespace(line[21]) && ReadsInt(line, 22, 26, U16) &&
    ReadsInt(line, 28, 35, I32) && ReadsInt(line, 35, 42, I32) && ReadsInt(line, 42, 49, I32) &&
    ReadsInt(line, 49, 56, I32) && ReadsInt(line, 56, 63, I32) && ReadsInt(line, 63, 70, I32)
  }

  function New(line: string): (r: Decoded<AnisouRecord>)
    ensures r.Done? <==> Decodable(line)
    ensures r.Done? ==>
      r.value.serial == IntOr0(line, 6, 11, U32).value && r.value.name == Trim(line[12..16]) &&
      r.value.resName == Trim(line[17..20])
    ensures r.Done? ==>
      r.value.altLoc == CharOrNone(line[16]) && r.value.chainId == line[21] &&
      !IsWhitespace(line[21]) && r.value.iCode == CharOrNone(line[26])
    ensures r.Done? ==> Parse(Trim(line[22..26]), U16) == Some(r.value.resSeq as int)
    ensures r.Done? ==>
      Parse(Trim(line[28..35]), I32) == Some(r.value.u00 as int) &&
      Parse(Trim(line[35..42]), I32) == Some(r.value.u11 as int) &&
      Parse(Trim(line[42..49]), I32) == Some(r.value.u22 as int)
    ensures r.Done? ==>
      Parse(Trim(line[49..56]), I32) == Some(r.value.u01 as int) &&
      Parse(Trim(line[56..63]), I32) == Some(r.value.u02 as int) &&
      Parse(Trim(line[63..70]), I32) == Some(r.value.u12 as int)
    ensures r.Done? ==> r.value.element == OptField(line, 76, 78) && r.value.charge == OptField(line, 78, 80)
  {
    if Decodable(line) then
      Done(AnisouRecord(
        IntOr0(line, 6, 11, U32).value,
        Field(line, 12, 16).value,
        OptChar(line, 16).value,
        Field(line, 17, 20).value,
        MustChar(line, 21).value,
        MustInt(line, 22, 26, U16).value,
        OptChar(line, 26).value,
        MustInt(line, 28, 35, I32).value,
        MustInt(line, 35, 42, I32).value,
        MustInt(line, 42, 49, I32).value,
        MustInt(line, 49, 56, I32).value,
        MustInt(line, 56, 63, I32).value,
        MustInt(line, 63, 70, I32).value,
        OptField(line, 76, 78),
        OptField(line, 78, 80)))
    else
      Panic
  }

  /** Every line this version decodes, the current one decodes too, with
      the same fields. */
  lemma CurrentAcceptsEveryLine(line: string)
    requires New(line).Done?
    ensures Anisou.New(line).Done?
    ensures Anisou.New(line).value.resSeq as int == New(line).value.resSeq as int
    ensures Anisou.New(line).value.serial == New(line).value.serial
    ensures Anisou.New(line).value.name == New(line).value.name && Anisou.New(line).value.altLoc == New(line).value.altLoc
    ensures Anisou.New(line).value.resName == New(line).value.resName && Anisou.New(line).value.chainId == New(line).value.chainId
    ensures Anisou.New(line).value.iCode == New(line).value.iCode
    ensures Anisou.New(line).value.u00 == New(line).value.u00 && Anisou.New(line).value.u11 == New(line).value.u11
    ensures Anisou.New(line).value.u22 == New(line).value.u22 && Anisou.New(line).value.u01 == New(line).value.u01
    ensures Anisou.New(line).value.u02 == New(line).value.u02 && Anisou.New(line).value.u12 == New(line).value.u12
    ensures Anisou.New(line).value.element == New(line).value.element && Anisou.New(line).value.charge == New(line).value.charge
  {
    ResidueReadsSigned(line);
    assert Anisou.Decodable(line);
  }

  /** A residue column read as a `u16` reads alike as an `i16`. */
  lemma ResidueReadsSigned(line: string)
    requires ReadsInt(line, 22, 26, U16)
    ensures ReadsInt(line, 22, 26, I16)
    ensures Parse(Trim(line[22..26]), I16) == Parse(Trim(line[22..26]), U16)
  {
    var _ := TrimShape(line[22..26]);
    UnsignedFitsSigned(Trim(line[22..26]), U16, I16);
  }

  /** A negative residue number, which the current version accepts, makes
      this one fail. */
  lemma NegativeResidueFails(line: string, pad: string, n: nat)
    requires |line| >= 26 && line[22..26] == pad + ("-" + Decimal(n)) && IsBlank(pad)
    ensures New(line) == Panic
  {
    NegativeTrimmed(n);
    TrimPadded(pad, "-" + Decimal(n), []);
    assert pad + ("-" + Decimal(n)) + [] == line[22..26];
    UnsignedRejectsMinus(Decimal(n), U16);
  }
  /** The first crate version's ANISOU test line: the six tensor components, negative ones included, and the element. */
  lemma TestLine(line: string)
    requires |line| == 80 && line[6..11] == "    1" && line[12..16] == " N  " && line[16] == ' '
    requires line[17..20] == "MET" && line[21] == 'A' && line[22..26] == "   1"
    requires line[26] == ' ' && line[28..35] == "    688" && line[35..42] == "   1234"
    requires line[42..49] == "    806" && line[49..56] == "    -19" && line[56..63] == "    -49"
    requires line[63..70] == "    178" && line[76..78] == " N" && line[78..80] == "  "
    ensures New(line).Done? && New(line).value.serial == 1 && New(line).value.name == "N"
    ensures New(line).value.altLoc == None && New(line).value.resName == "MET"
    ensures New(line).value.chainId == 'A' && New(line).value.resSeq == 1
    ensures New(line).value.iCode == None && New(line).value.u00 == 688
    ensures New(line).value.u11 == 1234 && New(line).value.u22 == 806
    ensures New(line).value.u01 == -19 && New(line).value.u02 == -49
    ensures New(line).value.u12 == 178 && New(line).value.element == Some("N")
    ensures New(line).value.charge == None
  {
    TestLineColumns0(line);
    TestLineColumns1(line);
    TestLineColumns2(line);
  }

  lemma TestLineColumns0(line: string)
    requires |line| >= 26 && line[6..11] == "    1" && line[12..16] == " N  "
    requires line[17..20] == "MET" && line[22..26] == "   1"
    ensures MustInt(line, 6, 11, U32) == Done(1) && IntOr0(line, 6, 11, U32) == Done(1)
    ensures OptInt(line, 6, 11, U32) == Done(Some(1)) && Field(line, 12, 16) == Done("N")
    ensures OptField(line, 12, 16) == Some("N") && Field(line, 17, 20) == Done("MET")
    ensures OptField(line, 17, 20) == Some("MET") && MustInt(line, 22, 26, U16) == Done(1)
    ensures IntOr0(line, 22, 26, U16) == Done(1) && OptInt(line, 22, 26, U16) == Done(Some(1))
  {
    TestLineCol6();
    TestLineCol12();
    TestLineCol17();
    TestLineCol22();
    IntColumnIs(line, 6, 11, "    1", U32, 1);
    TextColumnIs(line, 12, 16, " N  ", "N");
    TextColumnIs(line, 17, 20, "MET", "MET");
    IntColumnIs(line, 22, 26, "   1", U16, 1);
  }

  lemma TestLineColumns1(line: string)
    requires |line| >= 56 && line[28..35] == "    688" && line[35..42] == "   1234"
    requires line[42..49] == "    806" && line[49..56] == "    -19"
    ensures MustInt(line, 28, 35, I32) == Done(688) && IntOr0(line, 28, 35, I32) == Done(688)
    ensures OptInt(line, 28, 35, I32) == Done(Some(688))
    ensures MustInt(line, 35, 42, I32) == Done(1234) && IntOr0(line, 35, 42, I32) == Done(1234)
    ensures OptInt(line, 35, 42, I32) == Done(Some(1234))
    ensures MustInt(line, 42, 49, I32) == Done(806) && IntOr0(line, 42, 49, I32) == Done(806)
    ensures OptInt(line, 42, 49, I32) == Done(Some(806))
    ensures MustInt(line, 49, 56, I32) == Done(-19) && IntOr0(line, 49, 56, I32) == Done(-19)
    ensures OptInt(line, 49, 56, I32) == Done(Some(-19))
  {
    TestLineCol28();
    TestLineCol35();
    TestLineCol42();
    TestLineCol49();
    IntColumnIs(line, 28, 35, "    688", I32, 688);
    IntColumnIs(line, 35, 42, "   1234", I32, 1234);
    IntColumnIs(line, 42, 49, "    806", I32, 806);
    IntColumnIs(line, 49, 56, "    -19", I32, -19);
  }

  lemma TestLineColumns2(line: string)
    requires |line| >= 80 && line[56..63] == "    -49" && line[63..70] == "    178"
    requires line[76..78] == " N" && line[78..80] == "  "
    ensures MustInt(line, 56, 63, I32) == Done(-49) && IntOr0(line, 56, 63, I32) == Done(-49)
    ensures OptInt(line, 56, 63, I32) == Done(Some(-49))
    ensures MustInt(line, 63, 70, I32) == Done(178) && IntOr0(line, 63, 70, I32) == Done(178)
    ensures OptInt(line, 63, 70, I32) == Done(Some(178)) && Field(line, 76, 78) == Done("N")
    ensures OptField(line, 76, 78) == Some("N") && Field(line, 78, 80) == Done([])
    ensures OptField(line, 78, 80) == None
  {
    TestLineCol56();
    TestLineCol63();
    TestLineCol76();
    TestLineCol78();
    IntColumnIs(line, 56, 63, "    -49", I32, -49);
    IntColumnIs(line, 63, 70, "    178", I32, 178);
    TextColumnIs(line, 76, 78, " N", "N");
    TextColumnIs(line, 78, 80, "  ", []);
  }

  lemma TestLineCol6()
    ensures Parse(Trim("    1"), U32) == Some(1)
  {
  }

  lemma TestLineCol12()
    ensures Trim(" N  ") == "N"
  {
    TrimPadded(" ", "N", "  ");
    assert " " + "N" + "  " == " N  ";
  }

  lemma TestLineCol17()
    ensures Trim("MET") == "MET"
  {
  }

  lemma TestLineCol22()
    ensures Parse(Trim("   1"), U16) == Some(1)
  {
  }

  lemma TestLineCol28()
    ensures Parse(Trim("    688"), I32) == Some(688)
  {
  }

  lemma TestLineCol35()
    ensures Parse(Trim("   1234"), I32) == Some(1234)
  {
  }

  lemma TestLineCol42()
    ensures Parse(Trim("    806"), I32) == Some(806)
  {
  }

  lemma TestLineCol49()
    ensures Parse(Trim("    -19"), I32) == Some(-19)
  {
  }

  lemma TestLineCol56()
    ensures Parse(Trim("    -49"), I32) == Some(-49)
  {
  }

  lemma TestLineCol63()
    ensures Parse(Trim("    178"), I32) == Some(178)
  {
  }

  lemma TestLineCol76()
    ensures Trim(" N") == "N"
  {
  }

  lemma TestLineCol78()
    ensures Trim("  ") == []
  {
    TrimEmptyIffBlank("  ");
  }

  /** The first crate version's second ANISOU test line: the same atom with a blank element column. */
  lemma SecondTestLine(line: string)
    requires |line| == 80 && line[6..11] == "    1" && line[12..16] == " N  " && line[16] == ' '
    requires line[17..20] == "MET" && line[21] == 'A' && line[22..26] == "   1"
    requires line[26] == ' ' && line[28..35] == "    688" && line[35..42] == "   1234"
    requires line[42..49] == "    806" && line[49..56] == "    -19" && line[56..63] == "    -49"
    requires line[63..70] == "    178" && line[76..78] == "  " && line[78..80] == "  "
    ensures New(line).Done? && New(line).value.serial == 1 && New(line).value.name == "N"
    ensures New(line).value.altLoc == None && New(line).value.resName == "MET"
    ensures New(line).value.chainId == 'A' && New(line).value.resSeq == 1
    ensures New(line).value.iCode == None && New(line).value.u00 == 688
    ensures New(line).value.u11 == 1234 && New(line).value.u22 == 806
    ensures New(line).value.u01 == -19 && New(line).value.u02 == -49
    ensures New(line).value.u12 == 178 && New(line).value.element == None
    ensures New(line).value.charge == None
  {
    TestLineColumns0(line);
    TestLineColumns1(line);
    SecondTestLineColumns2(line);
  }

  lemma SecondTestLineColumns2(line: string)
    requires |line| >= 80 && line[56..63] == "    -49" && line[63..70] == "    178"
    requires line[76..78] == "  " && line[78..80] == "  "
    ensures MustInt(line, 56, 63, I32) == Done(-49) && IntOr0(line, 56, 63, I32) == Done(-49)
    ensures OptInt(line, 56, 63, I32) == Done(Some(-49))
    ensures MustInt(line, 63, 70, I32) == Done(178) && IntOr0(line, 63, 70, I32) == Done(178)
    ensures OptInt(line, 63, 70, I32) == Done(Some(178)) && Field(line, 76, 78) == Done([])
    ensures OptField(line, 76, 78) == None && Field(line, 78, 80) == Done([])
    ensures OptField(line, 78, 80) == None
  {
    TestLineCol56();
    TestLineCol63();
    TestLineCol78();
    IntColumnIs(line, 56, 63, "    -49", I32, -49);
    IntColumnIs(line, 63, 70, "    178", I32, 178);
    TextColumnIs(line, 76, 78, "  ", []);
    TextColumnIs(line, 78, 80, "  ", []);
  }
}
