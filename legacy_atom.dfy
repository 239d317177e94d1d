/** ATOM and HETATM lines in the first version of the crate
    (`AtomRecord::new` of the top-level `src/records`): the serial is
    always decimal and the residue number is a `u16`. */
module LegacyAtom {
  import opened Text
  import opened Numbers
  import opened Floats
  import opened Columns
  import Atom

  datatype AtomRecord = AtomRecord(
    serial: u32,
    name: string,
    altLoc: Option<char>,
    resName: string,
    chainId: Option<char>,
    resSeq: u16,
    iCode: Option<char>,
    x: F32,
    y: F32,
    z: F32,
    occupancy: F32,
    tempFactor: F32,
    element: Option<string>,
    charge: Option<string>,
    entry: Option<string>)

  /** The columns a successful decode needs: a `u16` residue number and the
      five float columns, the last of which ends at column 66. */
  predicate Decodable(line: string) {
    ReadsInt(line, 22, 26, U16) && ReadsFloat(line, 30, 38) && ReadsFloat(line, 38, 46) &&
    ReadsFloat(line, 46, 54) && ReadsFloat(line, 54, 60) && ReadsFloat(line, 60, 66)
  }

  function New(line: string): (r: Decoded<AtomRecord>)
    ensures r.Done? <==> Decodable(line)
    ensures r.Done? ==> r.value.serial == Parse(Trim(line[6..11]), U32).GetOr(0)
    ensures r.Done? ==> r.value.name == Trim(line[12..16]) && r.value.resName == Trim(line[17..20])
    ensures r.Done? ==>
      r.value.altLoc == CharOrNone(line[16]) && r.value.chainId == CharOrNone(line[21]) &&
      r.value.iCode == CharOrNone(line[26])
    ensures r.Done? ==> Parse(Trim(line[22..26]), U16) == Some(r.value.resSeq as int)
    ensures r.Done? ==>
      r.value.x == Value(Trim(line[30..38])) && r.value.y == Value(Trim(line[38..46])) &&
      r.value.z == Value(Trim(line[46..54])) && r.value.occupancy == Value(Trim(line[54..60])) &&
      r.value.tempFactor == Value(Trim(line[60..66]))
    ensures r.Done? ==>
      OptionalColumn(r.value.entry, line, 72, 76) && OptionalColumn(r.value.element, line, 77, 80) &&
      OptionalColumn(r.value.charge, line, 78, 80)
  {
    if Decodable(line) then
      Done(AtomRecord(
        IntOr0(line, 6, 11, U32).value,
        Field(line, 12, 16).value,
        OptChar(line, 16).value,
        Field(line, 17, 20).value,
        OptChar(line, 21).value,
        MustInt(line, 22, 26, U16).value,
        OptChar(line, 26).value,
        MustFloat(line, 30, 38).value,
        MustFloat(line, 38, 46).value,
        MustFloat(line, 46, 54).value,
        MustFloat(line, 54, 60).value,
        MustFloat(line, 60, 66).value,
        OptField(line, 77, 80),
        OptField(line, 78, 80),
        OptField(line, 72, 76)))
    else
      Panic
  }

  /** Every line this version decodes, the current one decodes too, with
      the same residue number and every other field alike; the serials agree
      unless the serial column holds a letter, which only the current
      version reads as hexadecimal. */
  lemma CurrentAcceptsEveryLine(line: string)
    requires New(line).Done?
    ensures Atom.New(line).Done?
    ensures Atom.New(line).value.resSeq as int == New(line).value.resSeq as int
    ensures !Atom.HasLetter(Trim(line[6..11])) ==> Atom.New(line).value.serial == New(line).value.serial
    ensures Atom.New(line).value.name == New(line).value.name && Atom.New(line).value.altLoc == New(line).value.altLoc
    ensures Atom.New(line).value.resName == New(line).value.resName && Atom.New(line).value.chainId == New(line).value.chainId
    ensures Atom.New(line).value.iCode == New(line).value.iCode
    ensures Atom.New(line).value.x == New(line).value.x && Atom.New(line).value.y == New(line).value.y
    ensures Atom.New(line).value.z == New(line).value.z && Atom.New(line).value.occupancy == New(line).value.occupancy
    ensures Atom.New(line).value.tempFactor == New(line).value.tempFactor
    ensures Atom.New(line).value.element == New(line).value.element && Atom.New(line).value.charge == New(line).value.charge
    ensures Atom.New(line).value.entry == New(line).value.entry
  {
    var _ := TrimShape(line[22..26]);
    UnsignedFitsSigned(Trim(line[22..26]), U16, I16);
  }

  /** A hexadecimal serial is not a decimal number, so it reads as 0: the
      serial of the current version's test line, 100000, is lost here. */
  lemma HexSerialIsZero(line: string)
    requires New(line).Done? && line[6..11] == "186a0"
    ensures New(line).value.serial == 0
    ensures Atom.New(line).Done? && Atom.New(line).value.serial == 100000
  {
    HexColumnTrimmed();
    HexDigitsRejected();
    CurrentAcceptsEveryLine(line);
    Atom.HexSerialExample();
  }

  lemma HexColumnTrimmed()
    ensures Trim("186a0") == "186a0"
  {
  }

  /** Base 10 stops at the `a`. */
  lemma HexDigitsRejected()
    ensures Parse("186a0", U32) == None
  {
    IntRunAppend(Begin, "186", "a0", 10, U32);
    assert "186" + "a0" == "186a0";
    assert IntRun(Begin, "186", 10, U32) == Magnitude(false, 186);
    assert "a0"[1..] == "0";
    IntRunInvalid("0", 10, U32);
  }

  /** A negative residue number, which the current version accepts, makes
      this one fail. */
  lemma NegativeResidueFails(line: string, pad: string, n: nat)
    requires |line| >= 26 && line[22..26] == pad + ("-" + Decimal(n)) && IsBlank(pad)
    ensures New(line) == Panic
  {
    NegativeTrimmed(n);
    TrimPadded(pad, "-" + Decimal(n), []);
    assert pad + ("-" + Decimal(n)) + [] == line[22..26];
    UnsignedRejectsMinus(Decimal(n), U16);
  }

  /** The first crate version's ATOM test line: a decimal serial, a blank chain and an entry code. */
  lemma TestLine(line: string)
    requires |line| == 80 && line[6..11] == "   17" && line[12..16] == " NE2" && line[16] == ' '
    requires line[17..20] == "GLN" && line[21] == ' ' && line[22..26] == "   2"
    requires line[26] == ' ' && line[30..38] == "  25.562" && line[38..46] == "  32.733"
    requires line[46..54] == "   1.806" && line[54..60] == "  1.00" && line[60..66] == " 19.49"
    requires line[72..76] == "1UBQ" && line[77..80] == "   " && line[78..80] == "  "
    ensures New(line).Done? && New(line).value.serial == 17 && New(line).value.name == "NE2"
    ensures New(line).value.altLoc == None && New(line).value.resName == "GLN"
    ensures New(line).value.chainId == None && New(line).value.resSeq == 2
    ensures New(line).value.iCode == None && New(line).value.x == Value("25.562")
    ensures New(line).value.y == Value("32.733") && New(line).value.z == Value("1.806")
    ensures New(line).value.occupancy == Value("1.00")
    ensures New(line).value.tempFactor == Value("19.49") && New(line).value.entry == Some("1UBQ")
    ensures New(line).value.element == None && New(line).value.charge == None
  {
    TestLineColumns0(line);
    TestLineColumns1(line);
    TestLineColumns2(line);
  }

  lemma TestLineColumns0(line: string)
    requires |line| >= 26 && line[6..11] == "   17" && line[12..16] == " NE2"
    requires line[17..20] == "GLN" && line[22..26] == "   2"
    ensures MustInt(line, 6, 11, U32) == Done(17) && IntOr0(line, 6, 11, U32) == Done(17)
    ensures OptInt(line, 6, 11, U32) == Done(Some(17)) && Field(line, 12, 16) == Done("NE2")
    ensures OptField(line, 12, 16) == Some("NE2") && Field(line, 17, 20) == Done("GLN")
    ensures OptField(line, 17, 20) == Some("GLN") && MustInt(line, 22, 26, U16) == Done(2)
    ensures IntOr0(line, 22, 26, U16) == Done(2) && OptInt(line, 22, 26, U16) == Done(Some(2))
  {
    TestLineCol6();
    TestLineCol12();
    TestLineCol17();
    TestLineCol22();
    IntColumnIs(line, 6, 11, "   17", U32, 17);
    TextColumnIs(line, 12, 16, " NE2", "NE2");
    TextColumnIs(line, 17, 20, "GLN", "GLN");
    IntColumnIs(line, 22, 26, "   2", U16, 2);
  }

  lemma TestLineColumns1(line: string)
    requires |line| >= 60 && line[30..38] == "  25.562" && line[38..46] == "  32.733"
    requires line[46..54] == "   1.806" && line[54..60] == "  1.00"
    ensures MustFloat(line, 30, 38) == Done(Value("25.562"))
    ensures FloatOr0(line, 30, 38) == Done(Value("25.562"))
    ensures MustFloat(line, 38, 46) == Done(Value("32.733"))
    ensures FloatOr0(line, 38, 46) == Done(Value("32.733"))
    ensures MustFloat(line, 46, 54) == Done(Value("1.806"))
    ensures FloatOr0(line, 46, 54) == Done(Value("1.806"))
    ensures MustFloat(line, 54, 60) == Done(Value("1.00"))
    ensures FloatOr0(line, 54, 60) == Done(Value("1.00"))
  {
    TestLineFloat30();
    TestLineCol30();
    TestLineFloat38();
    TestLineCol38();
    TestLineFloat46();
    TestLineCol46();
    TestLineFloat54();
    TestLineCol54();
    FloatColumnIs(line, 30, 38, "  25.562", "25.562");
    FloatColumnIs(line, 38, 46, "  32.733", "32.733");
    FloatColumnIs(line, 46, 54, "   1.806", "1.806");
    FloatColumnIs(line, 54, 60, "  1.00", "1.00");
  }

  lemma TestLineColumns2(line: string)
    requires |line| >= 80 && line[60..66] == " 19.49" && line[72..76] == "1UBQ"
    requires line[77..80] == "   " && line[78..80] == "  "
    ensures MustFloat(line, 60, 66) == Done(Value("19.49"))
    ensures FloatOr0(line, 60, 66) == Done(Value("19.49")) && Field(line, 72, 76) == Done("1UBQ")
    ensures OptField(line, 72, 76) == Some("1UBQ") && Field(line, 77, 80) == Done([])
    ensures OptField(line, 77, 80) == None && Field(line, 78, 80) == Done([])
    ensures OptField(line, 78, 80) == None
  {
    TestLineFloat60();
    TestLineCol60();
    TestLineCol72();
    TestLineCol77();
    TestLineCol78();
    FloatColumnIs(line, 60, 66, " 19.49", "19.49");
    TextColumnIs(line, 72, 76, "1UBQ", "1UBQ");
    TextColumnIs(line, 77, 80, "   ", []);
    TextColumnIs(line, 78, 80, "  ", []);
  }

  lemma TestLineCol6()
    ensures Parse(Trim("   17"), U32) == Some(17)
  {
  }

  lemma TestLineCol12()
    ensures Trim(" NE2") == "NE2"
  {
  }

  lemma TestLineCol17()
    ensures Trim("GLN") == "GLN"
  {
  }

  lemma TestLineCol22()
    ensures Parse(Trim("   2"), U16) == Some(2)
  {
  }

  lemma TestLineFloat30()
    ensures IsFloatLiteral("25.562")
  {
  }

  lemma TestLineCol30()
    ensures Trim("  25.562") == "25.562"
  {
  }

  lemma TestLineFloat38()
    ensures IsFloatLiteral("32.733")
  {
  }

  lemma TestLineCol38()
    ensures Trim("  32.733") == "32.733"
  {
  }

  lemma TestLineFloat46()
    ensures IsFloatLiteral("1.806")
  {
  }

  lemma TestLineCol46()
    ensures Trim("   1.806") == "1.806"
  {
  }

  lemma TestLineFloat54()
    ensures IsFloatLiteral("1.00")
  {
  }

  lemma TestLineCol54()
    ensures Trim("  1.00") == "1.00"
  {
  }

  lemma TestLineFloat60()
    ensures IsFloatLiteral("19.49")
  {
  }

  lemma TestLineCol60()
    ensures Trim(" 19.49") == "19.49"
  {
  }

  lemma TestLineCol72()
    ensures Trim("1UBQ") == "1UBQ"
  {
  }

  lemma TestLineCol77()
    ensures Trim("   ") == []
  {
    TrimEmptyIffBlank("   ");
  }

  lemma TestLineCol78()
    ensures Trim("  ") == []
  {
    TrimEmptyIffBlank("  ");
  }
}
