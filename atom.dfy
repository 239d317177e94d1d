/** ATOM and HETATM lines (`AtomRecord::new`): the coordinate record of one
    atom. */
module Atom {
  import opened Text
  import opened Numbers
  import opened Floats
  import opened Columns

  datatype AtomRecord = AtomRecord(
    serial: u32,
    name: string,
    altLoc: Option<char>,
    resName: string,
    chainId: Option<char>,
    resSeq: i16,
    iCode: Option<char>,
    x: F32,
    y: F32,
    z: F32,
    occupancy: F32,
    tempFactor: F32,
    element: Option<string>,
    charge: Option<string>,
    entry: Option<string>)

  predicate HasLetter(s: string) {
    exists k :: 0 <= k < |s| && IsAsciiLetter(s[k])
  }

  /** The trimmed serial column is read in base 16 if it holds any ASCII
      letter and in base 10 otherwise; a failed read gives 0. */
  function SerialValue(s: string): u32 {
    var radix := if HasLetter(s) then 16 else 10;
    FromStrRadix(s, radix, U32).GetOr(0)
  }

  /** The columns a successful decode needs: the residue number reads as an
      `i16` and the five float columns, the last of which ends at column 66,
      read as floats. */
  predicate Decodable(line: string) {
    ReadsInt(line, 22, 26, I16) && ReadsFloat(line, 30, 38) && ReadsFloat(line, 38, 46) &&
    ReadsFloat(line, 46, 54) && ReadsFloat(line, 54, 60) && ReadsFloat(line, 60, 66)
  }

  function New(line: string): (r: Decoded<AtomRecord>)
    ensures r.Done? <==> Decodable(line)
    ensures r.Done? ==> r.value.serial == SerialValue(Trim(line[6..11]))
    ensures r.Done? ==> r.value.name == Trim(line[12..16]) && r.value.resName == Trim(line[17..20])
    ensures r.Done? ==>
      r.value.altLoc == CharOrNone(line[16]) && r.value.chainId == CharOrNone(line[21]) &&
      r.value.iCode == CharOrNone(line[26])
    ensures r.Done? ==> Parse(Trim(line[22..26]), I16) == Some(r.value.resSeq as int)
    ensures r.Done? ==>
      r.value.x == Value(Trim(line[30..38])) && r.value.y == Value(Trim(line[38..46])) &&
      r.value.z == Value(Trim(line[46..54])) && r.value.occupancy == Value(Trim(line[54..60])) &&
      r.value.tempFactor == Value(Trim(line[60..66]))
    ensures r.Done? ==>
      OptionalColumn(r.value.entry, line, 72, 76) && OptionalColumn(r.value.element, line, 77, 80) &&
      OptionalColumn(r.value.charge, line, 78, 80)
  {
    if Decodable(line) then
      Done(AtomRecord(
        SerialValue(Field(line, 6, 11).value),
        Field(line, 12, 16).value,
        OptChar(line, 16).value,
        Field(line, 17, 20).value,
        OptChar(line, 21).value,
        MustInt(line, 22, 26, I16).value,
        OptChar(line, 26).value,
        MustFloat(line, 30, 38).value,
        MustFloat(line, 38, 46).value,
        MustFloat(line, 46, 54).value,
        MustFloat(line, 54, 60).value,
        MustFloat(line, 60, 66).value,
        OptField(line, 77, 80),
        OptField(line, 78, 80),
        OptField(line, 72, 76)))
    else
      Panic
  }

  /** The largest serial a five-column field can hold: `fffff`. */
  const SerialCap: int := 0xFFFFF

  /** A serial read from at most five columns is at most `SerialCap`, in
      either radix. */
  lemma SerialBound(s: string)
    requires |s| <= 5
    ensures SerialValue(s) <= SerialCap
  {
    var radix := if HasLetter(s) then 16 else 10;
    if FromStrRadix(s, radix, U32).Some? {
      UnsignedBound(s, radix, U32);
      PowMono(radix, 16, |s|, 5);
      assert Pow(16, 5) == 0x100000;
    }
  }

  /** Every decoded ATOM serial is at most `SerialCap`. */
  lemma DecodedSerialBound(line: string)
    requires New(line).Done?
    ensures New(line).value.serial <= SerialCap
  {
    var _ := TrimShape(line[6..11]);
    SerialBound(Trim(line[6..11]));
  }

  /** The serial of the crate's hexadecimal ATOM test line. */
  lemma HexSerialExample()
    ensures SerialValue("186a0") == 100000
  {
    assert IsAsciiLetter("186a0"[3]);
    assert ToDigits(100000, 16) == "186a0";
    ParseHex(100000, U32);
  }

  /** The serial of the crate's decimal ATOM test line. */
  lemma DecimalSerialExample()
    ensures SerialValue("17") == 17
  {
    assert !HasLetter("17") by { assert !IsAsciiLetter("17"[0]) && !IsAsciiLetter("17"[1]); }
    assert Decimal(17) == "17";
    ParseDecimal(17, U32);
  }

  /** A serial without letters is read in base 10 even when it was written
      in base 16: `18700` is 18700, not 0x18700 (100096). */
  lemma LetterlessSerialExample()
    ensures SerialValue("18700") == 18700
  {
    assert !HasLetter("18700") by {
      forall k | 0 <= k < 5 ensures !IsAsciiLetter("18700"[k]) { }
    }
    assert Decimal(18700) == "18700";
    ParseDecimal(18700, U32);
  }

  /** The charge columns 78-80 lie inside the element columns 77-80, so a
      decoded charge implies a decoded element. */
  lemma ChargeImpliesElement(line: string)
    requires New(line).Done? && New(line).value.charge.Some?
    ensures New(line).value.element.Some?
  {
    var k :| 0 <= k < 2 && !IsWhitespace(line[78..80][k]);
    assert line[77..80][k + 1] == line[78..80][k];
  }

  /** The crate's ATOM test line with a hexadecimal serial, column by column. */
  lemma HexTestLine(line: string)
    requires |line| == 80 && line[6..11] == "186a0" && line[12..16] == " CA " && line[16] == ' '
    requires line[17..20] == "GLY" && line[21] == 'A' && line[22..26] == "  67"
    requires line[26] == ' ' && line[30..38] == "  26.731" && line[38..46] == "  62.085"
    requires line[46..54] == "   4.078" && line[54..60] == "  0.00" && line[60..66] == "  7.83"
    requires line[72..76] == "    " && line[77..80] == "C  " && line[78..80] == "  "
    ensures New(line).Done? && New(line).value.serial == 100000 && New(line).value.name == "CA"
    ensures New(line).value.altLoc == None && New(line).value.resName == "GLY"
    ensures New(line).value.chainId == Some('A') && New(line).value.resSeq == 67
    ensures New(line).value.iCode == None && New(line).value.x == Value("26.731")
    ensures New(line).value.y == Value("62.085") && New(line).value.z == Value("4.078")
    ensures New(line).value.occupancy == Value("0.00")
    ensures New(line).value.tempFactor == Value("7.83") && New(line).value.entry == None
    ensures New(line).value.element == Some("C") && New(line).value.charge == None
  {
    HexSerialExample();
    HexTestLineColumns0(line);
    HexTestLineColumns1(line);
    HexTestLineColumns2(line);
  }

  lemma HexTestLineColumns0(line: string)
    requires |line| >= 26 && line[6..11] == "186a0" && line[12..16] == " CA "
    requires line[17..20] == "GLY" && line[22..26] == "  67"
    ensures Field(line, 6, 11) == Done("186a0") && OptField(line, 6, 11) == Some("186a0")
    ensures Field(line, 12, 16) == Done("CA") && OptField(line, 12, 16) == Some("CA")
    ensures Field(line, 17, 20) == Done("GLY") && OptField(line, 17, 20) == Some("GLY")
    ensures MustInt(line, 22, 26, I16) == Done(67) && IntOr0(line, 22, 26, I16) == Done(67)
    ensures OptInt(line, 22, 26, I16) == Done(Some(67))
  {
    HexTestLineCol6();
    HexTestLineCol12();
    HexTestLineCol17();
    HexTestLineCol22();
    TextColumnIs(line, 6, 11, "186a0", "186a0");
    TextColumnIs(line, 12, 16, " CA ", "CA");
    TextColumnIs(line, 17, 20, "GLY", "GLY");
    IntColumnIs(line, 22, 26, "  67", I16, 67);
  }

  lemma HexTestLineColumns1(line: string)
    requires |line| >= 60 && line[30..38] == "  26.731" && line[38..46] == "  62.085"
    requires line[46..54] == "   4.078" && line[54..60] == "  0.00"
    ensures MustFloat(line, 30, 38) == Done(Value("26.731"))
    ensures FloatOr0(line, 30, 38) == Done(Value("26.731"))
    ensures MustFloat(line, 38, 46) == Done(Value("62.085"))
    ensures FloatOr0(line, 38, 46) == Done(Value("62.085"))
    ensures MustFloat(line, 46, 54) == Done(Value("4.078"))
    ensures FloatOr0(line, 46, 54) == Done(Value("4.078"))
    ensures MustFloat(line, 54, 60) == Done(Value("0.00"))
    ensures FloatOr0(line, 54, 60) == Done(Value("0.00"))
  {
    HexTestLineFloat30();
    HexTestLineCol30();
    HexTestLineFloat38();
    HexTestLineCol38();
    HexTestLineFloat46();
    HexTestLineCol46();
    HexTestLineFloat54();
    HexTestLineCol54();
    FloatColumnIs(line, 30, 38, "  26.731", "26.731");
    FloatColumnIs(line, 38, 46, "  62.085", "62.085");
    FloatColumnIs(line, 46, 54, "   4.078", "4.078");
    FloatColumnIs(line, 54, 60, "  0.00", "0.00");
  }

  lemma HexTestLineColumns2(line: string)
    requires |line| >= 80 && line[60..66] == "  7.83" && line[72..76] == "    "
    requires line[77..80] == "C  " && line[78..80] == "  "
    ensures MustFloat(line, 60, 66) == Done(Value("7.83"))
    ensures FloatOr0(line, 60, 66) == Done(Value("7.83")) && Field(line, 72, 76) == Done([])
    ensures OptField(line, 72, 76) == None && Field(line, 77, 80) == Done("C")
    ensures OptField(line, 77, 80) == Some("C") && Field(line, 78, 80) == Done([])
    ensures OptField(line, 78, 80) == None
  {
    HexTestLineFloat60();
    HexTestLineCol60();
    HexTestLineCol72();
    HexTestLineCol77();
    HexTestLineCol78();
    FloatColumnIs(line, 60, 66, "  7.83", "7.83");
    TextColumnIs(line, 72, 76, "    ", []);
    TextColumnIs(line, 77, 80, "C  ", "C");
    TextColumnIs(line, 78, 80, "  ", []);
  }

  lemma HexTestLineCol6()
    ensures Trim("186a0") == "186a0"
  {
  }

  lemma HexTestLineCol12()
    ensures Trim(" CA ") == "CA"
  {
    TrimPadded(" ", "CA", " ");
    assert " " + "CA" + " " == " CA ";
  }

  lemma HexTestLineCol17()
    ensures Trim("GLY") == "GLY"
  {
  }

  lemma HexTestLineCol22()
    ensures Parse(Trim("  67"), I16) == Some(67)
  {
  }

  lemma HexTestLineFloat30()
    ensures IsFloatLiteral("26.731")
  {
  }

  lemma HexTestLineCol30()
    ensures Trim("  26.731") == "26.731"
  {
  }

  lemma HexTestLineFloat38()
    ensures IsFloatLiteral("62.085")
  {
  }

  lemma HexTestLineCol38()
    ensures Trim("  62.085") == "62.085"
  {
  }

  lemma HexTestLineFloat46()
    ensures IsFloatLiteral("4.078")
  {
  }

  lemma HexTestLineCol46()
    ensures Trim("   4.078") == "4.078"
  {
  }

  lemma HexTestLineFloat54()
    ensures IsFloatLiteral("0.00")
  {
  }

  lemma HexTestLineCol54()
    ensures Trim("  0.00") == "0.00"
  {
  }

  lemma HexTestLineFloat60()
    ensures IsFloatLiteral("7.83")
  {
  }

  lemma HexTestLineCol60()
    ensures Trim("  7.83") == "7.83"
  {
  }

  lemma HexTestLineCol72()
    ensures Trim("    ") == []
  {
    TrimEmptyIffBlank("    ");
  }

  lemma HexTestLineCol77()
    ensures Trim("C  ") == "C"
  {
    TrimPadded([], "C", "  ");
    assert [] + "C" + "  " == "C  ";
  }

  lemma HexTestLineCol78()
    ensures Trim("  ") == []
  {
    TrimEmptyIffBlank("  ");
  }

  /** The crate's ATOM test line with a decimal serial, a blank chain and an entry code. */
  lemma DecimalTestLine(line: string)
    requires |line| == 80 && line[6..11] == "   17" && line[12..16] == " NE2" && line[16] == ' '
    requires line[17..20] == "GLN" && line[21] == ' ' && line[22..26] == "   2"
    requires line[26] == ' ' && line[30..38] == "  25.562" && line[38..46] == "  32.733"
    requires line[46..54] == "   1.806" && line[54..60] == "  1.00" && line[60..66] == " 19.49"
    requires line[72..76] == "1UBQ" && line[77..80] == "   " && line[78..80] == "  "
    ensures New(line).Done? && New(line).value.serial == 17 && New(line).value.name == "NE2"
    ensures New(line).value.altLoc == None && New(line).value.resName == "GLN"
    ensures New(line).value.chainId == None && New(line).value.resSeq == 2
    ensures New(line).value.iCode == None && New(line).value.x == Value("25.562")
    ensures New(line).value.y == Value("32.733") && New(line).value.z == Value("1.806")
    ensures New(line).value.occupancy == Value("1.00")
    ensures New(line).value.tempFactor == Value("19.49") && New(line).value.entry == Some("1UBQ")
    ensures New(line).value.element == None && New(line).value.charge == None
  {
    DecimalSerialExample();
    DecimalTestLineColumns0(line);
    DecimalTestLineColumns1(line);
    DecimalTestLineColumns2(line);
  }

  lemma DecimalTestLineColumns0(line: string)
    requires |line| >= 26 && line[6..11] == "   17" && line[12..16] == " NE2"
    requires line[17..20] == "GLN" && line[22..26] == "   2"
    ensures Field(line, 6, 11) == Done("17") && OptField(line, 6, 11) == Some("17")
    ensures Field(line, 12, 16) == Done("NE2") && OptField(line, 12, 16) == Some("NE2")
    ensures Field(line, 17, 20) == Done("GLN") && OptField(line, 17, 20) == Some("GLN")
    ensures MustInt(line, 22, 26, I16) == Done(2) && IntOr0(line, 22, 26, I16) == Done(2)
    ensures OptInt(line, 22, 26, I16) == Done(Some(2))
  {
    DecimalTestLineCol6();
    DecimalTestLineCol12();
    DecimalTestLineCol17();
    DecimalTestLineCol22();
    TextColumnIs(line, 6, 11, "   17", "17");
    TextColumnIs(line, 12, 16, " NE2", "NE2");
    TextColumnIs(line, 17, 20, "GLN", "GLN");
    IntColumnIs(line, 22, 26, "   2", I16, 2);
  }

  lemma DecimalTestLineColumns1(line: string)
    requires |line| >= 60 && line[30..38] == "  25.562" && line[38..46] == "  32.733"
    requires line[46..54] == "   1.806" && line[54..60] == "  1.00"
    ensures MustFloat(line, 30, 38) == Done(Value("25.562"))
    ensures FloatOr0(line, 30, 38) == Done(Value("25.562"))
    ensures MustFloat(line, 38, 46) == Done(Value("32.733"))
    ensures FloatOr0(line, 38, 46) == Done(Value("32.733"))
    ensures MustFloat(line, 46, 54) == Done(Value("1.806"))
    ensures FloatOr0(line, 46, 54) == Done(Value("1.806"))
    ensures MustFloat(line, 54, 60) == Done(Value("1.00"))
    ensures FloatOr0(line, 54, 60) == Done(Value("1.00"))
  {
    DecimalTestLineFloat30();
    DecimalTestLineCol30();
    DecimalTestLineFloat38();
    DecimalTestLineCol38();
    DecimalTestLineFloat46();
    DecimalTestLineCol46();
    DecimalTestLineFloat54();
    DecimalTestLineCol54();
    FloatColumnIs(line, 30, 38, "  25.562", "25.562");
    FloatColumnIs(line, 38, 46, "  32.733", "32.733");
    FloatColumnIs(line, 46, 54, "   1.806", "1.806");
    FloatColumnIs(line, 54, 60, "  1.00", "1.00");
  }

  lemma DecimalTestLineColumns2(line: string)
    requires |line| >= 80 && line[60..66] == " 19.49" && line[72..76] == "1UBQ"
    requires line[77..80] == "   " && line[78..80] == "  "
    ensures MustFloat(line, 60, 66) == Done(Value("19.49"))
    ensures FloatOr0(line, 60, 66) == Done(Value("19.49")) && Field(line, 72, 76) == Done("1UBQ")
    ensures OptField(line, 72, 76) == Some("1UBQ") && Field(line, 77, 80) == Done([])
    ensures OptField(line, 77, 80) == None && Field(line, 78, 80) == Done([])
    ensures OptField(line, 78, 80) == None
  {
    DecimalTestLineFloat60();
    DecimalTestLineCol60();
    DecimalTestLineCol72();
    DecimalTestLineCol77();
    DecimalTestLineCol78();
    FloatColumnIs(line, 60, 66, " 19.49", "19.49");
    TextColumnIs(line, 72, 76, "1UBQ", "1UBQ");
    TextColumnIs(line, 77, 80, "   ", []);
    TextColumnIs(line, 78, 80, "  ", []);
  }

  lemma DecimalTestLineCol6()
    ensures Trim("   17") == "17"
  {
  }

  lemma DecimalTestLineCol12()
    ensures Trim(" NE2") == "NE2"
  {
  }

  lemma DecimalTestLineCol17()
    ensures Trim("GLN") == "GLN"
  {
  }

  lemma DecimalTestLineCol22()
    ensures Parse(Trim("   2"), I16) == Some(2)
  {
  }

  lemma DecimalTestLineFloat30()
    ensures IsFloatLiteral("25.562")
  {
  }

  lemma DecimalTestLineCol30()
    ensures Trim("  25.562") == "25.562"
  {
  }

  lemma DecimalTestLineFloat38()
    ensures IsFloatLiteral("32.733")
  {
  }

  lemma DecimalTestLineCol38()
    ensures Trim("  32.733") == "32.733"
  {
  }

  lemma DecimalTestLineFloat46()
    ensures IsFloatLiteral("1.806")
  {
  }

  lemma DecimalTestLineCol46()
    ensures Trim("   1.806") == "1.806"
  {
  }

  lemma DecimalTestLineFloat54()
    ensures IsFloatLiteral("1.00")
  {
  }

  lemma DecimalTestLineCol54()
    ensures Trim("  1.00") == "1.00"
  {
  }

  lemma DecimalTestLineFloat60()
    ensures IsFloatLiteral("19.49")
  {
  }

  lemma DecimalTestLineCol60()
    ensures Trim(" 19.49") == "19.49"
  {
  }

  lemma DecimalTestLineCol72()
    ensures Trim("1UBQ") == "1UBQ"
  {
  }

  lemma DecimalTestLineCol77()
    ensures Trim("   ") == []
  {
    TrimEmptyIffBlank("   ");
  }

  lemma DecimalTestLineCol78()
    ensures Trim("  ") == []
  {
    TrimEmptyIffBlank("  ");
  }
}
