/** SEQADV lines (`SeqAdvRecord::new` of the top-level `src/records`): a
    difference between the residues of a structure and those of the
    sequence database entry it cites. */
module Seqadv {
  import opened Text
  import opened Numbers
  import opened Columns
  import opened DbRef

  datatype SeqAdvRecord = SeqAdvRecord(
    idCode: string,
    resName: string,
    chainId: char,
    seqNum: i32,
    iCode: Option<char>,
    database: DbType,
    dbAccession: string,
    dbRes: Option<string>,
    dbSeq: Option<i32>,
    conflict: string)

  /** The columns a successful decode needs: a known database code in
      columns 24 to 28, an `i32` sequence number and a line reaching column
      49, where the conflict text starts. */
  predicate Decodable(line: string) {
    |line| >= 49 && DbTypeOf(line[24..28]).Done? && ReadsInt(line, 18, 22, I32)
  }

  /** The database residue is `None` when its column is blank, and the
      database sequence number is `None` when its column is not an `i32`. */
  function New(line: string): (r: Decoded<SeqAdvRecord>)
    ensures r.Done? <==> Decodable(line)
    ensures r.Done? ==> r.value.database == DbTypeOf(line[24..28]).value
    ensures r.Done? ==>
      r.value.idCode == Trim(line[7..11]) && r.value.resName == Trim(line[12..15]) &&
      r.value.dbAccession == Trim(line[29..38]) && r.value.conflict == Trim(line[49..])
    ensures r.Done? ==> r.value.chainId == line[16] && r.value.iCode == CharOrNone(line[22])
    ensures r.Done? ==> Parse(Trim(line[18..22]), I32) == Some(r.value.seqNum as int)
    ensures r.Done? ==> OptionalColumn(r.value.dbRes, line, 39, 42)
    ensures r.Done? ==> r.value.dbSeq == Parse(Trim(line[43..48]), I32)
  {
    var column :- Slice(line, 24, 28);
    var database :- DbTypeOf(column);
    if Decodable(line) then
      Done(SeqAdvRecord(
        Field(line, 7, 11).value,
        Field(line, 12, 15).value,
        CharAt(line, 16).value,
        MustInt(line, 18, 22, I32).value,
        OptChar(line, 22).value,
        database,
        Field(line, 29, 38).value,
        OptField(line, 39, 42),
        AsI32(OptInt(line, 43, 48, I32).value),
        FieldFrom(line, 49).value))
    else
      Panic
  }

  function AsI32(o: Option<int>): (r: Option<i32>)
    requires o.Some? ==> I32_MIN <= o.value <= I32_MAX
    ensures r == o
  {
    match o
    case Some(v) => Some(v)
    case None => None
  }

  /** The database column is four wide, so NORINE is only ever read under
      its alias `NOR`. */
  lemma NorineOnlyAsNor(line: string)
    requires New(line).Done? && New(line).value.database == NORINE
    ensures Trim(line[24..28]) == "NOR"
  {
    var i := TrimShape(line[24..28]);
  }

  /** The crate's first SEQADV test line: a negative sequence number, and no database residue or number. */
  lemma TestLine(line: string)
    requires |line| == 63 && line[7..11] == "3ABC" && line[12..15] == "MET" && line[16] == 'A'
    requires line[18..22] == "  -1" && line[22] == ' ' && line[24..28] == "UNP "
    requires line[29..38] == "P10725   " && line[39..42] == "   " && line[43..48] == "     "
    requires line[49..] == "EXPRESSION TAG"
    ensures New(line).Done? && New(line).value.idCode == "3ABC"
    ensures New(line).value.resName == "MET" && New(line).value.chainId == 'A'
    ensures New(line).value.seqNum == -1 && New(line).value.iCode == None
    ensures New(line).value.database == UNP && New(line).value.dbAccession == "P10725"
    ensures New(line).value.dbRes == None && New(line).value.dbSeq == None
    ensures New(line).value.conflict == "EXPRESSION TAG"
  {
    UnpColumn();
    ParseRejects(I32);
    TestLineColumns0(line);
    TestLineColumns1(line);
  }

  lemma TestLineColumns0(line: string)
    requires |line| >= 28 && line[7..11] == "3ABC" && line[12..15] == "MET"
    requires line[18..22] == "  -1" && line[24..28] == "UNP "
    ensures Field(line, 7, 11) == Done("3ABC") && OptField(line, 7, 11) == Some("3ABC")
    ensures Field(line, 12, 15) == Done("MET") && OptField(line, 12, 15) == Some("MET")
    ensures MustInt(line, 18, 22, I32) == Done(-1) && IntOr0(line, 18, 22, I32) == Done(-1)
    ensures OptInt(line, 18, 22, I32) == Done(Some(-1)) && Field(line, 24, 28) == Done("UNP")
    ensures OptField(line, 24, 28) == Some("UNP")
  {
    TestLineCol7();
    TestLineCol12();
    TestLineCol18();
    TestLineCol24();
    TextColumnIs(line, 7, 11, "3ABC", "3ABC");
    TextColumnIs(line, 12, 15, "MET", "MET");
    IntColumnIs(line, 18, 22, "  -1", I32, -1);
    TextColumnIs(line, 24, 28, "UNP ", "UNP");
  }

  lemma TestLineColumns1(line: string)
    requires |line| >= 63 && line[29..38] == "P10725   " && line[39..42] == "   "
    requires line[43..48] == "     " && line[49..] == "EXPRESSION TAG"
    ensures Field(line, 29, 38) == Done("P10725") && OptField(line, 29, 38) == Some("P10725")
    ensures Field(line, 39, 42) == Done([]) && OptField(line, 39, 42) == None
    ensures Field(line, 43, 48) == Done([]) && OptField(line, 43, 48) == None
    ensures FieldFrom(line, 49) == Done("EXPRESSION TAG")
  {
    TestLineCol29();
    TestLineCol39();
    TestLineCol43();
    TestLineCol49();
    TextColumnIs(line, 29, 38, "P10725   ", "P10725");
    TextColumnIs(line, 39, 42, "   ", []);
    TextColumnIs(line, 43, 48, "     ", []);
    RestColumnIs(line, 49, "EXPRESSION TAG", "EXPRESSION TAG");
  }

  lemma UnpColumn()
    ensures DbTypeOf("UNP ") == Done(UNP)
  {
    CodeRoundTrip(UNP, [], " ");
    assert [] + Code(UNP) + " " == "UNP ";
  }

  lemma NorColumn()
    ensures DbTypeOf("NOR ") == Done(NORINE)
  {
    assert Trimmed("NOR");
    TrimPadded([], "NOR", " ");
    assert [] + "NOR" + " " == "NOR ";
  }

  lemma TestLineCol7()
    ensures Trim("3ABC") == "3ABC"
  {
  }

  lemma TestLineCol12()
    ensures Trim("MET") == "MET"
  {
  }

  lemma TestLineCol18()
    ensures Parse(Trim("  -1"), I32) == Some(-1)
  {
  }

  lemma TestLineCol24()
    ensures Trim("UNP ") == "UNP"
  {
    TrimPadded([], "UNP", " ");
    assert [] + "UNP" + " " == "UNP ";
  }

  lemma TestLineCol29()
    ensures Trim("P10725   ") == "P10725"
  {
    TrimPadded([], "P10725", "   ");
    assert [] + "P10725" + "   " == "P10725   ";
  }

  lemma TestLineCol39()
    ensures Trim("   ") == []
  {
    TrimEmptyIffBlank("   ");
  }

  lemma TestLineCol43()
    ensures Trim("     ") == []
  {
    TrimEmptyIffBlank("     ");
  }

  lemma TestLineCol49()
    ensures Trim("EXPRESSION TAG") == "EXPRESSION TAG"
  {
  }

  /** The crate's second SEQADV test line: an engineered residue with its database residue and number. */
  lemma SecondTestLine(line: string)
    requires |line| == 59 && line[7..11] == "3ABC" && line[12..15] == "GLY" && line[16] == 'A'
    requires line[18..22] == "  50" && line[22] == ' ' && line[24..28] == "UNP "
    requires line[29..38] == "P10725   " && line[39..42] == "VAL" && line[43..48] == "   50"
    requires line[49..] == "ENGINEERED"
    ensures New(line).Done? && New(line).value.idCode == "3ABC"
    ensures New(line).value.resName == "GLY" && New(line).value.chainId == 'A'
    ensures New(line).value.seqNum == 50 && New(line).value.iCode == None
    ensures New(line).value.database == UNP && New(line).value.dbAccession == "P10725"
    ensures New(line).value.dbRes == Some("VAL") && New(line).value.dbSeq == Some(50)
    ensures New(line).value.conflict == "ENGINEERED"
  {
    UnpColumn();
    SecondTestLineColumns0(line);
    SecondTestLineColumns1(line);
  }

  lemma SecondTestLineColumns0(line: string)
    requires |line| >= 28 && line[7..11] == "3ABC" && line[12..15] == "GLY"
    requires line[18..22] == "  50" && line[24..28] == "UNP "
    ensures Field(line, 7, 11) == Done("3ABC") && OptField(line, 7, 11) == Some("3ABC")
    ensures Field(line, 12, 15) == Done("GLY") && OptField(line, 12, 15) == Some("GLY")
    ensures MustInt(line, 18, 22, I32) == Done(50) && IntOr0(line, 18, 22, I32) == Done(50)
    ensures OptInt(line, 18, 22, I32) == Done(Some(50)) && Field(line, 24, 28) == Done("UNP")
    ensures OptField(line, 24, 28) == Some("UNP")
  {
    SecondTestLineCol7();
    SecondTestLineCol12();
    SecondTestLineCol18();
    SecondTestLineCol24();
    TextColumnIs(line, 7, 11, "3ABC", "3ABC");
    TextColumnIs(line, 12, 15, "GLY", "GLY");
    IntColumnIs(line, 18, 22, "  50", I32, 50);
    TextColumnIs(line, 24, 28, "UNP ", "UNP");
  }

  lemma SecondTestLineColumns1(line: string)
    requires |line| >= 59 && line[29..38] == "P10725   " && line[39..42] == "VAL"
    requires line[43..48] == "   50" && line[49..] == "ENGINEERED"
    ensures Field(line, 29, 38) == Done("P10725") && OptField(line, 29, 38) == Some("P10725")
    ensures Field(line, 39, 42) == Done("VAL") && OptField(line, 39, 42) == Some("VAL")
    ensures MustInt(line, 43, 48, I32) == Done(50) && IntOr0(line, 43, 48, I32) == Done(50)
    ensures OptInt(line, 43, 48, I32) == Done(Some(50))
    ensures FieldFrom(line, 49) == Done("ENGINEERED")
  {
    SecondTestLineCol29();
    SecondTestLineCol39();
    SecondTestLineCol43();
    SecondTestLineCol49();
    TextColumnIs(line, 29, 38, "P10725   ", "P10725");
    TextColumnIs(line, 39, 42, "VAL", "VAL");
    IntColumnIs(line, 43, 48, "   50", I32, 50);
    RestColumnIs(line, 49, "ENGINEERED", "ENGINEERED");
  }

  lemma SecondTestLineCol7()
    ensures Trim("3ABC") == "3ABC"
  {
  }

  lemma SecondTestLineCol12()
    ensures Trim("GLY") == "GLY"
  {
  }

  lemma SecondTestLineCol18()
    ensures Parse(Trim("  50"), I32) == Some(50)
  {
  }

  lemma SecondTestLineCol24()
    ensures Trim("UNP ") == "UNP"
  {
    TrimPadded([], "UNP", " ");
    assert [] + "UNP" + " " == "UNP ";
  }

  lemma SecondTestLineCol29()
    ensures Trim("P10725   ") == "P10725"
  {
    TrimPadded([], "P10725", "   ");
    assert [] + "P10725" + "   " == "P10725   ";
  }

  lemma SecondTestLineCol39()
    ensures Trim("VAL") == "VAL"
  {
  }

  lemma SecondTestLineCol43()
    ensures Parse(Trim("   50"), I32) == Some(50)
  {
  }

  lemma SecondTestLineCol49()
    ensures Trim("ENGINEERED") == "ENGINEERED"
  {
  }

  /** The crate's third SEQADV test line: the alias `NOR` reads as NORINE. */
  lemma NorineTestLine(line: string)
    requires |line| == 63 && line[7..11] == "2OKW" && line[12..15] == "LEU" && line[16] == 'A'
    requires line[18..22] == "  64" && line[22] == ' ' && line[24..28] == "NOR "
    requires line[29..38] == "NOR00669 " && line[39..42] == "PHE" && line[43..48] == "   14"
    requires line[49..] == "SEE REMARK 999"
    ensures New(line).Done? && New(line).value.idCode == "2OKW"
    ensures New(line).value.resName == "LEU" && New(line).value.chainId == 'A'
    ensures New(line).value.seqNum == 64 && New(line).value.iCode == None
    ensures New(line).value.database == NORINE && New(line).value.dbAccession == "NOR00669"
    ensures New(line).value.dbRes == Some("PHE") && New(line).value.dbSeq == Some(14)
    ensures New(line).value.conflict == "SEE REMARK 999"
  {
    NorColumn();
    NorineTestLineColumns0(line);
    NorineTestLineColumns1(line);
  }

  lemma NorineTestLineColumns0(line: string)
    requires |line| >= 28 && line[7..11] == "2OKW" && line[12..15] == "LEU"
    requires line[18..22] == "  64" && line[24..28] == "NOR "
    ensures Field(line, 7, 11) == Done("2OKW") && OptField(line, 7, 11) == Some("2OKW")
    ensures Field(line, 12, 15) == Done("LEU") && OptField(line, 12, 15) == Some("LEU")
    ensures MustInt(line, 18, 22, I32) == Done(64) && IntOr0(line, 18, 22, I32) == Done(64)
    ensures OptInt(line, 18, 22, I32) == Done(Some(64)) && Field(line, 24, 28) == Done("NOR")
    ensures OptField(line, 24, 28) == Some("NOR")
  {
    NorineTestLineCol7();
    NorineTestLineCol12();
    NorineTestLineCol18();
    NorineTestLineCol24();
    TextColumnIs(line, 7, 11, "2OKW", "2OKW");
    TextColumnIs(line, 12, 15, "LEU", "LEU");
    IntColumnIs(line, 18, 22, "  64", I32, 64);
    TextColumnIs(line, 24, 28, "NOR ", "NOR");
  }

  lemma NorineTestLineColumns1(line: string)
    requires |line| >= 63 && line[29..38] == "NOR00669 " && line[39..42] == "PHE"
    requires line[43..48] == "   14" && line[49..] == "SEE REMARK 999"
    ensures Field(line, 29, 38) == Done("NOR00669") && OptField(line, 29, 38) == Some("NOR00669")
    ensures Field(line, 39, 42) == Done("PHE") && OptField(line, 39, 42) == Some("PHE")
    ensures MustInt(line, 43, 48, I32) == Done(14) && IntOr0(line, 43, 48, I32) == Done(14)
    ensures OptInt(line, 43, 48, I32) == Done(Some(14))
    ensures FieldFrom(line, 49) == Done("SEE REMARK 999")
  {
    NorineTestLineCol29();
    NorineTestLineCol39();
    NorineTestLineCol43();
    NorineTestLineCol49();
    TextColumnIs(line, 29, 38, "NOR00669 ", "NOR00669");
    TextColumnIs(line, 39, 42, "PHE", "PHE");
    IntColumnIs(line, 43, 48, "   14", I32, 14);
    RestColumnIs(line, 49, "SEE REMARK 999", "SEE REMARK 999");
  }

  lemma NorineTestLineCol7()
    ensures Trim("2OKW") == "2OKW"
  {
  }

  lemma NorineTestLineCol12()
    ensures Trim("LEU") == "LEU"
  {
  }

  lemma NorineTestLineCol18()
    ensures Parse(Trim("  64"), I32) == Some(64)
  {
  }

  lemma NorineTestLineCol24()
    ensures Trim("NOR ") == "NOR"
  {
    TrimPadded([], "NOR", " ");
    assert [] + "NOR" + " " == "NOR ";
  }

  lemma NorineTestLineCol29()
    ensures Trim("NOR00669 ") == "NOR00669"
  {
    TrimPadded([], "NOR00669", " ");
    assert [] + "NOR00669" + " " == "NOR00669 ";
  }

  lemma NorineTestLineCol39()
    ensures Trim("PHE") == "PHE"
  {
  }

  lemma NorineTestLineCol43()
    ensures Parse(Trim("   14"), I32) == Some(14)
  {
  }

  lemma NorineTestLineCol49()
    ensures Trim("SEE REMARK 999") == "SEE REMARK 999"
  {
  }
}
