/** HET lines (`HetRecord::new`): a non-standard group and its atom count. */
module Het {
  import opened Text
  import opened Numbers
  import opened Columns

  datatype HetRecord = HetRecord(
    hetId: string,
    chainId: char,
    seqNum: i32,
    iCode: Option<char>,
    numHetAtoms: i32,
    text: Option<string>)

  /** The columns a successful decode needs: the sequence number and the
      atom count, which ends at column 26, read as `i32`s. */
  predicate Decodable(line: string) {
    ReadsInt(line, 13, 17, I32) && ReadsInt(line, 21, 26, I32)
  }

  /** The chain identifier is the raw character at column 12, directly
      before the sequence number; the description is optional and needs the
      full 71 columns. */
  function New(line: string): (r: Decoded<HetRecord>)
    ensures r.Done? <==> Decodable(line)
    ensures r.Done? ==> r.value.hetId == Trim(line[7..10]) && r.value.chainId == line[12]
    ensures r.Done? ==>
      Parse(Trim(line[13..17]), I32) == Some(r.value.seqNum as int) &&
      Parse(Trim(line[21..26]), I32) == Some(r.value.numHetAtoms as int)
    ensures r.Done? ==> r.value.iCode == CharOrNone(line[17])
    ensures r.Done? ==> OptionalColumn(r.value.text, line, 31, 71)
  {
    if Decodable(line) then
      Done(HetRecord(
        Field(line, 7, 10).value,
        CharAt(line, 12).value,
        MustInt(line, 13, 17, I32).value,
        OptChar(line, 17).value,
        MustInt(line, 21, 26, I32).value,
        OptField(line, 31, 71)))
    else
      Panic
  }

  /** The crate's first HET test line: the chain identifier and the sequence number touch, and a 46-column line has no description. */
  lemma TestLine(line: string)
    requires |line| == 46 && line[7..10] == "UDP" && line[12] == 'A' && line[13..17] == "1457"
    requires line[17] == ' ' && line[21..26] == "  25 "
    ensures New(line).Done? && New(line).value.hetId == "UDP" && New(line).value.chainId == 'A'
    ensures New(line).value.seqNum == 1457 && New(line).value.iCode == None
    ensures New(line).value.numHetAtoms == 25 && New(line).value.text == None
  {
    TestLineColumns0(line);
  }

  lemma TestLineColumns0(line: string)
    requires |line| >= 26 && line[7..10] == "UDP" && line[13..17] == "1457"
    requires line[21..26] == "  25 "
    ensures Field(line, 7, 10) == Done("UDP") && OptField(line, 7, 10) == Some("UDP")
    ensures MustInt(line, 13, 17, I32) == Done(1457) && IntOr0(line, 13, 17, I32) == Done(1457)
    ensures OptInt(line, 13, 17, I32) == Done(Some(1457))
    ensures MustInt(line, 21, 26, I32) == Done(25) && IntOr0(line, 21, 26, I32) == Done(25)
    ensures OptInt(line, 21, 26, I32) == Done(Some(25))
  {
    TestLineCol7();
    TestLineCol13();
    TestLineCol21();
    TextColumnIs(line, 7, 10, "UDP", "UDP");
    IntColumnIs(line, 13, 17, "1457", I32, 1457);
    IntColumnIs(line, 21, 26, "  25 ", I32, 25);
  }

  lemma TestLineCol7()
    ensures Trim("UDP") == "UDP"
  {
  }

  lemma TestLineCol13()
    ensures Parse(Trim("1457"), I32) == Some(1457)
  {
  }

  lemma TestLineCol21()
    ensures Parse(Trim("  25 "), I32) == Some(25)
  {
    TrimPadded("  ", "25", " ");
    assert "  " + "25" + " " == "  25 ";
  }

  /** The crate's second HET test line. */
  lemma SecondTestLine(line: string)
    requires |line| == 30 && line[7..10] == "UNK" && line[12] == 'A' && line[13..17] == " 161"
    requires line[17] == ' ' && line[21..26] == "   1 "
    ensures New(line).Done? && New(line).value.hetId == "UNK" && New(line).value.chainId == 'A'
    ensures New(line).value.seqNum == 161 && New(line).value.iCode == None
    ensures New(line).value.numHetAtoms == 1 && New(line).value.text == None
  {
    SecondTestLineColumns0(line);
  }

  lemma SecondTestLineColumns0(line: string)
    requires |line| >= 26 && line[7..10] == "UNK" && line[13..17] == " 161"
    requires line[21..26] == "   1 "
    ensures Field(line, 7, 10) == Done("UNK") && OptField(line, 7, 10) == Some("UNK")
    ensures MustInt(line, 13, 17, I32) == Done(161) && IntOr0(line, 13, 17, I32) == Done(161)
    ensures OptInt(line, 13, 17, I32) == Done(Some(161)) && MustInt(line, 21, 26, I32) == Done(1)
    ensures IntOr0(line, 21, 26, I32) == Done(1) && OptInt(line, 21, 26, I32) == Done(Some(1))
  {
    SecondTestLineCol7();
    SecondTestLineCol13();
    SecondTestLineCol21();
    TextColumnIs(line, 7, 10, "UNK", "UNK");
    IntColumnIs(line, 13, 17, " 161", I32, 161);
    IntColumnIs(line, 21, 26, "   1 ", I32, 1);
  }

  lemma SecondTestLineCol7()
    ensures Trim("UNK") == "UNK"
  {
  }

  lemma SecondTestLineCol13()
    ensures Parse(Trim(" 161"), I32) == Some(161)
  {
  }

  lemma SecondTestLineCol21()
    ensures Parse(Trim("   1 "), I32) == Some(1)
  {
    TrimPadded("   ", "1", " ");
    assert "   " + "1" + " " == "   1 ";
  }
}
