/** HETNAM lines (`HetnamRecord::new`): the chemical name of a
    non-standard group. */
module Hetnam {
  import opened Text
  import opened Columns

  datatype HetnamRecord = HetnamRecord(continuation: Option<string>, hetId: string, text: string)

  /** Only the group identifier is mandatory, so a HETNAM line fails exactly
      when it is shorter than 15 columns; the name runs to the end of the
      line, however long. */
  function New(line: string): (r: Decoded<HetnamRecord>)
    ensures r.Done? <==> |line| >= 15
    ensures r.Done? ==> OptionalColumn(r.value.continuation, line, 8, 10)
    ensures r.Done? ==> r.value.hetId == Trim(line[11..15]) && r.value.text == Trim(line[15..])
  {
    if |line| >= 15 then
      Done(HetnamRecord(OptField(line, 8, 10), Field(line, 11, 15).value, FieldFrom(line, 15).value))
    else
      Panic
  }

  /** Trailing blanks never change a HETNAM record. */
  lemma TrailingBlanksIgnored(line: string, pad: string)
    requires |line| >= 15 && IsBlank(pad)
    ensures New(line + pad) == New(line)
  {
    var ext := line + pad;
    assert ext[8..10] == line[8..10] && ext[11..15] == line[11..15];
    assert ext[15..] == line[15..] + pad;
    TrimBlankSuffix(line[15..], pad);
  }

  /** The crate's first HETNAM test line: no continuation number. */
  lemma TestLine(line: string)
    requires |line| == 37 && line[8..10] == "  " && line[11..15] == "NAG "
    requires line[15..] == "N-ACETYL-D-GLUCOSAMINE"
    ensures New(line).Done? && New(line).value.continuation == None
    ensures New(line).value.hetId == "NAG" && New(line).value.text == "N-ACETYL-D-GLUCOSAMINE"
  {
    TestLineColumns0(line);
  }

  lemma TestLineColumns0(line: string)
    requires |line| >= 37 && line[8..10] == "  " && line[11..15] == "NAG "
    requires line[15..] == "N-ACETYL-D-GLUCOSAMINE"
    ensures Field(line, 8, 10) == Done([]) && OptField(line, 8, 10) == None
    ensures Field(line, 11, 15) == Done("NAG") && OptField(line, 11, 15) == Some("NAG")
    ensures FieldFrom(line, 15) == Done("N-ACETYL-D-GLUCOSAMINE")
  {
    TestLineCol8();
    TestLineCol11();
    TestLineCol15();
    TextColumnIs(line, 8, 10, "  ", []);
    TextColumnIs(line, 11, 15, "NAG ", "NAG");
    RestColumnIs(line, 15, "N-ACETYL-D-GLUCOSAMINE", "N-ACETYL-D-GLUCOSAMINE");
  }

  lemma TestLineCol8()
    ensures Trim("  ") == []
  {
    TrimEmptyIffBlank("  ");
  }

  lemma TestLineCol11()
    ensures Trim("NAG ") == "NAG"
  {
    TrimPadded([], "NAG", " ");
    assert [] + "NAG" + " " == "NAG ";
  }

  lemma TestLineCol15()
    ensures Trim("N-ACETYL-D-GLUCOSAMINE") == "N-ACETYL-D-GLUCOSAMINE"
  {
  }

  /** The crate's second HETNAM test line: continuation number 2. */
  lemma ContinuationTestLine(line: string)
    requires |line| == 27 && line[8..10] == "2 " && line[11..15] == "SAD "
    requires line[15..] == "DINUCLEOTIDE"
    ensures New(line).Done? && New(line).value.continuation == Some("2")
    ensures New(line).value.hetId == "SAD" && New(line).value.text == "DINUCLEOTIDE"
  {
    ContinuationTestLineColumns0(line);
  }

  lemma ContinuationTestLineColumns0(line: string)
    requires |line| >= 27 && line[8..10] == "2 " && line[11..15] == "SAD "
    requires line[15..] == "DINUCLEOTIDE"
    ensures Field(line, 8, 10) == Done("2") && OptField(line, 8, 10) == Some("2")
    ensures Field(line, 11, 15) == Done("SAD") && OptField(line, 11, 15) == Some("SAD")
    ensures FieldFrom(line, 15) == Done("DINUCLEOTIDE")
  {
    ContinuationTestLineCol8();
    ContinuationTestLineCol11();
    ContinuationTestLineCol15();
    TextColumnIs(line, 8, 10, "2 ", "2");
    TextColumnIs(line, 11, 15, "SAD ", "SAD");
    RestColumnIs(line, 15, "DINUCLEOTIDE", "DINUCLEOTIDE");
  }

  lemma ContinuationTestLineCol8()
    ensures Trim("2 ") == "2"
  {
    TrimPadded([], "2", " ");
    assert [] + "2" + " " == "2 ";
  }

  lemma ContinuationTestLineCol11()
    ensures Trim("SAD ") == "SAD"
  {
    TrimPadded([], "SAD", " ");
    assert [] + "SAD" + " " == "SAD ";
  }

  lemma ContinuationTestLineCol15()
    ensures Trim("DINUCLEOTIDE") == "DINUCLEOTIDE"
  {
  }
}
