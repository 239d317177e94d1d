/** TER lines (`TermRecord::new`): the end of a chain. */
module Term {
  import opened Text
  import opened Numbers
  import opened Columns

  datatype TermRecord = TermRecord(serial: u32, resName: string, chainId: char, resSeq: i16, iCode: Option<char>)

  /** Every column is read leniently, so a TER line fails only when it is
      shorter than 26 columns. The chain identifier is the raw character at
      column 21, a blank included, and the insertion code is the raw
      character at column 26 whenever the line reaches it. */
  function New(line: string): (r: Decoded<TermRecord>)
    ensures r.Done? <==> |line| >= 26
    ensures r.Done? ==> r.value.serial == Parse(Trim(line[6..11]), U32).GetOr(0)
    ensures r.Done? ==> r.value.resName == Trim(line[17..20]) && r.value.chainId == line[21]
    ensures r.Done? ==> r.value.resSeq == Parse(Trim(line[22..26]), I16).GetOr(0)
    ensures r.Done? ==> (r.value.iCode.Some? <==> |line| >= 27)
    ensures r.Done? && |line| >= 27 ==> r.value.iCode == Some(line[26])
  {
    if |line| >= 26 then
      Done(TermRecord(
        IntOr0(line, 6, 11, U32).value,
        Field(line, 17, 20).value,
        Slice(line, 21, 22).value[0],
        IntOr0(line, 22, 26, I16).value,
        match Get(line, 26, 27) case Some(s) => Some(s[0]) case None => None))
    else
      Panic
  }

  /** A blank residue number reads as 0. */
  lemma BlankResidueIsZero(line: string)
    requires |line| >= 26 && IsBlank(line[22..26])
    ensures New(line).value.resSeq == 0
  {
    TrimEmptyIffBlank(line[22..26]);
    ParseRejects(I16);
  }

  /** The record depends on columns 6 to 27 only, and on whether the line
      reaches column 27. */
  lemma Local(line: string, other: string)
    requires |line| >= 26 && |other| >= 26 && (|line| >= 27 <==> |other| >= 27)
    requires line[6..26] == other[6..26]
    requires |line| >= 27 ==> line[26] == other[26]
    ensures New(line) == New(other)
  {
    Window(line, other, 6, 26, 6, 11);
    Window(line, other, 6, 26, 17, 20);
    Window(line, other, 6, 26, 22, 26);
    assert line[21] == line[6..26][15] && other[21] == other[6..26][15];
  }
}
