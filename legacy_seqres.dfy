/** SEQRES lines in the first version of the crate (`SeqresRecord::new` of
    the top-level `src/records`): the residue count is a `u32`. */
module LegacySeqres {
  import opened Text
  import opened Numbers
  import opened Columns
  import Seqres

  datatype SeqresRecord = SeqresRecord(serNum: u32, chainId: char, numRes: u32, resNames: seq<string>)

  predicate Decodable(line: string) {
    |line| >= 19 && ReadsInt(line, 7, 10, U32) && ReadsInt(line, 13, 17, U32)
  }

  function New(line: string): (r: Decoded<SeqresRecord>)
    ensures r.Done? <==> Decodable(line)
    ensures r.Done? ==>
      Parse(Trim(line[7..10]), U32) == Some(r.value.serNum as int) &&
      Parse(Trim(line[13..17]), U32) == Some(r.value.numRes as int)
    ensures r.Done? ==> r.value.chainId == line[11]
    ensures r.Done? ==> r.value.resNames == SplitWhitespace(line[19..])
  {
    if Decodable(line) then
      Done(SeqresRecord(
        MustInt(line, 7, 10, U32).value,
        CharAt(line, 11).value,
        MustInt(line, 13, 17, U32).value,
        SplitWhitespace(line[19..])))
    else
      Panic
  }

  /** A negative residue count, which the current decoder accepts, makes
      this one fail. */
  lemma NegativeCountFails(line: string, pad: string, n: nat)
    requires |line| >= 19 && line[13..17] == pad + ("-" + Decimal(n)) && IsBlank(pad)
    ensures New(line) == Panic
  {
    NegativeTrimmed(n);
    TrimPadded(pad, "-" + Decimal(n), []);
    assert pad + ("-" + Decimal(n)) + [] == line[13..17];
    UnsignedRejectsMinus(Decimal(n), U32);
  }

  /** On a count column that does not start with `-` the two versions agree
      field by field. (`-0` is the one count the current decoder reads as
      non-negative and this one rejects.) */
  lemma AgreesWithCurrent(line: string)
    requires Seqres.New(line).Done?
    requires Trim(line[13..17]) == [] || Trim(line[13..17])[0] != '-'
    ensures New(line).Done?
    ensures New(line).value.serNum == Seqres.New(line).value.serNum
    ensures New(line).value.chainId == Seqres.New(line).value.chainId
    ensures New(line).value.numRes as int == Seqres.New(line).value.numRes as int
    ensures New(line).value.resNames == Seqres.New(line).value.resNames
  {
    var s := Trim(line[13..17]);
    UnsignedScanWithoutMinus(s, I16, U32);
    UnsignedScanNonNegative(Begin, s, 10, U32);
    assert Parse(s, U32) == Parse(s, I16);
  }

  /** `-0`: the current decoder reads a count of 0, this one fails. */
  lemma MinusZeroCount(line: string)
    requires Seqres.Decodable(line) && line[13..17] == "  -0"
    ensures Seqres.New(line).value.numRes == 0
    ensures New(line) == Panic
  {
    NegativeTrimmed(0);
    TrimPadded("  ", "-" + Decimal(0), []);
    assert "  " + ("-" + Decimal(0)) + [] == line[13..17];
    ParseNegatedDecimal(0, I16);
    NegativeCountFails(line, "  ", 0);
  }
}
