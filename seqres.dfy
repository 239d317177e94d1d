/** SEQRES lines (`SeqresRecord::new`): part of the residue sequence of one
    chain. */
module Seqres {
  import opened Text
  import opened Numbers
  import opened Columns

  datatype SeqresRecord = SeqresRecord(serNum: u32, chainId: char, numRes: i16, resNames: seq<string>)

  /** The columns a successful decode needs: a `u32` serial, an `i16`
      residue count and a line reaching column 19, where the names start. */
  predicate Decodable(line: string) {
    |line| >= 19 && ReadsInt(line, 7, 10, U32) && ReadsInt(line, 13, 17, I16)
  }

  /** The residue names are the whitespace-separated words of the rest of
      the line, in order and with repeats kept. */
  function New(line: string): (r: Decoded<SeqresRecord>)
    ensures r.Done? <==> Decodable(line)
    ensures r.Done? ==>
      Parse(Trim(line[7..10]), U32) == Some(r.value.serNum as int) &&
      Parse(Trim(line[13..17]), I16) == Some(r.value.numRes as int)
    ensures r.Done? ==> r.value.chainId == line[11]
    ensures r.Done? ==> r.value.resNames == SplitWhitespace(line[19..])
  {
    if Decodable(line) then
      Done(SeqresRecord(
        MustInt(line, 7, 10, U32).value,
        CharAt(line, 11).value,
        MustInt(line, 13, 17, I16).value,
        SplitWhitespace(line[19..])))
    else
      Panic
  }

  /** No residue name is empty or holds whitespace, and together they hold
      exactly the non-blank characters of the rest of the line. */
  lemma NamesAreWords(line: string)
    requires New(line).Done?
    ensures forall k :: 0 <= k < |New(line).value.resNames| ==>
      New(line).value.resNames[k] != [] && NoWhitespace(New(line).value.resNames[k])
    ensures Concat(New(line).value.resNames) == Unspaced(line[19..])
  {
    SplitKeepsContent(line[19..]);
  }

  /** A blank rest of line gives no residue names. */
  lemma BlankRestHasNoNames(line: string)
    requires Decodable(line) && IsBlank(line[19..])
    ensures New(line).value.resNames == []
  {
    SplitBlank(line[19..]);
  }

  /** Names written one space apart read back as the same names, in the
      same order. */
  lemma SpacedNamesRead(line: string, names: seq<string>)
    requires Decodable(line) && line[19..] == Spaced(names)
    requires forall k :: 0 <= k < |names| ==> names[k] != [] && NoWhitespace(names[k])
    ensures New(line).value.resNames == names
  {
    SplitSpaced(names);
  }
}
