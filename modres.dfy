/** MODRES lines (`ModresRecord::from`, which `new` calls): a modified
    residue and the standard residue it replaces. */
module Modres {
  import opened Text
  import opened Numbers
  import opened Columns

  datatype ModresRecord = ModresRecord(
    idCode: string,
    resName: string,
    chainId: char,
    seqNum: i16,
    iCode: Option<char>,
    stdResName: string,
    comment: string)

  /** The columns a successful decode needs: an `i16` sequence number and a
      line reaching column 29, where the comment starts. */
  predicate Decodable(line: string) {
    |line| >= 29 && ReadsInt(line, 18, 22, I16)
  }

  function From(line: string): (r: Decoded<ModresRecord>)
    ensures r.Done? <==> Decodable(line)
    ensures r.Done? ==>
      r.value.idCode == Trim(line[7..11]) && r.value.resName == Trim(line[12..15]) &&
      r.value.stdResName == Trim(line[24..27]) && r.value.comment == Trim(line[29..])
    ensures r.Done? ==> r.value.chainId == line[16] && r.value.iCode == CharOrNone(line[22])
    ensures r.Done? ==> Parse(Trim(line[18..22]), I16) == Some(r.value.seqNum as int)
  {
    if Decodable(line) then
      Done(ModresRecord(
        Field(line, 7, 11).value,
        Field(line, 12, 15).value,
        CharAt(line, 16).value,
        MustInt(line, 18, 22, I16).value,
        OptChar(line, 22).value,
        Field(line, 24, 27).value,
        FieldFrom(line, 29).value))
    else
      Panic
  }

  /** A negative sequence number is accepted: the column is signed. */
  lemma NegativeSequenceNumber(line: string, pad: string, n: nat)
    requires |line| >= 29 && line[18..22] == pad + ("-" + Decimal(n))
    requires IsBlank(pad) && 1 <= n <= 0x8000
    ensures From(line).Done? && From(line).value.seqNum == -(n as int)
  {
    NegativeColumn(line, 18, 22, pad, n, I16);
  }
}
