/** MODRES lines in the first version of the crate (`ModresRecord::from`
    of the top-level `src/records`): the same columns as the current
    decoder, but the sequence number is an `i32`. */
module LegacyModres {
  import opened Text
  import opened Numbers
  import opened Columns
  import Modres

  datatype ModresRecord = ModresRecord(
    idCode: string,
    resName: string,
    chainId: char,
    seqNum: i32,
    iCode: Option<char>,
    stdResName: string,
    comment: string)

  predicate Decodable(line: string) {
    |line| >= 29 && ReadsInt(line, 18, 22, I32)
  }

  function From(line: string): (r: Decoded<ModresRecord>)
    ensures r.Done? <==> Decodable(line)
    ensures r.Done? ==>
      r.value.idCode == Trim(line[7..11]) && r.value.resName == Trim(line[12..15]) &&
      r.value.stdResName == Trim(line[24..27]) && r.value.comment == Trim(line[29..])
    ensures r.Done? ==> r.value.chainId == line[16] && r.value.iCode == CharOrNone(line[22])
    ensures r.Done? ==> Parse(Trim(line[18..22]), I32) == Some(r.value.seqNum as int)
  {
    if Decodable(line) then
      Done(ModresRecord(
        Field(line, 7, 11).value,
        Field(line, 12, 15).value,
        CharAt(line, 16).value,
        MustInt(line, 18, 22, I32).value,
        OptChar(line, 22).value,
        Field(line, 24, 27).value,
        FieldFrom(line, 29).value))
    else
      Panic
  }

  /** The wider type changes nothing in practice: four columns hold no
      number outside `i16`, so both versions accept the same lines. */
  lemma SameLinesAccepted(line: string)
    ensures From(line).Done? <==> Modres.From(line).Done?
    ensures From(line).Done? ==> From(line).value.seqNum == Modres.From(line).value.seqNum
  {
    if |line| >= 22 {
      var s := Trim(line[18..22]);
      var i := TrimShape(line[18..22]);
      FourColumnsFit(s);
    }
  }

  /** Any text of at most four characters that parses as an `i32` parses as
      the same `i16`. */
  lemma FourColumnsFit(s: string)
    requires |s| <= 4
    ensures Parse(s, I32).Some? <==> Parse(s, I16).Some?
    ensures Parse(s, I32).Some? ==> Parse(s, I32) == Parse(s, I16)
  {
    IntRunSameSign(Begin, s, 10, I32, I16);
    if IntRun(Begin, s, 10, I32).Magnitude? {
      IntRunBound(Begin, s, 10, I32);
      PowMono(10, 10, |s|, 4);
      assert Pow(10, 4) == 10000;
    }
  }
}
