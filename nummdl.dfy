/** NUMMDL lines (`NummdlRecord::new` and its `Display`): how many models the entry holds. */
module Nummdl {
  import opened Text
  import opened Numbers
  import opened Columns
  import Counted

  datatype NummdlRecord = NummdlRecord(count: u32)

  /** The tag that starts a written line, padded to ten columns. */
  const Tag: string := "NUMMDL    "

  /** Only the model count column is read, leniently: a line fails only when it
      is shorter than 14 columns, and a model count that does not parse is 0. */
  function New(line: string): (r: Decoded<NummdlRecord>)
    ensures r.Done? <==> |line| >= 14
    ensures r.Done? ==> r.value.count == Parse(Trim(line[10..14]), U32).GetOr(0)
  {
    var n :- Counted.Read(line);
    Done(NummdlRecord(n))
  }

  /** The written line is 80 columns and begins with the tag; a model count
      below 10000 reads back unchanged. */
  function Display(m: NummdlRecord): (s: string)
    ensures |s| == 80 && s[..10] == Tag
    ensures m.count <= 9999 ==> New(s) == Done(m)
    ensures m.count <= 9999 ==>
      |Decimal(m.count)| <= 4 &&
      s == Tag + Spaces(4 - |Decimal(m.count)|) + Decimal(m.count) + Spaces(66)
  {
    Counted.RenderShape(Tag, m.count);
    Counted.ReadRender(Tag, m.count);
    Counted.RenderLayout(Tag, m.count);
    Counted.Render(Tag, m.count)
  }

  /** Two lines that agree on columns 10 to 14 give the same record:
      trailing padding and anything after the model count are ignored. */
  lemma OnlyColumnsRead(line: string, other: string)
    requires |line| >= 14 && |other| >= 14 && line[10..14] == other[10..14]
    ensures New(line) == New(other)
  {
    Counted.ReadLocal(line, other);
  }

  /** The crate's NUMMDL test line, `NUMMDL       1`: model count 1. */
  lemma TestLine(line: string)
    requires |line| == 14 && line[..10] == Tag && line[10..14] == "   1"
    ensures New(line) == Done(NummdlRecord(1))
  {
    TestColumn();
  }

  lemma TestColumn()
    ensures Parse(Trim("   1"), U32) == Some(1)
  {
  }

  /** The crate's NUMMDL `Display` test: model count 1 is written right-aligned in
      columns 10 to 14, then spaces to column 80. */
  lemma DisplayTest()
    ensures Display(NummdlRecord(1)) == "NUMMDL       1" + Spaces(66)
  {
    assert Decimal(1) == "1";
    assert Spaces(3) == "   ";
  }
}
