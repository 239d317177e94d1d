/** MODEL lines (`ModelRecord::new` and its `Display`): the number of one model of the entry. */
module Model {
  import opened Text
  import opened Numbers
  import opened Columns
  import Counted

  datatype ModelRecord = ModelRecord(serial: u32)

  /** The tag that starts a written line, padded to ten columns. */
  const Tag: string := "MODEL     "

  /** Only the serial column is read, leniently: a line fails only when it
      is shorter than 14 columns, and a serial that does not parse is 0. */
  function New(line: string): (r: Decoded<ModelRecord>)
    ensures r.Done? <==> |line| >= 14
    ensures r.Done? ==> r.value.serial == Parse(Trim(line[10..14]), U32).GetOr(0)
  {
    var n :- Counted.Read(line);
    Done(ModelRecord(n))
  }

  /** The written line is 80 columns and begins with the tag; a serial
      below 10000 reads back unchanged. */
  function Display(m: ModelRecord): (s: string)
    ensures |s| == 80 && s[..10] == Tag
    ensures m.serial <= 9999 ==> New(s) == Done(m)
    ensures m.serial <= 9999 ==>
      |Decimal(m.serial)| <= 4 &&
      s == Tag + Spaces(4 - |Decimal(m.serial)|) + Decimal(m.serial) + Spaces(66)
  {
    Counted.RenderShape(Tag, m.serial);
    Counted.ReadRender(Tag, m.serial);
    Counted.RenderLayout(Tag, m.serial);
    Counted.Render(Tag, m.serial)
  }

  /** Two lines that agree on columns 10 to 14 give the same record:
      trailing padding and anything after the serial are ignored. */
  lemma OnlyColumnsRead(line: string, other: string)
    requires |line| >= 14 && |other| >= 14 && line[10..14] == other[10..14]
    ensures New(line) == New(other)
  {
    Counted.ReadLocal(line, other);
  }

  /** The crate's MODEL test line, `MODEL        1`: serial 1. */
  lemma TestLine(line: string)
    requires |line| == 14 && line[..10] == Tag && line[10..14] == "   1"
    ensures New(line) == Done(ModelRecord(1))
  {
    TestColumn();
  }

  lemma TestColumn()
    ensures Parse(Trim("   1"), U32) == Some(1)
  {
  }

  /** The crate's MODEL `Display` test: serial 1 is written right-aligned in
      columns 10 to 14, then spaces to column 80. */
  lemma DisplayTest()
    ensures Display(ModelRecord(1)) == "MODEL        1" + Spaces(66)
  {
    assert Decimal(1) == "1";
    assert Spaces(3) == "   ";
  }
}
