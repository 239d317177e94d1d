/** CONECT lines (`ConnectRecord::new`): one atom serial and the serials of
    up to four atoms bonded to it. */
module Connect {
  import opened Text
  import opened Numbers
  import opened Columns

  datatype ConnectRecord = ConnectRecord(serial: u32, connected: seq<Option<u32>>)

  /** The first column of the `k`-th bonded serial: five columns each, from
      column 11. */
  function BondStart(k: nat): nat {
    11 + 5 * k
  }

  /** An optional integer already known to fit a `u32`, as a `u32`. */
  function AsU32(o: Option<int>): (r: Option<u32>)
    requires o.Some? ==> 0 <= o.value <= U32_MAX
    ensures r == o
  {
    match o
    case None => None
    case Some(v) => Some(v)
  }

  /** Every column is read leniently, so a CONECT line fails only when it is
      shorter than the last bond column; the serial defaults to 0 and each
      bond slot is `None` unless its column holds a `u32`. */
  function New(line: string): (r: Decoded<ConnectRecord>)
    ensures r.Done? <==> |line| >= 31
    ensures r.Done? ==> r.value.serial == Parse(Trim(line[6..11]), U32).GetOr(0)
    ensures r.Done? ==> |r.value.connected| == 4
    ensures r.Done? ==>
      r.value.connected[0] == Parse(Trim(line[11..16]), U32) &&
      r.value.connected[1] == Parse(Trim(line[16..21]), U32) &&
      r.value.connected[2] == Parse(Trim(line[21..26]), U32) &&
      r.value.connected[3] == Parse(Trim(line[26..31]), U32)
  {
    if |line| >= 31 then
      Done(ConnectRecord(
        IntOr0(line, 6, 11, U32).value,
        [AsU32(OptInt(line, 11, 16, U32).value), AsU32(OptInt(line, 16, 21, U32).value),
         AsU32(OptInt(line, 21, 26, U32).value), AsU32(OptInt(line, 26, 31, U32).value)]))
    else
      Panic
  }

  /** A blank serial column reads as serial 0. */
  lemma BlankSerialIsZero(line: string)
    requires |line| >= 31 && IsBlank(line[6..11])
    ensures New(line).value.serial == 0
  {
    TrimEmptyIffBlank(line[6..11]);
    ParseRejects(U32);
  }

  /** A blank bond column is an empty bond slot. */
  lemma BlankBondIsNone(line: string, k: nat)
    requires |line| >= 31 && k < 4 && IsBlank(line[BondStart(k)..BondStart(k) + 5])
    ensures New(line).value.connected[k] == None
  {
    TrimEmptyIffBlank(line[BondStart(k)..BondStart(k) + 5]);
    ParseRejects(U32);
  }

  /** The record depends on columns 6 to 31 only. */
  lemma Local(line: string, other: string)
    requires |line| >= 31 && |other| >= 31 && line[6..31] == other[6..31]
    ensures New(line) == New(other)
  {
    Window(line, other, 6, 31, 6, 11);
    Window(line, other, 6, 31, 11, 16);
    Window(line, other, 6, 31, 16, 21);
    Window(line, other, 6, 31, 21, 26);
    Window(line, other, 6, 31, 26, 31);
  }

  /** The crate's CONECT test line: two bonds and two empty slots. */
  lemma TestLine(line: string)
    requires |line| == 80 && line[6..11] == "  413" && line[11..16] == "  412"
    requires line[16..21] == "  414" && line[21..26] == "     " && line[26..31] == "     "
    ensures New(line).Done? && New(line).value.serial == 413
    ensures New(line).value.connected == [Some(412), Some(414), None, None]
  {
    ParseRejects(U32);
    TestLineColumns0(line);
    TestLineColumns1(line);
  }

  lemma TestLineColumns0(line: string)
    requires |line| >= 26 && line[6..11] == "  413" && line[11..16] == "  412"
    requires line[16..21] == "  414" && line[21..26] == "     "
    ensures MustInt(line, 6, 11, U32) == Done(413) && IntOr0(line, 6, 11, U32) == Done(413)
    ensures OptInt(line, 6, 11, U32) == Done(Some(413))
    ensures MustInt(line, 11, 16, U32) == Done(412) && IntOr0(line, 11, 16, U32) == Done(412)
    ensures OptInt(line, 11, 16, U32) == Done(Some(412))
    ensures MustInt(line, 16, 21, U32) == Done(414) && IntOr0(line, 16, 21, U32) == Done(414)
    ensures OptInt(line, 16, 21, U32) == Done(Some(414)) && Field(line, 21, 26) == Done([])
    ensures OptField(line, 21, 26) == None
  {
    TestLineCol6();
    TestLineCol11();
    TestLineCol16();
    TestLineCol21();
    IntColumnIs(line, 6, 11, "  413", U32, 413);
    IntColumnIs(line, 11, 16, "  412", U32, 412);
    IntColumnIs(line, 16, 21, "  414", U32, 414);
    TextColumnIs(line, 21, 26, "     ", []);
  }

  lemma TestLineColumns1(line: string)
    requires |line| >= 31 && line[26..31] == "     "
    ensures Field(line, 26, 31) == Done([]) && OptField(line, 26, 31) == None
  {
    TestLineCol26();
    TextColumnIs(line, 26, 31, "     ", []);
  }

  lemma TestLineCol6()
    ensures Parse(Trim("  413"), U32) == Some(413)
  {
  }

  lemma TestLineCol11()
    ensures Parse(Trim("  412"), U32) == Some(412)
  {
  }

  lemma TestLineCol16()
    ensures Parse(Trim("  414"), U32) == Some(414)
  {
  }

  lemma TestLineCol21()
    ensures Trim("     ") == []
  {
    TrimEmptyIffBlank("     ");
  }

  lemma TestLineCol26()
    ensures Trim("     ") == []
  {
    TrimEmptyIffBlank("     ");
  }
}
