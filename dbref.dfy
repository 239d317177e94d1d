/** DBREF lines (`DBRefRecord::new`) and the reference-database vocabulary
    (`DBType::new`) that SEQADV lines share. */
module DbRef {
  import opened Text
  import opened Numbers
  import opened Columns

  datatype DbType = GB | NORINE | PDB | UNP

  /** The code each database is written as; NORINE also answers to `NOR`. */
  function Code(d: DbType): string {
    match d
    case GB => "GB"
    case NORINE => "NORINE"
    case PDB => "PDB"
    case UNP => "UNP"
  }

  /** `DBType::new`: the trimmed token names a database, or the codec
      panics. */
  function DbTypeOf(s: string): (r: Decoded<DbType>)
    ensures r.Done? <==> Trim(s) in {"GB", "NORINE", "NOR", "PDB", "UNP"}
    ensures r.Done? ==> Code(r.value) == Trim(s) || (Trim(s) == "NOR" && r.value == NORINE)
  {
    var t := Trim(s);
    if t == "GB" then Done(GB)
    else if t == "NORINE" || t == "NOR" then Done(NORINE)
    else if t == "PDB" then Done(PDB)
    else if t == "UNP" then Done(UNP)
    else Panic
  }

  /** Every database reads back from its own code, padded or not. */
  lemma CodeRoundTrip(d: DbType, pad: string, post: string)
    requires IsBlank(pad) && IsBlank(post)
    ensures DbTypeOf(pad + Code(d) + post) == Done(d)
  {
    var c := Code(d);
    assert Trimmed(c) by {
      assert c[0] != ' ' && c[|c| - 1] != ' ';
      assert !IsWhitespace(c[0]) && !IsWhitespace(c[|c| - 1]);
    }
    TrimPadded(pad, c, post);
  }

  /** `NOR` is the one alias. */
  lemma NorIsNorine()
    ensures DbTypeOf("NOR") == Done(NORINE)
  {
    assert Trimmed("NOR");
    TrimPadded([], "NOR", []);
    assert [] + "NOR" + [] == "NOR";
  }

  datatype DbRefRecord = DbRefRecord(
    idCode: string,
    chainId: char,
    seqBegin: u32,
    insertBegin: Option<char>,
    seqEnd: u32,
    insertEnd: Option<char>,
    database: DbType,
    dbAccession: string,
    dbIdCode: string,
    dbSeqBegin: u32,
    iDbnsBeg: Option<char>,
    dbSeqEnd: u32,
    dbInsEnd: Option<char>)

  /** The columns a successful decode needs: a known database in columns
      26 to 32, four unsigned sequence numbers, the last ending at column 67,
      and for a PDB reference the insertion code at column 67 as well. */
  predicate Decodable(line: string) {
    |line| >= 67 && DbTypeOf(line[26..32]).Done? &&
    ReadsInt(line, 14, 18, U32) && ReadsInt(line, 20, 24, U32) &&
    ReadsInt(line, 55, 60, U32) && ReadsInt(line, 62, 67, U32) &&
    (DbTypeOf(line[26..32]).value == PDB ==> |line| >= 68)
  }

  function New(line: string): (r: Decoded<DbRefRecord>)
    ensures r.Done? <==> Decodable(line)
    ensures r.Done? ==> r.value.database == DbTypeOf(line[26..32]).value
    ensures r.Done? ==>
      r.value.idCode == Trim(line[7..11]) && r.value.dbAccession == Trim(line[33..41]) &&
      r.value.dbIdCode == Trim(line[42..54])
    ensures r.Done? ==>
      r.value.chainId == line[12] && r.value.insertBegin == CharOrNone(line[18]) &&
      r.value.insertEnd == CharOrNone(line[24])
    ensures r.Done? ==>
      Parse(Trim(line[14..18]), U32) == Some(r.value.seqBegin as int) &&
      Parse(Trim(line[20..24]), U32) == Some(r.value.seqEnd as int)
    ensures r.Done? ==>
      Parse(Trim(line[55..60]), U32) == Some(r.value.dbSeqBegin as int) &&
      Parse(Trim(line[62..67]), U32) == Some(r.value.dbSeqEnd as int)
    ensures r.Done? ==>
      (r.value.iDbnsBeg.Some? <==> r.value.database == PDB) &&
      (r.value.dbInsEnd.Some? <==> r.value.database == PDB)
    ensures r.Done? && r.value.database == PDB ==>
      r.value.iDbnsBeg == Some(line[60]) && r.value.dbInsEnd == Some(line[67])
  {
    if Decodable(line) then
      var database := DbTypeOf(line[26..32]).value;
      Done(DbRefRecord(
        Field(line, 7, 11).value,
        CharAt(line, 12).value,
        MustInt(line, 14, 18, U32).value,
        OptChar(line, 18).value,
        MustInt(line, 20, 24, U32).value,
        OptChar(line, 24).value,
        database,
        Field(line, 33, 41).value,
        Field(line, 42, 54).value,
        MustInt(line, 55, 60, U32).value,
        if database == PDB then Some(CharAt(line, 60).value) else None,
        MustInt(line, 62, 67, U32).value,
        if database == PDB then Some(CharAt(line, 67).value) else None))
    else
      Panic
  }

  /** The crate's UniProt DBREF test line: 67 columns suffice, and there are no insertion codes. */
  lemma UnpTestLine(line: string)
    requires |line| == 67 && line[7..11] == "2JHQ" && line[12] == 'A' && line[14..18] == "   1"
    requires line[18] == ' ' && line[20..24] == " 226" && line[24] == ' '
    requires line[26..32] == "UNP   " && line[33..41] == "Q9KPK8  "
    requires line[42..54] == "UNG_VIBCH   " && line[55..60] == "    1" && line[62..67] == "  226"
    ensures New(line).Done? && New(line).value.idCode == "2JHQ" && New(line).value.chainId == 'A'
    ensures New(line).value.seqBegin == 1 && New(line).value.insertBegin == None
    ensures New(line).value.seqEnd == 226 && New(line).value.insertEnd == None
    ensures New(line).value.dbAccession == "Q9KPK8" && New(line).value.dbIdCode == "UNG_VIBCH"
    ensures New(line).value.dbSeqBegin == 1 && New(line).value.dbSeqEnd == 226
    ensures New(line).value.database == UNP && New(line).value.iDbnsBeg == None
    ensures New(line).value.dbInsEnd == None
  {
    UnpTestLineColumns0(line);
    UnpTestLineColumns1(line);
  }

  lemma UnpTestLineColumns0(line: string)
    requires |line| >= 32 && line[7..11] == "2JHQ" && line[14..18] == "   1"
    requires line[20..24] == " 226" && line[26..32] == "UNP   "
    ensures Field(line, 7, 11) == Done("2JHQ") && OptField(line, 7, 11) == Some("2JHQ")
    ensures MustInt(line, 14, 18, U32) == Done(1) && IntOr0(line, 14, 18, U32) == Done(1)
    ensures OptInt(line, 14, 18, U32) == Done(Some(1)) && MustInt(line, 20, 24, U32) == Done(226)
    ensures IntOr0(line, 20, 24, U32) == Done(226)
    ensures OptInt(line, 20, 24, U32) == Done(Some(226)) && Field(line, 26, 32) == Done("UNP")
    ensures OptField(line, 26, 32) == Some("UNP")
  {
    UnpTestLineCol7();
    UnpTestLineCol14();
    UnpTestLineCol20();
    UnpTestLineCol26();
    TextColumnIs(line, 7, 11, "2JHQ", "2JHQ");
    IntColumnIs(line, 14, 18, "   1", U32, 1);
    IntColumnIs(line, 20, 24, " 226", U32, 226);
    TextColumnIs(line, 26, 32, "UNP   ", "UNP");
  }

  lemma UnpTestLineColumns1(line: string)
    requires |line| >= 67 && line[33..41] == "Q9KPK8  " && line[42..54] == "UNG_VIBCH   "
    requires line[55..60] == "    1" && line[62..67] == "  226"
    ensures Field(line, 33, 41) == Done("Q9KPK8") && OptField(line, 33, 41) == Some("Q9KPK8")
    ensures Field(line, 42, 54) == Done("UNG_VIBCH")
    ensures OptField(line, 42, 54) == Some("UNG_VIBCH") && MustInt(line, 55, 60, U32) == Done(1)
    ensures IntOr0(line, 55, 60, U32) == Done(1) && OptInt(line, 55, 60, U32) == Done(Some(1))
    ensures MustInt(line, 62, 67, U32) == Done(226) && IntOr0(line, 62, 67, U32) == Done(226)
    ensures OptInt(line, 62, 67, U32) == Done(Some(226))
  {
    UnpTestLineCol33();
    UnpTestLineCol42();
    UnpTestLineCol55();
    UnpTestLineCol62();
    TextColumnIs(line, 33, 41, "Q9KPK8  ", "Q9KPK8");
    TextColumnIs(line, 42, 54, "UNG_VIBCH   ", "UNG_VIBCH");
    IntColumnIs(line, 55, 60, "    1", U32, 1);
    IntColumnIs(line, 62, 67, "  226", U32, 226);
  }

  lemma UnpTestLineCol7()
    ensures Trim("2JHQ") == "2JHQ"
  {
  }

  lemma UnpTestLineCol14()
    ensures Parse(Trim("   1"), U32) == Some(1)
  {
  }

  lemma UnpTestLineCol20()
    ensures Parse(Trim(" 226"), U32) == Some(226)
  {
  }

  lemma UnpTestLineCol26()
    ensures Trim("UNP   ") == "UNP"
  {
    TrimPadded([], "UNP", "   ");
    assert [] + "UNP" + "   " == "UNP   ";
  }

  lemma UnpTestLineCol33()
    ensures Trim("Q9KPK8  ") == "Q9KPK8"
  {
    TrimPadded([], "Q9KPK8", "  ");
    assert [] + "Q9KPK8" + "  " == "Q9KPK8  ";
  }

  lemma UnpTestLineCol42()
    ensures Trim("UNG_VIBCH   ") == "UNG_VIBCH"
  {
    TrimPadded([], "UNG_VIBCH", "   ");
    assert [] + "UNG_VIBCH" + "   " == "UNG_VIBCH   ";
  }

  lemma UnpTestLineCol55()
    ensures Parse(Trim("    1"), U32) == Some(1)
  {
  }

  lemma UnpTestLineCol62()
    ensures Parse(Trim("  226"), U32) == Some(226)
  {
  }

  /** The crate's PDB DBREF test line: the insertion codes at columns 60 and 67 are read. */
  lemma PdbTestLine(line: string)
    requires |line| == 68 && line[7..11] == "2JHQ" && line[12] == 'A' && line[14..18] == "   1"
    requires line[18] == ' ' && line[20..24] == " 226" && line[24] == ' '
    requires line[26..32] == "PDB   " && line[33..41] == "Q9KPK8  "
    requires line[42..54] == "UNG_VIBCH   " && line[55..60] == "    1" && line[60] == 'A'
    requires line[62..67] == "  226" && line[67] == 'B'
    ensures New(line).Done? && New(line).value.idCode == "2JHQ" && New(line).value.chainId == 'A'
    ensures New(line).value.seqBegin == 1 && New(line).value.insertBegin == None
    ensures New(line).value.seqEnd == 226 && New(line).value.insertEnd == None
    ensures New(line).value.dbAccession == "Q9KPK8" && New(line).value.dbIdCode == "UNG_VIBCH"
    ensures New(line).value.dbSeqBegin == 1 && New(line).value.dbSeqEnd == 226
    ensures New(line).value.database == PDB && New(line).value.iDbnsBeg == Some('A')
    ensures New(line).value.dbInsEnd == Some('B')
  {
    PdbTestLineColumns0(line);
    PdbTestLineColumns1(line);
  }

  lemma PdbTestLineColumns0(line: string)
    requires |line| >= 32 && line[7..11] == "2JHQ" && line[14..18] == "   1"
    requires line[20..24] == " 226" && line[26..32] == "PDB   "
    ensures Field(line, 7, 11) == Done("2JHQ") && OptField(line, 7, 11) == Some("2JHQ")
    ensures MustInt(line, 14, 18, U32) == Done(1) && IntOr0(line, 14, 18, U32) == Done(1)
    ensures OptInt(line, 14, 18, U32) == Done(Some(1)) && MustInt(line, 20, 24, U32) == Done(226)
    ensures IntOr0(line, 20, 24, U32) == Done(226)
    ensures OptInt(line, 20, 24, U32) == Done(Some(226)) && Field(line, 26, 32) == Done("PDB")
    ensures OptField(line, 26, 32) == Some("PDB")
  {
    PdbTestLineCol7();
    PdbTestLineCol14();
    PdbTestLineCol20();
    PdbTestLineCol26();
    TextColumnIs(line, 7, 11, "2JHQ", "2JHQ");
    IntColumnIs(line, 14, 18, "   1", U32, 1);
    IntColumnIs(line, 20, 24, " 226", U32, 226);
    TextColumnIs(line, 26, 32, "PDB   ", "PDB");
  }

  lemma PdbTestLineColumns1(line: string)
    requires |line| >= 67 && line[33..41] == "Q9KPK8  " && line[42..54] == "UNG_VIBCH   "
    requires line[55..60] == "    1" && line[62..67] == "  226"
    ensures Field(line, 33, 41) == Done("Q9KPK8") && OptField(line, 33, 41) == Some("Q9KPK8")
    ensures Field(line, 42, 54) == Done("UNG_VIBCH")
    ensures OptField(line, 42, 54) == Some("UNG_VIBCH") && MustInt(line, 55, 60, U32) == Done(1)
    ensures IntOr0(line, 55, 60, U32) == Done(1) && OptInt(line, 55, 60, U32) == Done(Some(1))
    ensures MustInt(line, 62, 67, U32) == Done(226) && IntOr0(line, 62, 67, U32) == Done(226)
    ensures OptInt(line, 62, 67, U32) == Done(Some(226))
  {
    PdbTestLineCol33();
    PdbTestLineCol42();
    PdbTestLineCol55();
    PdbTestLineCol62();
    TextColumnIs(line, 33, 41, "Q9KPK8  ", "Q9KPK8");
    TextColumnIs(line, 42, 54, "UNG_VIBCH   ", "UNG_VIBCH");
    IntColumnIs(line, 55, 60, "    1", U32, 1);
    IntColumnIs(line, 62, 67, "  226", U32, 226);
  }

  lemma PdbTestLineCol7()
    ensures Trim("2JHQ") == "2JHQ"
  {
  }

  lemma PdbTestLineCol14()
    ensures Parse(Trim("   1"), U32) == Some(1)
  {
  }

  lemma PdbTestLineCol20()
    ensures Parse(Trim(" 226"), U32) == Some(226)
  {
  }

  lemma PdbTestLineCol26()
    ensures Trim("PDB   ") == "PDB"
  {
    TrimPadded([], "PDB", "   ");
    assert [] + "PDB" + "   " == "PDB   ";
  }

  lemma PdbTestLineCol33()
    ensures Trim("Q9KPK8  ") == "Q9KPK8"
  {
    TrimPadded([], "Q9KPK8", "  ");
    assert [] + "Q9KPK8" + "  " == "Q9KPK8  ";
  }

  lemma PdbTestLineCol42()
    ensures Trim("UNG_VIBCH   ") == "UNG_VIBCH"
  {
    TrimPadded([], "UNG_VIBCH", "   ");
    assert [] + "UNG_VIBCH" + "   " == "UNG_VIBCH   ";
  }

  lemma PdbTestLineCol55()
    ensures Parse(Trim("    1"), U32) == Some(1)
  {
  }

  lemma PdbTestLineCol62()
    ensures Parse(Trim("  226"), U32) == Some(226)
  {
  }
}
