/** `Record::try_from`: the first six columns of a line name its record
    type, and the line is handed to that type's decoder. */
module Records {
  import opened Text
  import opened Columns
  import Numbers
  import Anisou
  import Atom
  import Connect
  import Crystal
  import DbRef
  import Het
  import Hetnam
  import Model
  import Modres
  import Mtrixn
  import Nummdl
  import Origxn
  import Scalen
  import Seqadv
  import Seqres
  import Term

  datatype Record =
    | Anisou(anisou: Anisou.AnisouRecord)
    | Atom(atom: Atom.AtomRecord)
    | Connect(connect: Connect.ConnectRecord)
    | Crystal(crystal: Crystal.CrystalRecord)
    | DBRef(dbref: DbRef.DbRefRecord)
    | Het(het: Het.HetRecord)
    | Hetatm(atom: Atom.AtomRecord)
    | Hetnam(hetnam: Hetnam.HetnamRecord)
    | Nummdl(nummdl: Nummdl.NummdlRecord)
    | MtrixN(mtrixn: Mtrixn.MtrixN)
    | Model(model: Model.ModelRecord)
    | Modres(modres: Modres.ModresRecord)
    | OrigxN(origxn: Origxn.OrigxN)
    | ScaleN(scalen: Scalen.ScaleN)
    | Seqres(seqres: Seqres.SeqresRecord)
    | Seqadv(seqadv: Seqadv.SeqAdvRecord)
    | Term(term: Term.TermRecord)
    | Endmdl

  /** The record types the classifier tells apart; `MTRIXn`, `ORIGXn` and
      `SCALEn` are one type each, whatever their row digit. */
  datatype RecordType =
    | AnisouLine | AtomLine | ConnectLine | CrystalLine | DbRefLine | EndmdlLine | HetatmLine
    | HetLine | HetnamLine | MtrixLine | ModelLine | ModresLine | NummdlLine | OrigxLine
    | ScaleLine | SeqresLine | TermLine

  /** The arms of the classifier: the type named by the first six columns,
      or `None` for a tag it does not list (`SEQADV` among them). */
  function TagKind(tag: string): Option<RecordType> {
    match tag
    case "ANISOU" => Some(AnisouLine)
    case "ATOM  " => Some(AtomLine)
    case "CONECT" => Some(ConnectLine)
    case "CRYST1" => Some(CrystalLine)
    case "DBREF " => Some(DbRefLine)
    case "ENDMDL" => Some(EndmdlLine)
    case "HETATM" => Some(HetatmLine)
    case "HET   " => Some(HetLine)
    case "HETNAM" => Some(HetnamLine)
    case "MTRIX1" => Some(MtrixLine)
    case "MTRIX2" => Some(MtrixLine)
    case "MTRIX3" => Some(MtrixLine)
    case "MODEL " => Some(ModelLine)
    case "MODRES" => Some(ModresLine)
    case "NUMMDL" => Some(NummdlLine)
    case "ORIGX1" => Some(OrigxLine)
    case "ORIGX2" => Some(OrigxLine)
    case "ORIGX3" => Some(OrigxLine)
    case "SCALE1" => Some(ScaleLine)
    case "SCALE2" => Some(ScaleLine)
    case "SCALE3" => Some(ScaleLine)
    case "SEQRES" => Some(SeqresLine)
    case "TER   " => Some(TermLine)
    case _ => None
  }

  /** The type a record is produced under; no type produces `Seqadv`. */
  function KindOf(r: Record): Option<RecordType> {
    match r
    case Anisou(_) => Some(AnisouLine)
    case Atom(_) => Some(AtomLine)
    case Connect(_) => Some(ConnectLine)
    case Crystal(_) => Some(CrystalLine)
    case DBRef(_) => Some(DbRefLine)
    case Het(_) => Some(HetLine)
    case Hetatm(_) => Some(HetatmLine)
    case Hetnam(_) => Some(HetnamLine)
    case Nummdl(_) => Some(NummdlLine)
    case MtrixN(_) => Some(MtrixLine)
    case Model(_) => Some(ModelLine)
    case Modres(_) => Some(ModresLine)
    case OrigxN(_) => Some(OrigxLine)
    case ScaleN(_) => Some(ScaleLine)
    case Seqres(_) => Some(SeqresLine)
    case Seqadv(_) => None
    case Term(_) => Some(TermLine)
    case Endmdl => Some(EndmdlLine)
  }

  /** What every decoder makes of one line. Decoding is pure, so gathering
      all results and keeping the one the tag selects is the same as running
      only the selected decoder. */
  datatype Decodings = Decodings(
    anisou: Decoded<Anisou.AnisouRecord>,
    atom: Decoded<Atom.AtomRecord>,
    connect: Decoded<Connect.ConnectRecord>,
    crystal: Decoded<Crystal.CrystalRecord>,
    dbref: Decoded<DbRef.DbRefRecord>,
    het: Decoded<Het.HetRecord>,
    hetnam: Decoded<Hetnam.HetnamRecord>,
    nummdl: Decoded<Nummdl.NummdlRecord>,
    mtrixn: Decoded<Mtrixn.MtrixN>,
    model: Decoded<Model.ModelRecord>,
    modres: Decoded<Modres.ModresRecord>,
    origxn: Decoded<Origxn.OrigxN>,
    scalen: Decoded<Scalen.ScaleN>,
    seqres: Decoded<Seqres.SeqresRecord>,
    term: Decoded<Term.TermRecord>)

  function DecodeAll(line: string): Decodings {
    Decodings(
      Anisou.New(line), Atom.New(line), Connect.New(line), Crystal.New(line), DbRef.New(line),
      Het.New(line), Hetnam.New(line), Nummdl.New(line), Mtrixn.Family(line), Model.New(line),
      Modres.From(line), Origxn.Family(line), Scalen.Family(line), Seqres.New(line), Term.New(line))
  }

  /** `r` is what the decoder of its variant produced. */
  predicate Decodes(d: Decodings, r: Record) {
    match r
    case Anisou(x) => d.anisou == Done(x)
    case Atom(x) => d.atom == Done(x)
    case Connect(x) => d.connect == Done(x)
    case Crystal(x) => d.crystal == Done(x)
    case DBRef(x) => d.dbref == Done(x)
    case Het(x) => d.het == Done(x)
    case Hetatm(x) => d.atom == Done(x)
    case Hetnam(x) => d.hetnam == Done(x)
    case Nummdl(x) => d.nummdl == Done(x)
    case MtrixN(x) => d.mtrixn == Done(x)
    case Model(x) => d.model == Done(x)
    case Modres(x) => d.modres == Done(x)
    case OrigxN(x) => d.origxn == Done(x)
    case ScaleN(x) => d.scalen == Done(x)
    case Seqres(x) => d.seqres == Done(x)
    case Seqadv(_) => false
    case Term(x) => d.term == Done(x)
    case Endmdl => true
  }

  /** The decoder of type `k` panicked. */
  predicate Fails(d: Decodings, k: RecordType) {
    match k
    case AnisouLine => d.anisou.Panic?
    case AtomLine => d.atom.Panic?
    case ConnectLine => d.connect.Panic?
    case CrystalLine => d.crystal.Panic?
    case DbRefLine => d.dbref.Panic?
    case EndmdlLine => false
    case HetatmLine => d.atom.Panic?
    case HetLine => d.het.Panic?
    case HetnamLine => d.hetnam.Panic?
    case MtrixLine => d.mtrixn.Panic?
    case ModelLine => d.model.Panic?
    case ModresLine => d.modres.Panic?
    case NummdlLine => d.nummdl.Panic?
    case OrigxLine => d.origxn.Panic?
    case ScaleLine => d.scalen.Panic?
    case SeqresLine => d.seqres.Panic?
    case TermLine => d.term.Panic?
  }

  /** The arm for type `k`: the selected decoder's record in the matching
      variant, or its panic. */
  function Dispatch(k: RecordType, d: Decodings): (r: Outcome<Record>)
    ensures !r.Err?
    ensures r.Ok? ==> KindOf(r.record) == Some(k) && Decodes(d, r.record)
    ensures r.Panicked? <==> Fails(d, k)
  {
    match k
    case AnisouLine => Route(d.anisou, x => Anisou(x))
    case AtomLine => Route(d.atom, x => Atom(x))
    case ConnectLine => Route(d.connect, x => Connect(x))
    case CrystalLine => Route(d.crystal, x => Crystal(x))
    case DbRefLine => Route(d.dbref, x => DBRef(x))
    case EndmdlLine => Ok(Endmdl)
    case HetatmLine => Route(d.atom, x => Hetatm(x))
    case HetLine => Route(d.het, x => Het(x))
    case HetnamLine => Route(d.hetnam, x => Hetnam(x))
    case MtrixLine => Route(d.mtrixn, x => MtrixN(x))
    case ModelLine => Route(d.model, x => Model(x))
    case ModresLine => Route(d.modres, x => Modres(x))
    case NummdlLine => Route(d.nummdl, x => Nummdl(x))
    case OrigxLine => Route(d.origxn, x => OrigxN(x))
    case ScaleLine => Route(d.scalen, x => ScaleN(x))
    case SeqresLine => Route(d.seqres, x => Seqres(x))
    case TermLine => Route(d.term, x => Term(x))
  }

  /** The classifier over given decoder results `d`: a line shorter than
      six columns and an unlisted record type are the two errors; a listed
      type gives the record its decoder made, in the variant for that
      type, or that decoder's panic. */
  function Classify(line: string, d: Decodings): (r: Outcome<Record>)
    ensures r == Err("Unable to parse line") <==> |line| < 6
    ensures r == Err("Unknown record type") <==> |line| >= 6 && TagKind(line[..6]).None?
    ensures r.Ok? ==> |line| >= 6 && TagKind(line[..6]) == KindOf(r.record) && Decodes(d, r.record)
    ensures r.Panicked? <==> |line| >= 6 && TagKind(line[..6]).Some? && Fails(d, TagKind(line[..6]).value)
  {
    match Get(line, 0, 6)
    case None => Err("Unable to parse line")
    case Some(tag) =>
      match TagKind(tag)
      case None => Err("Unknown record type")
      case Some(k) => Dispatch(k, d)
  }

  /** `Record::try_from`: the classifier over what the decoders make of `line`. */
  function TryFrom(line: string): (r: Outcome<Record>)
    ensures r == Err("Unable to parse line") <==> |line| < 6
    ensures r == Err("Unknown record type") <==> |line| >= 6 && TagKind(line[..6]).None?
    ensures r.Ok? ==> |line| >= 6 && TagKind(line[..6]) == KindOf(r.record) && Decodes(DecodeAll(line), r.record)
    ensures r.Panicked? <==> |line| >= 6 && TagKind(line[..6]).Some? && Fails(DecodeAll(line), TagKind(line[..6]).value)
  {
    Classify(line, DecodeAll(line))
  }

  /** `ENDMDL` carries no data: any line with that tag is an `Endmdl`. */
  lemma EndmdlIgnoresRest(line: string)
    requires |line| >= 6 && line[..6] == "ENDMDL"
    ensures TryFrom(line) == Ok(Endmdl)
  {
    EndmdlSelected(line, DecodeAll(line));
  }

  lemma EndmdlSelected(line: string, d: Decodings)
    requires |line| >= 6 && line[..6] == "ENDMDL"
    ensures Classify(line, d) == Ok(Endmdl)
  {
  }

  /** `SEQADV` is not among the arms, although `Record` has a `Seqadv`
      variant: such a line is an unknown record type. */
  lemma SeqadvIsUnknown(line: string)
    requires |line| >= 6 && line[..6] == "SEQADV"
    ensures TryFrom(line) == Err("Unknown record type")
  {
    SeqadvUnlisted(line, DecodeAll(line));
  }

  lemma SeqadvUnlisted(line: string, d: Decodings)
    requires |line| >= 6 && line[..6] == "SEQADV"
    ensures Classify(line, d) == Err("Unknown record type")
  {
  }

  /** No line gives a `Seqadv` record. */
  lemma SeqadvNeverProduced(line: string)
    requires TryFrom(line).Ok?
    ensures !TryFrom(line).record.Seqadv?
  {
    NoSeqadvArm(line, DecodeAll(line));
  }

  lemma NoSeqadvArm(line: string, d: Decodings)
    requires Classify(line, d).Ok?
    ensures !Classify(line, d).record.Seqadv?
  {
  }

  /** ATOM and HETATM lines share one decoder: either tag succeeds exactly
      when the atom decoder does, with the decoded atom in the variant the
      tag names. */
  lemma AtomAndHetatmShareDecoder(line: string)
    requires |line| >= 6 && (line[..6] == "ATOM  " || line[..6] == "HETATM")
    ensures TryFrom(line).Ok? <==> Atom.New(line).Done?
    ensures TryFrom(line).Panicked? <==> Atom.New(line).Panic?
    ensures TryFrom(line).Ok? ==>
      (if line[..6] == "ATOM  " then TryFrom(line).record.Atom? else TryFrom(line).record.Hetatm?) &&
      TryFrom(line).record.atom == Atom.New(line).value
  {
    AtomArms(line, DecodeAll(line));
  }

  lemma AtomArms(line: string, d: Decodings)
    requires |line| >= 6 && (line[..6] == "ATOM  " || line[..6] == "HETATM")
    ensures Classify(line, d).Ok? <==> d.atom.Done?
    ensures Classify(line, d).Panicked? <==> d.atom.Panic?
    ensures Classify(line, d).Ok? ==>
      (if line[..6] == "ATOM  " then Classify(line, d).record.Atom? else Classify(line, d).record.Hetatm?) &&
      Classify(line, d).record.atom == d.atom.value
  {
  }

  /** The row of a SCALEn, ORIGXn or MTRIXn record is the digit of its tag. */
  lemma RowMatchesTag(line: string)
    requires TryFrom(line).Ok?
    ensures TryFrom(line).record.ScaleN? ==> Scalen.Row(TryFrom(line).record.scalen) == line[5] as int - 48
    ensures TryFrom(line).record.OrigxN? ==> Origxn.Row(TryFrom(line).record.origxn) == line[5] as int - 48
    ensures TryFrom(line).record.MtrixN? ==> Mtrixn.Row(TryFrom(line).record.mtrixn) == line[5] as int - 48
  {
    var d := DecodeAll(line);
    var r := TryFrom(line).record;
    FamilyTags(line, d);
    if r.ScaleN? || r.OrigxN? || r.MtrixN? {
      var digit := line[5] as int - 48;
      assert line[5] == Numbers.DigitChar(digit);
      if r.ScaleN? {
        Scalen.RowOfTag(line, digit);
      } else if r.OrigxN? {
        Origxn.RowOfTag(line, digit);
      } else {
        Mtrixn.RowOfTag(line, digit);
      }
    }
  }

  lemma FamilyTags(line: string, d: Decodings)
    requires Classify(line, d).Ok?
    ensures Classify(line, d).record.ScaleN? ==>
      line[..5] == "SCALE" && '1' <= line[5] <= '3' && d.scalen == Done(Classify(line, d).record.scalen)
    ensures Classify(line, d).record.OrigxN? ==>
      line[..5] == "ORIGX" && '1' <= line[5] <= '3' && d.origxn == Done(Classify(line, d).record.origxn)
    ensures Classify(line, d).record.MtrixN? ==>
      line[..5] == "MTRIX" && '1' <= line[5] <= '3' && d.mtrixn == Done(Classify(line, d).record.mtrixn)
  {
    assert line[..5] == line[..6][..5] && line[5] == line[..6][5];
  }

  /** A MODEL line written by `Display` is classified as that model. */
  lemma ModelDisplayClassified(m: Model.ModelRecord)
    requires m.serial <= 9999
    ensures TryFrom(Model.Display(m)) == Ok(Model(m))
  {
    var s := Model.Display(m);
    assert s[..6] == s[..10][..6];
    ModelLineClassified(s, m);
  }

  lemma ModelLineClassified(line: string, m: Model.ModelRecord)
    requires |line| >= 6 && line[..6] == "MODEL " && Model.New(line) == Done(m)
    ensures TryFrom(line) == Ok(Model(m))
  {
    ModelArm(line, DecodeAll(line));
  }

  lemma ModelArm(line: string, d: Decodings)
    requires |line| >= 6 && line[..6] == "MODEL " && d.model.Done?
    ensures Classify(line, d) == Ok(Model(d.model.value))
  {
  }

  /** A NUMMDL line written by `Display` is classified as that count. */
  lemma NummdlDisplayClassified(n: Nummdl.NummdlRecord)
    requires n.count <= 9999
    ensures TryFrom(Nummdl.Display(n)) == Ok(Nummdl(n))
  {
    var s := Nummdl.Display(n);
    assert s[..6] == s[..10][..6];
    NummdlLineClassified(s, n);
  }

  lemma NummdlLineClassified(line: string, n: Nummdl.NummdlRecord)
    requires |line| >= 6 && line[..6] == "NUMMDL" && Nummdl.New(line) == Done(n)
    ensures TryFrom(line) == Ok(Nummdl(n))
  {
    NummdlArm(line, DecodeAll(line));
  }

  lemma NummdlArm(line: string, d: Decodings)
    requires |line| >= 6 && line[..6] == "NUMMDL" && d.nummdl.Done?
    ensures Classify(line, d) == Ok(Nummdl(d.nummdl.value))
  {
  }

  /** An ATOM record the classifier produces has a serial of at most
      `Atom.SerialCap`, the largest a five-column field can hold. */
  lemma AtomSerialBounded(line: string)
    requires TryFrom(line).Ok? && TryFrom(line).record.Atom?
    ensures TryFrom(line).record.atom.serial <= Atom.SerialCap
  {
    var d := DecodeAll(line);
    AtomDecoded(line, d);
    assert d.atom == Atom.New(line);
    Atom.DecodedSerialBound(line);
  }

  lemma AtomDecoded(line: string, d: Decodings)
    requires Classify(line, d).Ok? && Classify(line, d).record.Atom?
    ensures d.atom == Done(Classify(line, d).record.atom)
  {
  }
}
