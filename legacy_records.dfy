/** The earlier crate's `Record::try_from`: the same tag dispatch with
    fewer arms (no HET, HETNAM, NUMMDL) and, for atoms, anisotropic
    factors, modified residues and sequence records, that crate's own
    decoders. */
module LegacyRecords {
  import opened Text
  import opened Columns
  import Records
  import LegacyAnisou
  import LegacyAtom
  import Atom
  import Connect
  import Crystal
  import DbRef
  import Model
  import LegacyModres
  import Mtrixn
  import Origxn
  import Scalen
  import LegacySeqres
  import Term

  type RecordType = Records.RecordType

  datatype Record =
    | Anisou(anisou: LegacyAnisou.AnisouRecord)
    | Atom(atom: LegacyAtom.AtomRecord)
    | Connect(connect: Connect.ConnectRecord)
    | Crystal(crystal: Crystal.CrystalRecord)
    | DBRef(dbref: DbRef.DbRefRecord)
    | Hetatm(atom: LegacyAtom.AtomRecord)
    | MtrixN(mtrixn: Mtrixn.MtrixN)
    | Model(model: Model.ModelRecord)
    | Modres(modres: LegacyModres.ModresRecord)
    | OrigxN(origxn: Origxn.OrigxN)
    | ScaleN(scalen: Scalen.ScaleN)
    | Seqres(seqres: LegacySeqres.SeqresRecord)
    | Term(term: Term.TermRecord)
    | Endmdl

  /** The arms of the earlier classifier. */
  function TagKind(tag: string): Option<RecordType> {
    match tag
    case "ANISOU" => Some(Records.AnisouLine)
    case "ATOM  " => Some(Records.AtomLine)
    case "CONECT" => Some(Records.ConnectLine)
    case "CRYST1" => Some(Records.CrystalLine)
    case "DBREF " => Some(Records.DbRefLine)
    case "ENDMDL" => Some(Records.EndmdlLine)
    case "HETATM" => Some(Records.HetatmLine)
    case "MTRIX1" => Some(Records.MtrixLine)
    case "MTRIX2" => Some(Records.MtrixLine)
    case "MTRIX3" => Some(Records.MtrixLine)
    case "MODEL " => Some(Records.ModelLine)
    case "MODRES" => Some(Records.ModresLine)
    case "ORIGX1" => Some(Records.OrigxLine)
    case "ORIGX2" => Some(Records.OrigxLine)
    case "ORIGX3" => Some(Records.OrigxLine)
    case "SCALE1" => Some(Records.ScaleLine)
    case "SCALE2" => Some(Records.ScaleLine)
    case "SCALE3" => Some(Records.ScaleLine)
    case "SEQRES" => Some(Records.SeqresLine)
    case "TER   " => Some(Records.TermLine)
    case _ => None
  }

  function KindOf(r: Record): RecordType {
    match r
    case Anisou(_) => Records.AnisouLine
    case Atom(_) => Records.AtomLine
    case Connect(_) => Records.ConnectLine
    case Crystal(_) => Records.CrystalLine
    case DBRef(_) => Records.DbRefLine
    case Hetatm(_) => Records.HetatmLine
    case MtrixN(_) => Records.MtrixLine
    case Model(_) => Records.ModelLine
    case Modres(_) => Records.ModresLine
    case OrigxN(_) => Records.OrigxLine
    case ScaleN(_) => Records.ScaleLine
    case Seqres(_) => Records.SeqresLine
    case Term(_) => Records.TermLine
    case Endmdl => Records.EndmdlLine
  }

  /** What every decoder of the earlier crate makes of one line. */
  datatype Decodings = Decodings(
    anisou: Decoded<LegacyAnisou.AnisouRecord>,
    atom: Decoded<LegacyAtom.AtomRecord>,
    connect: Decoded<Connect.ConnectRecord>,
    crystal: Decoded<Crystal.CrystalRecord>,
    dbref: Decoded<DbRef.DbRefRecord>,
    mtrixn: Decoded<Mtrixn.MtrixN>,
    model: Decoded<Model.ModelRecord>,
    modres: Decoded<LegacyModres.ModresRecord>,
    origxn: Decoded<Origxn.OrigxN>,
    scalen: Decoded<Scalen.ScaleN>,
    seqres: Decoded<LegacySeqres.SeqresRecord>,
    term: Decoded<Term.TermRecord>)

  function DecodeAll(line: string): Decodings {
    Decodings(
      LegacyAnisou.New(line), LegacyAtom.New(line), Connect.New(line), Crystal.New(line),
      DbRef.New(line), Mtrixn.Family(line), Model.New(line), LegacyModres.From(line),
      Origxn.Family(line), Scalen.Family(line), LegacySeqres.New(line), Term.New(line))
  }

  /** `r` is what the decoder of its variant produced. */
  predicate Decodes(d: Decodings, r: Record) {
    match r
    case Anisou(x) => d.anisou == Done(x)
    case Atom(x) => d.atom == Done(x)
    case Connect(x) => d.connect == Done(x)
    case Crystal(x) => d.crystal == Done(x)
    case DBRef(x) => d.dbref == Done(x)
    case Hetatm(x) => d.atom == Done(x)
    case MtrixN(x) => d.mtrixn == Done(x)
    case Model(x) => d.model == Done(x)
    case Modres(x) => d.modres == Done(x)
    case OrigxN(x) => d.origxn == Done(x)
    case ScaleN(x) => d.scalen == Done(x)
    case Seqres(x) => d.seqres == Done(x)
    case Term(x) => d.term == Done(x)
    case Endmdl => true
  }

  /** The decoder of type `k` panicked; `k` is one of the earlier arms. */
  predicate Fails(d: Decodings, k: RecordType) {
    match k
    case AnisouLine => d.anisou.Panic?
    case AtomLine => d.atom.Panic?
    case ConnectLine => d.connect.Panic?
    case CrystalLine => d.crystal.Panic?
    case DbRefLine => d.dbref.Panic?
    case HetatmLine => d.atom.Panic?
    case MtrixLine => d.mtrixn.Panic?
    case ModelLine => d.model.Panic?
    case ModresLine => d.modres.Panic?
    case OrigxLine => d.origxn.Panic?
    case ScaleLine => d.scalen.Panic?
    case SeqresLine => d.seqres.Panic?
    case TermLine => d.term.Panic?
    case _ => false
  }

  /** The arm for type `k`, which must be one the earlier classifier lists. */
  function Dispatch(k: RecordType, d: Decodings): (r: Outcome<Record>)
    requires !(k.HetLine? || k.HetnamLine? || k.NummdlLine?)
    ensures !r.Err?
    ensures r.Ok? ==> KindOf(r.record) == k && Decodes(d, r.record)
    ensures r.Panicked? <==> Fails(d, k)
  {
    match k
    case AnisouLine => Route(d.anisou, x => Anisou(x))
    case AtomLine => Route(d.atom, x => Atom(x))
    case ConnectLine => Route(d.connect, x => Connect(x))
    case CrystalLine => Route(d.crystal, x => Crystal(x))
    case DbRefLine => Route(d.dbref, x => DBRef(x))
    case EndmdlLine => Ok(Endmdl)
    case HetatmLine => Route(d.atom, x => Hetatm(x))
    case MtrixLine => Route(d.mtrixn, x => MtrixN(x))
    case ModelLine => Route(d.model, x => Model(x))
    case ModresLine => Route(d.modres, x => Modres(x))
    case OrigxLine => Route(d.origxn, x => OrigxN(x))
    case ScaleLine => Route(d.scalen, x => ScaleN(x))
    case SeqresLine => Route(d.seqres, x => Seqres(x))
    case TermLine => Route(d.term, x => Term(x))
  }

  /** The classifier over given decoder results `d`. */
  function Classify(line: string, d: Decodings): (r: Outcome<Record>)
    ensures r == Err("Unable to parse line") <==> |line| < 6
    ensures r == Err("Unknown record type") <==> |line| >= 6 && TagKind(line[..6]).None?
    ensures r.Ok? ==> |line| >= 6 && TagKind(line[..6]) == Some(KindOf(r.record)) && Decodes(d, r.record)
    ensures r.Panicked? <==> |line| >= 6 && TagKind(line[..6]).Some? && Fails(d, TagKind(line[..6]).value)
  {
    match Get(line, 0, 6)
    case None => Err("Unable to parse line")
    case Some(tag) =>
      match TagKind(tag)
      case None => Err("Unknown record type")
      case Some(k) => Dispatch(k, d)
  }

  /** The earlier `Record::try_from`. */
  function TryFrom(line: string): (r: Outcome<Record>)
    ensures r == Err("Unable to parse line") <==> |line| < 6
    ensures r == Err("Unknown record type") <==> |line| >= 6 && TagKind(line[..6]).None?
    ensures r.Ok? ==> |line| >= 6 && TagKind(line[..6]) == Some(KindOf(r.record)) && Decodes(DecodeAll(line), r.record)
    ensures r.Panicked? <==> |line| >= 6 && TagKind(line[..6]).Some? && Fails(DecodeAll(line), TagKind(line[..6]).value)
  {
    Classify(line, DecodeAll(line))
  }

  /** Every earlier tag is still listed, for the same type; the only tags
      added since are HET, HETNAM and NUMMDL. */
  lemma TagsExtended(tag: string)
    ensures TagKind(tag).Some? ==> Records.TagKind(tag) == TagKind(tag)
    ensures (Records.TagKind(tag).Some? && TagKind(tag).None?) <==>
      (tag == "HET   " || tag == "HETNAM" || tag == "NUMMDL")
  {
  }

  /** On every line whose tag both versions know, or that has no tag, the
      two classifiers report the same error, or both report none. */
  lemma SameErrors(line: string)
    requires |line| < 6 || TagKind(line[..6]).Some? || Records.TagKind(line[..6]).None?
    ensures TryFrom(line).Err? <==> Records.TryFrom(line).Err?
    ensures TryFrom(line).Err? ==> TryFrom(line).message == Records.TryFrom(line).message
  {
    ErrorsAgree(line, DecodeAll(line), Records.DecodeAll(line));
  }

  lemma ErrorsAgree(line: string, d: Decodings, e: Records.Decodings)
    requires |line| < 6 || TagKind(line[..6]).Some? || Records.TagKind(line[..6]).None?
    ensures Classify(line, d).Err? <==> Records.Classify(line, e).Err?
    ensures Classify(line, d).Err? ==> Classify(line, d).message == Records.Classify(line, e).message
  {
    if |line| >= 6 {
      TagsExtended(line[..6]);
    }
  }

  /** What the earlier classifier reads as an atom, the current one reads
      as the same kind of atom, with the same residue number. */
  lemma AtomsStillAccepted(line: string)
    requires TryFrom(line).Ok? && (TryFrom(line).record.Atom? || TryFrom(line).record.Hetatm?)
    ensures Records.TryFrom(line).Ok?
    ensures TryFrom(line).record.Atom? ==> Records.TryFrom(line).record.Atom?
    ensures TryFrom(line).record.Hetatm? ==> Records.TryFrom(line).record.Hetatm?
    ensures Records.TryFrom(line).record.atom.resSeq as int == TryFrom(line).record.atom.resSeq as int
  {
    var d := DecodeAll(line);
    AtomTag(line, d);
    LegacyAtom.CurrentAcceptsEveryLine(line);
    Records.AtomAndHetatmShareDecoder(line);
  }

  lemma AtomTag(line: string, d: Decodings)
    requires Classify(line, d).Ok? && (Classify(line, d).record.Atom? || Classify(line, d).record.Hetatm?)
    ensures |line| >= 6 && d.atom == Done(Classify(line, d).record.atom)
    ensures Classify(line, d).record.Atom? <==> line[..6] == "ATOM  "
    ensures Classify(line, d).record.Hetatm? <==> line[..6] == "HETATM"
  {
  }
}
