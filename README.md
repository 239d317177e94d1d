# knuckles-rs record parser, modelled in Dafny

knuckles-rs reads Protein Data Bank (PDB) files. A PDB file is a text of
fixed-column lines. The first six columns of a line name its record type
(`ATOM  `, `HETATM`, `CONECT`, `CRYST1`, ...) and the columns after them hold
that type's fields at fixed positions. Each line is handed to a classifier
(`Record::try_from`), which picks a decoder by the tag. The decoder slices its
columns, trims them and parses numbers. Two readers run this classifier over a
whole text:
- `pdbreader_parallel` keeps every record and then gives serial numbers to ATOM
  records that have none;
- `pdbreader_single` keeps only ATOM records and numbers them as it goes.

This project models:
- the current crate's classifier (`knuckles-parse`) and every decoder it calls;
- the two readers;
- the `Display` of MODEL and NUMMDL lines;
- the classifier and decoders of the earlier crate (`src/`).

It proves what these promise:
- which lines fail, and how;
- which columns each field is read from;
- what the serial pass does to a list of records;
- how the two readers relate;
- that written MODEL and NUMMDL lines read back;
- how the earlier crate differs from the current one.

Modules follow the crate layout:
- **Shared foundations:**
  - `Text`: `trim`, `split_whitespace`, `lines` and padding.
  - `Numbers`: `from_str_radix` and `parse` for `u16`, `u32`, `i16` and `i32`.
  - `Floats`: the literal grammar of `parse::<f32>`.
  - `Columns`: reading a column as text, a character or a number, strictly
    (`unwrap`) or leniently (`unwrap_or_default`, `ok`).
  - `Counted`: the one-number lines that MODEL and NUMMDL share.
- **One module per record kind, current crate:** `Atom`, `Anisou`, `Connect`,
  `Crystal`, `DbRef`, `Het`, `Hetnam`, `Model`, `Nummdl`, `Modres`, `Seqres`,
  `Term` and `Scalen`.
- **Record kinds taken from the earlier crate:** MTRIXn, ORIGXn and SEQADV,
  in `Mtrixn`, `Origxn` and `Seqadv`.
- **Earlier decoders the current crate changed:** `LegacyAtom`,
  `LegacyAnisou`, `LegacyModres` and `LegacySeqres`.
- **Classifiers:** `Records` (current) and `LegacyRecords` (earlier).
- **Readers:**
  - `Serials`: the serial pass, as a function over sequences and as an
    in-place method over an array.
  - `Reader`: both readers.

A Rust panic is a value here:
- a decoder returns `Decoded.Done(record)` or `Decoded.Panic`;
- the classifier returns `Outcome.Ok(record)`, `Outcome.Err(message)` or
  `Outcome.Panicked`.

A panic occurs:
- when a slice is out of range;
- on an `unwrap` of a failed parse;
- on an unknown database code;
- on a row number other than 1 to 3;
- on the `as u16 - 48` (SCALEn, ORIGXn) and `as u32 - 48` (MTRIXn) underflows
  below `'0'` in a debug build.

Integers have their Rust widths, enforced by subset types. A failed or
out-of-range parse is modelled exactly. An `f32` is kept as the literal it was
read from (`F32.Value(text)`), or as `F32.Zero` for `unwrap_or_default`.

The classifier is written in two steps:
1. `Records.DecodeAll` gathers what every decoder makes of the line.
2. `Records.Classify` selects by the tag.

Decoding is pure and never depends on the tag, so this gives the same result
as calling only the selected decoder. `TryFrom` is `Classify` applied to
`DecodeAll`. The readers take the classifier as a parameter (`Reader.Classifier`)
and are used with `Records.TryFrom`.

Missing source files:
- `knuckles-parse/src/records/mtrixn.rs`, `origxn.rs` and `seqadv.rs` are not
  part of this model. The current classifier uses the decoders of the same
  names in `src/records/`.
- `src/records/connect.rs`, `crystal.rs`, `dbref.rs`, `scalen.rs` and
  `term.rs` are not part of this model. The earlier classifier uses the
  current crate's decoders for these.
- `src/records/model.rs` reads the same columns as the current `model.rs`, so
  the model has one definition for both.

## Model

| member | source | states |
|---|---|---|
| Columns.FieldIs | knuckles-parse/src/records/atom.rs:46 | a column holding a trimmed value with blanks around it reads as that value |
| Columns.TextColumnIs | knuckles-parse/src/records/atom.rs:57-60 | a column whose text trims to `v` reads as `v`, and its optional reading is `None` exactly when `v` is empty |
| Columns.OptField | knuckles-parse/src/records/atom.rs:57-60 | `get(a..b).map(trim).filter(non-empty)` never panics; it is `Some` exactly when the slice is in range and not blank, and is then the non-empty trimmed slice |
| Columns.OptChar | knuckles-parse/src/records/atom.rs:47 | a one-column `parse::<char>().ok()` panics only past the end; it is `None` exactly on whitespace, else the character |
| Columns.OptCharIsTrimParse | knuckles-parse/src/records/atom.rs:47 | that reading is exactly trim-then-`char::from_str` of the one-column slice |
| Columns.MustCharIsTrimParse | knuckles-parse/src/records/anisotropic.rs:39 | `trim().parse::<char>().unwrap()` of a one-column slice succeeds exactly when that parse succeeds, with the parsed character; a blank column panics |
| Columns.DecimalColumn | knuckles-parse/src/records/connect.rs:22-24 | a column of blanks and the decimal digits of `n` reads as `n` strictly, leniently and optionally, whenever `n` fits the type |
| Columns.NegativeColumn | knuckles-parse/src/records/anisotropic.rs:40 | blanks, a minus sign and the digits of `n` read strictly as `-n` in a signed type that holds it |
| Columns.IntColumnIs | knuckles-parse/src/records/atom.rs:50 | a column whose trimmed text parses as `n` reads as `n` under `unwrap`, `unwrap_or_default` and `ok` alike |
| Columns.PointColumn | knuckles-parse/src/records/crystal.rs:71 | blanks followed by a signed fixed-point number read as that number, strictly and leniently |
| Columns.FloatColumnIs | knuckles-parse/src/records/atom.rs:52 | a column whose trimmed text is an `f32` literal reads as that literal, strictly and leniently |
| Columns.FieldLocal | knuckles-parse/src/records/atom.rs:46 | a column's trimmed and optional readings depend on that column's characters only |
| Columns.CodeOfDigit | knuckles-parse/src/records/scalen.rs:41 | on a decimal digit both subtractions give the digit's value |
| Columns.CodeBelowZero | src/records/mtrixn.rs:43 | a blank or any character below `'0'` makes both subtractions panic |
| Text.TrimShape | knuckles-parse/src/records/atom.rs:46 | `trim` keeps a contiguous run of the input with only whitespace around it, and the run starts and ends with non-whitespace |
| Text.TrimEmptyIffBlank | knuckles-parse/src/records/atom.rs:60 | `trim` is empty exactly on an all-whitespace input |
| Text.TrimPadded | knuckles-parse/src/records/atom.rs:46 | whitespace, then trimmed text, then whitespace trims to that text |
| Text.TrimBlankSuffix | knuckles-parse/src/records/hetnam.rs:28 | trailing blanks never change what `trim` gives |
| Text.SplitWhitespace | knuckles-parse/src/records/seqres.rs:28 | `split_whitespace` yields only non-empty tokens without whitespace |
| Text.SplitKeepsContent | knuckles-parse/src/records/seqres.rs:27-30 | the tokens, concatenated, are the non-whitespace characters of the input in order |
| Text.SplitSpaced | knuckles-parse/src/records/seqres.rs:27-30 | tokens written one space apart split back into the same tokens |
| Text.SplitBlank | knuckles-parse/src/records/seqres.rs:27-30 | an all-blank input splits into no tokens |
| Text.Lines | knuckles-parse/src/lib.rs:72 | `str::lines` yields lines that hold no line feed |
| Text.LinesOfTerminated | knuckles-parse/src/lib.rs:130 | lines written one per line feed are read back as written |
| Text.LinesBound | knuckles-parse/src/lib.rs:72 | a text has no more lines than characters |
| Text.PadLeft | knuckles-parse/src/records/model.rs:34 | `{:>w}`: width `max(w, len)`, the text at the right end, and only space characters before it |
| Text.PadRight | knuckles-parse/src/records/model.rs:34 | `{:<w}`: width `max(w, len)`, the text at the left, and only space characters after it |
| Numbers.DigitValue | knuckles-parse/src/records/atom.rs:45 | `to_digit(radix)` is below the radix, is the decimal value on `0`-`9`, and is defined only on digits and ASCII letters |
| Numbers.FromStrRadix | knuckles-parse/src/records/atom.rs:45 | `from_str_radix` gives only values inside the target type's range |
| Numbers.Parse | knuckles-parse/src/records/connect.rs:22 | `parse` gives only values inside the target type's range |
| Numbers.ParseDecimal | knuckles-parse/src/records/model.rs:34 | parsing the decimal digits of any value of the type gives that value back |
| Numbers.ParseNegatedDecimal | knuckles-parse/src/records/atom.rs:50 | a signed type reads `-` then digits as the negative value |
| Numbers.ParseHex | knuckles-parse/src/records/atom.rs:41-45 | base-16 parsing of lower-case hex digits gives the value back |
| Numbers.ParseRejects | knuckles-parse/src/records/connect.rs:24 | the empty string, a lone sign, inner blanks and a minus on an unsigned type do not parse |
| Numbers.UnsignedRejectsMinus | knuckles-parse/src/records/connect.rs:22 | an unsigned type rejects every text that starts with `-` |
| Numbers.UnsignedBound | knuckles-parse/src/records/atom.rs:45 | an unsigned value read from `n` characters is below `radix^n` |
| Numbers.UnsignedFitsSigned | src/records/atom.rs:33 | up to four characters that an unsigned type reads, a signed type with room for 9999 reads alike |
| Floats.LeadingBlankRejected | knuckles-parse/src/records/atom.rs:52 | an empty or blank-led text is not an `f32` |
| Floats.PointNumberAccepted | knuckles-parse/src/records/atom.rs:52 | a signed or unsigned fixed-point number with digits on either side is an `f32` literal |
| Floats.IntegerAccepted | knuckles-parse/src/records/crystal.rs:71 | a run of digits alone is an `f32` literal |
| Floats.IncompleteRejected | knuckles-parse/src/records/atom.rs:52 | a bare point or an empty exponent is not an `f32` |
| Counted.Read | knuckles-parse/src/records/model.rs:21 | the number column fails only on a line shorter than 14 and reads leniently, 0 on a bad number |
| Counted.RenderShape | knuckles-parse/src/records/model.rs:34 | a written line is exactly 80 columns for every `u32` and starts with the tag |
| Counted.RenderLayout | knuckles-parse/src/records/model.rs:34 | for every `u32`, the written line is the tag, spaces right-aligning the digits in width 4 (none for four digits or more), the decimal digits, then spaces up to column 80 |
| Counted.ReadRender | knuckles-parse/src/records/model.rs:33-35 | reading back a written value up to 9999 gives that value |
| Counted.WideValueCut | knuckles-parse/src/records/model.rs:33-35 | a five-digit value is written in full but read back cut to its first four digits (12345 reads as 1234) |
| Counted.ReadLocal | knuckles-parse/src/records/model.rs:21 | only columns 10 to 14 are read |
| Atom.New | knuckles-parse/src/records/atom.rs:37-70 | decoding succeeds exactly when the residue number and five floats parse; every field comes from its column; the serial is read in base 16 when it holds a letter |
| Atom.SerialBound | knuckles-parse/src/records/atom.rs:39-45 | a serial read from five columns is at most `0xFFFFF` |
| Atom.DecodedSerialBound | knuckles-parse/src/records/atom.rs:45 | every decoded ATOM serial is at most `0xFFFFF` |
| Atom.HexSerialExample | knuckles-parse/src/records/atom.rs:108 | `186a0` reads as 100000 |
| Atom.DecimalSerialExample | knuckles-parse/src/records/atom.rs:88 | `17` reads as 17 |
| Atom.LetterlessSerialExample | knuckles-parse/src/records/atom.rs:40-42 | a serial without letters is read in base 10, even one meant as hex (`18700` is 18700) |
| Atom.ChargeImpliesElement | knuckles-parse/src/records/atom.rs:61-68 | the charge columns lie inside the element columns, so a charge implies an element |
| Atom.HexTestLine | knuckles-parse/src/records/atom.rs:104-121 | the hexadecimal test line decodes field by field as the test expects |
| Atom.DecimalTestLine | knuckles-parse/src/records/atom.rs:84-101 | the decimal test line decodes field by field as the test expects |
| Anisou.New | knuckles-parse/src/records/anisotropic.rs:33-57 | decoding succeeds exactly when the chain is non-blank and the residue number and six tensor components parse; each field comes from its column |
| Anisou.TestLine | knuckles-parse/src/records/anisotropic.rs:71-102 | the test line decodes to the expected components, the negative ones included |
| Anisou.SecondTestLine | knuckles-parse/src/records/anisotropic.rs:105-136 | the line with a blank element decodes with no element |
| Connect.New | knuckles-parse/src/records/connect.rs:20-30 | decoding fails exactly on a line shorter than 31; serial and four optional bonds come from their five-column fields |
| Connect.BlankSerialIsZero | knuckles-parse/src/records/connect.rs:22 | a blank serial reads as 0 |
| Connect.BlankBondIsNone | knuckles-parse/src/records/connect.rs:24-27 | a blank bond column is an empty slot |
| Connect.Local | knuckles-parse/src/records/connect.rs:20-30 | the record depends on columns 6 to 31 only |
| Connect.TestLine | knuckles-parse/src/records/connect.rs:44-50 | the test line has serial 413 and bonds 412, 414 and two empty slots |
| Crystal.New | knuckles-parse/src/records/crystal.rs:69-80 | decoding fails exactly on a line shorter than 70; every cell value is read leniently |
| Crystal.BlankCellIsZero | knuckles-parse/src/records/crystal.rs:71-76 | a blank cell column, any of the six, reads as zero |
| Crystal.SpaceGroupKeepsInnerBlanks | knuckles-parse/src/records/crystal.rs:77 | the space group keeps its inner blanks |
| Crystal.TestLine | knuckles-parse/src/records/crystal.rs:93-105 | the test line decodes to its cell, `P 21 21 21` and `z` 8 |
| DbRef.DbTypeOf | knuckles-parse/src/records/dbref.rs:32-40 | the database code succeeds exactly on GB, NORINE, NOR, PDB or UNP after trimming, and names that database |
| DbRef.CodeRoundTrip | knuckles-parse/src/records/dbref.rs:32-40 | every database reads back from its own code, padded with blanks |
| DbRef.NorIsNorine | knuckles-parse/src/records/dbref.rs:35 | `NOR` names NORINE |
| DbRef.New | knuckles-parse/src/records/dbref.rs:44-67 | decoding succeeds exactly when the database is known and the strict columns parse; the insertion codes at columns 60 and 67 are read only for PDB |
| DbRef.UnpTestLine | knuckles-parse/src/records/dbref.rs:81-95 | the UniProt test line of 67 columns decodes, with no insertion codes |
| DbRef.PdbTestLine | knuckles-parse/src/records/dbref.rs:96-112 | the PDB test line decodes with insertion codes `A` and `B` |
| Het.New | knuckles-parse/src/records/het.rs:24-36 | decoding succeeds exactly when the sequence number and atom count parse; the chain is the raw column 12 and the description is optional |
| Het.TestLine | knuckles-parse/src/records/het.rs:50-58 | `A1457` splits into chain `A` and number 1457, and a 46-column line has no description |
| Het.SecondTestLine | knuckles-parse/src/records/het.rs:59-68 | the second test line decodes as the test expects |
| Hetnam.New | knuckles-parse/src/records/hetnam.rs:21-32 | decoding fails exactly on a line shorter than 15; the continuation is optional; the text is the whole trimmed rest |
| Hetnam.TrailingBlanksIgnored | knuckles-parse/src/records/hetnam.rs:28 | trailing blanks never change the record |
| Hetnam.TestLine | knuckles-parse/src/records/hetnam.rs:46-52 | the line without continuation decodes as expected |
| Hetnam.ContinuationTestLine | knuckles-parse/src/records/hetnam.rs:53 | continuation `2` is read |
| Model.New | knuckles-parse/src/records/model.rs:19-23 | decoding fails exactly on a line shorter than 14; the serial is read leniently from columns 10 to 14 |
| Model.Display | knuckles-parse/src/records/model.rs:33-35 | the written line is 80 columns and starts with `MODEL`; a serial up to 9999 is the tag, spaces right-aligning its digits in width 4, the digits, then 66 spaces, and reads back as the same record |
| Model.OnlyColumnsRead | knuckles-parse/src/records/model.rs:21 | lines that agree on columns 10 to 14 give the same record |
| Model.TestLine | knuckles-parse/src/records/model.rs:42-46 | `MODEL        1` is serial 1 |
| Model.DisplayTest | knuckles-parse/src/records/model.rs:54-59 | serial 1 is written as exactly `MODEL        1` followed by 66 spaces |
| Nummdl.New | knuckles-parse/src/records/nummdl.rs:19-23 | decoding fails exactly on a line shorter than 14; the count is read leniently from columns 10 to 14 |
| Nummdl.Display | knuckles-parse/src/records/nummdl.rs:33-35 | the written line is 80 columns and starts with `NUMMDL`; a count up to 9999 is the tag, spaces right-aligning its digits in width 4, the digits, then 66 spaces, and reads back as the same record |
| Nummdl.OnlyColumnsRead | knuckles-parse/src/records/nummdl.rs:21 | lines that agree on columns 10 to 14 give the same record |
| Nummdl.TestLine | knuckles-parse/src/records/nummdl.rs:42-46 | `NUMMDL       1` is count 1 |
| Nummdl.DisplayTest | knuckles-parse/src/records/nummdl.rs:54-59 | count 1 is written as exactly `NUMMDL       1` followed by 66 spaces |
| Modres.From | knuckles-parse/src/records/modres.rs:29-39 | decoding succeeds exactly on a line of 29 columns whose `i16` sequence number parses; each field comes from its column |
| Modres.NegativeSequenceNumber | knuckles-parse/src/records/modres.rs:34 | a negative sequence number is accepted |
| Seqres.New | knuckles-parse/src/records/seqres.rs:22-32 | decoding succeeds exactly when serial and count parse; the names are the whitespace-separated words of the rest of the line |
| Seqres.NamesAreWords | knuckles-parse/src/records/seqres.rs:27-30 | no name is empty or holds whitespace, and together they hold all non-blank characters of the rest |
| Seqres.BlankRestHasNoNames | knuckles-parse/src/records/seqres.rs:27-30 | a blank rest gives no names |
| Seqres.SpacedNamesRead | knuckles-parse/src/records/seqres.rs:27-30 | names written one space apart read back as those names |
| Term.New | knuckles-parse/src/records/term.rs:23-31 | decoding fails exactly on a line shorter than 26; numbers are lenient; the insertion code is present exactly when column 26 exists |
| Term.BlankResidueIsZero | knuckles-parse/src/records/term.rs:28 | a blank residue number reads as 0 |
| Term.Local | knuckles-parse/src/records/term.rs:23-31 | the record depends on columns 6 to 27 only, and on whether the line reaches column 27 |
| Scalen.Row | knuckles-parse/src/records/scalen.rs:13-21 | a record's row is 1, 2 or 3 |
| Scalen.New | knuckles-parse/src/records/scalen.rs:39-49 | decoding succeeds exactly on 55 columns with a row character not below `'0'`; the row is that character minus 48; the factors are lenient |
| Scalen.Family | knuckles-parse/src/records/scalen.rs:13-21 | `ScaleN::new` succeeds exactly for rows 1 to 3 and puts the record under its row's variant |
| Scalen.RowOfTag | knuckles-parse/src/records/scalen.rs:13-21 | a tag ending in digit `d` succeeds exactly for `d` in 1 to 3, with row `d` |
| Scalen.BlankColumnIsZero | knuckles-parse/src/records/scalen.rs:47 | a blank `un` column reads as zero |
| Scalen.TestLine | knuckles-parse/src/records/scalen.rs:62-84 | the test line is row 1 under `Scale1` with its factors |
| Origxn.Row | src/records/origxn.rs:13-21 | a record's row is 1, 2 or 3 |
| Origxn.New | src/records/origxn.rs:39-49 | decoding succeeds exactly on 55 columns with a row character not below `'0'`; the factors are lenient |
| Origxn.Family | src/records/origxn.rs:13-21 | `OrigxN::new` succeeds exactly for rows 1 to 3 and puts the record under its row's variant |
| Origxn.RowOfTag | src/records/origxn.rs:13-21 | a tag ending in digit `d` succeeds exactly for `d` in 1 to 3, with row `d` |
| Origxn.BlankColumnIsZero | src/records/origxn.rs:47 | a blank `tn` column reads as zero |
| Origxn.TestLine | src/records/origxn.rs:75-97 | the test line is row 1 under `Origx1` with its factors |
| Mtrixn.Row | src/records/mtrixn.rs:13-21 | a record's row is 1, 2 or 3 |
| Mtrixn.New | src/records/mtrixn.rs:41-53 | decoding succeeds exactly on a line of 60 columns whose row character is not below `'0'` and whose serial and four floats read strictly; `iGiven` is column 59 equal to `1` |
| Mtrixn.Family | src/records/mtrixn.rs:13-21 | `MtrixN::new` succeeds exactly for rows 1 to 3 and puts the record under its row's variant |
| Mtrixn.RowOfTag | src/records/mtrixn.rs:13-21 | a decodable tag ending in digit `d` succeeds exactly for `d` in 1 to 3, with row `d` |
| Mtrixn.BlankColumnFails | src/records/mtrixn.rs:50 | a blank `vn` column makes the line fail |
| Mtrixn.NoFlagFails | src/records/mtrixn.rs:51 | a line too short to hold column 59 fails |
| Mtrixn.TestLine | src/records/mtrixn.rs:86-94 | the first test line is row 1 under `Mtrix1`, with `iGiven` set |
| Mtrixn.SecondTestLine | src/records/mtrixn.rs:95-103 | the 60-column second test line is row 2 under `Mtrix2` |
| Seqadv.New | src/records/seqadv.rs:22-40 | decoding succeeds exactly on a line of 49 columns with a known database code and an `i32` sequence number; the database residue and number are optional |
| Seqadv.NorineOnlyAsNor | src/records/seqadv.rs:24 | the four-wide database column can name NORINE only as `NOR` |
| Seqadv.TestLine | src/records/seqadv.rs:54-66 | the expression-tag line has sequence number -1 and no database residue |
| Seqadv.SecondTestLine | src/records/seqadv.rs:67-79 | the engineered line has database residue `VAL` 50 |
| Seqadv.NorineTestLine | src/records/seqadv.rs:80-93 | `NOR` reads as NORINE |
| LegacyAtom.New | src/records/atom.rs:25-53 | the earlier decoder: a decimal-only serial and a `u16` residue number; each field comes from its column |
| LegacyAtom.CurrentAcceptsEveryLine | src/records/atom.rs:25-53 | every line the earlier decoder accepts, the current one accepts, with the same residue number, every other field alike, and the same serial when it has no letter |
| LegacyAtom.HexSerialIsZero | src/records/atom.rs:28 | `186a0` reads as 0 in the earlier decoder and 100000 in the current one |
| LegacyAtom.HexDigitsRejected | src/records/atom.rs:28 | base 10 does not read `186a0` |
| LegacyAtom.NegativeResidueFails | src/records/atom.rs:33 | a negative residue number, which the current decoder accepts, fails |
| LegacyAtom.TestLine | src/records/atom.rs:67-84 | the test line decodes field by field as the test expects |
| LegacyAnisou.New | src/records/anisotropic.rs:25-49 | the earlier decoder with an unsigned residue number |
| LegacyAnisou.CurrentAcceptsEveryLine | src/records/anisotropic.rs:25-49 | every line it accepts, the current decoder accepts with the same value in every field |
| LegacyAnisou.NegativeResidueFails | src/records/anisotropic.rs:32 | a negative residue number fails |
| LegacyAnisou.TestLine | src/records/anisotropic.rs:63-79 | the test line decodes as expected |
| LegacyAnisou.SecondTestLine | src/records/anisotropic.rs:80-94 | the blank-element line decodes with no element |
| LegacyModres.From | src/records/modres.rs:17-27 | the earlier decoder with an `i32` sequence number |
| LegacyModres.SameLinesAccepted | src/records/modres.rs:17-27 | it accepts exactly the lines the current one accepts, with the same sequence number |
| LegacyModres.FourColumnsFit | src/records/modres.rs:22 | four characters parse as `i32` exactly when they parse as `i16`, to the same value |
| LegacySeqres.New | src/records/seqres.rs:14-24 | the earlier decoder with an unsigned residue count |
| LegacySeqres.NegativeCountFails | src/records/seqres.rs:18 | a negative count fails |
| LegacySeqres.AgreesWithCurrent | src/records/seqres.rs:14-24 | without a leading `-` in the count both versions decode alike |
| LegacySeqres.MinusZeroCount | src/records/seqres.rs:18 | `-0` reads as 0 in the current decoder and fails in the earlier one |
| Records.Dispatch | knuckles-parse/src/records/mod.rs:232-248 | the arm for a type never errs; it gives a record of that type from that decoder, and panics exactly when that decoder does |
| Records.Classify | knuckles-parse/src/records/mod.rs:229-253 | "Unable to parse line" exactly below six columns; "Unknown record type" exactly for an unknown tag; otherwise the tag's decoder decides `Ok` or panic |
| Records.TryFrom | knuckles-parse/src/records/mod.rs:229-253 | the same four facts for the decoders applied to the line |
| Records.EndmdlIgnoresRest | knuckles-parse/src/records/mod.rs:237 | any line tagged `ENDMDL` is `Endmdl` |
| Records.EndmdlSelected | knuckles-parse/src/records/mod.rs:237 | the same for any decoder results |
| Records.SeqadvIsUnknown | knuckles-parse/src/records/mod.rs:249 | a `SEQADV` line is an unknown record type |
| Records.SeqadvUnlisted | knuckles-parse/src/records/mod.rs:249 | the same for any decoder results |
| Records.SeqadvNeverProduced | knuckles-parse/src/records/mod.rs:119-120 | no line gives the `Seqadv` variant |
| Records.NoSeqadvArm | knuckles-parse/src/records/mod.rs:232-248 | the same for any decoder results |
| Records.AtomAndHetatmShareDecoder | knuckles-parse/src/records/mod.rs:233-238 | `ATOM  ` and `HETATM` lines succeed or panic exactly as the atom decoder does, under their own variant |
| Records.AtomArms | knuckles-parse/src/records/mod.rs:233-238 | the same for any decoder results |
| Records.RowMatchesTag | knuckles-parse/src/records/mod.rs:241-246 | a classified SCALEn, ORIGXn or MTRIXn record has the row named by its tag's digit |
| Records.FamilyTags | knuckles-parse/src/records/mod.rs:241-246 | the tag of a classified matrix record ends in its row digit |
| Records.ModelDisplayClassified | knuckles-parse/src/records/mod.rs:242 | a MODEL line written by `Display` is classified back as that model, for serials up to 9999 |
| Records.ModelLineClassified | knuckles-parse/src/records/mod.rs:242 | a `MODEL ` line is classified as what the MODEL decoder reads |
| Records.ModelArm | knuckles-parse/src/records/mod.rs:242 | the same for any decoder results |
| Records.NummdlDisplayClassified | knuckles-parse/src/records/mod.rs:244 | a NUMMDL line written by `Display` is classified back as that count, for counts up to 9999 |
| Records.NummdlLineClassified | knuckles-parse/src/records/mod.rs:244 | a `NUMMDL` line is classified as what the NUMMDL decoder reads |
| Records.NummdlArm | knuckles-parse/src/records/mod.rs:244 | the same for any decoder results |
| Records.AtomSerialBounded | knuckles-parse/src/records/mod.rs:233 | a classified ATOM record has a serial of at most `0xFFFFF` |
| Records.AtomDecoded | knuckles-parse/src/records/mod.rs:233 | a classified ATOM record is the atom decoder's record |
| LegacyRecords.Dispatch | src/records/mod.rs:42-55 | the arm for a listed type never errs and gives that decoder's record |
| LegacyRecords.Classify | src/records/mod.rs:39-60 | the same four facts as the current classifier, over the earlier tags |
| LegacyRecords.TryFrom | src/records/mod.rs:39-60 | the same for the earlier decoders applied to the line |
| LegacyRecords.TagsExtended | src/records/mod.rs:42-55 | every earlier tag keeps its type; the only tags added are `HET   `, `HETNAM` and `NUMMDL` |
| LegacyRecords.SameErrors | src/records/mod.rs:56-58 | on a line both versions know or neither knows, both err alike, with the same message |
| LegacyRecords.ErrorsAgree | src/records/mod.rs:56-58 | the same for any decoder results |
| LegacyRecords.AtomsStillAccepted | src/records/mod.rs:43-48 | an atom the earlier classifier reads, the current one reads under the same variant with the same residue number |
| LegacyRecords.AtomTag | src/records/mod.rs:43-48 | a classified atom comes from the atom decoder, under `Atom` exactly for `ATOM  ` and `Hetatm` exactly for `HETATM` |
| Serials.Renumber | knuckles-parse/src/lib.rs:87-97 | the serial pass keeps the number of records |
| Serials.Unfold | knuckles-parse/src/lib.rs:88-96 | one step of the pass: fill the first record from the counter, then go on with the new counter |
| Serials.Shape | knuckles-parse/src/lib.rs:87-97 | records other than ATOM are unchanged; ATOM records keep every field but the serial, get a serial of at least 1 or keep a set one |
| Serials.FillsFromPredecessor | knuckles-parse/src/lib.rs:90-92 | a zero serial becomes one more than the nearest earlier ATOM serial in the output, or 1 |
| Serials.SetSerialsKept | knuckles-parse/src/lib.rs:93-95 | records whose serials are all set pass through unchanged |
| Serials.Idempotent | knuckles-parse/src/lib.rs:87-97 | running the pass on its own output changes nothing |
| Serials.Headroom | knuckles-parse/src/lib.rs:91 | serials bounded by `b` with `b + n <= u32::MAX` never overflow the counter |
| Serials.Atoms | knuckles-parse/src/lib.rs:136 | the ATOM records, in order, are no more than the records |
| Serials.AtomsCommute | knuckles-parse/src/lib.rs:89 | dropping non-ATOM records before or after the pass gives the same result |
| Serials.Snoc | knuckles-parse/src/lib.rs:87-97 | the pass over one more record is the pass so far followed by that record filled from the counter |
| Serials.Example | knuckles-parse/src/lib.rs:90-95 | serials 5, 0, 0, 20, 0 become 5, 6, 7, 20, 21 |
| Serials.NormalizeSerials | knuckles-parse/src/lib.rs:87-97 | the loop over the array leaves in it exactly the pass over the old contents |
| Reader.Decode | knuckles-parse/src/lib.rs:73-81 | the decode phase yields no more records than lines |
| Reader.DecodeAppend | knuckles-parse/src/lib.rs:73-81 | decoding is per line: the records of `a + b` are those of `a` then `b`, and either half panicking panics |
| Reader.DecodeOne | knuckles-parse/src/lib.rs:75-80 | a single line decodes as `Keep` says |
| Reader.PanicsIff | knuckles-parse/src/lib.rs:76-79 | the read panics exactly when some line of at least six columns panics |
| Reader.KeptFromLines | knuckles-parse/src/lib.rs:75-80 | every record read is the record of some accepted line of at least six columns |
| Reader.KeptAllAccepted | knuckles-parse/src/lib.rs:75-80 | every accepted line of at least six columns has its record read |
| Reader.TryFromCapped | knuckles-parse/src/records/mod.rs:233 | the classifier gives no ATOM serial above `0xFFFFF` |
| Reader.SerialsCapped | knuckles-parse/src/lib.rs:73-81 | every ATOM record read has a serial of at most `0xFFFFF` |
| Reader.CounterFits | knuckles-parse/src/lib.rs:87-97 | with fewer lines than `u32::MAX - 0xFFFFF`, the counter fits a `u32` over the records read and over their ATOM records |
| Reader.ReadParallel | knuckles-parse/src/lib.rs:69-99 | reading decodes every line and then runs the in-place serial pass, giving `Parallel`: a panic or the pass over all records read |
| Reader.ReadSingle | knuckles-parse/src/lib.rs:127-150 | panics exactly when the parallel reader does; otherwise gives the ATOM records of the parallel reader's result |
| Reader.NumberAtoms | knuckles-parse/src/lib.rs:128-149 | the one-pass loop panics exactly when decoding does, else gives the pass over the ATOM records read |
| Reader.NumberAtom | knuckles-parse/src/lib.rs:136-143 | one ATOM record is numbered from the counter as the pass does |
| Reader.PanicAt | knuckles-parse/src/lib.rs:76-79 | a panicking line of at least six columns makes the whole read panic |

## Left out

- Rayon: `pdbreader_parallel` decodes in parallel; the model decodes in input order. `collect` keeps the order, so the result is the same.
- A panic inside a decoder aborts the Rust program. Here it is a `Panic` value, and a reader panics when any of its lines does.
- `f32` values: a float is kept as the literal text it was read from. Two literals of the same number (`0.0` and `0.000000`) are different values here, and `F32.Zero` (the default) is not equal to any literal.
- The `Display` of MTRIXn and ORIGXn records, which formats floats, is left out.
- `Display for Record`, the Python bindings (pyo3) and serde are left out.
- The command-line programs (`src/main.rs`, `knuckles-toolkit`) and the procedural macro are left out.
- Text is `seq<char>`, and a column index is a character index. The source indexes bytes, so the two agree only on ASCII lines, which PDB files are. A slice that would cut a multi-byte character is not modelled.
- Serials.Renumber: requires that the counter stays within `u32`. The source's `last += 1` would panic in a debug build and wrap in a release build; neither is modelled.
- Serials.NormalizeSerials: the same counter-overflow precondition.
- Reader.ReadParallel: requires at most `u32::MAX - 0xFFFFF` characters, which keeps the counter within `u32`. Longer texts are not modelled.
- Reader.ReadSingle: the same length precondition.
- Reader.NumberAtoms: the same length precondition, stated on the number of lines.
- Atom.New: the element columns 77 to 80 and the charge columns 78 to 80 overlap, as in the source. The model keeps the overlap (see `Atom.ChargeImpliesElement`).
- Records.Classify: the current classifier has no `SEQADV` arm although `Record` has a `Seqadv` variant. The model keeps this, so the variant is never produced.
- Reader.ReadSingle: returns only ATOM records (HETATM ones are dropped), and the serial pass ignores HETATM records. Both are kept as written.
- Rust's `is_whitespace` is modelled by the Unicode White_Space characters, and `is_ascii_alphabetic` by the ASCII letters.
