/** `pdbreader_parallel` and `pdbreader_single`: split the contents into
    lines, classify each line, keep the records, and number the ATOM
    records that have no serial. */
module Reader {
  import opened Numbers
  import opened Text
  import opened Columns
  import Records
  import Atom
  import Serials

  type Record = Records.Record

  /** A line classifier; the readers use `Records.TryFrom`. */
  type Classifier = string -> Outcome<Record>

  /** What one line contributes to the `filter_map`: nothing when it is
      shorter than six columns or the classifier rejects it, its record
      when the classifier accepts it; a panic in the decoder aborts the
      read. */
  function Keep(line: string, classify: Classifier): (r: Decoded<seq<Record>>)
    ensures r.Panic? <==> |line| >= 6 && classify(line).Panicked?
    ensures r.Done? ==> (r.value == [] <==> |line| < 6 || !classify(line).Ok?)
    ensures r.Done? && r.value != [] ==> r.value == [classify(line).record]
  {
    if |line| < 6 then Done([])
    else
      match classify(line)
      case Ok(record) => Done([record])
      case Err(_) => Done([])
      case Panicked => Panic
  }

  /** The decode phase over all lines, in input order. */
  function Decode(lines: seq<string>, classify: Classifier): (r: Decoded<seq<Record>>)
    ensures r.Done? ==> |r.value| <= |lines|
    decreases |lines|
  {
    if lines == [] then Done([])
    else
      var head :- Keep(lines[0], classify);
      var tail :- Decode(lines[1..], classify);
      Done(head + tail)
  }

  /** Decoding is per line: the lines of `a + b` decode to the records of
      `a` followed by those of `b`, and panic when either part does. */
  lemma {:induction false} DecodeAppend(a: seq<string>, b: seq<string>, classify: Classifier)
    ensures Decode(a + b, classify) ==
      if Decode(a, classify).Done? && Decode(b, classify).Done? then
        Done(Decode(a, classify).value + Decode(b, classify).value)
      else Panic
    decreases |a|
  {
    if a == [] {
      assert a + b == b;
      if Decode(b, classify).Done? {
        assert [] + Decode(b, classify).value == Decode(b, classify).value;
      }
    } else {
      assert (a + b)[0] == a[0] && (a + b)[1..] == a[1..] + b;
      DecodeAppend(a[1..], b, classify);
      var h := Keep(a[0], classify);
      if h.Done? && Decode(a[1..], classify).Done? && Decode(b, classify).Done? {
        assert Decode(a + b, classify).value == h.value + Decode(a[1..] + b, classify).value;
        assert h.value + (Decode(a[1..], classify).value + Decode(b, classify).value) ==
          (h.value + Decode(a[1..], classify).value) + Decode(b, classify).value;
      }
    }
  }

  /** One line on its own decodes to what `Keep` makes of it. */
  lemma DecodeOne(line: string, classify: Classifier)
    ensures Decode([line], classify) == Keep(line, classify)
  {
    assert [line][1..] == [];
    if Keep(line, classify).Done? {
      assert Keep(line, classify).value + [] == Keep(line, classify).value;
    }
  }

  /** The read panics exactly when the decoder of some line of at least
      six columns panics. */
  lemma {:induction false} PanicsIff(lines: seq<string>, classify: Classifier)
    ensures Decode(lines, classify).Panic? <==>
      exists i :: 0 <= i < |lines| && |lines[i]| >= 6 && classify(lines[i]).Panicked?
    decreases |lines|
  {
    if lines != [] {
      PanicsIff(lines[1..], classify);
      if Keep(lines[0], classify).Done? {
        forall i | 0 <= i < |lines| && |lines[i]| >= 6 && classify(lines[i]).Panicked?
          ensures exists j :: 0 <= j < |lines[1..]| && |lines[1..][j]| >= 6 && classify(lines[1..][j]).Panicked?
        {
          assert lines[1..][i - 1] == lines[i];
        }
        forall j | 0 <= j < |lines[1..]| && |lines[1..][j]| >= 6 && classify(lines[1..][j]).Panicked?
          ensures exists i :: 0 <= i < |lines| && |lines[i]| >= 6 && classify(lines[i]).Panicked?
        {
          assert lines[j + 1] == lines[1..][j];
        }
      }
    }
  }

  /** Every record read comes from an accepted line of at least six
      columns. */
  lemma {:induction false} KeptFromLines(lines: seq<string>, classify: Classifier)
    requires Decode(lines, classify).Done?
    ensures forall k :: 0 <= k < |Decode(lines, classify).value| ==>
      exists i :: 0 <= i < |lines| && |lines[i]| >= 6 && classify(lines[i]) == Ok(Decode(lines, classify).value[k])
    decreases |lines|
  {
    if lines != [] {
      KeptFromLines(lines[1..], classify);
      var head: seq<Record> := Keep(lines[0], classify).value;
      var tail: seq<Record> := Decode(lines[1..], classify).value;
      var v := Decode(lines, classify).value;
      assert v == head + tail;
      forall k | 0 <= k < |v|
        ensures exists i :: 0 <= i < |lines| && |lines[i]| >= 6 && classify(lines[i]) == Ok(v[k])
      {
        if k < |head| {
          assert head == [classify(lines[0]).record] && v[k] == head[0];
          assert |lines[0]| >= 6 && classify(lines[0]) == Ok(v[k]);
        } else {
          var j := k - |head|;
          assert v[k] == tail[j];
          var i :| 0 <= i < |lines[1..]| && |lines[1..][i]| >= 6 && classify(lines[1..][i]) == Ok(tail[j]);
          assert lines[i + 1] == lines[1..][i];
          assert 0 <= i + 1 < |lines| && |lines[i + 1]| >= 6 && classify(lines[i + 1]) == Ok(v[k]);
        }
      }
    } else {
      assert Decode(lines, classify).value == [];
    }
  }

  /** Every accepted line of at least six columns has its record read. */
  lemma {:induction false} KeptAllAccepted(lines: seq<string>, classify: Classifier)
    requires Decode(lines, classify).Done?
    ensures forall i :: 0 <= i < |lines| && |lines[i]| >= 6 && classify(lines[i]).Ok? ==>
      classify(lines[i]).record in Decode(lines, classify).value
    decreases |lines|
  {
    if lines != [] {
      KeptAllAccepted(lines[1..], classify);
      var head: seq<Record> := Keep(lines[0], classify).value;
      var tail: seq<Record> := Decode(lines[1..], classify).value;
      var v := Decode(lines, classify).value;
      assert v == head + tail;
      forall i | 0 <= i < |lines| && |lines[i]| >= 6 && classify(lines[i]).Ok?
        ensures classify(lines[i]).record in v
      {
        if i > 0 {
          assert lines[1..][i - 1] == lines[i];
        }
      }
    }
  }

  /** The classifier gives no ATOM record a serial above `Atom.SerialCap`. */
  ghost predicate Capped(classify: Classifier) {
    forall line :: classify(line).Ok? && classify(line).record.Atom? ==>
      classify(line).record.atom.serial <= Atom.SerialCap
  }

  lemma TryFromCapped()
    ensures Capped(Records.TryFrom)
  {
    forall line | Records.TryFrom(line).Ok? && Records.TryFrom(line).record.Atom?
      ensures Records.TryFrom(line).record.atom.serial <= Atom.SerialCap
    {
      Records.AtomSerialBounded(line);
    }
  }

  /** Every ATOM record read has a serial of at most `Atom.SerialCap`. */
  lemma {:induction false} SerialsCapped(lines: seq<string>, classify: Classifier)
    requires Capped(classify) && Decode(lines, classify).Done?
    ensures forall k :: 0 <= k < |Decode(lines, classify).value| && Decode(lines, classify).value[k].Atom? ==>
      Decode(lines, classify).value[k].atom.serial <= Atom.SerialCap
    decreases |lines|
  {
    if lines != [] {
      SerialsCapped(lines[1..], classify);
      var head: seq<Record> := Keep(lines[0], classify).value;
      var tail: seq<Record> := Decode(lines[1..], classify).value;
      assert Decode(lines, classify).value == head + tail;
      forall k | 0 <= k < |head + tail| && (head + tail)[k].Atom?
        ensures (head + tail)[k].atom.serial <= Atom.SerialCap
      {
        if k >= |head| {
          assert (head + tail)[k] == tail[k - |head|];
        }
      }
    }
  }

  /** With fewer lines than `u32::MAX - Atom.SerialCap`, the serial counter
      cannot overflow. */
  lemma CounterFits(lines: seq<string>, classify: Classifier)
    requires Capped(classify) && Decode(lines, classify).Done? && |lines| + Atom.SerialCap <= U32_MAX
    ensures Serials.NoOverflow(Decode(lines, classify).value, 0)
    ensures Serials.NoOverflow(Serials.Atoms(Decode(lines, classify).value), 0)
  {
    SerialsCapped(lines, classify);
    Serials.Headroom(Decode(lines, classify).value, 0, Atom.SerialCap);
    Serials.AtomsCommute(Decode(lines, classify).value, 0);
  }

  /** What `pdbreader_parallel` returns: the records of all lines, after the
      serial pass. The contents must be short enough for the counter to
      fit in a `u32`. */
  function Parallel(contents: string): (r: Decoded<seq<Record>>)
    requires |contents| + Atom.SerialCap <= U32_MAX
  {
    LinesBound(contents);
    match Decode(Lines(contents), Records.TryFrom)
    case Panic => Panic
    case Done(records) =>
      TryFromCapped();
      CounterFits(Lines(contents), Records.TryFrom);
      Done(Serials.Renumber(records, 0))
  }

  /** `pdbreader_parallel`: decode every line, then run the serial pass in
      place over the collected records. */
  method ReadParallel(contents: string) returns (r: Decoded<seq<Record>>)
    requires |contents| + Atom.SerialCap <= U32_MAX
    ensures r == Parallel(contents)
  {
    var lines := Lines(contents);
    LinesBound(contents);
    var decoded := Decode(lines, Records.TryFrom);
    if decoded.Panic? {
      return Panic;
    }
    var records := decoded.value;
    var a := new Record[|records|](k requires 0 <= k < |records| => records[k]);
    assert a[..] == records;
    TryFromCapped();
    CounterFits(lines, Records.TryFrom);
    Serials.NormalizeSerials(a);
    r := Done(a[..]);
  }

  /** `pdbreader_single`: one pass over the lines that keeps only ATOM
      records and numbers them as it goes. It reads exactly the ATOM
      records of `pdbreader_parallel`, serials included, and panics
      exactly when that does. */
  method ReadSingle(contents: string) returns (r: Decoded<seq<Record>>)
    requires |contents| + Atom.SerialCap <= U32_MAX
    ensures r.Panic? <==> Parallel(contents).Panic?
    ensures r.Done? ==> r.value == Serials.Atoms(Parallel(contents).value)
  {
    LinesBound(contents);
    TryFromCapped();
    r := NumberAtoms(Lines(contents), Records.TryFrom);
    if r.Done? {
      CounterFits(Lines(contents), Records.TryFrom);
      Serials.AtomsCommute(Decode(Lines(contents), Records.TryFrom).value, 0);
    }
  }

  /** The pass of `pdbreader_single` with the classifier as a parameter:
      the counter is threaded through the `filter_map` closure, and only
      ATOM records are kept. */
  method NumberAtoms(lines: seq<string>, classify: Classifier) returns (r: Decoded<seq<Record>>)
    requires Capped(classify) && |lines| + Atom.SerialCap <= U32_MAX
    ensures r.Panic? <==> Decode(lines, classify).Panic?
    ensures r.Done? ==>
      Serials.NoOverflow(Serials.Atoms(Decode(lines, classify).value), 0) &&
      r.value == Serials.Renumber(Serials.Atoms(Decode(lines, classify).value), 0)
  {
    var out: seq<Record> := [];
    var last: u32 := 0;
    var i := 0;
    while i < |lines|
      invariant 0 <= i <= |lines|
      invariant Decode(lines[..i], classify).Done?
      invariant Serials.NoOverflow(Serials.Atoms(Decode(lines[..i], classify).value), 0)
      invariant out == Serials.Renumber(Serials.Atoms(Decode(lines[..i], classify).value), 0)
      invariant last as int == Serials.Counter(Serials.Atoms(Decode(lines[..i], classify).value), 0)
    {
      var line := lines[i];
      if |line| >= 6 && classify(line).Panicked? {
        PanicAt(lines, i, classify);
        return Panic;
      }
      Extend(lines, i, classify, out, last);
      if |line| >= 6 && classify(line).Ok? && classify(line).record.Atom? {
        var atom;
        atom, last := NumberAtom(classify(line).record.atom, last);
        out := out + [Records.Atom(atom)];
      }
      i := i + 1;
    }
    assert lines[..i] == lines;
    r := Done(out);
  }

  /** The closure body of `pdbreader_single` for one ATOM record: a
      serial of 0 takes the next number, any other serial moves the
      counter to it. */
  method NumberAtom(atom: Atom.AtomRecord, last: u32) returns (numbered: Atom.AtomRecord, next: u32)
    requires Serials.Next(Records.Atom(atom), last) <= U32_MAX
    ensures next == Serials.Next(Records.Atom(atom), last)
    ensures Records.Atom(numbered) == Serials.Fill(Records.Atom(atom), next)
  {
    numbered := atom;
    if numbered.serial == 0 {
      next := last + 1;
      numbered := numbered.(serial := next);
    } else {
      next := numbered.serial;
    }
  }

  /** A panicking line makes the whole read panic. */
  lemma PanicAt(lines: seq<string>, i: nat, classify: Classifier)
    requires i < |lines| && |lines[i]| >= 6 && classify(lines[i]).Panicked?
    ensures Decode(lines, classify).Panic?
  {
    PanicsIff(lines, classify);
  }

  /** One line further on, in terms of the loop's `out` and `last`: an
      ATOM record is numbered from `last` and appended, any other line
      leaves both alone. */
  lemma Extend(lines: seq<string>, i: nat, classify: Classifier, out: seq<Record>, last: int)
    requires Capped(classify) && |lines| + Atom.SerialCap <= U32_MAX
    requires i < |lines| && Decode(lines[..i], classify).Done?
    requires !(|lines[i]| >= 6 && classify(lines[i]).Panicked?)
    requires Serials.NoOverflow(Serials.Atoms(Decode(lines[..i], classify).value), 0)
    requires out == Serials.Renumber(Serials.Atoms(Decode(lines[..i], classify).value), 0)
    requires last == Serials.Counter(Serials.Atoms(Decode(lines[..i], classify).value), 0)
    ensures Decode(lines[..i + 1], classify).Done?
    ensures Serials.NoOverflow(Serials.Atoms(Decode(lines[..i + 1], classify).value), 0)
    ensures |lines[i]| >= 6 && classify(lines[i]).Ok? && classify(lines[i]).record.Atom? ==>
      var record := classify(lines[i]).record;
      var next := Serials.Next(record, last);
      0 <= next <= U32_MAX &&
      Serials.Renumber(Serials.Atoms(Decode(lines[..i + 1], classify).value), 0) == out + [Serials.Fill(record, next)] &&
      Serials.Counter(Serials.Atoms(Decode(lines[..i + 1], classify).value), 0) == next
    ensures !(|lines[i]| >= 6 && classify(lines[i]).Ok? && classify(lines[i]).record.Atom?) ==>
      Serials.Renumber(Serials.Atoms(Decode(lines[..i + 1], classify).value), 0) == out &&
      Serials.Counter(Serials.Atoms(Decode(lines[..i + 1], classify).value), 0) == last
  {
    var atoms := Serials.Atoms(Decode(lines[..i], classify).value);
    var kept := Step(lines, i, classify);
    var grown := Serials.Atoms(Decode(lines[..i + 1], classify).value);
    if |lines[i]| >= 6 && classify(lines[i]).Ok? && classify(lines[i]).record.Atom? {
      assert grown == atoms + [classify(lines[i]).record];
      Serials.Snoc(atoms, classify(lines[i]).record, 0);
    } else {
      assert grown == atoms + [] == atoms;
    }
  }

  /** One line further on: the atoms read so far grow by the line's ATOM
      record, if it has one, and the counter still fits. */
  lemma Step(lines: seq<string>, i: nat, classify: Classifier) returns (kept: seq<Record>)
    requires Capped(classify) && |lines| + Atom.SerialCap <= U32_MAX
    requires i < |lines| && Decode(lines[..i], classify).Done?
    requires !(|lines[i]| >= 6 && classify(lines[i]).Panicked?)
    ensures kept == Keep(lines[i], classify).value
    ensures Decode(lines[..i + 1], classify).Done?
    ensures Serials.Atoms(Decode(lines[..i + 1], classify).value) ==
      Serials.Atoms(Decode(lines[..i], classify).value) + Serials.Atoms(kept)
    ensures Serials.NoOverflow(Serials.Atoms(Decode(lines[..i + 1], classify).value), 0)
    ensures Serials.Atoms(kept) ==
      if |lines[i]| >= 6 && classify(lines[i]).Ok? && classify(lines[i]).record.Atom? then [classify(lines[i]).record] else []
  {
    kept := Keep(lines[i], classify).value;
    assert lines[..i + 1] == lines[..i] + [lines[i]];
    DecodeAppend(lines[..i], [lines[i]], classify);
    DecodeOne(lines[i], classify);
    Serials.AtomsAppend(Decode(lines[..i], classify).value, kept);
    CounterFits(lines[..i + 1], classify);
    if kept != [] {
      assert kept[1..] == [];
    }
  }
}
