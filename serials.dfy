/** The atom-serial pass of both readers: a counter `last`, starting at
    0, walks the records in order; an ATOM record whose serial is 0 gets
    `last + 1`, and any other ATOM serial becomes the new `last`. Files
    with more than 99999 atoms leave the serial column blank, and this is
    how they get their numbers back. */
module Serials {
  import opened Numbers
  import Records

  type Record = Records.Record

  /** The counter after `r`. HETATM records, like every record other than
      ATOM, leave it alone. */
  function Next(r: Record, last: int): int {
    if r.Atom? then (if r.atom.serial == 0 then last + 1 else r.atom.serial) else last
  }

  /** The counter, started at `last`, never passes `u32::MAX` on `rs`. */
  predicate NoOverflow(rs: seq<Record>, last: int)
    decreases |rs|
  {
    rs == [] || (Next(rs[0], last) <= U32_MAX && NoOverflow(rs[1..], Next(rs[0], last)))
  }

  /** The pass over `rs`, the counter starting at `last`: the same records
      in the same order, where only ATOM serials that were 0 change, and
      every ATOM ends with a serial of at least 1. */
  function Renumber(rs: seq<Record>, last: u32): (r: seq<Record>)
    requires NoOverflow(rs, last)
    ensures |r| == |rs|
    decreases |rs|
  {
    if rs == [] then [] else [Fill(rs[0], Next(rs[0], last))] + Renumber(rs[1..], Next(rs[0], last))
  }

  /** `r` with serial `next` if it is an ATOM record whose serial is 0. */
  function Fill(r: Record, next: u32): Record {
    if r.Atom? && r.atom.serial == 0 then Records.Atom(r.atom.(serial := next)) else r
  }

  /** One step of the pass. */
  lemma Unfold(rs: seq<Record>, last: u32)
    requires NoOverflow(rs, last) && rs != []
    ensures Next(rs[0], last) <= U32_MAX && NoOverflow(rs[1..], Next(rs[0], last))
    ensures Renumber(rs, last) == [Fill(rs[0], Next(rs[0], last))] + Renumber(rs[1..], Next(rs[0], last))
  {
  }

  /** What the pass changes: the records keep their order and kind;
      only ATOM serials that were 0 change, and every ATOM ends with a
      serial of at least 1. */
  lemma {:induction false} Shape(rs: seq<Record>, last: u32)
    requires NoOverflow(rs, last)
    ensures forall i :: 0 <= i < |rs| && !rs[i].Atom? ==> Renumber(rs, last)[i] == rs[i]
    ensures forall i :: 0 <= i < |rs| && rs[i].Atom? ==>
      Renumber(rs, last)[i].Atom? && Renumber(rs, last)[i].atom.serial >= 1 &&
      Renumber(rs, last)[i].atom == rs[i].atom.(serial := Renumber(rs, last)[i].atom.serial)
    ensures forall i :: 0 <= i < |rs| && rs[i].Atom? && rs[i].atom.serial != 0 ==>
      Renumber(rs, last)[i].atom.serial == rs[i].atom.serial
    decreases |rs|
  {
    if rs != [] {
      var next := Next(rs[0], last);
      Shape(rs[1..], next);
      var r := Renumber(rs, last);
      assert r[1..] == Renumber(rs[1..], next);
      forall i | 1 <= i < |rs|
        ensures r[i] == Renumber(rs[1..], next)[i - 1] && rs[i] == rs[1..][i - 1]
      {
      }
    }
  }

  /** The serial of the last ATOM record of `rs`, or `last` if it has none. */
  function LastSerial(rs: seq<Record>, last: int): int
    decreases |rs|
  {
    if rs == [] then last else LastSerial(rs[1..], if rs[0].Atom? then rs[0].atom.serial else last)
  }

  /** A serial that was 0 is one more than the serial of the nearest ATOM
      before it in the result, or `last + 1` when there is none. */
  lemma {:induction false} FillsFromPredecessor(rs: seq<Record>, last: u32, i: nat)
    requires NoOverflow(rs, last) && i < |rs| && rs[i].Atom? && rs[i].atom.serial == 0
    ensures Renumber(rs, last)[i].Atom?
    ensures Renumber(rs, last)[i].atom.serial == LastSerial(Renumber(rs, last)[..i], last) + 1
    decreases |rs|
  {
    var r := Renumber(rs, last);
    var next := Next(rs[0], last);
    if i > 0 {
      var tail := Renumber(rs[1..], next);
      FillsFromPredecessor(rs[1..], next, i - 1);
      assert r[..i] == [r[0]] + tail[..i - 1];
      assert r[..i][1..] == tail[..i - 1];
    }
  }

  /** Records whose ATOM serials are all set pass through unchanged. */
  lemma {:induction false} SetSerialsKept(rs: seq<Record>, last: u32)
    requires forall i :: 0 <= i < |rs| && rs[i].Atom? ==> rs[i].atom.serial != 0
    ensures NoOverflow(rs, last) && Renumber(rs, last) == rs
    decreases |rs|
  {
    if rs != [] {
      SetSerialsKept(rs[1..], Next(rs[0], last));
      assert rs == [rs[0]] + rs[1..];
    }
  }

  /** Running the pass on its own output changes nothing. */
  lemma Idempotent(rs: seq<Record>)
    requires NoOverflow(rs, 0)
    ensures NoOverflow(Renumber(rs, 0), 0) && Renumber(Renumber(rs, 0), 0) == Renumber(rs, 0)
  {
    Shape(rs, 0);
    SetSerialsKept(Renumber(rs, 0), 0);
  }

  /** The counter cannot overflow when every serial, and the starting
      point, is at most `b` and `b` leaves room for one step per record. */
  lemma {:induction false} Headroom(rs: seq<Record>, last: u32, b: nat)
    requires last <= b && b + |rs| <= U32_MAX
    requires forall i :: 0 <= i < |rs| && rs[i].Atom? ==> rs[i].atom.serial <= b
    ensures NoOverflow(rs, last)
    decreases |rs|
  {
    if rs != [] {
      Headroom(rs[1..], Next(rs[0], last), b + 1);
    }
  }

  /** The ATOM records of `rs`, in order. */
  function Atoms(rs: seq<Record>): (r: seq<Record>)
    ensures |r| <= |rs|
    ensures forall k :: 0 <= k < |r| ==> r[k].Atom?
    decreases |rs|
  {
    if rs == [] then [] else (if rs[0].Atom? then [rs[0]] else []) + Atoms(rs[1..])
  }

  /** Records other than ATOM never move the counter, so dropping them
      before the pass or after it gives the same atoms. */
  lemma {:induction false} AtomsCommute(rs: seq<Record>, last: u32)
    requires NoOverflow(rs, last)
    ensures NoOverflow(Atoms(rs), last)
    ensures Atoms(Renumber(rs, last)) == Renumber(Atoms(rs), last)
    decreases |rs|
  {
    if rs != [] {
      var next := Next(rs[0], last);
      Unfold(rs, last);
      AtomsCommute(rs[1..], next);
      var r := Renumber(rs, last);
      assert r[0] == Fill(rs[0], next) && r[1..] == Renumber(rs[1..], next);
      assert r == [r[0]] + r[1..];
      if rs[0].Atom? {
        assert Atoms(rs) == [rs[0]] + Atoms(rs[1..]);
        assert Atoms(r) == [r[0]] + Atoms(r[1..]);
        Unfold(Atoms(rs), last);
      } else {
        assert Atoms(rs) == Atoms(rs[1..]);
        assert Atoms(r) == Atoms(r[1..]);
      }
    }
  }

  /** The ATOM records of a concatenation. */
  lemma {:induction false} AtomsAppend(a: seq<Record>, b: seq<Record>)
    ensures Atoms(a + b) == Atoms(a) + Atoms(b)
    decreases |a|
  {
    if a != [] {
      AtomsAppend(a[1..], b);
      assert (a + b)[0] == a[0] && (a + b)[1..] == a[1..] + b;
      var h := if a[0].Atom? then [a[0]] else [];
      assert Atoms(a + b) == h + Atoms(a[1..] + b);
      assert Atoms(a) == h + Atoms(a[1..]);
    } else {
      assert a + b == b;
    }
  }

  /** The counter after the whole of `rs`. */
  function Counter(rs: seq<Record>, last: int): int
    decreases |rs|
  {
    if rs == [] then last else Counter(rs[1..], Next(rs[0], last))
  }

  /** The pass over `rs + [x]` is the pass over `rs` followed by `x`,
      numbered from the counter `rs` leaves. */
  lemma {:induction false} Snoc(rs: seq<Record>, x: Record, last: u32)
    requires NoOverflow(rs + [x], last)
    ensures NoOverflow(rs, last) && 0 <= Counter(rs, last) && Next(x, Counter(rs, last)) <= U32_MAX
    ensures Counter(rs + [x], last) == Next(x, Counter(rs, last))
    ensures Renumber(rs + [x], last) == Renumber(rs, last) + [Fill(x, Next(x, Counter(rs, last)))]
    decreases |rs|
  {
    if rs == [] {
      assert [x][1..] == [];
    } else {
      assert (rs + [x])[1..] == rs[1..] + [x];
      Snoc(rs[1..], x, Next(rs[0], last));
    }
  }

  function SerialsOf(rs: seq<Record>): (r: seq<int>)
    ensures |r| == |rs|
  {
    if rs == [] then [] else [if rs[0].Atom? then rs[0].atom.serial else -1] + SerialsOf(rs[1..])
  }

  /** Serials 5, 0, 0, 20, 0 become 5, 6, 7, 20, 21. */
  lemma Example(a: Records.Record)
    requires a.Atom?
    ensures var rs := [Records.Atom(a.atom.(serial := 5)), Records.Atom(a.atom.(serial := 0)), Records.Atom(a.atom.(serial := 0)),
                       Records.Atom(a.atom.(serial := 20)), Records.Atom(a.atom.(serial := 0))];
      NoOverflow(rs, 0) && SerialsOf(Renumber(rs, 0)) == [5, 6, 7, 20, 21]
  {
    var rs := [Records.Atom(a.atom.(serial := 5)), Records.Atom(a.atom.(serial := 0)), Records.Atom(a.atom.(serial := 0)),
               Records.Atom(a.atom.(serial := 20)), Records.Atom(a.atom.(serial := 0))];
    var r4 := [Fill(rs[4], 21)];
    var r3 := [rs[3]] + r4;
    var r2 := [Fill(rs[2], 7)] + r3;
    var r1 := [Fill(rs[1], 6)] + r2;
    var r0 := [rs[0]] + r1;
    assert rs[4..][1..] == [];
    assert NoOverflow(rs[4..], 20) && Renumber(rs[4..], 20) == r4;
    assert rs[3..][1..] == rs[4..];
    assert NoOverflow(rs[3..], 7) && Renumber(rs[3..], 7) == r3;
    assert rs[2..][1..] == rs[3..];
    assert NoOverflow(rs[2..], 6) && Renumber(rs[2..], 6) == r2;
    assert rs[1..][1..] == rs[2..];
    assert NoOverflow(rs[1..], 5) && Renumber(rs[1..], 5) == r1;
    assert NoOverflow(rs, 0) && Renumber(rs, 0) == r0;
    assert SerialsOf(r4) == [21];
    assert SerialsOf(r3) == [20, 21];
    assert SerialsOf(r2) == [7, 20, 21];
    assert SerialsOf(r1) == [6, 7, 20, 21];
  }

  /** The loop step of `NormalizeSerials`: the pass so far followed by the
      pass over the rest, one record further on. */
  lemma Advance(original: seq<Record>, i: nat, last: u32, done: seq<Record>)
    requires NoOverflow(original, 0) && i < |original| && NoOverflow(original[i..], last)
    requires Renumber(original, 0) == done + Renumber(original[i..], last)
    ensures Next(original[i], last) <= U32_MAX && NoOverflow(original[i + 1..], Next(original[i], last))
    ensures Renumber(original, 0) ==
      (done + [Fill(original[i], Next(original[i], last))]) + Renumber(original[i + 1..], Next(original[i], last))
  {
    Unfold(original[i..], last);
    assert original[i..][1..] == original[i + 1..];
  }

  /** The serial pass of `pdbreader_parallel`, in place. */
  method NormalizeSerials(a: array<Record>)
    requires NoOverflow(a[..], 0)
    modifies a
    ensures a[..] == Renumber(old(a[..]), 0)
  {
    ghost var original := a[..];
    var last: u32 := 0;
    var i := 0;
    while i < a.Length
      invariant 0 <= i <= a.Length
      invariant a[i..] == original[i..]
      invariant NoOverflow(original[i..], last)
      invariant Renumber(original, 0) == a[..i] + Renumber(original[i..], last)
    {
      ghost var done := a[..i];
      ghost var before := last;
      Advance(original, i, last, done);
      assert a[i] == original[i..][0];
      var r := a[i];
      if r.Atom? {
        if r.atom.serial == 0 {
          last := last + 1;
          a[i] := Records.Atom(r.atom.(serial := last));
        } else {
          last := r.atom.serial;
        }
      }
      assert last == Next(original[i], before) && a[i] == Fill(original[i], last);
      assert a[..i + 1] == done + [a[i]];
      i := i + 1;
    }
    assert a[..] == a[..i];
  }
}
