/** The four-column unsigned field at columns 10 to 14 that MODEL (its
    serial) and NUMMDL (its model count) read leniently and write
    right-aligned after a ten-column tag, the line padded to 80 columns. */
module Counted {
  import opened Text
  import opened Numbers
  import opened Columns

  /** `line[10..14].trim().parse::<u32>().unwrap_or_default()`. */
  function Read(line: string): (r: Decoded<u32>)
    ensures r.Done? <==> |line| >= 14
    ensures r.Done? ==> r.value == Parse(Trim(line[10..14]), U32).GetOr(0)
  {
    IntOr0(line, 10, 14, U32)
  }

  /** `format!("{:<80}", format!("{tag}{:>4}", n))`. */
  function Render(tag: string, n: u32): string {
    PadRight(tag + PadLeft(Decimal(n), 4), 80)
  }

  /** The digits of a value below 10000 take at most four columns. */
  lemma ShortDecimal(n: nat)
    requires n <= 9999
    ensures 1 <= |Decimal(n)| <= 4
  {
    DigitsLength(n, 10, 4);
  }

  /** A `u32` has at most ten digits. */
  lemma U32Decimal(n: u32)
    ensures |Decimal(n)| <= 10
  {
    DigitsLength(n, 10, 10);
  }

  /** A rendered line is exactly 80 columns for every `u32` and begins with
      its tag, the ten columns that `Display` writes before the value. */
  lemma RenderShape(tag: string, n: u32)
    requires |tag| == 10
    ensures |Render(tag, n)| == 80 && Render(tag, n)[..10] == tag
  {
    U32Decimal(n);
    var body := tag + PadLeft(Decimal(n), 4);
    assert |body| <= 20;
    assert Render(tag, n)[..|body|] == body;
    assert Render(tag, n)[..10] == body[..10];
  }

  /** The layout of a rendered line: the tag, spaces that right-align the
      digits in columns 10 to 14 (none when there are four or more
      digits), the decimal digits, then spaces to column 80. */
  lemma RenderLayout(tag: string, n: u32)
    requires |tag| == 10
    ensures |Decimal(n)| <= 10 &&
      var d := Decimal(n);
      Render(tag, n) == tag + Spaces(if |d| < 4 then 4 - |d| else 0) + d + Spaces(if |d| < 4 then 66 else 70 - |d|)
    ensures n <= 9999 ==> |Decimal(n)| <= 4
  {
    U32Decimal(n);
    if n <= 9999 {
      ShortDecimal(n);
    }
    var d := Decimal(n);
    var lead := Spaces(if |d| < 4 then 4 - |d| else 0);
    var body := tag + PadLeft(d, 4);
    assert PadLeft(d, 4) == lead + d;
    assert body == tag + lead + d;
    assert Render(tag, n) == body + Spaces(80 - |body|);
  }

  /** Reading back a rendered value below 10000 gives the value. */
  lemma ReadRender(tag: string, n: u32)
    requires |tag| == 10
    ensures n <= 9999 ==> Read(Render(tag, n)) == Done(n)
  {
    if n <= 9999 {
      ShortDecimal(n);
      var d := Decimal(n);
      var field := PadLeft(d, 4);
      var body := tag + field;
      var line := Render(tag, n);
      assert |field| == 4 && |body| == 14;
      assert line[..14] == body;
      assert line[10..14] == field by {
        assert line[10..14] == line[..14][10..14];
      }
      var pad := field[..4 - |d|];
      assert field == pad + d + [];
      DigitsAreDigits(n, 10);
      assert Trimmed(d);
      TrimPadded(pad, d, []);
      ParseDecimal(n, U32);
    }
  }

  /** What a wider value loses: `12345` is written in five columns, of
      which the field keeps the first four. */
  lemma WideValueCut(tag: string)
    requires |tag| == 10
    ensures Read(Render(tag, 12345)) == Done(1234)
  {
    var d := Decimal(12345);
    TwelveThousand();
    assert PadLeft(d, 4) == d;
    var body := tag + d;
    var line := Render(tag, 12345);
    assert line[..15] == body;
    assert line[10..14] == d[..4] by {
      assert line[10..14] == line[..15][10..14];
    }
    var e := Decimal(1234);
    DigitsAreDigits(1234, 10);
    assert Trimmed(e);
    TrimPadded([], e, []);
    assert [] + e + [] == e;
    ParseDecimal(1234, U32);
  }

  lemma TwelveThousand()
    ensures |Decimal(12345)| == 5 && Decimal(12345)[..4] == Decimal(1234)
  {
    assert Decimal(12345) == "12345";
    assert Decimal(1234) == "1234";
  }

  /** Nothing outside columns 10 to 14 is read. */
  lemma ReadLocal(line: string, other: string)
    requires |line| >= 14 && |other| >= 14 && line[10..14] == other[10..14]
    ensures Read(line) == Read(other)
  {
  }
}
