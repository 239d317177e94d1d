/** The Rust string operations the record codecs are built from, over lines
    held as sequences of characters. PDB lines are ASCII, so the character
    at index i is the byte at index i. */
module Text {

  datatype Option<+T> = None | Some(value: T) {
    /** The value, or `default` when there is none. */
    function GetOr(default: T): T {
      if Some? then value else default
    }
  }

  /** `char::is_whitespace`: the characters with the Unicode White_Space property. */
  predicate IsWhitespace(c: char) {
    ('\t' <= c <= '\r') || c == ' ' || c == '\U{85}' || c == '\U{A0}' || c == '\U{1680}'
    || ('\U{2000}' <= c <= '\U{200A}') || c == '\U{2028}' || c == '\U{2029}'
    || c == '\U{202F}' || c == '\U{205F}' || c == '\U{3000}'
  }

  /** `char::is_ascii_alphabetic`. */
  predicate IsAsciiLetter(c: char) {
    'A' <= c <= 'Z' || 'a' <= c <= 'z'
  }

  /** Every character is whitespace (the empty string is blank). */
  predicate IsBlank(s: string) {
    forall i :: 0 <= i < |s| ==> IsWhitespace(s[i])
  }

  /** No character is whitespace. */
  predicate NoWhitespace(s: string) {
    forall i :: 0 <= i < |s| ==> !IsWhitespace(s[i])
  }

  /** Neither end of `s` is whitespace: what `trim` leaves. */
  predicate Trimmed(s: string) {
    s == [] || (!IsWhitespace(s[0]) && !IsWhitespace(s[|s| - 1]))
  }

  /** `str::trim_start`: drops the leading whitespace. */
  function TrimStart(s: string): string {
    if |s| > 0 && IsWhitespace(s[0]) then TrimStart(s[1..]) else s
  }

  /** `str::trim_end`: drops the trailing whitespace. */
  function TrimEnd(s: string): string {
    if |s| > 0 && IsWhitespace(s[|s| - 1]) then TrimEnd(s[..|s| - 1]) else s
  }

  /** `trim_start` drops a blank prefix and nothing else. */
  lemma {:induction false} TrimStartShape(s: string)
    ensures |TrimStart(s)| <= |s| && TrimStart(s) == s[|s| - |TrimStart(s)|..]
    ensures IsBlank(s[..|s| - |TrimStart(s)|])
    ensures TrimStart(s) == [] || !IsWhitespace(TrimStart(s)[0])
    decreases |s|
  {
    if |s| > 0 && IsWhitespace(s[0]) {
      TrimStartShape(s[1..]);
      var r := TrimStart(s[1..]);
      assert s[..|s| - |r|] == [s[0]] + s[1..][..|s| - 1 - |r|];
    }
  }

  /** `trim_end` drops a blank suffix and nothing else. */
  lemma {:induction false} TrimEndShape(s: string)
    ensures |TrimEnd(s)| <= |s| && TrimEnd(s) == s[..|TrimEnd(s)|]
    ensures IsBlank(s[|TrimEnd(s)|..])
    ensures TrimEnd(s) == [] || !IsWhitespace(TrimEnd(s)[|TrimEnd(s)| - 1])
    decreases |s|
  {
    if |s| > 0 && IsWhitespace(s[|s| - 1]) {
      TrimEndShape(s[..|s| - 1]);
      var r := TrimEnd(s[..|s| - 1]);
      assert s[|r|..] == s[..|s| - 1][|r|..] + [s[|s| - 1]];
    }
  }

  /** `str::trim`. */
  function Trim(s: string): string {
    TrimEnd(TrimStart(s))
  }

  /** What `trim` keeps is a run of `s` surrounded by whitespace only, and
      has no whitespace at either end. */
  lemma TrimShape(s: string) returns (i: nat)
    ensures i + |Trim(s)| <= |s| && Trim(s) == s[i..i + |Trim(s)|]
    ensures IsBlank(s[..i]) && IsBlank(s[i + |Trim(s)|..])
    ensures Trimmed(Trim(s))
  {
    var t := TrimStart(s);
    var r := TrimEnd(t);
    TrimStartShape(s);
    TrimEndShape(t);
    i := |s| - |t|;
    assert r == t[..|r|];
    assert s[i + |r|..] == t[|r|..];
    if r != [] {
      assert r[0] == t[0];
    }
  }

  /** `trim` gives the empty string exactly on blank input. */
  lemma TrimEmptyIffBlank(s: string)
    ensures Trim(s) == [] <==> IsBlank(s)
  {
    var i := TrimShape(s);
    if Trim(s) == [] {
      assert s == s[..i] + s[i..];
      forall k | 0 <= k < |s| ensures IsWhitespace(s[k]) {
        if k < i { assert s[k] == s[..i][k]; } else { assert s[k] == s[i..][k - i]; }
      }
    } else {
      assert Trim(s)[0] == s[i];
    }
  }

  /** `trim` of whitespace, then a trimmed string, then whitespace, is that string. */
  lemma {:induction false} TrimPadded(a: string, t: string, b: string)
    requires IsBlank(a) && IsBlank(b) && Trimmed(t)
    ensures Trim(a + t + b) == t
  {
    if t == [] {
      assert a + t + b == a + b;
      assert IsBlank(a + b) by {
        forall k | 0 <= k < |a + b| ensures IsWhitespace((a + b)[k]) {
          if k < |a| { assert (a + b)[k] == a[k]; } else { assert (a + b)[k] == b[k - |a|]; }
        }
      }
      TrimEmptyIffBlank(a + b);
    } else {
      TrimStartBlankPrefix(a, t + b);
      assert a + t + b == a + (t + b);
      TrimEndBlankSuffix(t, b);
    }
  }

  lemma {:induction false} TrimStartBlankPrefix(a: string, u: string)
    requires IsBlank(a) && (u == [] || !IsWhitespace(u[0]))
    ensures TrimStart(a + u) == u
    decreases |a|
  {
    if a == [] {
      assert a + u == u;
    } else {
      assert (a + u)[1..] == a[1..] + u;
      TrimStartBlankPrefix(a[1..], u);
    }
  }

  lemma {:induction false} TrimEndBlankSuffix(t: string, b: string)
    requires IsBlank(b) && (t == [] || !IsWhitespace(t[|t| - 1]))
    ensures TrimEnd(t + b) == t
    decreases |b|
  {
    if b == [] {
      assert t + b == t;
    } else {
      assert (t + b)[..|t + b| - 1] == t + b[..|b| - 1];
      TrimEndBlankSuffix(t, b[..|b| - 1]);
    }
  }

  /** `trim` of one character: empty when it is whitespace, else that character. */
  lemma TrimOneChar(c: char)
    ensures Trim([c]) == if IsWhitespace(c) then [] else [c]
  {
    if IsWhitespace(c) {
      TrimEmptyIffBlank([c]);
    } else {
      TrimPadded([], [c], []);
      assert [] + [c] + [] == [c];
    }
  }

  /** Blanks appended to a string do not change its trimmed form. */
  lemma TrimBlankSuffix(s: string, pad: string)
    requires IsBlank(pad)
    ensures Trim(s + pad) == Trim(s)
  {
    var i := TrimShape(s);
    var t := Trim(s);
    assert s == s[..i] + t + s[i + |t|..];
    var post := s[i + |t|..] + pad;
    assert IsBlank(post) by {
      forall k | 0 <= k < |post| ensures IsWhitespace(post[k]) {
        if k < |s| - i - |t| {
          assert post[k] == s[i + |t|..][k];
        } else {
          assert post[k] == pad[k - (|s| - i - |t|)];
        }
      }
    }
    assert s + pad == s[..i] + t + post;
    TrimPadded(s[..i], t, post);
  }

  /** `char::from_str`: succeeds exactly on a one-character string. */
  function ParseChar(s: string): Option<char> {
    if |s| == 1 then Some(s[0]) else None
  }

  /** Length of the leading run of non-whitespace characters. */
  function WordEnd(s: string): (n: nat)
    ensures n <= |s| && NoWhitespace(s[..n])
    ensures n < |s| ==> IsWhitespace(s[n])
  {
    if |s| == 0 || IsWhitespace(s[0]) then 0
    else
      var n := 1 + WordEnd(s[1..]);
      assert s[..n] == [s[0]] + s[1..][..n - 1];
      n
  }

  /** `str::split_whitespace`: the maximal runs of non-whitespace, in order. */
  function SplitWhitespace(s: string): (r: seq<string>)
    ensures forall k :: 0 <= k < |r| ==> r[k] != [] && NoWhitespace(r[k])
    decreases |s|
  {
    var t := TrimStart(s);
    TrimStartShape(s);
    if t == [] then []
    else
      var n := WordEnd(t);
      assert n >= 1 by { assert !IsWhitespace(t[0]); }
      var rest := SplitWhitespace(t[n..]);
      [t[..n]] + rest
  }

  /** The characters of `s` that are not whitespace, in order. */
  function Unspaced(s: string): string {
    if s == [] then []
    else (if IsWhitespace(s[0]) then [] else [s[0]]) + Unspaced(s[1..])
  }

  /** Concatenation of a sequence of strings. */
  function Concat(ss: seq<string>): string {
    if ss == [] then [] else ss[0] + Concat(ss[1..])
  }

  /** Each token followed by a single space: a canonical way to lay tokens out. */
  function Spaced(ts: seq<string>): string {
    if ts == [] then [] else ts[0] + ([' '] + Spaced(ts[1..]))
  }

  lemma {:induction false} UnspacedAppend(a: string, b: string)
    ensures Unspaced(a + b) == Unspaced(a) + Unspaced(b)
    decreases |a|
  {
    if a == [] {
      assert a + b == b;
    } else {
      assert (a + b)[1..] == a[1..] + b;
      UnspacedAppend(a[1..], b);
    }
  }

  lemma {:induction false} UnspacedBlank(a: string)
    requires IsBlank(a)
    ensures Unspaced(a) == []
    decreases |a|
  {
    if a != [] { UnspacedBlank(a[1..]); }
  }

  lemma {:induction false} UnspacedWord(a: string)
    requires NoWhitespace(a)
    ensures Unspaced(a) == a
    decreases |a|
  {
    if a != [] { UnspacedWord(a[1..]); }
  }

  /** Splitting keeps every non-whitespace character, in order, and nothing else. */
  lemma {:induction false} SplitKeepsContent(s: string)
    ensures Concat(SplitWhitespace(s)) == Unspaced(s)
    decreases |s|
  {
    var t := TrimStart(s);
    TrimStartShape(s);
    var i := |s| - |t|;
    BlankThenRest(s, i);
    if t != [] {
      var n := WordEnd(t);
      WordThenRest(t, n);
      SplitKeepsContent(t[n..]);
    }
  }

  lemma BlankThenRest(s: string, i: nat)
    requires i <= |s| && IsBlank(s[..i])
    ensures Unspaced(s) == Unspaced(s[i..])
  {
    assert s == s[..i] + s[i..];
    UnspacedAppend(s[..i], s[i..]);
    UnspacedBlank(s[..i]);
  }

  lemma WordThenRest(t: string, n: nat)
    requires n <= |t| && NoWhitespace(t[..n])
    ensures Unspaced(t) == t[..n] + Unspaced(t[n..])
  {
    assert t == t[..n] + t[n..];
    UnspacedAppend(t[..n], t[n..]);
    UnspacedWord(t[..n]);
  }

  /** A blank remainder splits into no tokens. */
  lemma SplitBlank(s: string)
    requires IsBlank(s)
    ensures SplitWhitespace(s) == []
  {
    TrimStartShape(s);
  }

  lemma {:induction false} WordEndOfWord(w: string, rest: string)
    requires NoWhitespace(w)
    requires rest == [] || IsWhitespace(rest[0])
    ensures WordEnd(w + rest) == |w|
    decreases |w|
  {
    if w == [] {
      assert w + rest == rest;
    } else {
      assert (w + rest)[1..] == w[1..] + rest;
      WordEndOfWord(w[1..], rest);
    }
  }

  /** Splitting tokens laid out with single spaces gives the tokens back:
      order and repetitions are kept. */
  lemma {:induction false} SplitSpaced(ts: seq<string>)
    requires forall k :: 0 <= k < |ts| ==> ts[k] != [] && NoWhitespace(ts[k])
    ensures SplitWhitespace(Spaced(ts)) == ts
    decreases |ts|
  {
    if ts != [] {
      SplitSpaced(ts[1..]);
      SplitSpacedStep(ts[0], Spaced(ts[1..]), ts[1..]);
      assert [ts[0]] + ts[1..] == ts;
    }
  }

  lemma SplitSpacedStep(w: string, rest: string, tail: seq<string>)
    requires w != [] && NoWhitespace(w) && SplitWhitespace(rest) == tail
    ensures SplitWhitespace(w + ([' '] + rest)) == [w] + tail
  {
    SplitWord(w, [' '] + rest);
    SplitLeadingBlank(' ', rest);
  }

  /** A word then a break splits into that word and the split of the rest. */
  lemma SplitWord(w: string, rest: string)
    requires w != [] && NoWhitespace(w)
    requires rest == [] || IsWhitespace(rest[0])
    ensures SplitWhitespace(w + rest) == [w] + SplitWhitespace(rest)
  {
    var s := w + rest;
    assert !IsWhitespace(s[0]);
    assert TrimStart(s) == s;
    WordEndOfWord(w, rest);
    assert s[..|w|] == w;
    assert s[|w|..] == rest;
  }

  /** A leading blank does not change the split. */
  lemma SplitLeadingBlank(c: char, x: string)
    requires IsWhitespace(c)
    ensures SplitWhitespace([c] + x) == SplitWhitespace(x)
  {
    assert ([c] + x)[1..] == x;
    assert TrimStart([c] + x) == TrimStart(x);
  }

  /** Index of the first line feed, or the length when there is none. */
  function LineEnd(s: string): (n: nat)
    ensures n <= |s| && '\n' !in s[..n]
    ensures n < |s| ==> s[n] == '\n'
  {
    if |s| == 0 || s[0] == '\n' then 0
    else
      var n := 1 + LineEnd(s[1..]);
      assert s[..n] == [s[0]] + s[1..][..n - 1];
      n
  }

  /** Drops one trailing carriage return. */
  function StripCr(l: string): string {
    if |l| > 0 && l[|l| - 1] == '\r' then l[..|l| - 1] else l
  }

  /** `str::lines`: split after each line feed; a line ended by a line feed
      loses that line feed and then one carriage return before it; a final
      piece without a line feed is a line when it is not empty. */
  function Lines(text: string): (r: seq<string>)
    ensures forall k :: 0 <= k < |r| ==> '\n' !in r[k]
    decreases |text|
  {
    if text == [] then []
    else
      var n := LineEnd(text);
      if n == |text| then [text]
      else
        assert '\n' !in StripCr(text[..n]);
        [StripCr(text[..n])] + Lines(text[n + 1..])
  }

  /** Each line followed by a line feed. */
  function Terminated(ls: seq<string>): string {
    if ls == [] then [] else ls[0] + "\n" + Terminated(ls[1..])
  }

  /** Lines written one per line feed are read back as they were, provided
      none holds a line feed or ends in a carriage return. */
  lemma {:induction false} LinesOfTerminated(ls: seq<string>)
    requires forall k :: 0 <= k < |ls| ==> '\n' !in ls[k] && (ls[k] == [] || ls[k][|ls[k]| - 1] != '\r')
    ensures Lines(Terminated(ls)) == ls
    decreases |ls|
  {
    if ls != [] {
      var l := ls[0];
      var text := Terminated(ls);
      var rest := Terminated(ls[1..]);
      assert text == l + ("\n" + rest);
      LineEndOfLine(l, "\n" + rest);
      assert text[..|l|] == l;
      assert text[|l| + 1..] == rest;
      LinesOfTerminated(ls[1..]);
    }
  }

  lemma {:induction false} LineEndOfLine(l: string, rest: string)
    requires '\n' !in l && (rest == [] || rest[0] == '\n')
    ensures LineEnd(l + rest) == |l|
    decreases |l|
  {
    if l == [] {
      assert l + rest == rest;
    } else {
      assert (l + rest)[1..] == l[1..] + rest;
      assert l[0] in l;
      assert forall c :: c in l[1..] ==> c in l;
      LineEndOfLine(l[1..], rest);
    }
  }

  /** There are never more lines than characters. */
  lemma {:induction false} LinesBound(text: string)
    ensures |Lines(text)| <= |text|
    decreases |text|
  {
    if text != [] {
      var n := LineEnd(text);
      if n < |text| {
        LinesBound(text[n + 1..]);
      }
    }
  }

  /** Every character of `s` is the space character `' '`. */
  predicate AllSpaces(s: string) {
    forall k :: 0 <= k < |s| ==> s[k] == ' '
  }

  /** `n` spaces. */
  function Spaces(n: nat): (r: string)
    ensures |r| == n && AllSpaces(r) && IsBlank(r)
  {
    if n == 0 then [] else [' '] + Spaces(n - 1)
  }

  /** `format!("{:>w}", s)`: `s` right-aligned in a field of width `w`,
      never cut, after as many spaces as the field has spare columns. */
  function PadLeft(s: string, w: nat): (r: string)
    ensures |r| == if |s| < w then w else |s|
    ensures r[|r| - |s|..] == s && AllSpaces(r[..|r| - |s|]) && IsBlank(r[..|r| - |s|])
  {
    var r := Spaces(if |s| < w then w - |s| else 0) + s;
    assert r[|r| - |s|..] == s && r[..|r| - |s|] == Spaces(if |s| < w then w - |s| else 0);
    r
  }

  /** `format!("{:<w}", s)`: `s` left-justified in a field of width `w`,
      never cut, before as many spaces as the field has spare columns. */
  function PadRight(s: string, w: nat): (r: string)
    ensures |r| == if |s| < w then w else |s|
    ensures r[..|s|] == s && AllSpaces(r[|s|..]) && IsBlank(r[|s|..])
  {
    var r := s + Spaces(if |s| < w then w - |s| else 0);
    assert r[..|s|] == s && r[|s|..] == Spaces(if |s| < w then w - |s| else 0);
    r
  }

  /** Strings that agree on `[a, b)` agree on every part of it. */
  lemma Window(line: string, other: string, a: nat, b: nat, i: nat, j: nat)
    requires a <= i <= j <= b <= |line| && b <= |other| && line[a..b] == other[a..b]
    ensures line[i..j] == other[i..j]
  {
    forall k | i <= k < j
      ensures line[k] == other[k]
    {
      assert line[k] == line[a..b][k - a] && other[k] == other[a..b][k - a];
    }
  }
}
