/** The handful of Python `str` operations the grid relies on: `split` with an
    explicit separator, `strip()`, `find`, `endswith`, `upper()`,
    `capitalize()`, and `int()` of a string. */
module Text {
  import opened Results

  // ---------------------------------------------------------------------------
  // str.split(sep) with a one-character separator

  /** `s.split(sep)`: every occurrence of `sep` ends a piece, so `k`
      separators give `k + 1` pieces, some of them possibly empty. */
  function Split(s: string, sep: char): (r: seq<string>)
    ensures |r| >= 1
  {
    if s == [] then [""]
    else
      var rest := Split(s[1..], sep);
      if s[0] == sep then [""] + rest else [[s[0]] + rest[0]] + rest[1..]
  }

  /** `sep.join(parts)`. */
  function Join(parts: seq<string>, sep: char): string
    requires |parts| >= 1
  {
    if |parts| == 1 then parts[0] else parts[0] + [sep] + Join(parts[1..], sep)
  }

  /** Joining pieces whose first piece starts with `c`. */
  lemma JoinAfterChar(c: char, parts: seq<string>, sep: char)
    requires |parts| >= 1
    ensures Join([[c] + parts[0]] + parts[1..], sep) == [c] + Join(parts, sep)
  {
    var joined := [[c] + parts[0]] + parts[1..];
    if |parts| > 1 {
      assert joined[1..] == parts[1..];
      assert ([c] + parts[0]) + [sep] + Join(parts[1..], sep) == [c] + (parts[0] + [sep] + Join(parts[1..], sep));
    }
  }

  /** Splitting loses nothing: joining the pieces gives the text back. */
  lemma {:induction false} JoinOfSplit(s: string, sep: char)
    ensures Join(Split(s, sep), sep) == s
  {
    if s != [] {
      JoinOfSplit(s[1..], sep);
      var rest := Split(s[1..], sep);
      if s[0] == sep {
        assert ([""] + rest)[1..] == rest;
      } else {
        JoinAfterChar(s[0], rest, sep);
      }
      assert [s[0]] + s[1..] == s;
    }
  }

  /** No piece of a split holds the separator. */
  lemma {:induction false} SplitPiecesLackSeparator(s: string, sep: char)
    ensures forall i :: 0 <= i < |Split(s, sep)| ==> sep !in Split(s, sep)[i]
  {
    if s != [] {
      SplitPiecesLackSeparator(s[1..], sep);
      var rest := Split(s[1..], sep);
      var parts := Split(s, sep);
      if s[0] == sep {
        assert parts == [""] + rest;
        forall i | 0 < i < |parts| ensures sep !in parts[i] {
          assert parts[i] == rest[i - 1];
        }
      } else {
        assert parts == [[s[0]] + rest[0]] + rest[1..];
        forall i | 0 < i < |parts| ensures sep !in parts[i] {
          assert parts[i] == rest[i];
        }
      }
    }
  }

  lemma {:induction false} SplitWithoutSeparator(p: string, sep: char)
    requires sep !in p
    ensures Split(p, sep) == [p]
  {
    if p != [] {
      SplitWithoutSeparator(p[1..], sep);
      assert [p[0]] + p[1..] == p;
    }
  }

  lemma {:induction false} SplitAfterPiece(p: string, rest: string, sep: char)
    requires sep !in p
    ensures Split(p + [sep] + rest, sep) == [p] + Split(rest, sep)
  {
    var s := p + [sep] + rest;
    if p == [] {
      assert s[1..] == rest;
    } else {
      assert s[1..] == p[1..] + [sep] + rest;
      SplitAfterPiece(p[1..], rest, sep);
      assert [p[0]] + p[1..] == p;
    }
  }

  /** Joining pieces that hold no separator and splitting again gives the
      pieces back. */
  lemma {:induction false} SplitOfJoin(parts: seq<string>, sep: char)
    requires |parts| >= 1
    requires forall i :: 0 <= i < |parts| ==> sep !in parts[i]
    ensures Split(Join(parts, sep), sep) == parts
  {
    if |parts| == 1 {
      SplitWithoutSeparator(parts[0], sep);
    } else {
      assert forall i :: 0 <= i < |parts[1..]| ==> sep !in parts[1..][i] by {
        forall i | 0 <= i < |parts[1..]| ensures sep !in parts[1..][i] {
          assert parts[1..][i] == parts[i + 1];
        }
      }
      SplitOfJoin(parts[1..], sep);
      assert sep !in parts[0];
      SplitAfterPiece(parts[0], Join(parts[1..], sep), sep);
      assert [parts[0]] + parts[1..] == parts;
    }
  }

  // ---------------------------------------------------------------------------
  // str.strip()

  /** The characters `str.isspace()` accepts. */
  predicate IsSpace(c: char) {
    || c == ' ' || c == '\t' || c == '\n' || c == '\r'
    || c == '\U{B}' || c == '\U{C}'
    || ('\U{1C}' <= c <= '\U{1F}')
    || c == '\U{85}' || c == '\U{A0}' || c == '\U{1680}'
    || ('\U{2000}' <= c <= '\U{200A}')
    || c == '\U{2028}' || c == '\U{2029}' || c == '\U{202F}'
    || c == '\U{205F}' || c == '\U{3000}'
  }

  predicate AllSpace(s: string) {
    forall i :: 0 <= i < |s| ==> IsSpace(s[i])
  }

  /** Neither end of `s` is whitespace. */
  predicate Unpadded(s: string) {
    s == [] || (!IsSpace(s[0]) && !IsSpace(s[|s| - 1]))
  }

  function TrimLeft(s: string): string {
    if s != [] && IsSpace(s[0]) then TrimLeft(s[1..]) else s
  }

  function TrimRight(s: string): string {
    if s != [] && IsSpace(s[|s| - 1]) then TrimRight(s[..|s| - 1]) else s
  }

  /** `s.strip()`. */
  function Strip(s: string): string {
    TrimRight(TrimLeft(s))
  }

  lemma {:induction false} TrimLeftOfPadded(l: string, t: string)
    requires AllSpace(l)
    requires t == [] || !IsSpace(t[0])
    ensures TrimLeft(l + t) == t
  {
    if l != [] {
      assert (l + t)[1..] == l[1..] + t;
      TrimLeftOfPadded(l[1..], t);
    }
  }

  lemma {:induction false} TrimRightOfPadded(t: string, r: string)
    requires AllSpace(r)
    requires t == [] || !IsSpace(t[|t| - 1])
    ensures TrimRight(t + r) == t
  {
    if r != [] {
      assert (t + r)[..|t + r| - 1] == t + r[..|r| - 1];
      TrimRightOfPadded(t, r[..|r| - 1]);
    }
  }

  /** `strip()` removes exactly the surrounding whitespace. */
  lemma StripRemovesPadding(l: string, s: string, r: string)
    requires AllSpace(l) && AllSpace(r) && Unpadded(s)
    ensures Strip(l + s + r) == s
  {
    if s == [] {
      assert l + s + r == l + r + [];
      TrimLeftOfPadded(l + r, []);
      assert TrimRight([]) == [];
    } else {
      assert l + s + r == l + (s + r);
      TrimLeftOfPadded(l, s + r);
      TrimRightOfPadded(s, r);
    }
  }

  /** What `strip()` returns has no whitespace at either end. */
  lemma {:induction false} StripIsUnpadded(s: string)
    ensures Unpadded(Strip(s))
  {
    TrimLeftUnpaddedStart(s);
    TrimRightKeepsStart(TrimLeft(s));
  }

  /** `strip()` only removes characters: whatever it keeps was in `s`. */
  lemma {:induction false} StripWithin(s: string)
    ensures forall c :: c in Strip(s) ==> c in s
  {
    TrimLeftWithin(s);
    TrimRightWithin(TrimLeft(s));
  }

  lemma {:induction false} TrimLeftWithin(s: string)
    ensures forall c :: c in TrimLeft(s) ==> c in s
  {
    if s != [] && IsSpace(s[0]) {
      TrimLeftWithin(s[1..]);
    }
  }

  lemma {:induction false} TrimRightWithin(s: string)
    ensures forall c :: c in TrimRight(s) ==> c in s
  {
    if s != [] && IsSpace(s[|s| - 1]) {
      TrimRightWithin(s[..|s| - 1]);
    }
  }

  lemma {:induction false} TrimLeftUnpaddedStart(s: string)
    ensures TrimLeft(s) == [] || !IsSpace(TrimLeft(s)[0])
  {
    if s != [] && IsSpace(s[0]) {
      TrimLeftUnpaddedStart(s[1..]);
    }
  }

  lemma {:induction false} TrimRightKeepsStart(t: string)
    requires t == [] || !IsSpace(t[0])
    ensures Unpadded(TrimRight(t))
  {
    if t != [] && IsSpace(t[|t| - 1]) {
      TrimRightKeepsStart(t[..|t| - 1]);
    }
  }

  // ---------------------------------------------------------------------------
  // `'__' in s`, str.split('__', 1) and str.endswith

  predicate DunderAt(s: string, i: int)
    requires 0 <= i < |s| - 1
  {
    s[i] == '_' && s[i + 1] == '_'
  }

  /** `s.find('__')` as an option: the first index at which `__` starts. */
  function FindDunder(s: string): (r: Option<nat>)
    ensures r.Some? ==> r.value < |s| - 1 && DunderAt(s, r.value)
    ensures r.Some? ==> forall j :: 0 <= j < r.value ==> !DunderAt(s, j)
    ensures r.None? ==> forall j :: 0 <= j < |s| - 1 ==> !DunderAt(s, j)
  {
    if |s| < 2 then None
    else if s[0] == '_' && s[1] == '_' then Some(0)
    else
      match FindDunder(s[1..])
      case None =>
        assert forall j :: 1 <= j < |s| - 1 ==> DunderAt(s, j) == DunderAt(s[1..], j - 1);
        None
      case Some(i) =>
        assert forall j :: 1 <= j <= i + 1 ==> DunderAt(s, j) == DunderAt(s[1..], j - 1);
        Some(i + 1)
  }

  predicate EndsWith(s: string, suffix: string) {
    |suffix| <= |s| && s[|s| - |suffix|..] == suffix
  }

  // ---------------------------------------------------------------------------
  // str.upper() and str.capitalize(), on ASCII letters

  function UpperChar(c: char): char {
    if 'a' <= c <= 'z' then (c as int - 32) as char else c
  }

  function LowerChar(c: char): char {
    if 'A' <= c <= 'Z' then (c as int + 32) as char else c
  }

  function Upper(s: string): (r: string)
    ensures |r| == |s|
  {
    seq(|s|, i requires 0 <= i < |s| => UpperChar(s[i]))
  }

  function Lower(s: string): (r: string)
    ensures |r| == |s|
  {
    seq(|s|, i requires 0 <= i < |s| => LowerChar(s[i]))
  }

  /** `s.capitalize()`: first character upper case, the rest lower case. */
  function Capitalize(s: string): (r: string)
    ensures |r| == |s|
  {
    if s == [] then [] else [UpperChar(s[0])] + Lower(s[1..])
  }

  /** `g.upper() == 'OR'` holds for exactly the four spellings of "or". */
  lemma UpperIsOr(g: string)
    ensures Upper(g) == "OR" <==> g in {"or", "oR", "Or", "OR"}
  {
    if Upper(g) == "OR" {
      assert |g| == 2;
      assert Upper(g)[0] == UpperChar(g[0]) && Upper(g)[1] == UpperChar(g[1]);
      assert "OR"[0] == 'O' && "OR"[1] == 'R';
      assert g[0] == 'o' || g[0] == 'O';
      assert g[1] == 'r' || g[1] == 'R';
      assert g == [g[0], g[1]];
    }
    if g in {"or", "oR", "Or", "OR"} {
      assert Upper(g)[0] == 'O' && Upper(g)[1] == 'R';
    }
  }

  // ---------------------------------------------------------------------------
  // int() of a string

  predicate IsDigit(c: char) {
    '0' <= c <= '9'
  }

  predicate AllDigits(s: string) {
    forall i :: 0 <= i < |s| ==> IsDigit(s[i])
  }

  function DigitsValue(s: string): nat
    requires AllDigits(s)
  {
    if s == [] then 0
    else DigitsValue(s[..|s| - 1]) * 10 + (s[|s| - 1] as int - '0' as int)
  }

  function ParseDigits(s: string): Option<int> {
    if s != [] && AllDigits(s) then Some(DigitsValue(s)) else None
  }

  /** `int(s)` for a string: surrounding whitespace, an optional sign, then
      one or more decimal digits; `None` stands for the ValueError. */
  function ParseInt(s: string): Option<int> {
    var t := Strip(s);
    if t != [] && (t[0] == '-' || t[0] == '+') then
      match ParseDigits(t[1..])
      case None => None
      case Some(n) => Some(if t[0] == '-' then -n else n)
    else ParseDigits(t)
  }

  function DigitChar(d: nat): char
    requires d < 10
  {
    ('0' as int + d) as char
  }

  /** `str(n)` for a natural number. */
  function NatToString(n: nat): (r: string)
    ensures r != [] && AllDigits(r)
  {
    if n < 10 then [DigitChar(n)] else NatToString(n / 10) + [DigitChar(n % 10)]
  }

  /** `str(n)`. */
  function IntToString(n: int): string {
    if n < 0 then "-" + NatToString(-n) else NatToString(n)
  }

  lemma {:induction false} DigitsOfNat(n: nat)
    ensures DigitsValue(NatToString(n)) == n
  {
    var s := NatToString(n);
    if n >= 10 {
      DigitsOfNat(n / 10);
      assert s[..|s| - 1] == NatToString(n / 10);
    }
  }

  lemma DigitIsNotSpace(c: char)
    requires IsDigit(c) || c == '-'
    ensures !IsSpace(c)
  {
  }

  /** A text with no whitespace at either end strips to itself. */
  lemma StripOfUnpadded(t: string)
    requires Unpadded(t)
    ensures Strip(t) == t
  {
    StripRemovesPadding("", t, "");
    assert "" + t + "" == t;
  }

  /** `int(str(n)) == n`. */
  lemma ParseIntOfString(n: int)
    ensures ParseInt(IntToString(n)) == Some(n)
  {
    var t := IntToString(n);
    var m: nat := if n < 0 then -n else n;
    var digits := NatToString(m);
    DigitsOfNat(m);
    DigitIsNotSpace(t[0]);
    DigitIsNotSpace(t[|t| - 1]);
    StripOfUnpadded(t);
    if n < 0 {
      assert t[1..] == digits;
    } else {
      assert t == digits;
    }
  }
}
