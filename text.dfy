/**
 * The few Python string primitives the migration tool relies on, written out
 * over `string` (a sequence of Unicode scalar values): character classes,
 * `str.join`, `str.split('\n')`, `str.splitlines(True)`, `str(int)`, hexadecimal formatting, Python's
 * code-point ordering of strings and `sorted(set(xs))`.
 */
module Text {

  import opened Wrappers

  // ---------------------------------------------------------------- characters

  /** `c.isupper()` restricted to ASCII, which is also what the regex class `[A-Z]` matches. */
  predicate IsUpper(c: char) { 'A' <= c <= 'Z' }

  /** The regex class `[a-z]`. */
  predicate IsLower(c: char) { 'a' <= c <= 'z' }

  /** The regex class `[0-9]`. */
  predicate IsDigit(c: char) { '0' <= c <= '9' }

  /** `c.isspace()`: the characters `str.strip()` removes. */
  predicate IsSpace(c: char) {
    c == ' ' || ('\t' <= c <= '\r') || ('\U{1C}' <= c <= '\U{1F}') || c == '\U{85}' || c == '\U{A0}'
    || c == '\U{1680}' || ('\U{2000}' <= c <= '\U{200A}') || c == '\U{2028}' || c == '\U{2029}'
    || c == '\U{202F}' || c == '\U{205F}' || c == '\U{3000}'
  }

  /** `s.strip() == ''`: the line holds only whitespace (or nothing). */
  predicate IsBlank(s: string) { forall i :: 0 <= i < |s| ==> IsSpace(s[i]) }

  function ToLower(c: char): (r: char)
    ensures !IsUpper(r)
    ensures !IsUpper(c) ==> r == c
  {
    if IsUpper(c) then (c as int + 32) as char else c
  }

  function ToUpper(c: char): (r: char)
    ensures !IsLower(r)
    ensures !IsLower(c) ==> r == c
  {
    if IsLower(c) then (c as int - 32) as char else c
  }

  /** `s.lower()` on ASCII letters. */
  function Lower(s: string): (r: string)
    ensures |r| == |s|
    ensures forall i :: 0 <= i < |s| ==> r[i] == ToLower(s[i])
  {
    seq(|s|, i requires 0 <= i < |s| => ToLower(s[i]))
  }

  /** `s.upper()` on ASCII letters. */
  function Upper(s: string): (r: string)
    ensures |r| == |s|
    ensures forall i :: 0 <= i < |s| ==> r[i] == ToUpper(s[i])
  {
    seq(|s|, i requires 0 <= i < |s| => ToUpper(s[i]))
  }

  predicate HasUpper(s: string) { exists i :: 0 <= i < |s| && IsUpper(s[i]) }

  predicate StartsWith(s: string, prefix: string) { |prefix| <= |s| && s[..|prefix|] == prefix }

  predicate EndsWith(s: string, suffix: string) { |suffix| <= |s| && s[|s| - |suffix|..] == suffix }

  /** `sub in s`. */
  predicate Contains(s: string, sub: string)
    decreases |s|
  {
    StartsWith(s, sub) || (s != [] && Contains(s[1..], sub))
  }

  // ---------------------------------------------------------- join and split

  /** `sep.join(parts)`. */
  function Join(parts: seq<string>, sep: string): string
    decreases |parts|
  {
    if |parts| == 0 then ""
    else if |parts| == 1 then parts[0]
    else parts[0] + sep + Join(parts[1..], sep)
  }

  /** `''.join(parts)`. */
  function Concat(parts: seq<string>): string
    decreases |parts|
  {
    if parts == [] then "" else parts[0] + Concat(parts[1..])
  }

  lemma {:induction false} ConcatAppend(a: seq<string>, b: seq<string>)
    ensures Concat(a + b) == Concat(a) + Concat(b)
    decreases |a|
  {
    if a == [] {
      assert a + b == b;
    } else {
      assert (a + b)[1..] == a[1..] + b;
      ConcatAppend(a[1..], b);
    }
  }

  /** `s.split('\n')`: always at least one piece, and no piece holds a newline. */
  function SplitLines(s: string): (r: seq<string>)
    ensures |r| >= 1
    ensures forall k :: 0 <= k < |r| ==> '\n' !in r[k]
    decreases |s|
  {
    if s == [] then [""]
    else if s[0] == '\n' then [""] + SplitLines(s[1..])
    else
      var t := SplitLines(s[1..]);
      [[s[0]] + t[0]] + t[1..]
  }

  lemma {:induction false} JoinSplitLines(s: string)
    ensures Join(SplitLines(s), "\n") == s
    decreases |s|
  {
    if s == [] {
    } else if s[0] == '\n' {
      JoinSplitLines(s[1..]);
      var t := SplitLines(s[1..]);
      assert SplitLines(s) == [""] + t;
      assert ([""] + t)[1..] == t;
      assert s == "\n" + s[1..];
    } else {
      JoinSplitLines(s[1..]);
      var t := SplitLines(s[1..]);
      var r := [[s[0]] + t[0]] + t[1..];
      assert SplitLines(s) == r;
      if |t| == 1 {
        assert s == [s[0]] + s[1..];
      } else {
        assert r[1..] == t[1..];
        assert Join(t, "\n") == t[0] + "\n" + Join(t[1..], "\n");
        assert Join(r, "\n") == ([s[0]] + t[0]) + "\n" + Join(t[1..], "\n");
        assert s == [s[0]] + s[1..];
      }
    }
  }

  lemma {:induction false} SplitLinesNoNewline(l: string)
    requires '\n' !in l
    ensures SplitLines(l) == [l]
    decreases |l|
  {
    if l != [] {
      assert '\n' !in l[1..] by { assert forall k :: 0 <= k < |l[1..]| ==> l[1..][k] == l[k + 1]; }
      SplitLinesNoNewline(l[1..]);
      assert [l[0]] + l[1..] == l;
    }
  }

  lemma {:induction false} SplitLinesCons(l: string, t: string)
    requires '\n' !in l
    ensures SplitLines(l + "\n" + t) == [l] + SplitLines(t)
    decreases |l|
  {
    if l == [] {
      assert l + "\n" + t == "\n" + t;
      assert ("\n" + t)[1..] == t;
    } else {
      var s := l + "\n" + t;
      assert s[1..] == l[1..] + "\n" + t;
      assert '\n' !in l[1..] by { assert forall k :: 0 <= k < |l[1..]| ==> l[1..][k] == l[k + 1]; }
      SplitLinesCons(l[1..], t);
      assert [s[0]] + l[1..] == l;
    }
  }

  /** Splitting a join of newline-free lines gives the lines back. */
  lemma {:induction false} SplitJoinLines(ls: seq<string>)
    requires |ls| >= 1
    requires forall k :: 0 <= k < |ls| ==> '\n' !in ls[k]
    ensures SplitLines(Join(ls, "\n")) == ls
    decreases |ls|
  {
    if |ls| == 1 {
      SplitLinesNoNewline(ls[0]);
    } else {
      SplitJoinLines(ls[1..]);
      SplitLinesCons(ls[0], Join(ls[1..], "\n"));
      assert [ls[0]] + ls[1..] == ls;
    }
  }

  // ------------------------------------------------- lines with their breaks

  /** The characters `str.splitlines` ends a line at (a `\r\n` pair ends one line). */
  predicate IsLineBreak(c: char) {
    c == '\n' || c == '\r' || c == '\U{0B}' || c == '\U{0C}' || ('\U{1C}' <= c <= '\U{1E}')
    || c == '\U{85}' || c == '\U{2028}' || c == '\U{2029}'
  }

  /** The text holds no line break at all. */
  predicate NoLineBreak(s: string) { forall i :: 0 <= i < |s| ==> !IsLineBreak(s[i]) }

  /**
   * Where the line that runs on at index `i` of `s` ends, just past its
   * break: a `\r\n` pair is one break, and the last line may have none.
   */
  function LineEnd(s: string, i: nat): (e: nat)
    requires i <= |s|
    ensures i <= e <= |s|
    ensures i < |s| ==> i < e
    decreases |s| - i
  {
    if i == |s| then i
    else if s[i] == '\r' && i + 1 < |s| && s[i + 1] == '\n' then i + 2
    else if IsLineBreak(s[i]) then i + 1
    else LineEnd(s, i + 1)
  }

  /**
   * `s.splitlines(True)`: the lines of `s`, each keeping the break that ends
   * it; there is no piece after a final break, and none for the empty text.
   */
  function KeepLines(s: string): (r: seq<string>)
    ensures |r| == 0 <==> s == []
    ensures s != [] ==> r[0] != [] && r[0][0] == s[0]
    decreases |s|
  {
    if s == [] then [] else var n := LineEnd(s, 0); [s[..n]] + KeepLines(s[n..])
  }

  /** Gluing the lines back together gives the text: nothing is lost or added. */
  lemma {:induction false} ConcatKeepLines(s: string)
    ensures Concat(KeepLines(s)) == s
    decreases |s|
  {
    if s != [] {
      var n := LineEnd(s, 0);
      ConcatKeepLines(s[n..]);
      var r := KeepLines(s);
      assert r[1..] == KeepLines(s[n..]);
      assert s == s[..n] + s[n..];
    }
  }

  /** Break-free characters do not end the line. */
  lemma {:induction false} LineEndSkip(s: string, i: nat, j: nat)
    requires i <= j <= |s|
    requires forall k :: i <= k < j ==> !IsLineBreak(s[k])
    ensures LineEnd(s, i) == LineEnd(s, j)
    decreases j - i
  {
    if i < j {
      LineEndSkip(s, i + 1, j);
    }
  }

  /** A text is one line exactly when its first line runs to its end. */
  lemma KeepLinesOne(l: string)
    requires l != []
    ensures KeepLines(l) == [l] <==> LineEnd(l, 0) == |l|
  {
    var n := LineEnd(l, 0);
    if n == |l| {
      assert l[..n] == l && l[n..] == [];
    } else {
      assert |KeepLines(l[n..])| > 0;
    }
  }

  /** A text without line breaks is a single line. */
  lemma KeepLinesNoBreak(l: string)
    requires l != [] && NoLineBreak(l)
    ensures KeepLines(l) == [l]
  {
    LineEndSkip(l, 0, |l|);
    KeepLinesOne(l);
  }

  /** `a` ends a line, and no `\n` in `b` would join its final `\r` into one break. */
  predicate EndsLine(a: string, b: string) {
    a != [] && IsLineBreak(a[|a| - 1]) && !(a[|a| - 1] == '\r' && b != [] && b[0] == '\n')
  }

  /** Inside a text that ends a line, what follows it does not move any line end. */
  lemma {:induction false} LineEndAppend(a: string, b: string, i: nat)
    requires EndsLine(a, b) && i < |a|
    ensures LineEnd(a + b, i) == LineEnd(a, i)
    decreases |a| - i
  {
    var s := a + b;
    assert s[i] == a[i];
    if i + 1 < |a| {
      assert s[i + 1] == a[i + 1];
      if !IsLineBreak(a[i]) {
        LineEndAppend(a, b, i + 1);
      }
    } else if b != [] {
      assert s[i + 1] == b[0];
    }
  }

  /** Splitting a text whose first part ends a line splits the two parts apart. */
  lemma {:induction false} KeepLinesAppend(a: string, b: string)
    requires EndsLine(a, b)
    ensures KeepLines(a + b) == KeepLines(a) + KeepLines(b)
    decreases |a|
  {
    var s := a + b;
    var n := LineEnd(a, 0);
    LineEndAppend(a, b, 0);
    assert s[..n] == a[..n];
    assert s[n..] == a[n..] + b;
    if n == |a| {
      assert a[n..] == [] && s[n..] == b;
    } else {
      var a1 := a[n..];
      assert a1[|a1| - 1] == a[|a| - 1];
      KeepLinesAppend(a1, b);
    }
  }

  /** Putting `p` in front of the text shifts every line end by `|p|`. */
  lemma {:induction false} LineEndShift(p: string, l: string, i: nat)
    requires i <= |l|
    ensures LineEnd(p + l, |p| + i) == |p| + LineEnd(l, i)
    decreases |l| - i
  {
    var s := p + l;
    if i < |l| {
      assert s[|p| + i] == l[i];
      if i + 1 < |l| {
        assert s[|p| + i + 1] == l[i + 1];
      }
      LineEndShift(p, l, i + 1);
    }
  }

  /** A line stays one line when break-free text is put in front of it. */
  lemma KeepLinesPrefix(p: string, l: string)
    requires NoLineBreak(p) && KeepLines(l) == [l]
    ensures KeepLines(p + l) == [p + l]
  {
    var s := p + l;
    assert l != [];
    KeepLinesOne(l);
    LineEndSkip(s, 0, |p|) by {
      assert forall k :: 0 <= k < |p| ==> s[k] == p[k];
    }
    LineEndShift(p, l, 0);
    KeepLinesOne(s);
  }

  /** Cutting a text where its line ends leaves that line whole. */
  lemma {:induction false} LineEndCut(s: string, i: nat)
    requires i <= |s|
    ensures LineEnd(s[..LineEnd(s, i)], i) == LineEnd(s, i)
    decreases |s| - i
  {
    var e := LineEnd(s, i);
    var c := s[..e];
    if i < |s| && !(s[i] == '\r' && i + 1 < |s| && s[i + 1] == '\n') {
      assert c[i] == s[i];
      if !IsLineBreak(s[i]) {
        LineEndCut(s, i + 1);
        if i + 1 < e {
          assert c[i + 1] == s[i + 1];
        }
      }
    }
  }

  /** A line that ends before the text does ends in a break that the next character does not extend. */
  lemma {:induction false} LineEndBreak(s: string, i: nat)
    requires i < |s| && LineEnd(s, i) < |s|
    ensures IsLineBreak(s[LineEnd(s, i) - 1])
    ensures !(s[LineEnd(s, i) - 1] == '\r' && s[LineEnd(s, i)] == '\n')
    decreases |s| - i
  {
    if !IsLineBreak(s[i]) {
      LineEndBreak(s, i + 1);
    }
  }

  /** Consecutive lines, each but the last ending a line before the next. */
  predicate Chained(ls: seq<string>)
    decreases |ls|
  {
    |ls| <= 1 || (EndsLine(ls[0], ls[1]) && Chained(ls[1..]))
  }

  /** The pieces `str.splitlines(True)` returns: each a line on its own, in a chain. */
  predicate LinePieces(ls: seq<string>) {
    (forall k :: 0 <= k < |ls| ==> KeepLines(ls[k]) == [ls[k]]) && Chained(ls)
  }

  /** The lines `str.splitlines(True)` returns are such pieces. */
  lemma {:induction false} KeepLinesArePieces(s: string)
    ensures LinePieces(KeepLines(s))
    decreases |s|
  {
    if s != [] {
      var n := LineEnd(s, 0);
      var first := s[..n];
      var t := KeepLines(s[n..]);
      var r := KeepLines(s);
      KeepLinesArePieces(s[n..]);
      assert r == [first] + t && r[1..] == t;
      assert KeepLines(first) == [first] by {
        LineEndCut(s, 0);
        KeepLinesOne(first);
      }
      assert forall k :: 1 <= k < |r| ==> r[k] == t[k - 1];
      if n < |s| {
        LineEndBreak(s, 0);
        assert t[0][0] == s[n];
        assert EndsLine(first, t[0]);
      }
    }
  }

  /** Gluing a chain of line pieces and splitting again gives the pieces back. */
  lemma {:induction false} KeepLinesConcat(ls: seq<string>)
    requires LinePieces(ls)
    ensures KeepLines(Concat(ls)) == ls
    decreases |ls|
  {
    if ls != [] {
      assert KeepLines(ls[0]) == [ls[0]];
      if |ls| == 1 {
        assert Concat(ls) == ls[0] + "";
        assert ls[0] + "" == ls[0];
      } else {
        var rest := ls[1..];
        assert LinePieces(rest) by {
          assert forall k :: 0 <= k < |rest| ==> rest[k] == ls[k + 1];
        }
        KeepLinesConcat(rest);
        var tail := Concat(rest);
        assert EndsLine(ls[0], tail) by {
          assert KeepLines(rest[0]) == [rest[0]];
          assert tail == rest[0] + Concat(rest[1..]);
          assert EndsLine(ls[0], ls[1]);
        }
        KeepLinesAppend(ls[0], tail);
        assert Concat(ls) == ls[0] + tail;
        assert [ls[0]] + rest == ls;
      }
    }
  }

  // ------------------------------------------------------- numbers as text

  function DigitChar(d: nat): (c: char)
    requires d < 16
  {
    "0123456789ABCDEF"[d]
  }

  function DigitValue(c: char): (d: nat)
    ensures d < 16
  {
    if '0' <= c <= '9' then c as int - '0' as int
    else if 'A' <= c <= 'F' then c as int - 'A' as int + 10
    else 0
  }

  lemma DigitRoundTrip(d: nat)
    requires d < 16
    ensures DigitValue(DigitChar(d)) == d
    ensures IsHexDigit(DigitChar(d))
    ensures d < 10 ==> IsDigit(DigitChar(d))
  {
  }

  /** `0-9` and `A-F`: the digits `format(n, 'X')` produces. */
  predicate IsHexDigit(c: char) { IsDigit(c) || 'A' <= c <= 'F' }

  /** `str(n)` for a natural number, or `format(n, 'X')` when `base == 16`. */
  function NatToDigits(n: nat, base: nat): (r: string)
    requires base == 10 || base == 16
    ensures |r| >= 1
    ensures forall k :: 0 <= k < |r| ==> (if base == 10 then IsDigit(r[k]) else IsHexDigit(r[k]))
    decreases n
  {
    DigitRoundTrip(n % base);
    if n < base then [DigitChar(n)] else NatToDigits(n / base, base) + [DigitChar(n % base)]
  }

  /** The value of a digit string read in `base`. */
  function DigitsToNat(s: string, base: nat): nat
    decreases |s|
  {
    if s == [] then 0 else DigitsToNat(s[..|s| - 1], base) * base + DigitValue(s[|s| - 1])
  }

  lemma {:induction false} DigitsRoundTrip(n: nat, base: nat)
    requires base == 10 || base == 16
    ensures DigitsToNat(NatToDigits(n, base), base) == n
    decreases n
  {
    DigitRoundTrip(n % base);
    var r := NatToDigits(n, base);
    if n < base {
      assert r[..0] == [];
    } else {
      DigitsRoundTrip(n / base, base);
      assert r[..|r| - 1] == NatToDigits(n / base, base);
    }
  }

  /** Leading zeros do not change the value of a digit string. */
  lemma {:induction false} LeadingZeros(z: nat, s: string, base: nat)
    ensures DigitsToNat(Zeros(z) + s, base) == DigitsToNat(s, base)
    decreases |s|
  {
    if s == [] {
      ZerosValue(z, base);
      assert Zeros(z) + s == Zeros(z);
    } else {
      assert (Zeros(z) + s)[..|Zeros(z) + s| - 1] == Zeros(z) + s[..|s| - 1];
      LeadingZeros(z, s[..|s| - 1], base);
    }
  }

  lemma {:induction false} ZerosValue(z: nat, base: nat)
    ensures DigitsToNat(Zeros(z), base) == 0
    decreases z
  {
    if z > 0 {
      assert Zeros(z)[..z - 1] == Zeros(z - 1);
      ZerosValue(z - 1, base);
    }
  }

  function Zeros(z: nat): (r: string)
    ensures |r| == z
    ensures forall k :: 0 <= k < z ==> r[k] == '0'
  {
    seq(z, k => '0')
  }

  /** `str(i)` for any integer. */
  function IntToDecimal(i: int): string {
    if i < 0 then "-" + NatToDigits(-i, 10) else NatToDigits(i, 10)
  }

  lemma IntToDecimalShape(i: int)
    ensures IntToDecimal(i) != []
    ensures IntToDecimal(i)[0] == '-' || IsDigit(IntToDecimal(i)[0])
    ensures IsDigit(IntToDecimal(i)[|IntToDecimal(i)| - 1])
  {
  }

  // ------------------------------------------------------------- int(s)

  /** `s.lstrip()`. */
  function StripLeft(s: string): (r: string)
    ensures r == [] || !IsSpace(r[0])
    decreases |s|
  {
    if s != [] && IsSpace(s[0]) then StripLeft(s[1..]) else s
  }

  /** `s.rstrip()`. */
  function StripRight(s: string): (r: string)
    ensures r == [] || !IsSpace(r[|r| - 1])
    decreases |s|
  {
    if s != [] && IsSpace(s[|s| - 1]) then StripRight(s[..|s| - 1]) else s
  }

  /** `s.strip()`. */
  function Strip(s: string): string {
    StripRight(StripLeft(s))
  }

  /**
   * The digits `int()` accepts after the sign: decimal digits, where a single
   * underscore may separate two digits.
   */
  predicate IsDigitGroup(b: string) {
    b != [] && IsDigit(b[0]) && IsDigit(b[|b| - 1])
    && (forall i :: 0 <= i < |b| ==> IsDigit(b[i]) || b[i] == '_')
    && (forall i :: 0 <= i < |b| - 1 ==> b[i] == '_' ==> b[i + 1] != '_')
  }

  /** `s` with every underscore removed. */
  function DropUnderscores(s: string): string
    decreases |s|
  {
    if s == [] then [] else (if s[0] == '_' then [] else [s[0]]) + DropUnderscores(s[1..])
  }

  lemma {:induction false} DropUnderscoresRemovesAll(s: string)
    ensures '_' !in DropUnderscores(s)
    decreases |s|
  {
    if s != [] {
      DropUnderscoresRemovesAll(s[1..]);
    }
  }

  lemma {:induction false} DropUnderscoresIdentity(s: string)
    requires '_' !in s
    ensures DropUnderscores(s) == s
    decreases |s|
  {
    if s != [] {
      assert '_' !in s[1..];
      DropUnderscoresIdentity(s[1..]);
      assert [s[0]] + s[1..] == s;
    }
  }

  /** `int(s)` in base 10 over ASCII digits: `None` where Python raises `ValueError`. */
  function ParseInt(s: string): Option<int> {
    ParseSigned(Strip(s))
  }

  /** `int(t)` for text without surrounding whitespace: an optional sign, then a digit group. */
  function ParseSigned(t: string): Option<int> {
    if t == [] then None
    else if t[0] == '-' || t[0] == '+' then
      if IsDigitGroup(t[1..]) then
        var v: int := DigitsToNat(DropUnderscores(t[1..]), 10);
        Some(if t[0] == '-' then -v else v)
      else None
    else if IsDigitGroup(t) then Some(DigitsToNat(DropUnderscores(t), 10))
    else None
  }

  /** `int(str(i)) == i`: the decimal text of an integer parses back to it. */
  lemma ParseIntDecimal(i: int)
    ensures ParseInt(IntToDecimal(i)) == Some(i)
  {
    var n: nat := if i < 0 then -i else i;
    var d := NatToDigits(n, 10);
    DigitsRoundTrip(n, 10);
    DigitsAreGroup(d);
    if i < 0 {
      assert IntToDecimal(i) == "-" + d;
      ParseSignedGroup("-", d);
    } else {
      assert IntToDecimal(i) == "" + d;
      ParseSignedGroup("", d);
    }
  }

  lemma ParseSignedGroup(sign: string, d: string)
    requires sign == "-" || sign == ""
    requires IsDigitGroup(d) && DropUnderscores(d) == d
    ensures ParseInt(sign + d) == Some(if sign == "-" then 0 - DigitsToNat(d, 10) else DigitsToNat(d, 10))
  {
    var t := sign + d;
    assert t[|t| - 1] == d[|d| - 1];
    StripUnchanged(t);
    if sign == "-" {
      assert t[1..] == d;
    } else {
      assert t == d;
    }
  }

  lemma DigitsAreGroup(d: string)
    requires d != [] && forall k :: 0 <= k < |d| ==> IsDigit(d[k])
    ensures IsDigitGroup(d) && DropUnderscores(d) == d
  {
    assert '_' !in d;
    DropUnderscoresIdentity(d);
  }

  lemma StripUnchanged(t: string)
    requires t != [] && !IsSpace(t[0]) && !IsSpace(t[|t| - 1])
    ensures Strip(t) == t
  {
  }

  /** `format(n, '04X')`: upper-case hexadecimal, zero-padded to at least four digits. */
  function Hex4(n: nat): (r: string)
    ensures |r| >= 4
    ensures forall k :: 0 <= k < |r| ==> IsHexDigit(r[k])
  {
    var h := NatToDigits(n, 16);
    if |h| >= 4 then h else Zeros(4 - |h|) + h
  }

  lemma Hex4Value(n: nat)
    ensures DigitsToNat(Hex4(n), 16) == n
  {
    var h := NatToDigits(n, 16);
    DigitsRoundTrip(n, 16);
    if |h| < 4 {
      LeadingZeros(4 - |h|, h, 16);
    }
  }

  // ---------------------------------------------- ordering and sorted(set(...))

  /** Python's `a < b` on strings: lexicographic by code point, a proper prefix first. */
  predicate StrLt(a: string, b: string)
    decreases |a|
  {
    if a == [] then b != []
    else if b == [] then false
    else if a[0] == b[0] then StrLt(a[1..], b[1..])
    else a[0] < b[0]
  }

  lemma {:induction false} StrLtIrreflexive(a: string)
    ensures !StrLt(a, a)
    decreases |a|
  {
    if a != [] { StrLtIrreflexive(a[1..]); }
  }

  lemma {:induction false} StrLtTransitive(a: string, b: string, c: string)
    requires StrLt(a, b) && StrLt(b, c)
    ensures StrLt(a, c)
    decreases |a|
  {
    if a != [] && b != [] && c != [] && a[0] == b[0] && b[0] == c[0] {
      StrLtTransitive(a[1..], b[1..], c[1..]);
    }
  }

  lemma {:induction false} StrLtTotal(a: string, b: string)
    ensures a == b || StrLt(a, b) || StrLt(b, a)
    decreases |a|
  {
    if a != [] && b != [] && a[0] == b[0] {
      StrLtTotal(a[1..], b[1..]);
      if a[1..] == b[1..] {
        assert a == [a[0]] + a[1..] && b == [b[0]] + b[1..];
      }
    }
  }

  lemma StrLtAsymmetric(a: string, b: string)
    requires StrLt(a, b)
    ensures !StrLt(b, a)
  {
    if StrLt(b, a) {
      StrLtTransitive(a, b, a);
      StrLtIrreflexive(a);
    }
  }

  predicate StrictlySorted(xs: seq<string>) {
    forall i, j :: 0 <= i < j < |xs| ==> StrLt(xs[i], xs[j])
  }

  lemma StrLtNotBoth(a: string, b: string)
    ensures !(StrLt(a, b) && StrLt(b, a))
  {
    if StrLt(a, b) { StrLtAsymmetric(a, b); }
  }

  lemma HeadIsLeast(xs: seq<string>, y: string)
    requires StrictlySorted(xs) && y in xs
    ensures y == xs[0] || StrLt(xs[0], y)
  {
    var j :| 0 <= j < |xs| && xs[j] == y;
  }

  /** Insert `x` into a strictly sorted list, unless it is already there. */
  function InsertSorted(x: string, xs: seq<string>): (r: seq<string>)
    requires StrictlySorted(xs)
    ensures StrictlySorted(r)
    ensures forall y :: y in r <==> y == x || y in xs
    decreases |xs|
  {
    if xs == [] then [x]
    else if x == xs[0] then xs
    else if StrLt(x, xs[0]) then
      assert forall j :: 0 < j < |xs| ==> StrLt(xs[0], xs[j]);
      assert forall j :: 0 < j < |xs| ==> StrLt(x, xs[j]) by {
        forall j | 0 < j < |xs| ensures StrLt(x, xs[j]) { StrLtTransitive(x, xs[0], xs[j]); }
      }
      [x] + xs
    else
      StrLtTotal(x, xs[0]);
      var rest := InsertSorted(x, xs[1..]);
      assert forall y :: y in rest ==> StrLt(xs[0], y) by {
        forall y | y in rest ensures StrLt(xs[0], y) {
          if y != x {
            var j :| 0 <= j < |xs[1..]| && xs[1..][j] == y;
            assert xs[j + 1] == y;
          }
        }
      }
      [xs[0]] + rest
  }

  /** `sorted(set(xs))`: strictly increasing, holding exactly the elements of `xs`. */
  function SortedUnique(xs: seq<string>): (r: seq<string>)
    ensures StrictlySorted(r)
    ensures forall y :: y in r <==> y in xs
    decreases |xs|
  {
    if xs == [] then []
    else
      var init := xs[..|xs| - 1];
      assert xs == init + [xs[|xs| - 1]];
      InsertSorted(xs[|xs| - 1], SortedUnique(init))
  }

  /** A strictly sorted list is determined by its elements. */
  lemma {:induction false} StrictlySortedUnique(a: seq<string>, b: seq<string>)
    requires StrictlySorted(a) && StrictlySorted(b)
    requires forall y :: y in a <==> y in b
    ensures a == b
    decreases |a|
  {
    if a != [] { assert a[0] in a; }
    if b != [] { assert b[0] in b; }
    if a != [] && b != [] {
      HeadIsLeast(b, a[0]);
      HeadIsLeast(a, b[0]);
      StrLtNotBoth(a[0], b[0]);
      forall y ensures y in a[1..] <==> y in b[1..] {
        if y in a[1..] {
          var i :| 0 <= i < |a[1..]| && a[1..][i] == y;
          assert StrLt(a[0], y);
          StrLtIrreflexive(y);
          assert y in b;
          var j :| 0 <= j < |b| && b[j] == y;
          assert j != 0;
          assert b[1..][j - 1] == y;
        }
        if y in b[1..] {
          var i :| 0 <= i < |b[1..]| && b[1..][i] == y;
          assert StrLt(b[0], y);
          StrLtIrreflexive(y);
          assert y in a;
          var j :| 0 <= j < |a| && a[j] == y;
          assert j != 0;
          assert a[1..][j - 1] == y;
        }
      }
      StrictlySortedUnique(a[1..], b[1..]);
      assert a == [a[0]] + a[1..] && b == [b[0]] + b[1..];
    }
  }
}
