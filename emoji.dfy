/**
 * The emoji record of `emoji_python/Emoji.py`: its constructor decodes the
 * UTF-8 bytes and computes the two HTML numeric character references of the
 * resulting string, one entity per code point.
 *
 * UTF-8 decoding is a library call and enters as its outcome: the decoded
 * string, or `None` when the bytes are not valid UTF-8.
 */
module EmojiData {
  import opened Wrappers
  import opened Text

  /** The two reference forms: `&#<decimal>;` and `&#x<hex, 4 digits at least>;`. */
  datatype Radix = Decimal | Hexadecimal

  function Base(radix: Radix): nat {
    if radix == Decimal then 10 else 16
  }

  function Prefix(radix: Radix): string {
    if radix == Decimal then "&#" else "&#x"
  }

  /** `f'{n}'` or `f'{n:04X}'`: digits that read back as `n` and hold no `;`. */
  function Digits(n: nat, radix: Radix): (r: string)
    ensures |r| >= 1 && ';' !in r
    ensures DigitsToNat(r, Base(radix)) == n
  {
    if radix == Decimal then
      DigitsRoundTrip(n, 10);
      NatToDigits(n, 10)
    else
      Hex4Value(n);
      Hex4(n)
  }

  /** The entity for one character: `&#` or `&#x`, its code point's digits, `;`. */
  function Entity(c: char, radix: Radix): string {
    Prefix(radix) + Digits(c as int, radix) + ";"
  }

  /** `''.join(f'&#{ord(c)};' for c in s)` and its hexadecimal twin. */
  function Entities(s: string, radix: Radix): string
    decreases |s|
  {
    if s == [] then "" else Entity(s[0], radix) + Entities(s[1..], radix)
  }

  datatype Emoji = Emoji(
    description: string,
    supportsFitzpatrick: bool,
    aliases: seq<string>,
    tags: seq<string>,
    unicode: string,
    htmlDecimal: string,
    htmlHexadecimal: string)

  const InvalidBytesMessage := "Invalid unicode bytes"

  /**
   * `Emoji(description, supports_fitzpatrick, aliases, tags, bytes)`, given
   * the outcome of `bytes.decode('utf-8')`: raises `ValueError` exactly when
   * decoding fails; otherwise both references read back as the decoded text.
   */
  function NewEmoji(description: string, supportsFitzpatrick: bool, aliases: seq<string>, tags: seq<string>,
                    decoded: Option<string>): (r: Result<Emoji, string>)
    ensures r.Err? <==> decoded.None?
    ensures r.Err? ==> r.error == InvalidBytesMessage
    ensures r.Ok? ==> r.value.description == description && r.value.supportsFitzpatrick == supportsFitzpatrick
    ensures r.Ok? ==> r.value.aliases == aliases && r.value.tags == tags && r.value.unicode == decoded.value
    ensures r.Ok? ==> ReadEntities(r.value.htmlDecimal, Decimal) == Some(decoded.value)
    ensures r.Ok? ==> ReadEntities(r.value.htmlHexadecimal, Hexadecimal) == Some(decoded.value)
  {
    match decoded
    case None => Err(InvalidBytesMessage)
    case Some(s) =>
      EntitiesRoundTrip(s, Decimal);
      EntitiesRoundTrip(s, Hexadecimal);
      Ok(Emoji(description, supportsFitzpatrick, aliases, tags, s, Entities(s, Decimal), Entities(s, Hexadecimal)))
  }

  // ---------------------------------------------------------------------
  // Reading references back
  // ---------------------------------------------------------------------

  /** A Unicode scalar value: what a `char` holds. */
  predicate IsScalar(n: nat) {
    n < 0xD800 || 0xE000 <= n < 0x11_0000
  }

  /** The position of the first `ch` in `s`. */
  function IndexOf(s: string, ch: char): (r: Option<nat>)
    ensures r.Some? ==> r.value < |s| && s[r.value] == ch && ch !in s[..r.value]
    ensures r.None? ==> ch !in s
  {
    if s == [] then None
    else if s[0] == ch then Some(0)
    else match IndexOf(s[1..], ch)
      case None => None
      case Some(i) =>
        assert s[..i + 1] == [s[0]] + s[1..][..i];
        Some(i + 1)
  }

  /**
   * Decodes a run of numeric character references of one form back into
   * text, or `None` when the input is not such a run.
   */
  function ReadEntities(h: string, radix: Radix): (r: Option<string>)
    decreases |h|
  {
    if h == [] then Some([])
    else match IndexOf(h, ';')
      case None => None
      case Some(j) =>
        var p := Prefix(radix);
        if j < |p| || h[..|p|] != p then None
        else
          var n := DigitsToNat(h[|p|..j], Base(radix));
          if !IsScalar(n) then None
          else match ReadEntities(h[j + 1..], radix)
            case None => None
            case Some(rest) => Some([n as char] + rest)
  }

  /** The first `;` of an entity followed by anything is the entity's own. */
  lemma FirstSemicolon(c: char, radix: Radix, t: string)
    ensures IndexOf(Entity(c, radix) + t, ';') == Some(|Entity(c, radix)| - 1)
  {
    var p, d := Prefix(radix), Digits(c as int, radix);
    var e := Entity(c, radix);
    assert e == p + d + ";";
    var h := e + t;
    assert h[..|e| - 1] == p + d;
    assert ';' !in p;
    assert h[|e| - 1] == ';';
    IndexOfFirst(h, ';', |e| - 1);
  }

  /** A `ch` with none before it is the one `IndexOf` finds. */
  lemma {:induction false} IndexOfFirst(h: string, ch: char, i: nat)
    requires i < |h| && h[i] == ch && ch !in h[..i]
    ensures IndexOf(h, ch) == Some(i)
    decreases i
  {
    if i > 0 {
      assert h[0] in h[..i];
      assert h[1..][..i - 1] == h[..i][1..];
      IndexOfFirst(h[1..], ch, i - 1);
    }
  }

  /** Both encodings read back as the text they encode. */
  lemma {:induction false} EntitiesRoundTrip(s: string, radix: Radix)
    ensures ReadEntities(Entities(s, radix), radix) == Some(s)
    decreases |s|
  {
    if s != [] {
      ReadEntity(s[0], radix, Entities(s[1..], radix));
      EntitiesRoundTrip(s[1..], radix);
      assert [s[0]] + s[1..] == s;
    }
  }

  /** Reading an entity followed by more text yields its character, then what the rest reads as. */
  lemma ReadEntity(c: char, radix: Radix, t: string)
    ensures ReadEntities(Entity(c, radix) + t, radix)
            == if ReadEntities(t, radix).Some? then Some([c] + ReadEntities(t, radix).value) else None
  {
    var p, d := Prefix(radix), Digits(c as int, radix);
    var e := Entity(c, radix);
    assert e == p + d + ";";
    var h := e + t;
    FirstSemicolon(c, radix, t);
    assert h[..|p|] == p;
    assert h[|p|..|e| - 1] == d;
    assert DigitsToNat(h[|p|..|e| - 1], Base(radix)) == c as int;
    assert IsScalar(c as int);
    assert h[|e|..] == t;
  }

  /** There is one `;`-terminated entity per character, and the empty string encodes to the empty string. */
  lemma {:induction false} OneEntityPerCharacter(s: string, radix: Radix)
    ensures multiset(Entities(s, radix))[';'] == |s|
    ensures s == [] ==> Entities(s, radix) == []
    decreases |s|
  {
    if s != [] {
      OneEntityPerCharacter(s[1..], radix);
      OneSemicolon(s[0], radix);
    }
  }

  lemma OneSemicolon(c: char, radix: Radix)
    ensures multiset(Entity(c, radix))[';'] == 1
  {
    assert multiset(Digits(c as int, radix))[';'] == 0;
    assert multiset(Prefix(radix))[';'] == 0;
  }

  lemma PileOfPooDecimal()
    ensures Entities("\U{1F4A9}", Decimal) == "&#128169;"
  {
    assert NatToDigits(1, 10) == "1";
    assert NatToDigits(12, 10) == "12";
    assert NatToDigits(128, 10) == "128";
    assert NatToDigits(1281, 10) == "1281";
    assert NatToDigits(12816, 10) == "12816";
    assert NatToDigits(128169, 10) == "128169";
    assert Entities("\U{1F4A9}", Decimal) == Entity('\U{1F4A9}', Decimal) + Entities("", Decimal);
  }

  /** Hexadecimal references are upper-case and padded to four digits. */
  lemma LetterAHexadecimal()
    ensures Entities("A", Hexadecimal) == "&#x0041;"
  {
    assert NatToDigits(65, 16) == "41";
    assert Digits(65, Hexadecimal) == "0041";
  }
}
