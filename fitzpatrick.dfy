/**
 * The skin-tone modifiers of `emoji_python/Fitzpatrick.py`: a five-member
 * enum whose values are written as UTF-16 surrogate pairs, so each value is
 * a Python `str` of two lone-surrogate code points.  Python strings are
 * therefore modelled here as sequences of code points, surrogates included.
 *
 * `__init__` stores the member's value as its `unicode` attribute, so a
 * member's `unicode` is its `Value` below.
 */
module Fitzpatrick {
  import opened Wrappers

  /** One element of a Python `str`: any code point, lone surrogates included. */
  type CodePoint = c: int | 0 <= c < 0x11_0000

  datatype Modifier = Type12 | Type3 | Type4 | Type5 | Type6

  /** The members in definition order, the order `for v in cls` visits them. */
  const Members: seq<Modifier> := [Type12, Type3, Type4, Type5, Type6]

  /** The high surrogate both code units of every value start with. */
  const HighSurrogate: CodePoint := 0xD83C

  /** The member's value: the high surrogate, then the low surrogate 0xDFFB to 0xDFFF. */
  function Value(m: Modifier): (r: seq<CodePoint>)
    ensures |r| == 2 && r[0] == HighSurrogate && 0xDFFB <= r[1] <= 0xDFFF
  {
    match m
    case Type12 => [0xD83C, 0xDFFB]
    case Type3 => [0xD83C, 0xDFFC]
    case Type4 => [0xD83C, 0xDFFD]
    case Type5 => [0xD83C, 0xDFFE]
    case Type6 => [0xD83C, 0xDFFF]
  }

  /** The member's name, which `Fitzpatrick(...)` does not look at. */
  function Name(m: Modifier): string {
    match m
    case Type12 => "TYPE_1_2"
    case Type3 => "TYPE_3"
    case Type4 => "TYPE_4"
    case Type5 => "TYPE_5"
    case Type6 => "TYPE_6"
  }

  /** The code points of a string of scalar values. */
  function CodePoints(s: string): (r: seq<CodePoint>)
    ensures |r| == |s|
  {
    seq(|s|, i requires 0 <= i < |s| => s[i] as int)
  }

  /**
   * `fitzpatrick_from_type`: `cls(type)` looks a member up by value and
   * raises `ValueError`, turned into `None`, when no value matches.
   */
  function FromType(t: seq<CodePoint>): (r: Option<Modifier>)
    ensures r.Some? ==> Value(r.value) == t
    ensures r.None? ==> forall m: Modifier :: Value(m) != t
  {
    if t == Value(Type12) then Some(Type12)
    else if t == Value(Type3) then Some(Type3)
    else if t == Value(Type4) then Some(Type4)
    else if t == Value(Type5) then Some(Type5)
    else if t == Value(Type6) then Some(Type6)
    else None
  }

  /** `fitzpatrick_from_unicode`: the first member, in definition order, whose `unicode` is the input. */
  method FromUnicode(unicode: seq<CodePoint>) returns (r: Option<Modifier>)
    ensures r == FromType(unicode)
  {
    var i := 0;
    while i < |Members|
      invariant i <= |Members|
      invariant forall j :: 0 <= j < i ==> Value(Members[j]) != unicode
    {
      var v := Members[i];
      if Value(v) == unicode {
        ValuesDistinct();
        return Some(v);
      }
      i := i + 1;
    }
    assert Value(Members[0]) != unicode && Value(Members[1]) != unicode && Value(Members[2]) != unicode;
    assert Value(Members[3]) != unicode && Value(Members[4]) != unicode;
    return None;
  }

  /** The five values are pairwise distinct: the enum has five members, no aliases. */
  lemma ValuesDistinct()
    ensures forall m: Modifier, n: Modifier :: Value(m) == Value(n) ==> m == n
  {
    forall m: Modifier, n: Modifier | Value(m) == Value(n) ensures m == n {
      assert Value(m)[1] == Value(n)[1];
    }
  }

  /** Only a two-code-point string starting with the high surrogate can name a modifier. */
  lemma OnlyPairsMatch(t: seq<CodePoint>)
    requires |t| != 2 || t[0] != HighSurrogate || t[1] < 0xDFFB || 0xDFFF < t[1]
    ensures FromType(t) == None
  {
  }

  /** Every member is found again from its own value. */
  lemma FromTypeValue(m: Modifier)
    ensures FromType(Value(m)) == Some(m)
  {
    ValuesDistinct();
  }

  /** Looking up by a member's name finds nothing: the lookup is by value. */
  lemma NameIsNotAType(m: Modifier)
    ensures FromType(CodePoints(Name(m))) == None
  {
    OnlyPairsMatch(CodePoints(Name(m)));
  }

  lemma Type3ByName()
    ensures FromType(CodePoints("TYPE_3")) == None
  {
    NameIsNotAType(Type3);
  }
}
