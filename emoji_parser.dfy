/**
 * The brace extractor of `emoji_python/EmojiParser.py`.  Every `parse_*`
 * method of `BusinessParser` runs `findall` with the pattern `\{.*?\}` and
 * strips the braces off each match, so all seven compute `Parse` below.
 *
 * The pattern is read as Python's `re` reads it: a match starts at a `{`,
 * the lazy `.*?` stops at the first `}` after it, and `.` does not match a
 * newline, so a `{` whose first later `}` comes after a newline does not
 * start a match.  `findall` scans left to right and resumes after each match.
 */
module EmojiParsing {
  import opened Wrappers

  /** Where a match sits: the `{` at `open`, the `}` at `close`. */
  datatype Span = Span(open: nat, close: nat)

  /**
   * The `}` that ends a match whose body starts at `i`: the first `}` at or
   * after `i`, unless a newline comes first.
   */
  function Close(s: string, i: nat): (r: Option<nat>)
    decreases |s| - i
    ensures r.Some? ==> i <= r.value < |s| && s[r.value] == '}'
    ensures r.Some? ==> forall k :: i <= k < r.value ==> s[k] != '}' && s[k] != '\n'
  {
    if i >= |s| then None
    else if s[i] == '}' then Some(i)
    else if s[i] == '\n' then None
    else Close(s, i + 1)
  }

  /** A span is a match of the pattern: braces at both ends, neither `}` nor a newline between. */
  ghost predicate IsMatch(s: string, sp: Span) {
    && sp.open < sp.close < |s|
    && s[sp.open] == '{' && s[sp.close] == '}'
    && forall k :: sp.open < k < sp.close ==> s[k] != '}' && s[k] != '\n'
  }

  /** `findall` from position `pos`: the positions of every match, left to right. */
  function Spans(s: string, pos: nat): (r: seq<Span>)
    decreases |s| - pos
    ensures forall k :: 0 <= k < |r| ==> pos <= r[k].open < r[k].close < |s|
  {
    if pos >= |s| then []
    else if s[pos] == '{' && Close(s, pos + 1).Some? then
      [Span(pos, Close(s, pos + 1).value)] + Spans(s, Close(s, pos + 1).value + 1)
    else Spans(s, pos + 1)
  }

  /** The strings `findall` returns, braces included. */
  function Matches(s: string): (r: seq<string>)
    ensures |r| == |Spans(s, 0)|
    ensures forall k :: 0 <= k < |r| ==> |r[k]| >= 2
  {
    var spans := Spans(s, 0);
    seq(|spans|, k requires 0 <= k < |spans| => s[spans[k].open..spans[k].close + 1])
  }

  /** `parse_business_domain` and its six twins: `[match[1:-1] for match in findall(s)]`. */
  function Parse(s: string): (r: seq<string>)
    ensures |r| == |Spans(s, 0)|
  {
    var matches := Matches(s);
    seq(|matches|, k requires 0 <= k < |matches| => matches[k][1..|matches[k]| - 1])
  }

  // ---------------------------------------------------------------------
  // What a result is
  // ---------------------------------------------------------------------

  /**
   * Each result is the text strictly between a `{` and the first `}` after
   * it, and holds neither `}` nor a newline.
   */
  lemma ParseBetweenBraces(s: string, k: nat)
    requires k < |Parse(s)|
    ensures Parse(s)[k] == s[Spans(s, 0)[k].open + 1..Spans(s, 0)[k].close]
    ensures '}' !in Parse(s)[k] && '\n' !in Parse(s)[k]
  {
    var sp := Spans(s, 0)[k];
    SpansAreMatches(s, 0, k);
    var m := Matches(s)[k];
    assert m == s[sp.open..sp.close + 1];
    assert Parse(s)[k] == m[1..|m| - 1];
    var inner, between := m[1..|m| - 1], s[sp.open + 1..sp.close];
    assert inner == between by {
      forall i | 0 <= i < |inner|
        ensures inner[i] == between[i]
      {
        assert m[1 + i] == s[sp.open + 1 + i];
      }
    }
  }

  /** Every span `findall` reports is a match of the pattern. */
  lemma {:induction false} SpansAreMatches(s: string, pos: nat, k: nat)
    requires k < |Spans(s, pos)|
    ensures IsMatch(s, Spans(s, pos)[k])
    decreases |s| - pos
  {
    if s[pos] == '{' && Close(s, pos + 1).Some? {
      var c := Close(s, pos + 1).value;
      if k == 0 {
        SpansAfterMatch(s, pos, 0);
      } else {
        SpansAreMatches(s, c + 1, k - 1);
        SpansAfterMatch(s, pos, k - 1);
      }
    } else {
      SpansAreMatches(s, pos + 1, k);
      assert Spans(s, pos) == Spans(s, pos + 1);
    }
  }

  /**
   * No match is skipped: every `{` that has a `}` after it before any
   * newline lies inside one of the matches found.
   */
  lemma {:induction false} SpansComplete(s: string, pos: nat, x: nat) returns (k: nat)
    requires pos <= x < |s| && s[x] == '{' && Close(s, x + 1).Some?
    ensures k < |Spans(s, pos)| && Spans(s, pos)[k].open <= x <= Spans(s, pos)[k].close
    decreases |s| - pos
  {
    if s[pos] == '{' && Close(s, pos + 1).Some? {
      var c := Close(s, pos + 1).value;
      if x > c {
        var j := SpansComplete(s, c + 1, x);
        SpansAfterMatch(s, pos, j);
        k := j + 1;
      } else {
        SpansAfterMatch(s, pos, 0);
        k := 0;
      }
    } else {
      assert x != pos;
      k := SpansComplete(s, pos + 1, x);
      assert Spans(s, pos) == Spans(s, pos + 1);
    }
  }

  /** Spans in left-to-right order, each ending before the next begins. */
  predicate Ordered(r: seq<Span>) {
    forall i, j :: 0 <= i < j < |r| ==> r[i].close < r[j].open
  }

  /** The matches are in left-to-right order and do not overlap. */
  lemma {:induction false} SpansOrdered(s: string, pos: nat)
    ensures Ordered(Spans(s, pos))
    decreases |s| - pos, 1
  {
    if pos < |s| {
      if s[pos] == '{' && Close(s, pos + 1).Some? {
        MatchOrdered(s, pos);
      } else {
        SpansOrdered(s, pos + 1);
        assert Spans(s, pos) == Spans(s, pos + 1);
      }
    }
  }

  /** The case of `SpansOrdered` where a match starts at `pos`. */
  lemma {:induction false} MatchOrdered(s: string, pos: nat)
    requires pos < |s| && s[pos] == '{' && Close(s, pos + 1).Some?
    ensures Ordered(Spans(s, pos))
    decreases |s| - pos, 0
  {
    var c := Close(s, pos + 1).value;
    var rest := Spans(s, c + 1);
    SpansOrdered(s, c + 1);
    assert forall k :: 0 <= k < |rest| ==> c < rest[k].open;
    OrderedCons(Span(pos, c), rest);
    assert Spans(s, pos) == [Span(pos, c)] + rest;
  }

  /** A span ending before every span of an ordered list can go in front of it. */
  lemma OrderedCons(sp: Span, rest: seq<Span>)
    requires Ordered(rest)
    requires forall k :: 0 <= k < |rest| ==> sp.close < rest[k].open
    ensures Ordered([sp] + rest)
  {
    var r := [sp] + rest;
    forall i, j | 0 <= i < j < |r|
      ensures r[i].close < r[j].open
    {
      assert r[j] == rest[j - 1];
      if i > 0 {
        assert r[i] == rest[i - 1];
      }
    }
  }

  /** A match at `pos` comes first, and the matches after its `}` follow it. */
  lemma SpansAfterMatch(s: string, pos: nat, j: nat)
    requires pos < |s| && s[pos] == '{' && Close(s, pos + 1).Some?
    ensures var c := Close(s, pos + 1).value;
      Spans(s, pos)[0] == Span(pos, c)
      && (j < |Spans(s, c + 1)| ==> j + 1 < |Spans(s, pos)| && Spans(s, pos)[j + 1] == Spans(s, c + 1)[j])
  {
  }

  /** Without a `}` there is nothing to match. */
  lemma {:induction false} NoCloseNoSpans(s: string, pos: nat)
    requires '}' !in s
    ensures Spans(s, pos) == []
    decreases |s| - pos
  {
    if pos < |s| {
      NoCloseNoSpans(s, pos + 1);
    }
  }

  lemma NoCloseParsesEmpty(s: string)
    requires '}' !in s
    ensures Parse(s) == []
  {
    NoCloseNoSpans(s, 0);
  }

  /**
   * A `{` whose line has no `}` after it starts no match: scanning from
   * anywhere before the end of such a line finds what scanning from the
   * newline finds.
   */
  lemma {:induction false} UnclosedLineSkipped(s: string, pos: nat, newline: nat)
    requires pos <= newline < |s| && s[newline] == '\n'
    requires forall k :: pos <= k < newline ==> s[k] != '}'
    ensures Spans(s, pos) == Spans(s, newline)
    decreases newline - pos
  {
    if pos < newline {
      UnclosedLineSkipped(s, pos + 1, newline);
    }
  }

  // ---------------------------------------------------------------------
  // Examples
  // ---------------------------------------------------------------------

  lemma SingleBrace()
    ensures Parse("{A}") == ["A"]
  {
    var s := "{A}";
    assert Close(s, 2) == Some(2);
    assert Spans(s, 3) == [];
    assert Spans(s, 0) == [Span(0, 2)];
    ParseBetweenBraces(s, 0);
    assert s[1..2] == "A";
  }

  lemma TwoBraces()
    ensures Parse("{A} {B}") == ["A", "B"]
  {
    var s := "{A} {B}";
    assert Close(s, 6) == Some(6);
    assert Spans(s, 7) == [];
    assert Spans(s, 4) == [Span(4, 6)];
    assert s[3] == ' ';
    assert Close(s, 2) == Some(2);
    assert Spans(s, 0) == [Span(0, 2), Span(4, 6)];
    ParseBetweenBraces(s, 0);
    ParseBetweenBraces(s, 1);
    assert s[1..2] == "A" && s[5..6] == "B";
  }
}
