/**
 * The semantic mapper (`src/semantic_mapper.py`): turns the Java record into
 * the Python record. Types go through a fixed table with one level of
 * generics and arrays, method names through a two-pass camelCase to
 * snake_case rewrite, modifiers into flags, naming prefixes and decorators,
 * literal initializers into Python source text, and imports through a table
 * into a sorted, duplicate-free list.
 */
module SemanticMapping {
  import opened Wrappers
  import opened Text
  import opened JavaModel
  import opened PythonModel
  import opened Seqs

  // ------------------------------------------------------------------ types

  /** `TYPE_MAPPING`: Java type names to Python type names. */
  const TypeMapping: map<string, string> := map[
    "int" := "int", "long" := "int", "short" := "int", "byte" := "int",
    "float" := "float", "double" := "float",
    "boolean" := "bool", "char" := "str", "String" := "str", "void" := "None",
    "Integer" := "int", "Long" := "int", "Float" := "float", "Double" := "float",
    "Boolean" := "bool", "Character" := "str",
    "List" := "list", "ArrayList" := "list", "Set" := "set", "HashSet" := "set",
    "Map" := "dict", "HashMap" := "dict"]

  /** `TYPE_MAPPING.get(t, t)`. */
  function LookupType(t: string): string {
    if t in TypeMapping then TypeMapping[t] else t
  }

  /** `s.split(c)[0]`: the text before the first `c`, or all of `s`. */
  function Before(s: string, c: char): (r: string)
    ensures c !in r
    ensures c in s ==> |r| < |s| && s[|r|] == c
    ensures c !in s ==> r == s
    decreases |s|
  {
    if s == [] then []
    else if s[0] == c then []
    else [s[0]] + Before(s[1..], c)
  }

  /** `s.split(c)[1]`: the text after the first `c` (and before the next one, once `Before` is applied). */
  function After(s: string, c: char): (r: string)
    requires c in s
  {
    s[|Before(s, c)| + 1..]
  }

  /** `s.rstrip(c)`. */
  function StripTrailing(s: string, c: char): (r: string)
    ensures r == [] || r[|r| - 1] != c
    decreases |s|
  {
    if s != [] && s[|s| - 1] == c then StripTrailing(s[..|s| - 1], c) else s
  }

  /**
   * The generic branch of `map_type`: `X<Y...` where `X` maps to `list`,
   * `set` or `dict`. Any other base falls through (`None`).
   */
  function MapGeneric(t: string): Option<string>
    requires '<' in t
  {
    var base := Before(t, '<');
    var arg := StripTrailing(Before(After(t, '<'), '<'), '>');
    var mappedBase := LookupType(base);
    var mappedArg := LookupType(arg);
    if mappedBase == "list" then Some("List[" + mappedArg + "]")
    else if mappedBase == "set" then Some("Set[" + mappedArg + "]")
    else if mappedBase == "dict" then Some("Dict[str, " + mappedArg + "]")
    else None
  }

  /** `map_type`. */
  function MapType(t: string): string {
    var generic := if '<' in t then MapGeneric(t) else None;
    if generic.Some? then generic.value
    else if EndsWith(t, "[]") then "List[" + LookupType(t[..|t| - 2]) + "]"
    else LookupType(t)
  }

  /** A type name with neither generic arguments nor array brackets. */
  predicate IsPlainType(t: string) { '<' !in t && !EndsWith(t, "[]") }

  /** The Python names the table produces. */
  const PythonTypeNames: set<string> := {"int", "float", "bool", "str", "None", "list", "set", "dict"}

  /** The Python names that are also table keys map to themselves. */
  lemma MappedNamesFixed(v: string)
    requires v == "int" || v == "float"
    ensures IsPlainType(v) && LookupType(v) == v
  {
    if v == "int" {
      assert LookupType("int") == "int" && IsPlainType("int");
      assert v == "int";
    } else {
      assert LookupType("float") == "float" && IsPlainType("float");
      assert v == "float";
    }
  }

  /** The scalar Python names other than `int` and `float` are not table keys, so the lookup leaves them alone. */
  lemma UnmappedScalarNamesFixed(v: string)
    requires v == "bool" || v == "str" || v == "None"
    ensures IsPlainType(v) && LookupType(v) == v
  {
    if v == "bool" {
      assert LookupType("bool") == "bool" && IsPlainType("bool");
      assert v == "bool";
    } else if v == "str" {
      assert LookupType("str") == "str" && IsPlainType("str");
      assert v == "str";
    } else {
      assert LookupType("None") == "None" && IsPlainType("None");
      assert v == "None";
    }
  }

  /** Nor are the collection names. */
  lemma UnmappedCollectionNamesFixed(v: string)
    requires v == "list" || v == "set" || v == "dict"
    ensures IsPlainType(v) && LookupType(v) == v
  {
    if v == "list" {
      assert LookupType("list") == "list" && IsPlainType("list");
      assert v == "list";
    } else if v == "set" {
      assert LookupType("set") == "set" && IsPlainType("set");
      assert v == "set";
    } else {
      assert LookupType("dict") == "dict" && IsPlainType("dict");
      assert v == "dict";
    }
  }

  /** Every Python name the table produces is plain and maps to itself. */
  lemma TypeMappingValuesFixed(t: string)
    requires t in TypeMapping
    ensures IsPlainType(TypeMapping[t])
    ensures LookupType(TypeMapping[t]) == TypeMapping[t]
  {
    var v := TypeMapping[t];
    assert v in PythonTypeNames;
    if v == "int" || v == "float" {
      MappedNamesFixed(v);
    } else if v == "bool" || v == "str" || v == "None" {
      UnmappedScalarNamesFixed(v);
    } else {
      UnmappedCollectionNamesFixed(v);
    }
  }

  /** On a plain name `map_type` is the table lookup, and mapping twice changes nothing. */
  lemma MapTypePlain(t: string)
    requires IsPlainType(t)
    ensures MapType(t) == (if t in TypeMapping then TypeMapping[t] else t)
    ensures IsPlainType(MapType(t))
    ensures MapType(MapType(t)) == MapType(t)
  {
    if t in TypeMapping {
      TypeMappingValuesFixed(t);
    }
  }

  /** `T[]` maps to `List[m(T)]`. */
  lemma MapTypeArray(t: string)
    requires '<' !in t
    ensures MapType(t + "[]") == "List[" + LookupType(t) + "]"
  {
    var s := t + "[]";
    assert '<' !in s;
    assert s[..|s| - 2] == t;
  }

  /** No table key ends in `>`, so no generic type is looked up as a whole. */
  lemma TypeMappingKeysPlain(t: string)
    requires t != [] && t[|t| - 1] == '>'
    ensures t !in TypeMapping
  {
  }

  /**
   * `X<Y>` (one generic argument, no nesting): the list, set and dict bases
   * produce `List[m(Y)]`, `Set[m(Y)]` and `Dict[str, m(Y)]`; any other base
   * leaves the whole string unchanged.
   */
  lemma MapTypeGeneric(base: string, arg: string)
    requires '<' !in base && '<' !in arg
    requires arg == [] || arg[|arg| - 1] != '>'
    ensures var t := base + "<" + arg + ">";
      MapType(t) ==
        if LookupType(base) == "list" then "List[" + LookupType(arg) + "]"
        else if LookupType(base) == "set" then "Set[" + LookupType(arg) + "]"
        else if LookupType(base) == "dict" then "Dict[str, " + LookupType(arg) + "]"
        else t
  {
    var t := base + "<" + arg + ">";
    GenericParts(base, arg, t);
    TypeMappingKeysPlain(t);
  }

  /** `X<Y>` splits back into `X` and `Y`, and is not an array type. */
  lemma GenericParts(base: string, arg: string, t: string)
    requires '<' !in base && '<' !in arg
    requires arg == [] || arg[|arg| - 1] != '>'
    requires t == base + "<" + arg + ">"
    ensures '<' in t && t != [] && t[|t| - 1] == '>' && !EndsWith(t, "[]")
    ensures Before(t, '<') == base
    ensures StripTrailing(Before(After(t, '<'), '<'), '>') == arg
  {
    var a := arg + ">";
    var rest := "<" + a;
    assert t == base + rest;
    GenericHead(base, rest, t);
    assert rest[1..] == a;
    GenericArg(arg, a);
    assert t[|t| - 1] == '>';
    NotArray(t);
  }

  lemma GenericHead(base: string, rest: string, t: string)
    requires '<' !in base && rest != [] && rest[0] == '<' && t == base + rest
    ensures '<' in t && Before(t, '<') == base && After(t, '<') == rest[1..]
  {
    assert t[|base|] == '<';
    BeforeAppend(base, rest, '<');
  }

  lemma GenericArg(arg: string, a: string)
    requires '<' !in arg && (arg == [] || arg[|arg| - 1] != '>') && a == arg + ">"
    ensures StripTrailing(Before(a, '<'), '>') == arg
  {
    assert '<' !in a;
    assert a[..|arg|] == arg;
  }

  lemma NotArray(t: string)
    requires t != [] && t[|t| - 1] == '>'
    ensures !EndsWith(t, "[]")
  {
    if |t| >= 2 {
      assert t[|t| - 2..][1] == '>';
    }
  }

  lemma {:induction false} BeforeAppend(a: string, b: string, c: char)
    requires c !in a && b != [] && b[0] == c
    ensures Before(a + b, c) == a
    decreases |a|
  {
    if a == [] {
      assert a + b == b;
    } else {
      assert (a + b)[1..] == a[1..] + b;
      BeforeAppend(a[1..], b, c);
    }
  }

  /** The one generic case the pipeline's tests exercise. */
  lemma MapTypeArrayList(t: string)
    requires t == "ArrayList<Integer>"
    ensures MapType(t) == "List[int]"
  {
    var base, arg := "ArrayList", "Integer";
    assert t == base + "<" + arg + ">" by {
      assert |t| == 18;
      forall k | 0 <= k < 18 ensures t[k] == (base + "<" + arg + ">")[k] { }
    }
    assert LookupType(base) == "list";
    assert LookupType(arg) == "int";
    assert "List[" + "int" + "]" == "List[int]";
    MapTypeGeneric(base, arg);
  }

  // ------------------------------------------------------------- snake case

  /** A match of `(.)([A-Z][a-z]+)` starts at the beginning of `s`. */
  predicate WordStart(s: string) {
    |s| >= 3 && s[0] != '\n' && IsUpper(s[1]) && IsLower(s[2])
  }

  /**
   * `re.sub('(.)([A-Z][a-z]+)', r'\1_\2', s)` as a left-to-right scan: where a
   * character other than a newline is followed by a capital and a lower-case
   * letter, an underscore goes between the first two. `inRun` holds while the
   * scan is still inside the greedy `[a-z]+` of the last match, whose letters
   * are copied before matching resumes.
   */
  function WordScan(s: string, inRun: bool): string
    decreases |s|, if inRun then 1 else 0
  {
    if inRun && s != [] && IsLower(s[0]) then [s[0]] + WordScan(s[1..], true)
    else if WordStart(s) then [s[0], '_', s[1], s[2]] + WordScan(s[3..], true)
    else if s == [] then []
    else [s[0]] + WordScan(s[1..], false)
  }

  /** The first rewrite of `_to_snake_case`. */
  function SplitWords(s: string): string {
    WordScan(s, false)
  }

  /** A match of `([a-z0-9])([A-Z])` starts at the beginning of `s`. */
  predicate CapsStart(s: string) {
    |s| >= 2 && (IsLower(s[0]) || IsDigit(s[0])) && IsUpper(s[1])
  }

  /**
   * `re.sub('([a-z0-9])([A-Z])', r'\1_\2', s)`: an underscore between a
   * lower-case letter or digit and the capital after it; the scan resumes
   * after the capital.
   */
  function SplitCaps(s: string): string
    decreases |s|
  {
    if CapsStart(s) then [s[0], '_', s[1]] + SplitCaps(s[2..])
    else if s == [] then []
    else [s[0]] + SplitCaps(s[1..])
  }

  /** `_to_snake_case`: the two rewrites, then `.lower()`. */
  function ToSnakeCase(name: string): (r: string)
    ensures !HasUpper(r)
  {
    Lower(SplitCaps(SplitWords(name)))
  }

  // One step of each scan, as separate facts.

  lemma RunStep(s: string)
    requires s != [] && IsLower(s[0])
    ensures WordScan(s, true) == [s[0]] + WordScan(s[1..], true)
  {
  }

  lemma RunEnd(s: string)
    requires s == [] || !IsLower(s[0])
    ensures WordScan(s, true) == WordScan(s, false)
  {
  }

  lemma WordMatch(s: string)
    requires WordStart(s)
    ensures WordScan(s, false) == [s[0], '_', s[1], s[2]] + WordScan(s[3..], true)
  {
  }

  lemma WordSkip(s: string)
    requires s != [] && !WordStart(s)
    ensures WordScan(s, false) == [s[0]] + WordScan(s[1..], false)
  {
  }

  lemma CapsMatch(s: string)
    requires CapsStart(s)
    ensures SplitCaps(s) == [s[0], '_', s[1]] + SplitCaps(s[2..])
  {
  }

  lemma CapsSkip(s: string)
    requires s != [] && !CapsStart(s)
    ensures SplitCaps(s) == [s[0]] + SplitCaps(s[1..])
  {
  }

  lemma NoUpperTail(s: string)
    requires s != [] && !HasUpper(s)
    ensures !HasUpper(s[1..])
  {
    forall k | 0 <= k < |s[1..]| ensures !IsUpper(s[1..][k]) { assert s[1..][k] == s[k + 1]; }
  }

  lemma {:induction false} WordScanNoUpper(s: string, inRun: bool)
    requires !HasUpper(s)
    ensures WordScan(s, inRun) == s
    decreases |s|
  {
    if s != [] {
      NoUpperTail(s);
      WordScanNoUpper(s[1..], inRun && IsLower(s[0]));
      if inRun && IsLower(s[0]) {
        RunStep(s);
      } else {
        if inRun { RunEnd(s); }
        assert !WordStart(s) by { assert |s| >= 2 ==> !IsUpper(s[1]); }
        WordSkip(s);
        WordScanNoUpper(s[1..], false);
      }
      assert [s[0]] + s[1..] == s;
    }
  }

  /** No lower-case letter or digit is directly followed by a capital. */
  predicate NoCapsBoundary(s: string) {
    forall i :: 0 <= i < |s| - 1 ==> !((IsLower(s[i]) || IsDigit(s[i])) && IsUpper(s[i + 1]))
  }

  /** Without a lower-case-to-capital boundary, the second rewrite changes nothing. */
  lemma {:induction false} SplitCapsNoBoundary(s: string)
    requires NoCapsBoundary(s)
    ensures SplitCaps(s) == s
    decreases |s|
  {
    if s != [] {
      assert !CapsStart(s);
      assert NoCapsBoundary(s[1..]) by {
        forall i | 0 <= i < |s[1..]| - 1
          ensures !((IsLower(s[1..][i]) || IsDigit(s[1..][i])) && IsUpper(s[1..][i + 1]))
        {
          assert s[1..][i] == s[i + 1] && s[1..][i + 1] == s[i + 2];
        }
      }
      CapsSkip(s);
      SplitCapsNoBoundary(s[1..]);
      assert [s[0]] + s[1..] == s;
    }
  }

  lemma LowerNoUpper(s: string)
    requires !HasUpper(s)
    ensures Lower(s) == s
  {
  }

  /** A name without capitals is already snake case: the conversion leaves it alone. */
  lemma SnakeCaseIdentity(s: string)
    requires !HasUpper(s)
    ensures ToSnakeCase(s) == s
  {
    WordScanNoUpper(s, false);
    SplitCapsNoBoundary(s);
    LowerNoUpper(s);
  }

  /** Converting twice is converting once. */
  lemma SnakeCaseIdempotent(s: string)
    ensures ToSnakeCase(ToSnakeCase(s)) == ToSnakeCase(s)
  {
    SnakeCaseIdentity(ToSnakeCase(s));
  }

  lemma {:induction false} DropUnderscoresAppend(a: string, b: string)
    ensures DropUnderscores(a + b) == DropUnderscores(a) + DropUnderscores(b)
    decreases |a|
  {
    if a != [] {
      assert (a + b)[1..] == a[1..] + b;
      DropUnderscoresAppend(a[1..], b);
    } else {
      assert a + b == b;
    }
  }

  lemma DropUnderscoresCons(c: char, s: string)
    ensures DropUnderscores([c] + s) == (if c == '_' then [] else [c]) + DropUnderscores(s)
  {
    assert ([c] + s)[1..] == s;
  }

  /** Removing underscores from `x` and from `x` minus its second character agree when that character is `_`. */
  lemma DropInserted(x: string, y: string)
    requires 2 <= |x| && x[1] == '_' && y == [x[0]] + x[2..]
    ensures DropUnderscores(x) == DropUnderscores(y)
  {
    assert x[1..][1..] == x[2..];
    assert y[1..] == x[2..];
  }

  lemma {:induction false} WordScanOnlyInserts(s: string, inRun: bool)
    ensures DropUnderscores(WordScan(s, inRun)) == DropUnderscores(s)
    decreases |s|, if inRun then 1 else 0
  {
    if inRun && s != [] && IsLower(s[0]) {
      RunStep(s);
      WordScanOnlyInserts(s[1..], true);
      DropUnderscoresCons(s[0], WordScan(s[1..], true));
      DropUnderscoresCons(s[0], s[1..]);
      assert [s[0]] + s[1..] == s;
    } else if inRun {
      RunEnd(s);
      WordScanOnlyInserts(s, false);
    } else if WordStart(s) {
      WordMatch(s);
      WordScanOnlyInserts(s[3..], true);
      var m := [s[0], '_', s[1], s[2]];
      DropUnderscoresAppend(m, WordScan(s[3..], true));
      DropInserted(m, s[..3]);
      DropUnderscoresAppend(s[..3], s[3..]);
      assert s[..3] + s[3..] == s;
    } else if s != [] {
      WordSkip(s);
      WordScanOnlyInserts(s[1..], false);
      DropUnderscoresCons(s[0], WordScan(s[1..], false));
      DropUnderscoresCons(s[0], s[1..]);
      assert [s[0]] + s[1..] == s;
    }
  }

  lemma {:induction false} SplitCapsOnlyInserts(s: string)
    ensures DropUnderscores(SplitCaps(s)) == DropUnderscores(s)
    decreases |s|
  {
    if CapsStart(s) {
      CapsMatch(s);
      SplitCapsOnlyInserts(s[2..]);
      var m := [s[0], '_', s[1]];
      DropUnderscoresAppend(m, SplitCaps(s[2..]));
      DropInserted(m, s[..2]);
      DropUnderscoresAppend(s[..2], s[2..]);
      assert s[..2] + s[2..] == s;
    } else if s != [] {
      CapsSkip(s);
      SplitCapsOnlyInserts(s[1..]);
      DropUnderscoresCons(s[0], SplitCaps(s[1..]));
      DropUnderscoresCons(s[0], s[1..]);
      assert [s[0]] + s[1..] == s;
    }
  }

  lemma {:induction false} LowerDropUnderscores(s: string)
    ensures DropUnderscores(Lower(s)) == Lower(DropUnderscores(s))
    decreases |s|
  {
    if s != [] {
      LowerDropUnderscores(s[1..]);
      assert Lower(s) == [ToLower(s[0])] + Lower(s[1..]);
      DropUnderscoresCons(ToLower(s[0]), Lower(s[1..]));
      DropUnderscoresCons(s[0], s[1..]);
      assert [s[0]] + s[1..] == s;
      var d := DropUnderscores(s[1..]);
      if s[0] == '_' {
        assert DropUnderscores(s) == d;
      } else {
        assert Lower([s[0]] + d) == [ToLower(s[0])] + Lower(d);
      }
    }
  }

  /**
   * The conversion only inserts underscores and lowers capitals: with the
   * underscores removed, the result is the lower-cased input with its
   * underscores removed.
   */
  lemma SnakeCaseOnlyInsertsUnderscores(s: string)
    ensures DropUnderscores(ToSnakeCase(s)) == Lower(DropUnderscores(s))
  {
    WordScanOnlyInserts(s, false);
    SplitCapsOnlyInserts(SplitWords(s));
    LowerDropUnderscores(SplitCaps(SplitWords(s)));
  }

  /** The three conversions the project's tests pin down. */
  lemma SnakeCaseExamples()
    ensures ToSnakeCase("getUserName") == "get_user_name"
    ensures ToSnakeCase("XMLParser") == "xml_parser"
    ensures ToSnakeCase("simpleMethod") == "simple_method"
  {
    SnakeCaseGetUserName("getUserName");
    SnakeCaseXmlParser("XMLParser");
    SnakeCaseSimpleMethod("simpleMethod");
  }

  lemma SnakeCaseGetUserName(s: string)
    requires s == "getUserName"
    ensures ToSnakeCase(s) == "get_user_name"
  {
    var w := GetUserNameWords(s);
    var c := GetUserNameCaps(w);
    GetUserNameLower(c);
  }

  lemma GetUserNameWords(s: string) returns (w: string)
    requires s == "getUserName"
    ensures w == "get_UserName" && SplitWords(s) == w
  {
    w := [s[0], s[1], s[2], '_', s[3], s[4], s[5], s[6], s[7]] + s[8..];
    GetUserNameScan(s, w);
    assert w == "get_UserName" by {
      assert |w| == 12;
      forall k | 0 <= k < 12 ensures w[k] == "get_UserName"[k] { }
    }
  }

  lemma GetUserNameScan(s: string, w: string)
    requires s == "getUserName"
    requires w == [s[0], s[1], s[2], '_', s[3], s[4], s[5], s[6], s[7]] + s[8..]
    ensures SplitWords(s) == w
  {
    var r8 := s[8..];
    WordScanNoUpper(r8, false);
    var r7 := s[7..];
    assert r7[1..] == r8;
    WordSkip(r7);
    RunEnd(r7);
    assert WordScan(r7, true) == [s[7]] + r8;
    var r6 := s[6..];
    assert r6[1..] == r7;
    RunStep(r6);
    var r5 := s[5..];
    assert r5[1..] == r6;
    RunStep(r5);
    assert WordScan(r5, true) == [s[5], s[6], s[7]] + r8;
    var r2 := s[2..];
    assert r2[3..] == r5;
    WordMatch(r2);
    assert WordScan(r2, false) == [s[2], '_', s[3], s[4], s[5], s[6], s[7]] + r8;
    var r1 := s[1..];
    assert r1[1..] == r2;
    WordSkip(r1);
    WordSkip(s);
  }

  lemma GetUserNameCaps(w: string) returns (c: string)
    requires w == "get_UserName"
    ensures c == "get_User_Name" && SplitCaps(w) == c
  {
    c := w[..7] + ['r', '_', 'N'] + w[9..];
    GetUserNameCapsScan(w, c);
    assert c == "get_User_Name" by {
      assert |c| == 13;
      forall k | 0 <= k < 13 ensures c[k] == "get_User_Name"[k] { }
    }
  }

  lemma GetUserNameCapsScan(w: string, c: string)
    requires w == "get_UserName"
    requires c == w[..7] + ['r', '_', 'N'] + w[9..]
    ensures SplitCaps(w) == c
  {
    var r9 := w[9..];
    SplitCapsNoBoundary(r9);
    var r7 := w[7..];
    CapsMatch(r7);
    assert r7[2..] == r9;
    var p := w[..7];
    assert NoCapsBoundary(p);
    SplitCapsPrefix(p, r7);
    assert p + r7 == w;
  }

  lemma GetUserNameLower(c: string)
    requires c == "get_User_Name"
    ensures Lower(c) == "get_user_name"
  {
    assert |Lower(c)| == 13;
    forall k | 0 <= k < 13 ensures Lower(c)[k] == "get_user_name"[k] { }
  }

  /** A prefix without a boundary, not ending on one, passes the second rewrite unchanged. */
  lemma {:induction false} SplitCapsPrefix(a: string, b: string)
    requires NoCapsBoundary(a)
    requires a != [] && b != [] ==> !((IsLower(a[|a| - 1]) || IsDigit(a[|a| - 1])) && IsUpper(b[0]))
    ensures SplitCaps(a + b) == a + SplitCaps(b)
    decreases |a|
  {
    if a != [] {
      NoCapsBoundaryTail(a);
      var t := a + b;
      assert t[1..] == a[1..] + b;
      assert !CapsStart(t) by {
        if |a| >= 2 {
          assert t[0] == a[0] && t[1] == a[1];
        } else if |t| >= 2 {
          assert t[0] == a[0] && t[1] == b[0];
        }
      }
      CapsSkip(t);
      SplitCapsPrefix(a[1..], b);
      assert a == [a[0]] + a[1..];
    } else {
      assert a + b == b;
    }
  }

  lemma NoCapsBoundaryTail(a: string)
    requires a != [] && NoCapsBoundary(a)
    ensures NoCapsBoundary(a[1..])
  {
    forall i | 0 <= i < |a[1..]| - 1
      ensures !((IsLower(a[1..][i]) || IsDigit(a[1..][i])) && IsUpper(a[1..][i + 1]))
    {
      assert a[1..][i] == a[i + 1] && a[1..][i + 1] == a[i + 2];
    }
  }

  lemma SnakeCaseSimpleMethod(s: string)
    requires s == "simpleMethod"
    ensures ToSnakeCase(s) == "simple_method"
  {
    var w := SimpleMethodWords(s);
    SimpleMethodCaps(w);
  }

  lemma SimpleMethodCaps(w: string)
    requires w == "simple_Method"
    ensures Lower(SplitCaps(w)) == "simple_method"
  {
    assert NoCapsBoundary(w) by {
      forall i | 0 <= i < |w| - 1 ensures !((IsLower(w[i]) || IsDigit(w[i])) && IsUpper(w[i + 1])) { }
    }
    SplitCapsNoBoundary(w);
    assert |Lower(w)| == 13;
    forall k | 0 <= k < 13 ensures Lower(w)[k] == "simple_method"[k] { }
  }

  lemma SimpleMethodWords(s: string) returns (w: string)
    requires s == "simpleMethod"
    ensures w == "simple_Method" && SplitWords(s) == w
  {
    w := s[..5] + [s[5], '_', s[6], s[7]] + s[8..];
    SimpleMethodScan(s, w);
    assert w == "simple_Method" by {
      assert |w| == 13;
      forall k | 0 <= k < 13 ensures w[k] == "simple_Method"[k] { }
    }
  }

  lemma SimpleMethodScan(s: string, w: string)
    requires s == "simpleMethod"
    requires w == s[..5] + [s[5], '_', s[6], s[7]] + s[8..]
    ensures SplitWords(s) == w
  {
    var r8 := s[8..];
    WordScanNoUpper(r8, true);
    var r5 := s[5..];
    assert r5[3..] == r8;
    WordMatch(r5);
    var p := s[..5];
    assert !HasUpper(p);
    WordScanPrefix(p, r5);
    assert p + r5 == s;
  }

  /** A prefix without capitals, not ending where a match starts, passes the first rewrite unchanged. */
  lemma {:induction false} WordScanPrefix(a: string, b: string)
    requires !HasUpper(a)
    requires a != [] && |b| >= 2 ==> !(IsUpper(b[0]) && IsLower(b[1]))
    ensures WordScan(a + b, false) == a + WordScan(b, false)
    decreases |a|
  {
    if a != [] {
      NoUpperTail(a);
      var t := a + b;
      assert t[1..] == a[1..] + b;
      assert !WordStart(t) by {
        if |a| >= 2 {
          assert t[1] == a[1] && !IsUpper(a[1]);
        } else if |t| >= 3 {
          assert t[1] == b[0] && t[2] == b[1];
        }
      }
      WordSkip(t);
      WordScanPrefix(a[1..], b);
      assert a == [a[0]] + a[1..];
    } else {
      assert a + b == b;
    }
  }

  lemma SnakeCaseXmlParser(s: string)
    requires s == "XMLParser"
    ensures ToSnakeCase(s) == "xml_parser"
  {
    var w := XmlParserWords(s);
    XmlParserCaps(w);
  }

  lemma XmlParserCaps(w: string)
    requires w == "XML_Parser"
    ensures Lower(SplitCaps(w)) == "xml_parser"
  {
    assert NoCapsBoundary(w) by {
      forall i | 0 <= i < |w| - 1 ensures !((IsLower(w[i]) || IsDigit(w[i])) && IsUpper(w[i + 1])) { }
    }
    SplitCapsNoBoundary(w);
    assert |Lower(w)| == 10;
    forall k | 0 <= k < 10 ensures Lower(w)[k] == "xml_parser"[k] { }
  }

  lemma XmlParserWords(s: string) returns (w: string)
    requires s == "XMLParser"
    ensures w == "XML_Parser" && SplitWords(s) == w
  {
    w := [s[0], s[1], s[2], '_', s[3], s[4]] + s[5..];
    XmlParserScan(s, w);
    assert w == "XML_Parser" by {
      assert |w| == 10;
      forall k | 0 <= k < 10 ensures w[k] == "XML_Parser"[k] { }
    }
  }

  lemma XmlParserScan(s: string, w: string)
    requires s == "XMLParser"
    requires w == [s[0], s[1], s[2], '_', s[3], s[4]] + s[5..]
    ensures SplitWords(s) == w
  {
    var r5 := s[5..];
    WordScanNoUpper(r5, true);
    var r2 := s[2..];
    assert r2[3..] == r5;
    WordMatch(r2);
    var r1 := s[1..];
    assert r1[1..] == r2;
    WordSkip(r1);
    WordSkip(s);
  }

  // -------------------------------------------------------------- modifiers

  /** The flags `map_modifiers` derives from a modifier list. */
  datatype Modifiers = Modifiers(isPrivate: bool, isStatic: bool, isFinal: bool, isAbstract: bool)

  /** `map_modifiers`: each flag is membership of its keyword. */
  function MapModifiers(mods: seq<string>): (r: Modifiers)
    ensures r.isPrivate <==> "private" in mods
    ensures r.isStatic <==> "static" in mods
    ensures r.isFinal <==> "final" in mods
    ensures r.isAbstract <==> "abstract" in mods
  {
    Modifiers("private" in mods, "static" in mods, "final" in mods, "abstract" in mods)
  }

  /** Only which keywords occur matters: order and repetition do not. */
  lemma MapModifiersBySet(a: seq<string>, b: seq<string>)
    requires forall m :: m in a <==> m in b
    ensures MapModifiers(a) == MapModifiers(b)
  {
  }

  // ------------------------------------------------------------ initializers

  /**
   * `_extract_initializer_value`. `floatText` stands for Python's
   * `str(float(s))`: `None` where `float(s)` raises `ValueError`.
   * A string becomes its canonical integer text if `int()` accepts it, else
   * its float text if `float()` does, else `True`/`False` if it is `true` or
   * `false` in any case, else itself in double quotes, unescaped. A
   * dictionary or an object with a `value` is unwrapped; `None` and unknown
   * values give `None`. Whatever is produced is non-empty, so the
   * generator's truthiness test on it is a presence test.
   */
  function ExtractInitializer(init: Initializer, floatText: string -> Option<FloatText>): (r: Option<string>)
    ensures r.Some? ==> |r.value| > 0
  {
    match init
    case NoInit => None
    case StrInit(s) =>
      var asInt := ParseInt(s);
      if asInt.Some? then
        IntToDecimalShape(asInt.value);
        Some(IntToDecimal(asInt.value))
      else if floatText(s).Some? then Some(floatText(s).value)
      else if Lower(s) == "true" then Some("True")
      else if Lower(s) == "false" then Some("False")
      else Some("\"" + s + "\"")
    case BoolInit(b) => Some(if b then "True" else "False")
    case IntInit(i) =>
      IntToDecimalShape(i);
      Some(IntToDecimal(i))
    case FloatInit(t) => Some(t)
    case DictInit(v) => ExtractInitializer(v, floatText)
    case ObjInit(v) => ExtractInitializer(v, floatText)
    case OtherInit => None
  }

  /**
   * Integer text is rendered canonically: whatever `int()` accepts becomes
   * `str()` of its value, which parses back to that same value, and a
   * canonical text renders as itself.
   */
  lemma ExtractIntegerText(s: string, floatText: string -> Option<FloatText>)
    requires ParseInt(s).Some?
    ensures ExtractInitializer(StrInit(s), floatText) == Some(IntToDecimal(ParseInt(s).value))
    ensures ParseInt(ExtractInitializer(StrInit(s), floatText).value) == ParseInt(s)
  {
    ParseIntDecimal(ParseInt(s).value);
  }

  /** `str(i)` as an initializer renders as itself, exactly as the integer `i` does. */
  lemma ExtractCanonicalInteger(i: int, floatText: string -> Option<FloatText>)
    ensures ExtractInitializer(StrInit(IntToDecimal(i)), floatText) == Some(IntToDecimal(i))
    ensures ExtractInitializer(IntInit(i), floatText) == Some(IntToDecimal(i))
  {
    ParseIntDecimal(i);
  }

  /** Four or five letters are never integer text. */
  lemma WordNotInteger(s: string)
    requires |s| >= 1 && IsLower(ToLower(s[0])) && IsLower(ToLower(s[|s| - 1]))
    ensures ParseInt(s) == None
  {
    StripUnchanged(s);
  }

  /**
   * `true`/`false` in any case (which `float()` rejects) become Python's
   * `True`/`False`, and a Python bool renders the same as its Java text.
   */
  lemma ExtractBooleanText(s: string, floatText: string -> Option<FloatText>)
    requires Lower(s) == "true" || Lower(s) == "false"
    requires floatText(s) == None
    ensures ExtractInitializer(StrInit(s), floatText) == Some(if Lower(s) == "true" then "True" else "False")
    ensures ExtractInitializer(StrInit(s), floatText) == ExtractInitializer(BoolInit(Lower(s) == "true"), floatText)
  {
    var l := Lower(s);
    assert |s| == |l| && |l| >= 4;
    assert ToLower(s[0]) == l[0] && ToLower(s[|s| - 1]) == l[|l| - 1];
    assert IsLower(l[0]) && IsLower(l[|l| - 1]) by {
      if l == "true" { assert l[0] == 't' && l[3] == 'e'; } else { assert l[0] == 'f' && l[4] == 'e'; }
    }
    WordNotInteger(s);
  }

  /** Any other text is quoted verbatim: the result is `"` + text + `"`. */
  lemma ExtractQuotedText(s: string, floatText: string -> Option<FloatText>)
    requires ParseInt(s) == None && floatText(s) == None
    requires Lower(s) != "true" && Lower(s) != "false"
    ensures var r := ExtractInitializer(StrInit(s), floatText);
      r.Some? && |r.value| == |s| + 2 && r.value[0] == '"' && r.value[|s| + 1] == '"' && r.value[1..|s| + 1] == s
  {
  }

  /** Dictionaries and `value` objects are transparent, however deeply nested. */
  lemma {:induction false} ExtractUnwraps(init: Initializer, floatText: string -> Option<FloatText>)
    ensures ExtractInitializer(Unwrap(init), floatText) == ExtractInitializer(init, floatText)
  {
    match init
    case DictInit(v) => ExtractUnwraps(v, floatText);
    case ObjInit(v) => ExtractUnwraps(v, floatText);
    case _ =>
  }

  /** The initializer with every dictionary and `value` wrapper removed. */
  function Unwrap(init: Initializer): (r: Initializer)
    ensures !r.DictInit? && !r.ObjInit?
  {
    match init
    case DictInit(v) => Unwrap(v)
    case ObjInit(v) => Unwrap(v)
    case _ => init
  }

  // ----------------------------------------------------------------- fields

  /** The Python name of a field: `_name` when private (constant or not), `NAME` when a constant, else `name`. */
  function FieldPythonName(name: string, mods: Modifiers): string {
    if mods.isPrivate then "_" + name
    else if mods.isFinal && mods.isStatic then Upper(name)
    else name
  }

  /** `map_field`. */
  function MapField(f: JavaField, floatText: string -> Option<FloatText>): (r: PyField)
    ensures r.name == f.name
    ensures r.typ == Some(MapType(f.typ)) && r.annotation == ": " + MapType(f.typ)
    ensures r.isClassVariable <==> "static" in f.modifiers
    ensures r.isConstant <==> "static" in f.modifiers && "final" in f.modifiers
    ensures r.isPrivate <==> "private" in f.modifiers
    ensures r.initializer == ExtractInitializer(f.initializer, floatText)
    ensures r.pythonName.Some?
    ensures r.isPrivate ==> r.pythonName.value == "_" + f.name
    ensures !r.isPrivate && r.isConstant ==> r.pythonName.value == Upper(f.name)
    ensures !r.isPrivate && !r.isConstant ==> r.pythonName.value == f.name
  {
    var mods := MapModifiers(f.modifiers);
    var t := MapType(f.typ);
    PyField(
      f.name, Some(FieldPythonName(f.name, mods)), Some(t),
      mods.isStatic, mods.isFinal && mods.isStatic, mods.isPrivate,
      ExtractInitializer(f.initializer, floatText), ": " + t)
  }

  /**
   * The renaming keeps the name recoverable: dropping the `_` of a private
   * field, or lower-casing both sides for a constant, gives back the Java
   * name, which any other field keeps as it is; and a constant's Python
   * name has no lower-case letter.
   */
  lemma FieldNameRecoverable(f: JavaField, floatText: string -> Option<FloatText>)
    ensures MapField(f, floatText).isPrivate ==> MapField(f, floatText).pythonName.value[1..] == f.name
    ensures !MapField(f, floatText).isPrivate && MapField(f, floatText).isConstant ==>
      Lower(MapField(f, floatText).pythonName.value) == Lower(f.name)
    ensures !MapField(f, floatText).isPrivate && MapField(f, floatText).isConstant ==>
      forall k :: 0 <= k < |f.name| ==> !IsLower(MapField(f, floatText).pythonName.value[k])
    ensures !MapField(f, floatText).isPrivate && !MapField(f, floatText).isConstant ==>
      MapField(f, floatText).pythonName.value == f.name
  {
    var r := MapField(f, floatText);
    if !r.isPrivate && r.isConstant {
      var u := Upper(f.name);
      forall k | 0 <= k < |u| ensures Lower(u)[k] == Lower(f.name)[k] { }
    }
  }

  /** `private static final` takes the private prefix, not the constant spelling. */
  lemma PrivateConstantName(f: JavaField, floatText: string -> Option<FloatText>)
    requires "private" in f.modifiers && "static" in f.modifiers && "final" in f.modifiers
    ensures MapField(f, floatText).isConstant
    ensures MapField(f, floatText).pythonName == Some("_" + f.name)
  {
  }

  /** `public static final int maxSize` is renamed `MAXSIZE` (no underscore is inserted). */
  lemma ConstantMaxSize(f: JavaField, floatText: string -> Option<FloatText>)
    requires f.name == "maxSize" && "static" in f.modifiers && "final" in f.modifiers && "private" !in f.modifiers
    ensures MapField(f, floatText).pythonName == Some("MAXSIZE")
  {
    var u := Upper(f.name);
    assert |u| == 7;
    forall k | 0 <= k < 7 ensures u[k] == "MAXSIZE"[k] { }
    assert u == "MAXSIZE";
    assert MapField(f, floatText).pythonName.value == u;
  }

  // ---------------------------------------------------------------- methods

  /** One mapped parameter: its type through `map_type`, annotated `name: type`. */
  function MapParam(p: JavaParam): PyParam {
    var t := MapType(p.typ);
    PyParam(p.name, t, Some(p.name + ": " + t))
  }

  /** A mapped parameter keeps its name, and its annotation is that name, `: `, and the mapped type. */
  lemma MapParamAnnotation(p: JavaParam)
    ensures MapParam(p).name == p.name && MapParam(p).typ == MapType(p.typ)
    ensures var a := MapParam(p).annotation;
      a.Some? && StartsWith(a.value, p.name + ": ") && a.value[|p.name| + 2..] == MapParam(p).typ
  {
    var a := p.name + ": " + MapType(p.typ);
    assert a[..|p.name + ": "|] == p.name + ": ";
  }

  /** The parameters mapped one by one, in order. */
  function MapParams(ps: seq<JavaParam>): (r: seq<PyParam>)
    ensures |r| == |ps|
    ensures forall k :: 0 <= k < |ps| ==> r[k] == MapParam(ps[k])
  {
    MapSeq(MapParam, ps)
  }

  /** `@staticmethod` when static, then `@abstractmethod` when abstract. */
  function Decorators(mods: Modifiers): (r: seq<string>)
    ensures "@staticmethod" in r <==> mods.isStatic
    ensures "@abstractmethod" in r <==> mods.isAbstract
    ensures forall i, j :: 0 <= i < j < |r| ==> r[i] == "@staticmethod" && r[j] == "@abstractmethod"
  {
    (if mods.isStatic then ["@staticmethod"] else []) + (if mods.isAbstract then ["@abstractmethod"] else [])
  }

  /** A method's Python name: snake case, with a leading `_` exactly when private. */
  function MethodPythonName(name: string, isPrivate: bool): (r: string)
    ensures !HasUpper(r)
    ensures isPrivate <==> r == "_" + ToSnakeCase(name)
    ensures !isPrivate ==> r == ToSnakeCase(name)
  {
    var snake := ToSnakeCase(name);
    assert snake != "_" + snake by { assert |"_" + snake| == |snake| + 1; }
    var r := if isPrivate then "_" + snake else snake;
    assert !HasUpper(r) by {
      if isPrivate {
        forall k | 0 <= k < |r| ensures !IsUpper(r[k]) {
          if k > 0 { assert r[k] == snake[k - 1]; }
        }
      }
    }
    r
  }

  /** What `map_method` returns. */
  function MappedMethod(m: JavaMethod): PyMethod {
    var mods := MapModifiers(m.modifiers);
    PyMethod(
      m.name, Some(MethodPythonName(m.name, mods.isPrivate)),
      MapParams(m.parameters), Some(MapType(m.returnType)),
      mods.isStatic, mods.isAbstract, mods.isPrivate, m.body, Decorators(mods))
  }

  /**
   * A mapped method keeps its name and body, maps its parameters in order
   * and its return type, and takes its Python name and decorators as
   * `MethodPythonName` and `Decorators` state.
   */
  lemma MappedMethodShape(m: JavaMethod)
    ensures var r := MappedMethod(m);
      r.name == m.name && r.body == m.body && r.returnType == Some(MapType(m.returnType))
      && |r.parameters| == |m.parameters|
      && (forall k :: 0 <= k < |m.parameters| ==> r.parameters[k] == MapParam(m.parameters[k]))
      && r.pythonName == Some(MethodPythonName(m.name, "private" in m.modifiers))
      && r.decorators == Decorators(MapModifiers(m.modifiers))
  {
  }

  /** `map_method`, which builds the parameter and decorator lists by appending. */
  method MapMethod(m: JavaMethod) returns (r: PyMethod)
    ensures r == MappedMethod(m)
  {
    var mods := MapModifiers(m.modifiers);
    var params: seq<PyParam> := [];
    var i := 0;
    while i < |m.parameters|
      invariant 0 <= i <= |m.parameters|
      invariant params == MapParams(m.parameters[..i])
    {
      MapSeqSnoc(MapParam, m.parameters, i);
      params := params + [MapParam(m.parameters[i])];
      i := i + 1;
    }
    assert m.parameters[..i] == m.parameters;
    var decorators: seq<string> := [];
    if mods.isStatic {
      decorators := decorators + ["@staticmethod"];
    }
    if mods.isAbstract {
      decorators := decorators + ["@abstractmethod"];
    }
    r := PyMethod(m.name, Some(MethodPythonName(m.name, mods.isPrivate)), params, Some(MapType(m.returnType)),
      mods.isStatic, mods.isAbstract, mods.isPrivate, m.body, decorators);
  }

  /** What `map_constructor` returns: always named `__init__`. */
  function MappedConstructor(c: JavaConstructor): PyConstructor {
    PyConstructor("__init__", MapParams(c.parameters), c.body)
  }

  /** `map_constructor`: the parameters mapped in order, the name `__init__`, the body untouched. */
  method MapConstructor(c: JavaConstructor) returns (r: PyConstructor)
    ensures r == MappedConstructor(c)
    ensures r.name == "__init__" && r.body == c.body
    ensures |r.parameters| == |c.parameters|
  {
    var params: seq<PyParam> := [];
    var i := 0;
    while i < |c.parameters|
      invariant 0 <= i <= |c.parameters|
      invariant params == MapParams(c.parameters[..i])
    {
      MapSeqSnoc(MapParam, c.parameters, i);
      params := params + [MapParam(c.parameters[i])];
      i := i + 1;
    }
    assert c.parameters[..i] == c.parameters;
    r := PyConstructor("__init__", params, c.body);
  }

  // ---------------------------------------------------------------- classes

  /** `[extends]` when truthy, followed by the interfaces in order. */
  function BaseClasses(c: JavaClass): (r: seq<string>)
    ensures |r| == (if c.HasSuperclass() then 1 else 0) + |c.interfaces|
    ensures c.HasSuperclass() ==> r[0] == c.superclass.value
    ensures r[|r| - |c.interfaces|..] == c.interfaces
  {
    (if c.HasSuperclass() then [c.superclass.value] else []) + c.interfaces
  }

  function MapFields(fs: seq<JavaField>, floatText: string -> Option<FloatText>): (r: seq<PyField>)
    ensures |r| == |fs|
    ensures forall k :: 0 <= k < |fs| ==> r[k] == MapField(fs[k], floatText)
  {
    MapSeq(f => MapField(f, floatText), fs)
  }

  function MappedMethods(ms: seq<JavaMethod>): (r: seq<PyMethod>)
    ensures |r| == |ms|
    ensures forall k :: 0 <= k < |ms| ==> r[k] == MappedMethod(ms[k])
  {
    MapSeq(MappedMethod, ms)
  }

  function MappedConstructors(cs: seq<JavaConstructor>): (r: seq<PyConstructor>)
    ensures |r| == |cs|
    ensures forall k :: 0 <= k < |cs| ==> r[k] == MappedConstructor(cs[k])
  {
    MapSeq(MappedConstructor, cs)
  }

  /** What `map_class` returns. */
  function MappedClass(c: JavaClass, floatText: string -> Option<FloatText>): PyClass {
    PyClass(
      c.name, BaseClasses(c), MapFields(c.fields, floatText), MappedMethods(c.methods),
      MappedConstructors(c.constructors), "abstract" in c.modifiers)
  }

  /**
   * `map_class`: fields, methods and constructors keep their number and
   * order, each mapped on its own; every constructor becomes `__init__`.
   */
  method MapClass(c: JavaClass, floatText: string -> Option<FloatText>) returns (r: PyClass)
    ensures r == MappedClass(c, floatText)
  {
    var bases: seq<string> := [];
    if c.HasSuperclass() {
      bases := bases + [c.superclass.value];
    }
    if c.interfaces != [] {
      bases := bases + c.interfaces;
    }
    assert bases == BaseClasses(c);
    var fields := MapFields(c.fields, floatText);
    var methods: seq<PyMethod> := [];
    var i := 0;
    while i < |c.methods|
      invariant 0 <= i <= |c.methods|
      invariant methods == MappedMethods(c.methods[..i])
    {
      var pm := MapMethod(c.methods[i]);
      MapSeqSnoc(MappedMethod, c.methods, i);
      methods := methods + [pm];
      i := i + 1;
    }
    assert c.methods[..i] == c.methods;
    var constructors: seq<PyConstructor> := [];
    i := 0;
    while i < |c.constructors|
      invariant 0 <= i <= |c.constructors|
      invariant constructors == MappedConstructors(c.constructors[..i])
    {
      var pc := MapConstructor(c.constructors[i]);
      MapSeqSnoc(MappedConstructor, c.constructors, i);
      constructors := constructors + [pc];
      i := i + 1;
    }
    assert c.constructors[..i] == c.constructors;
    r := PyClass(c.name, bases, fields, methods, constructors, "abstract" in c.modifiers);
  }

  /**
   * A mapped class keeps the name, the number and order of fields, methods
   * and constructors (each mapped on its own), lists the superclass before
   * the interfaces, and names every constructor `__init__`.
   */
  lemma MappedClassShape(c: JavaClass, floatText: string -> Option<FloatText>)
    ensures var r := MappedClass(c, floatText);
      r.name == c.name && r.baseClasses == BaseClasses(c)
      && |r.fields| == |c.fields| && |r.methods| == |c.methods| && |r.constructors| == |c.constructors|
      && (forall k :: 0 <= k < |c.fields| ==> r.fields[k] == MapField(c.fields[k], floatText))
      && (forall k :: 0 <= k < |c.methods| ==> r.methods[k] == MappedMethod(c.methods[k]))
      && (forall k :: 0 <= k < |c.constructors| ==> r.constructors[k].name == "__init__")
      && (r.isAbstract <==> "abstract" in c.modifiers)
  {
  }

  // ---------------------------------------------------------------- imports

  /** `IMPORT_MAPPING`: the Java imports the mapper knows; an empty value means nothing is imported. */
  const ImportMapping: map<string, string> := map[
    "java.util.List" := "from typing import List",
    "java.util.ArrayList" := "",
    "java.util.Set" := "from typing import Set",
    "java.util.HashSet" := "",
    "java.util.Map" := "from typing import Dict",
    "java.util.HashMap" := "",
    "java.io.IOException" := "",
    "java.lang.String" := ""]

  /** `IMPORT_MAPPING.get(i, '')`. */
  function LookupImport(i: string): string {
    if i in ImportMapping then ImportMapping[i] else ""
  }

  /**
   * `map_imports`: the non-empty mapped statements of the Java imports,
   * without duplicates, in code-point order. Unknown imports are dropped.
   */
  method MapImports(imports: seq<string>) returns (r: seq<string>)
    ensures StrictlySorted(r)
    ensures forall x :: x in r <==> x != "" && exists i :: 0 <= i < |imports| && LookupImport(imports[i]) == x
  {
    var found: seq<string> := [];
    var i := 0;
    while i < |imports|
      invariant 0 <= i <= |imports|
      invariant forall x :: x in found <==> x != "" && exists j :: 0 <= j < i && LookupImport(imports[j]) == x
    {
      var mapped := LookupImport(imports[i]);
      if mapped != "" {
        found := found + [mapped];
      }
      i := i + 1;
    }
    r := SortedUnique(found);
  }

  /** Every statement `map_imports` can produce is one of the three `typing` imports. */
  lemma MappedImportsAreTyping(i: string)
    requires LookupImport(i) != ""
    ensures LookupImport(i) in {"from typing import List", "from typing import Set", "from typing import Dict"}
  {
  }

  // -------------------------------------------------------------- structure

  /** What `map_structure` returns: the mapped imports and the classes mapped in order. */
  function MappedStructure(s: JavaStructure, imports: seq<string>, floatText: string -> Option<FloatText>): PyStructure {
    PyStructure(imports, MappedClasses(s.classes, floatText))
  }

  function MappedClasses(cs: seq<JavaClass>, floatText: string -> Option<FloatText>): (r: seq<PyClass>)
    ensures |r| == |cs|
    ensures forall k :: 0 <= k < |cs| ==> r[k] == MappedClass(cs[k], floatText)
  {
    MapSeq(c => MappedClass(c, floatText), cs)
  }

  /** The mapper object: it remembers the last structure it mapped (`{}` before the first call). */
  class SemanticMapper {
    var mappedStructure: Option<PyStructure>

    constructor ()
      ensures mappedStructure == None
    {
      mappedStructure := None;
    }

    /**
     * `map_structure`: imports through `map_imports`, the classes mapped
     * one by one in order; the result is also stored on the mapper.
     */
    method MapStructure(s: JavaStructure, floatText: string -> Option<FloatText>) returns (r: PyStructure)
      modifies this
      ensures mappedStructure == Some(r)
      ensures StrictlySorted(r.imports)
      ensures forall x :: x in r.imports <==> x != "" && exists i :: 0 <= i < |s.imports| && LookupImport(s.imports[i]) == x
      ensures r == MappedStructure(s, r.imports, floatText)
      ensures |r.classes| == |s.classes|
    {
      var imports := MapImports(s.imports);
      var classes: seq<PyClass> := [];
      var i := 0;
      while i < |s.classes|
        invariant 0 <= i <= |s.classes|
        invariant classes == MappedClasses(s.classes[..i], floatText)
      {
        var pc := MapClass(s.classes[i], floatText);
        MapSeqSnoc(c => MappedClass(c, floatText), s.classes, i);
        classes := classes + [pc];
        i := i + 1;
      }
      assert s.classes[..i] == s.classes;
      r := PyStructure(imports, classes);
      mappedStructure := Some(r);
    }
  }
}
