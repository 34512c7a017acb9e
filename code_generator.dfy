/**
 * The code generator (`src/code_generater.py`): renders the mapped record as
 * Python source text. Fields become annotated declarations, methods become
 * signatures over a placeholder body (no statement is translated), the first
 * constructor becomes a single `__init__` that assigns the instance fields,
 * and the file gets a header docstring, a sorted import block and a
 * `__main__` stub. A formatter collapses runs of blank lines.
 *
 * Every piece is specified as a list of lines joined by newlines; the
 * generator object's methods build those lists by appending, as the source
 * does, and are proved to produce the specified text.
 */
module CodeGeneration {
  import opened Wrappers
  import opened Text
  import opened Seqs
  import opened PythonModel
  import JavaModel

  // ------------------------------------------------------------ indentation

  /** `' ' * n`: empty when `n` is not positive. */
  function Spaces(n: int): (r: string)
    ensures |r| == (if n <= 0 then 0 else n)
    ensures forall k :: 0 <= k < |r| ==> r[k] == ' '
  {
    if n <= 0 then "" else seq(n, _ => ' ')
  }

  /** One line under `textwrap.indent`: prefixed unless it is whitespace only. */
  function IndentLine(prefix: string, line: string): string {
    if IsBlank(line) then line else prefix + line
  }

  /** The lines, each under `IndentLine`, glued back together. */
  function IndentAll(prefix: string, lines: seq<string>): string
    decreases |lines|
  {
    if lines == [] then "" else IndentLine(prefix, lines[0]) + IndentAll(prefix, lines[1..])
  }

  /**
   * `_indent(code, level)`, that is `textwrap.indent`: every line of
   * `code.splitlines(True)` that is not whitespace only gets `size * level`
   * spaces in front.
   */
  function Indent(size: int, code: string, level: int): string {
    IndentAll(Spaces(size * level), KeepLines(code))
  }

  /** An indented line piece is still one line piece, ending as it did. */
  lemma IndentPiece(prefix: string, a: string)
    requires forall i :: 0 <= i < |prefix| ==> prefix[i] == ' '
    requires KeepLines(a) == [a]
    ensures var oa := IndentLine(prefix, a);
      KeepLines(oa) == [oa] && oa[|oa| - 1] == a[|a| - 1] && (oa[0] == a[0] || oa[0] == ' ')
  {
    assert a != [];
    if !IsBlank(a) {
      assert NoLineBreak(prefix);
      KeepLinesPrefix(prefix, a);
    }
  }

  /** Indenting line pieces and splitting the result again gives each piece indented. */
  lemma {:induction false} IndentAllLines(prefix: string, ls: seq<string>)
    requires forall i :: 0 <= i < |prefix| ==> prefix[i] == ' '
    requires LinePieces(ls)
    ensures var out := KeepLines(IndentAll(prefix, ls));
      |out| == |ls| && forall k :: 0 <= k < |ls| ==> out[k] == IndentLine(prefix, ls[k])
    decreases |ls|
  {
    if ls != [] {
      var a, rest := ls[0], ls[1..];
      var oa := IndentLine(prefix, a);
      assert KeepLines(a) == [a];
      IndentPiece(prefix, a);
      if rest == [] {
        assert IndentAll(prefix, ls) == oa + "";
        assert oa + "" == oa;
      } else {
        assert LinePieces(rest) by {
          assert forall k :: 0 <= k < |rest| ==> rest[k] == ls[k + 1];
        }
        IndentAllLines(prefix, rest);
        var tail := IndentAll(prefix, rest);
        var out := KeepLines(tail);
        assert EndsLine(oa, tail) by {
          assert KeepLines(rest[0]) == [rest[0]];
          IndentPiece(prefix, rest[0]);
          assert tail != [] && tail[0] == out[0][0];
          assert EndsLine(a, rest[0]);
        }
        KeepLinesAppend(oa, tail);
        assert KeepLines(IndentAll(prefix, ls)) == [oa] + out;
      }
    }
  }

  /**
   * Indenting keeps the number of lines; a whitespace-only line is kept
   * as it is and every other line gets exactly the prefix in front.
   */
  lemma IndentLines(size: int, code: string, level: int)
    ensures var ls, out := KeepLines(code), KeepLines(Indent(size, code, level));
      |out| == |ls|
      && forall k :: 0 <= k < |ls| ==>
           (IsBlank(ls[k]) && out[k] == ls[k]) || (!IsBlank(ls[k]) && out[k] == Spaces(size * level) + ls[k])
  {
    KeepLinesArePieces(code);
    IndentAllLines(Spaces(size * level), KeepLines(code));
  }

  /** A single line is indented by `IndentLine`. */
  lemma IndentOneLine(size: int, line: string, level: int)
    requires NoLineBreak(line)
    ensures Indent(size, line, level) == IndentLine(Spaces(size * level), line)
  {
    var prefix := Spaces(size * level);
    if line != [] {
      KeepLinesNoBreak(line);
      assert IndentAll(prefix, [line]) == IndentLine(prefix, line) + "";
    }
  }

  // ---------------------------------------------------------------- imports

  /** The typing import every non-empty import block carries. */
  const StandardImport: string := "from typing import Dict, List, Any, Optional"

  /**
   * `generate_imports`: nothing for no imports; otherwise the standard line
   * and the given ones, deduplicated and sorted, one per line, followed by
   * an empty line.
   */
  function GenerateImports(imports: seq<string>): (r: string)
    ensures r == "" <==> imports == []
  {
    if imports == [] then ""
    else
      var block := Join(SortedUnique([StandardImport] + imports), "\n") + "\n\n";
      assert block[|block| - 1] == '\n';
      block
  }

  lemma {:induction false} JoinSnoc(a: seq<string>, x: string, sep: string)
    requires a != []
    ensures Join(a + [x], sep) == Join(a, sep) + sep + x
    decreases |a|
  {
    if |a| == 1 {
      assert a + [x] == [a[0], x];
      assert [a[0], x][1..] == [x];
    } else {
      assert (a + [x])[1..] == a[1..] + [x];
      JoinSnoc(a[1..], x, sep);
    }
  }

  lemma StandardImportOneLine()
    ensures '\n' !in StandardImport
  {
    var t := StandardImport;
    forall k | 0 <= k < |t| ensures t[k] != '\n' {}
  }

  /** The import block as one line list: the sorted lines, then two empty lines. */
  lemma ImportBlockJoin(imports: seq<string>)
    requires imports != []
    ensures GenerateImports(imports) == Join(SortedUnique([StandardImport] + imports) + ["", ""], "\n")
  {
    var u := SortedUnique([StandardImport] + imports);
    assert u != [] by { assert StandardImport in u; }
    JoinSnoc(u, "", "\n");
    JoinSnoc(u + [""], "", "\n");
    assert u + [""] + [""] == u + ["", ""];
  }

  /**
   * A non-empty import block is, line by line, the strictly sorted list of
   * the standard line and the given imports, then two empty lines (the
   * trailing blank line and the end of the text).
   */
  lemma ImportBlockLines(imports: seq<string>)
    requires imports != []
    requires forall i :: 0 <= i < |imports| ==> '\n' !in imports[i]
    ensures var ls := SplitLines(GenerateImports(imports));
      |ls| >= 3 && ls[|ls| - 2..] == ["", ""]
      && StrictlySorted(ls[..|ls| - 2])
      && forall x :: x in ls[..|ls| - 2] <==> x == StandardImport || x in imports
  {
    var all := [StandardImport] + imports;
    var u := SortedUnique(all);
    var ls := u + ["", ""];
    assert StandardImport in u;
    StandardImportOneLine();
    forall k | 0 <= k < |ls| ensures '\n' !in ls[k] {
      if k < |u| && u[k] != StandardImport {
        assert u[k] in all;
        assert u[k] in imports;
        var i :| 0 <= i < |imports| && imports[i] == u[k];
      }
    }
    ImportBlockJoin(imports);
    SplitJoinLines(ls);
    assert ls[..|u|] == u;
    assert ls[|u|..] == ["", ""];
  }

  // ----------------------------------------------------------------- fields

  /** `field.get('python_name', field['name'])`. */
  function FieldName(f: PyField): string { f.pythonName.GetOr(f.name) }

  /** `field.get('type', 'Any')`. */
  function FieldType(f: PyField): string { f.typ.GetOr("Any") }

  /** `name: type`, the common head of both field forms. */
  function FieldDecl(f: PyField): string { FieldName(f) + ": " + FieldType(f) }

  /** A field is declared under its Python name when it has one, and typed `Any` when it has no type. */
  lemma FieldNameAndType(f: PyField)
    ensures f.pythonName.None? && f.typ.None? ==> FieldDecl(f) == f.name + ": Any"
    ensures f.pythonName.Some? ==> StartsWith(FieldDecl(f), f.pythonName.value + ": ")
    ensures f.typ.Some? ==> EndsWith(FieldDecl(f), ": " + f.typ.value)
  {
    var d := FieldDecl(f);
    var head := FieldName(f) + ": ";
    assert d == head + FieldType(f);
    assert d[..|head|] == head;
    assert d[|d| - |": " + FieldType(f)|..] == ": " + FieldType(f);
  }

  /**
   * `generate_field`: at class level (asked for, or a class variable)
   * `name: T = init` or `name: T`; otherwise `self.name: T = init` or
   * `self.name: T = None`. An empty initializer counts as none.
   */
  function GenerateField(f: PyField, classLevel: bool): string {
    if classLevel || f.isClassVariable then
      if f.HasInitializer() then FieldDecl(f) + " = " + f.initializer.value else FieldDecl(f)
    else
      "self." + FieldDecl(f) + " = " + (if f.HasInitializer() then f.initializer.value else "None")
  }

  /**
   * The two forms: a class-level declaration starts with the declaration and
   * assigns only a truthy initializer; an instance declaration always
   * assigns, the initializer or `None`; an empty initializer renders as a
   * missing one.
   */
  lemma FieldForms(f: PyField, classLevel: bool)
    ensures GenerateField(f.(initializer := Some("")), classLevel) == GenerateField(f.(initializer := None), classLevel)
    ensures classLevel || f.isClassVariable ==>
      StartsWith(GenerateField(f, classLevel), FieldDecl(f))
      && (GenerateField(f, classLevel) == FieldDecl(f) <==> !f.HasInitializer())
    ensures !classLevel && !f.isClassVariable ==>
      var value := if f.HasInitializer() then f.initializer.value else "None";
      StartsWith(GenerateField(f, classLevel), "self." + FieldDecl(f) + " = ")
      && EndsWith(GenerateField(f, classLevel), " = " + value)
  {
    var r := GenerateField(f, classLevel);
    var d := FieldDecl(f);
    if classLevel || f.isClassVariable {
      assert r[..|d|] == d;
      if f.HasInitializer() { assert |r| > |d|; }
    } else {
      var value := if f.HasInitializer() then f.initializer.value else "None";
      var head := "self." + d + " = ";
      assert r == head + value;
      assert r[..|head|] == head;
      assert r[|r| - |" = " + value|..] == " = " + value;
    }
  }

  // -------------------------------------------------------- parameter lists

  /** `param.get('annotation', param['name'])`. */
  function ParamText(p: PyParam): string { p.annotation.GetOr(p.name) }

  /** The entries of a parameter list: `self` first when asked for, then each parameter's text in order. */
  function ParameterParts(params: seq<PyParam>, includeSelf: bool): (r: seq<string>)
    ensures |r| == |params| + (if includeSelf then 1 else 0)
    ensures includeSelf ==> r[0] == "self"
    ensures var off := if includeSelf then 1 else 0;
      forall k :: 0 <= k < |params| ==> r[off + k] == ParamText(params[k])
  {
    (if includeSelf then ["self"] else []) + MapSeq(ParamText, params)
  }

  // ---------------------------------------------------------------- methods

  /** The placeholder docstring every generated body holds. */
  const BodyDocstring: string := "\"\"\"TODO: 实现方法体\"\"\""

  /** `method.get('python_name', method['name'])`. */
  function MethodName(m: PyMethod): string { m.pythonName.GetOr(m.name) }

  /** `self` is passed unless the method is static or is `__init__`. */
  predicate TakesSelf(m: PyMethod) { !m.isStatic && MethodName(m) != "__init__" }

  /** `def name(params) -> T:`, with `None` when no return type is recorded. */
  function Signature(m: PyMethod): string {
    "def " + MethodName(m) + "(" + Join(ParameterParts(m.parameters, TakesSelf(m)), ", ") + ") -> "
      + m.returnType.GetOr("None") + ":"
  }

  /** The lines of `generate_method`: decorators, signature, placeholder docstring, `pass`. */
  function MethodLines(size: int, m: PyMethod): seq<string> {
    m.decorators + [Signature(m), Indent(size, BodyDocstring, 1), Indent(size, "pass", 1)]
  }

  /** A single line that does not start with whitespace gets the whole prefix. */
  lemma IndentWord(size: int, line: string, level: int)
    requires NoLineBreak(line) && line != [] && !IsSpace(line[0])
    ensures Indent(size, line, level) == Spaces(size * level) + line
  {
    IndentOneLine(size, line, level);
  }

  /** The placeholder docstring, indented one level. */
  lemma DocstringLine(size: int)
    ensures Indent(size, BodyDocstring, 1) == Spaces(size) + BodyDocstring
  {
    var d := BodyDocstring;
    assert NoLineBreak(d) by {
      forall k | 0 <= k < |d| ensures !IsLineBreak(d[k]) {}
    }
    IndentWord(size, d, 1);
  }

  /** `pass`, indented one level. */
  lemma PassLine(size: int)
    ensures Indent(size, "pass", 1) == Spaces(size) + "pass"
  {
    var p := "pass";
    assert NoLineBreak(p) by {
      forall k | 0 <= k < |p| ensures !IsLineBreak(p[k]) {}
    }
    IndentWord(size, p, 1);
  }

  /** Appending three items one at a time appends the three of them. */
  lemma AppendThree<T>(d: seq<T>, a: T, b: T, c: T)
    ensures d + [a] + [b] + [c] == d + [a, b, c]
  {
  }

  /**
   * A generated method is its decorators in order, the signature, and a
   * body of exactly the indented docstring and `pass`, whatever the body
   * holds.
   */
  lemma MethodShape(size: int, m: PyMethod, body: JavaModel.Body)
    ensures var ls := MethodLines(size, m);
      |ls| == |m.decorators| + 3
      && ls[..|m.decorators|] == m.decorators
      && ls[|m.decorators|] == Signature(m)
      && ls[|m.decorators| + 1] == Spaces(size) + BodyDocstring
      && ls[|m.decorators| + 2] == Spaces(size) + "pass"
    ensures MethodLines(size, m.(body := body)) == MethodLines(size, m)
  {
    DocstringLine(size);
    PassLine(size);
    var ls := MethodLines(size, m);
    assert ls[..|m.decorators|] == m.decorators;
  }

  // ----------------------------------------------------------- constructors

  /** A class variable or a constant is declared in the class body. */
  predicate IsClassLevel(f: PyField) { f.isClassVariable || f.isConstant }

  /** Every other field is inits in `__init__`. */
  predicate IsInstanceField(f: PyField) { !f.isClassVariable && !f.isConstant }

  function ClassVariables(fs: seq<PyField>): seq<PyField> { Filter(IsClassLevel, fs) }

  function InstanceFields(fs: seq<PyField>): seq<PyField> { Filter(IsInstanceField, fs) }

  /**
   * Each field lands in exactly one of the two groups: the groups together
   * hold every field as often as the class does, the class-level group only
   * class variables and constants, the instance group only the others.
   */
  lemma FieldsPartition(fs: seq<PyField>)
    ensures |ClassVariables(fs)| + |InstanceFields(fs)| == |fs|
    ensures multiset(ClassVariables(fs)) + multiset(InstanceFields(fs)) == multiset(fs)
    ensures forall f :: f in ClassVariables(fs) <==> f in fs && IsClassLevel(f)
    ensures forall f :: f in InstanceFields(fs) <==> f in fs && IsInstanceField(f)
  {
    FilterPartition(IsClassLevel, IsInstanceField, fs);
    FilterMembers(IsClassLevel, fs);
    FilterMembers(IsInstanceField, fs);
  }

  /** The assignment line of one instance field inside `__init__`. */
  function InitLine(size: int, f: PyField): string { Indent(size, GenerateField(f, false), 1) }

  /** `def __init__(self, params):`. */
  function InitSignature(params: seq<PyParam>): string {
    "def __init__(" + Join(ParameterParts(params, true), ", ") + "):"
  }

  /**
   * The lines of `generate_constructor`: the signature, then one assignment
   * per instance field among `fields` in order, or `pass` when there is none.
   */
  function ConstructorLines(size: int, params: seq<PyParam>, fields: seq<PyField>): seq<string> {
    var inits := InstanceFields(fields);
    var body := if inits == [] then [Indent(size, "pass", 1)] else MapSeq(f => InitLine(size, f), inits);
    [InitSignature(params)] + body
  }

  /** `__init__` takes `self` and the parameters, and has one body line per instance field (at least one line). */
  lemma ConstructorSignature(size: int, params: seq<PyParam>, fields: seq<PyField>)
    ensures var ls, inits := ConstructorLines(size, params, fields), InstanceFields(fields);
      ls[0] == InitSignature(params)
      && |ls| == 1 + (if inits == [] then 1 else |inits|)
      && ParameterParts(params, true)[0] == "self"
  {
  }

  /**
   * Body line `k` assigns instance field `k` (in the order of the fields)
   * to its initializer or `None`: the parameters are never assigned to
   * fields.
   */
  lemma ConstructorAssigns(size: int, params: seq<PyParam>, fields: seq<PyField>, k: nat)
    requires k < |InstanceFields(fields)|
    ensures var ls, inits := ConstructorLines(size, params, fields), InstanceFields(fields);
      |ls| == 1 + |inits| && ls[1 + k] == InitLine(size, inits[k])
  {
    var inits := InstanceFields(fields);
    var body := MapSeq(f => InitLine(size, f), inits);
    assert ConstructorLines(size, params, fields) == [InitSignature(params)] + body by {
      assert inits != [];
    }
    assert body[k] == InitLine(size, inits[k]);
    assert ([InitSignature(params)] + body)[1 + k] == body[k];
  }

  /** Without instance fields the body is a single indented `pass`. */
  lemma ConstructorPass(size: int, params: seq<PyParam>, fields: seq<PyField>)
    requires InstanceFields(fields) == []
    ensures ConstructorLines(size, params, fields) == [InitSignature(params), Spaces(size) + "pass"]
  {
    PassLine(size);
  }

  /** Handing over only the instance fields, as the class generator does, gives the same constructor. */
  lemma ConstructorRefilter(size: int, params: seq<PyParam>, fields: seq<PyField>)
    ensures ConstructorLines(size, params, InstanceFields(fields)) == ConstructorLines(size, params, fields)
  {
    FilterIdempotent(IsInstanceField, fields);
  }

  // ---------------------------------------------------------------- classes

  /** `class Name(B1, B2):`, or `class Name:` without base classes. */
  function ClassHeader(c: PyClass): string {
    if c.baseClasses != [] then "class " + c.name + "(" + Join(c.baseClasses, ", ") + "):"
    else "class " + c.name + ":"
  }

  /** The docstring every generated class carries. */
  function ClassDocstring(name: string): string {
    "\"\"\"Java 类 " + name + " 的 Python 实现\"\"\""
  }

  /** The declaration line of one class-level field. */
  function ClassVarLine(size: int, f: PyField): string { Indent(size, GenerateField(f, true), 1) }

  /** The text of one method. */
  function MethodText(size: int, m: PyMethod): string { Join(MethodLines(size, m), "\n") }

  /** Each method's text indented into the class, followed by an empty line. */
  function MethodBlocks(size: int, ms: seq<PyMethod>): (r: seq<string>)
    ensures |r| == 2 * |ms|
    decreases |ms|
  {
    if ms == [] then []
    else MethodBlocks(size, ms[..|ms| - 1]) + [Indent(size, MethodText(size, ms[|ms| - 1]), 1), ""]
  }

  /** One round of the method loop of `generate_class`. */
  lemma MethodBlocksStep(size: int, ms: seq<PyMethod>, j: nat, lines: seq<string>, code: string)
    requires j < |ms| && lines == MethodBlocks(size, ms[..j]) && code == MethodText(size, ms[j])
    ensures lines + [Indent(size, code, 1), ""] == MethodBlocks(size, ms[..j + 1])
  {
    assert ms[..j + 1][..j] == ms[..j];
  }

  /** The `__init__` block: from the first constructor, or synthesised when only instance fields need one. */
  function InitBlock(size: int, c: PyClass): seq<string> {
    var inst := InstanceFields(c.fields);
    if c.constructors != [] then [Indent(size, Join(ConstructorLines(size, c.constructors[0].parameters, inst), "\n"), 1), ""]
    else if inst != [] then [Indent(size, Join(ConstructorLines(size, [], inst), "\n"), 1), ""]
    else []
  }

  /** Header, docstring and an empty line, then the class-level fields and an empty line after them. */
  function ClassPrelude(size: int, c: PyClass): seq<string> {
    var cv := ClassVariables(c.fields);
    [ClassHeader(c), Indent(size, ClassDocstring(c.name), 1), ""]
    + MapSeq(f => ClassVarLine(size, f), cv) + (if cv != [] then [""] else [])
  }

  /**
   * The lines of `generate_class`: the prelude, the `__init__` block, each
   * method, and `pass` when nothing followed the docstring.
   */
  function ClassLines(size: int, c: PyClass): seq<string> {
    var body := ClassPrelude(size, c) + InitBlock(size, c) + MethodBlocks(size, c.methods);
    if |body| == 3 then body + [Indent(size, "pass", 1)] else body
  }

  lemma PreludeLength(size: int, c: PyClass)
    ensures var cv := ClassVariables(c.fields);
      |ClassPrelude(size, c)| == 3 + |cv| + (if cv != [] then 1 else 0)
  {
  }

  lemma InitBlockLength(size: int, c: PyClass)
    ensures |InitBlock(size, c)| == if c.constructors != [] || InstanceFields(c.fields) != [] then 2 else 0
  {
  }

  lemma PreludeAssembled(size: int, c: PyClass, lines: seq<string>)
    requires var cv := ClassVariables(c.fields);
      lines == [ClassHeader(c), Indent(size, ClassDocstring(c.name), 1), ""]
        + MapSeq(f => ClassVarLine(size, f), cv) + (if cv != [] then [""] else [])
    ensures lines == ClassPrelude(size, c)
  {
  }

  lemma ClassLinesAssembled(size: int, c: PyClass, body: seq<string>)
    requires body == ClassPrelude(size, c) + InitBlock(size, c) + MethodBlocks(size, c.methods)
    ensures ClassLines(size, c) == if |body| == 3 then body + [Indent(size, "pass", 1)] else body
  {
  }

  /**
   * How many lines a class has: three for the head, one per class-level
   * field plus a separator, two for an `__init__` block (present iff there
   * is a constructor or an instance field), two per method, and a final
   * `pass` exactly when the class has no field, constructor or method.
   */
  lemma ClassLineCount(size: int, c: PyClass)
    ensures var cv, inst := ClassVariables(c.fields), InstanceFields(c.fields);
      var hasInit := c.constructors != [] || inst != [];
      var empty := c.fields == [] && c.constructors == [] && c.methods == [];
      |ClassLines(size, c)| ==
        3 + |cv| + (if cv != [] then 1 else 0) + (if hasInit then 2 else 0) + 2 * |c.methods| + (if empty then 1 else 0)
  {
    FieldsPartition(c.fields);
    PreludeLength(size, c);
    InitBlockLength(size, c);
  }

  /** A class with no field, constructor or method is its head and an indented `pass`. */
  lemma EmptyClassLines(size: int, c: PyClass)
    requires c.fields == [] && c.constructors == [] && c.methods == []
    ensures ClassLines(size, c) == [ClassHeader(c), Indent(size, ClassDocstring(c.name), 1), "", Spaces(size) + "pass"]
  {
    PassLine(size);
    assert ClassVariables(c.fields) == [] && InstanceFields(c.fields) == [];
    assert ClassPrelude(size, c) == [ClassHeader(c), Indent(size, ClassDocstring(c.name), 1), ""];
  }

  /** Only the first constructor is rendered: dropping the others changes nothing. */
  lemma FirstConstructorOnly(size: int, c: PyClass)
    requires c.constructors != []
    ensures ClassLines(size, c) == ClassLines(size, c.(constructors := c.constructors[..1]))
  {
    var d := c.(constructors := c.constructors[..1]);
    assert d.constructors[0] == c.constructors[0];
    assert InitBlock(size, d) == InitBlock(size, c);
  }

  // ------------------------------------------------------------------ files

  /** The module docstring every generated file opens with. */
  const DocQuotes: string := "\"\"\""
  const HeaderTitle: string := "自动从 Java 代码迁移生成"
  const HeaderTool: string := "Generated by Java to Python Migration Tool"
  const FileHeader: seq<string> := [DocQuotes, HeaderTitle, HeaderTool, DocQuotes, ""]

  /** The entry-point stub every generated file closes with; its first part adds two blank lines. */
  const MainGuard: string := "if __name__ == \"__main__\":"
  const MainTodo: string := "    # TODO: 添加主程序入口"
  const MainStub: seq<string> := ["\n", MainGuard, MainTodo, "    pass"]

  /** The text of one class. */
  function ClassText(size: int, c: PyClass): string { Join(ClassLines(size, c), "\n") }

  /**
   * The parts for the first `i` items: each item rendered, then a `"\n"`
   * separator unless it is the last item.
   */
  function Separated<T>(render: T -> string, xs: seq<T>, i: nat): seq<string>
    requires i <= |xs|
  {
    if i == 0 then []
    else Separated(render, xs, i - 1) + [render(xs[i - 1])] + (if i - 1 < |xs| - 1 then ["\n"] else [])
  }

  /**
   * The items alternate with separators: item `k` is part `2k`, a separator
   * follows every item but the last, and nothing follows the last.
   */
  lemma {:induction false} SeparatedShape<T>(render: T -> string, xs: seq<T>, i: nat)
    requires i <= |xs|
    ensures var ps := Separated(render, xs, i);
      |ps| == 2 * i - (if 0 < i == |xs| then 1 else 0)
      && (forall k :: 0 <= k < i ==> ps[2 * k] == render(xs[k]))
      && (forall k :: 0 <= k < i && k < |xs| - 1 ==> ps[2 * k + 1] == "\n")
  {
    if i > 0 {
      SeparatedShape(render, xs, i - 1);
    }
  }

  /** One round of the class loop of `generate_code`: the text, then its separator unless it is the last. */
  lemma SeparatedStep<T>(render: T -> string, xs: seq<T>, i: nat, parts: seq<string>, x: string)
    requires i < |xs| && parts == Separated(render, xs, i) && x == render(xs[i])
    ensures (parts + [x]) + (if i < |xs| - 1 then ["\n"] else []) == Separated(render, xs, i + 1)
  {
  }

  /** Where each of four concatenated lists sits in the result. */
  lemma FourParts<T>(a: seq<T>, b: seq<T>, c: seq<T>, d: seq<T>)
    ensures var s := a + b + c + d;
      s[..|a|] == a && s[|a|..|a| + |b|] == b && s[|a| + |b|..|s| - |d|] == c && s[|s| - |d|..] == d
  {
  }

  /** The import block as a part of its own, present exactly when there are imports. */
  function ImportPart(imports: seq<string>): seq<string> {
    if imports != [] then [GenerateImports(imports)] else []
  }

  /** The class section of a file: each class's text, with separators between them. */
  function ClassSectionParts(size: int, cs: seq<PyClass>): seq<string> {
    Separated(c => ClassText(size, c), cs, |cs|)
  }

  /** The parts of `generate_code`, joined by newlines. */
  function CodeParts(size: int, s: PyStructure): seq<string> {
    FileHeader + ImportPart(s.imports) + ClassSectionParts(size, s.classes) + MainStub
  }

  lemma AppendNil<T>(a: seq<T>)
    ensures a + [] == a
  {
  }

  /** The header and the import block, as `generate_code` builds them. */
  lemma HeadAssembled(imports: seq<string>, text: string, head: seq<string>)
    requires text == GenerateImports(imports)
    requires head == if text != "" then FileHeader + [text] else FileHeader
    ensures head == FileHeader + ImportPart(imports)
  {
    if text == "" {
      AppendNil(FileHeader);
    }
  }

  /**
   * A generated file opens with the header docstring, carries the import
   * block right after it exactly when there are imports, then the class
   * section (the classes with separators between them, as `SeparatedShape`
   * describes), and closes with the entry-point stub.
   */
  lemma CodeShape(size: int, s: PyStructure)
    ensures var ps, n, h := CodeParts(size, s), |s.classes|, |FileHeader|;
      var imp := if s.imports != [] then 1 else 0;
      |ps| >= h + imp + |MainStub|
      && ps[..h] == FileHeader
      && ps[|ps| - |MainStub|..] == MainStub
      && (s.imports != [] ==> ps[h] == GenerateImports(s.imports))
      && ps[h + imp..|ps| - |MainStub|] == Separated(c => ClassText(size, c), s.classes, n)
  {
    var imp := ImportPart(s.imports);
    var cp := ClassSectionParts(size, s.classes);
    FourParts(FileHeader, imp, cp, MainStub);
    if s.imports != [] {
      var ps := CodeParts(size, s);
      assert ps[|FileHeader|..|FileHeader| + 1] == imp;
    }
  }

  // ------------------------------------------------------------- formatting

  /** A line with something other than whitespace on it. */
  predicate HasText(line: string) { !IsBlank(line) }

  /**
   * The lines `format_code` keeps: a whitespace-only line is dropped when
   * the line kept before it was whitespace only too.
   */
  function Collapse(ls: seq<string>, prevBlank: bool): seq<string>
    decreases |ls|
  {
    if ls == [] then []
    else if IsBlank(ls[0]) && prevBlank then Collapse(ls[1..], true)
    else [ls[0]] + Collapse(ls[1..], IsBlank(ls[0]))
  }

  /** `format_code`: collapse runs of blank lines, then make sure the text ends with a newline. */
  function FormatText(code: string): string {
    var joined := Join(Collapse(SplitLines(code), false), "\n");
    if EndsWith(joined, "\n") then joined else joined + "\n"
  }

  /** No two whitespace-only lines in a row, and none first when the line before was one. */
  predicate Spaced(ls: seq<string>, prevBlank: bool)
    decreases |ls|
  {
    ls == [] || (!(prevBlank && IsBlank(ls[0])) && Spaced(ls[1..], IsBlank(ls[0])))
  }

  /** Spaced lines hold no two blank lines in a row. */
  lemma {:induction false} SpacedNoBlankRun(ls: seq<string>, prevBlank: bool)
    requires Spaced(ls, prevBlank)
    ensures prevBlank && ls != [] ==> !IsBlank(ls[0])
    ensures forall k :: 0 <= k < |ls| - 1 ==> !(IsBlank(ls[k]) && IsBlank(ls[k + 1]))
    decreases |ls|
  {
    if ls != [] {
      var tail := ls[1..];
      SpacedNoBlankRun(tail, IsBlank(ls[0]));
      forall k | 0 <= k < |ls| - 1 ensures !(IsBlank(ls[k]) && IsBlank(ls[k + 1])) {
        if k > 0 {
          assert ls[k] == tail[k - 1] && ls[k + 1] == tail[k];
        }
      }
    }
  }

  /** The collapsed lines are spaced. */
  lemma {:induction false} CollapseSpaced(ls: seq<string>, prevBlank: bool)
    ensures Spaced(Collapse(ls, prevBlank), prevBlank)
    decreases |ls|
  {
    if ls != [] {
      CollapseSpaced(ls[1..], IsBlank(ls[0]));
      CollapseSpaced(ls[1..], true);
      var c := Collapse(ls, prevBlank);
      if !(IsBlank(ls[0]) && prevBlank) {
        assert c[1..] == Collapse(ls[1..], IsBlank(ls[0]));
      }
    }
  }

  /** The kept lines (`formatted_lines`, before the final newline is added) never hold two blank lines in a row. */
  lemma FormatNoBlankRun(code: string)
    ensures var c := Collapse(SplitLines(code), false);
      forall k :: 0 <= k < |c| - 1 ==> !(IsBlank(c[k]) && IsBlank(c[k + 1]))
  {
    CollapseSpaced(SplitLines(code), false);
    SpacedNoBlankRun(Collapse(SplitLines(code), false), false);
  }

  /** Formatting keeps every line with text on it, in order, and only drops blank lines. */
  lemma {:induction false} CollapseKeepsText(ls: seq<string>, prevBlank: bool)
    ensures Filter(HasText, Collapse(ls, prevBlank)) == Filter(HasText, ls)
    ensures forall x :: x in Collapse(ls, prevBlank) ==> x in ls
    decreases |ls|
  {
    if ls != [] {
      var rest := ls[1..];
      assert ls == [ls[0]] + rest;
      FilterAppend(HasText, [ls[0]], rest);
      assert Filter(HasText, [ls[0]]) == (if HasText(ls[0]) then [ls[0]] else []) by {
        assert [ls[0]][..0] == [];
      }
      if IsBlank(ls[0]) && prevBlank {
        CollapseKeepsText(rest, true);
      } else {
        CollapseKeepsText(rest, IsBlank(ls[0]));
        FilterAppend(HasText, [ls[0]], Collapse(rest, IsBlank(ls[0])));
      }
    }
  }

  /** Lines already spaced are kept as they are. */
  lemma {:induction false} CollapseSpacedUnchanged(ls: seq<string>, prevBlank: bool)
    requires Spaced(ls, prevBlank)
    ensures Collapse(ls, prevBlank) == ls
    decreases |ls|
  {
    if ls != [] {
      CollapseSpacedUnchanged(ls[1..], IsBlank(ls[0]));
      assert ls == [ls[0]] + ls[1..];
    }
  }

  /** Whether the last of `ls` is blank, or, without lines, whether the line before was. */
  predicate EndsBlank(ls: seq<string>, prevBlank: bool) {
    if ls == [] then prevBlank else IsBlank(ls[|ls| - 1])
  }

  /** A first line that does not extend a blank run is kept. */
  lemma CollapseKeepHead(head: string, tail: seq<string>, prevBlank: bool)
    requires !(prevBlank && IsBlank(head))
    ensures Collapse([head] + tail, prevBlank) == [head] + Collapse(tail, IsBlank(head))
  {
    assert ([head] + tail)[1..] == tail;
  }

  /** Appending one line to spaced lines: it is kept unless it and the line before it are both blank. */
  lemma {:induction false} CollapseSpacedSnoc(ls: seq<string>, prevBlank: bool, x: string)
    requires Spaced(ls, prevBlank)
    ensures Collapse(ls + [x], prevBlank) == ls + (if EndsBlank(ls, prevBlank) && IsBlank(x) then [] else [x])
    decreases |ls|
  {
    if ls == [] {
      assert [x][1..] == [];
    } else {
      var head, tail := ls[0], ls[1..];
      var rest := if EndsBlank(ls, prevBlank) && IsBlank(x) then [] else [x];
      assert EndsBlank(tail, IsBlank(head)) == EndsBlank(ls, prevBlank);
      assert ls + [x] == [head] + (tail + [x]);
      CollapseKeepHead(head, tail + [x], prevBlank);
      CollapseSpacedSnoc(tail, IsBlank(head), x);
      assert [head] + (tail + rest) == ls + rest;
    }
  }

  /** The first line is always kept. */
  lemma CollapseFirst(ls: seq<string>)
    requires ls != []
    ensures Collapse(ls, false) != [] && Collapse(ls, false)[0] == ls[0]
  {
  }

  /** The formatted text always ends with a newline. */
  lemma FormatEndsWithNewline(code: string)
    ensures EndsWith(FormatText(code), "\n")
  {
    var joined := Join(Collapse(SplitLines(code), false), "\n");
    if !EndsWith(joined, "\n") {
      var r := joined + "\n";
      assert r[|r| - 1..] == "\n";
    }
  }

  /** Formatted lines: at least one, spaced, and each without a newline. */
  lemma FormattedLines(code: string)
    ensures var c := Collapse(SplitLines(code), false);
      c != [] && Spaced(c, false) && forall k :: 0 <= k < |c| ==> '\n' !in c[k]
  {
    var ls := SplitLines(code);
    var c := Collapse(ls, false);
    CollapseSpaced(ls, false);
    CollapseKeepsText(ls, false);
    CollapseFirst(ls);
    forall k | 0 <= k < |c| ensures '\n' !in c[k] {
      assert c[k] in ls;
    }
  }

  /** Re-formatting text whose lines are spaced and which already ends with a newline gives it back. */
  lemma FormatSpacedEnding(c: seq<string>)
    requires c != [] && Spaced(c, false) && forall k :: 0 <= k < |c| ==> '\n' !in c[k]
    requires EndsWith(Join(c, "\n"), "\n")
    ensures FormatText(Join(c, "\n")) == Join(c, "\n")
  {
    SplitJoinLines(c);
    CollapseSpacedUnchanged(c, false);
  }

  /** Re-formatting spaced lines joined and given a final newline gives them back. */
  lemma FormatSpacedAppended(c: seq<string>)
    requires c != [] && Spaced(c, false) && forall k :: 0 <= k < |c| ==> '\n' !in c[k]
    requires !EndsWith(Join(c, "\n"), "\n")
    ensures FormatText(Join(c, "\n") + "\n") == Join(c, "\n") + "\n"
  {
    var out := Join(c, "\n") + "\n";
    var d := c + [""];
    JoinSnoc(c, "", "\n");
    assert Join(d, "\n") == out;
    forall k | 0 <= k < |d| ensures '\n' !in d[k] {
      if k < |c| { assert d[k] == c[k]; }
    }
    SplitJoinLines(d);
    CollapseSpacedSnoc(c, false, "");
    if IsBlank(c[|c| - 1]) {
      assert c + [] == c;
      assert Collapse(SplitLines(out), false) == c;
    } else {
      assert Collapse(SplitLines(out), false) == d;
      assert out[|out| - 1..] == "\n";
    }
  }

  /**
   * The returned text, split on newlines, is the kept lines, plus one empty
   * piece for the appended newline when they did not already end in one. So
   * two whitespace-only lines can meet only at its very end: a
   * whitespace-only last kept line and that empty piece.
   */
  lemma FormatTextLines(code: string)
    ensures var c := Collapse(SplitLines(code), false);
      SplitLines(FormatText(code)) == (if EndsWith(Join(c, "\n"), "\n") then c else c + [""])
    ensures var out := SplitLines(FormatText(code));
      forall k :: 0 <= k < |out| - 2 ==> !(IsBlank(out[k]) && IsBlank(out[k + 1]))
  {
    var c := Collapse(SplitLines(code), false);
    FormattedLines(code);
    FormatNoBlankRun(code);
    if EndsWith(Join(c, "\n"), "\n") {
      SplitJoinLines(c);
    } else {
      var d := c + [""];
      JoinSnoc(c, "", "\n");
      forall k | 0 <= k < |d| ensures '\n' !in d[k] {
        if k < |c| { assert d[k] == c[k]; }
      }
      assert FormatText(code) == Join(c, "\n") + "\n" == Join(d, "\n");
      SplitJoinLines(d);
      forall k | 0 <= k < |d| - 2 ensures !(IsBlank(d[k]) && IsBlank(d[k + 1])) {
        assert d[k] == c[k] && d[k + 1] == c[k + 1];
      }
    }
  }

  /** Formatting formatted text changes nothing. */
  lemma FormatIdempotent(code: string)
    ensures FormatText(FormatText(code)) == FormatText(code)
  {
    var c := Collapse(SplitLines(code), false);
    FormattedLines(code);
    if EndsWith(Join(c, "\n"), "\n") {
      FormatSpacedEnding(c);
    } else {
      FormatSpacedAppended(c);
    }
  }

  // -------------------------------------------------------------- generator

  /** `PythonCodeGenerator`: renders mapped records with a fixed indentation width. */
  class PythonCodeGenerator {
    const indentSize: int
    var generatedCode: seq<string>

    constructor(indentSize: int)
      ensures this.indentSize == indentSize && generatedCode == []
    {
      this.indentSize := indentSize;
      generatedCode := [];
    }

    /** `generate_parameter_list`. */
    method GenerateParameterList(params: seq<PyParam>, includeSelf: bool) returns (r: string)
      ensures r == Join(ParameterParts(params, includeSelf), ", ")
    {
      var head: seq<string> := if includeSelf then ["self"] else [];
      var parts := head;
      for i := 0 to |params|
        invariant parts == head + MapSeq(ParamText, params[..i])
      {
        MapSeqSnoc(ParamText, params, i);
        parts := parts + [ParamText(params[i])];
      }
      assert params[..|params|] == params;
      r := Join(parts, ", ");
    }

    /** `generate_method`: the body is never translated; both of its branches emit the same placeholder. */
    method GenerateMethod(m: PyMethod) returns (r: string)
      ensures r == MethodText(indentSize, m)
    {
      var lines: seq<string> := [];
      for i := 0 to |m.decorators|
        invariant lines == m.decorators[..i]
      {
        assert m.decorators[..i + 1] == m.decorators[..i] + [m.decorators[i]];
        lines := lines + [m.decorators[i]];
      }
      assert m.decorators[..|m.decorators|] == m.decorators;
      var params := GenerateParameterList(m.parameters, TakesSelf(m));
      var signature := "def " + MethodName(m) + "(" + params + ") -> " + m.returnType.GetOr("None") + ":";
      assert signature == Signature(m);
      lines := lines + [signature];
      var docLine, passLine := Indent(indentSize, BodyDocstring, 1), Indent(indentSize, "pass", 1);
      if JavaModel.BodyTruthy(m.body) {
        lines := lines + [docLine];
        lines := lines + [passLine];
      } else {
        lines := lines + [docLine];
        lines := lines + [passLine];
      }
      assert lines == m.decorators + [signature] + [docLine] + [passLine];
      AppendThree(m.decorators, signature, docLine, passLine);
      r := Join(lines, "\n");
    }

    /** `generate_constructor`: assigns each instance field among `fields`, or `pass`. */
    method GenerateConstructor(params: seq<PyParam>, fields: seq<PyField>) returns (r: string)
      ensures r == Join(ConstructorLines(indentSize, params, fields), "\n")
    {
      var texts := GenerateParameterList(params, true);
      var lines := ["def __init__(" + texts + "):"];
      var hasBody := false;
      for i := 0 to |fields|
        invariant lines == [InitSignature(params)] + MapSeq(f => InitLine(indentSize, f), InstanceFields(fields[..i]))
        invariant hasBody <==> InstanceFields(fields[..i]) != []
      {
        assert fields[..i + 1][..i] == fields[..i];
        if !fields[i].isClassVariable && !fields[i].isConstant {
          MapSeqAppend(f => InitLine(indentSize, f), InstanceFields(fields[..i]), [fields[i]]);
          var fieldInit := GenerateField(fields[i], false);
          lines := lines + [Indent(indentSize, fieldInit, 1)];
          hasBody := true;
        }
      }
      assert fields[..|fields|] == fields;
      if !hasBody {
        lines := lines + [Indent(indentSize, "pass", 1)];
      }
      r := Join(lines, "\n");
    }

    /** The class-level declarations of `generate_class`, one indented line per field. */
    method ClassVariableLines(classVars: seq<PyField>) returns (lines: seq<string>)
      ensures lines == MapSeq(f => ClassVarLine(indentSize, f), classVars)
    {
      lines := [];
      for i := 0 to |classVars|
        invariant lines == MapSeq(f => ClassVarLine(indentSize, f), classVars[..i])
      {
        MapSeqSnoc(f => ClassVarLine(indentSize, f), classVars, i);
        var fieldCode := GenerateField(classVars[i], true);
        lines := lines + [Indent(indentSize, fieldCode, 1)];
      }
      assert classVars[..|classVars|] == classVars;
    }

    /** The method blocks of `generate_class`: each method indented, then an empty line. */
    method MethodBlockLines(ms: seq<PyMethod>) returns (lines: seq<string>)
      ensures lines == MethodBlocks(indentSize, ms)
    {
      lines := [];
      for j := 0 to |ms|
        invariant lines == MethodBlocks(indentSize, ms[..j])
      {
        var code := GenerateMethod(ms[j]);
        MethodBlocksStep(indentSize, ms, j, lines, code);
        lines := lines + [Indent(indentSize, code, 1), ""];
      }
      assert ms[..|ms|] == ms;
    }

    /** `generate_class`. */
    method GenerateClass(c: PyClass) returns (r: string)
      ensures r == ClassText(indentSize, c)
    {
      var head := [ClassHeader(c), Indent(indentSize, ClassDocstring(c.name), 1), ""];
      var classVars := ClassVariables(c.fields);
      var varLines := ClassVariableLines(classVars);
      var lines := head + varLines;
      if classVars != [] {
        lines := lines + [""];
      }
      PreludeAssembled(indentSize, c, lines);
      var instanceFields := InstanceFields(c.fields);
      var init: seq<string> := [];
      if c.constructors != [] {
        var code := GenerateConstructor(c.constructors[0].parameters, instanceFields);
        init := [Indent(indentSize, code, 1), ""];
      } else if instanceFields != [] {
        var code := GenerateConstructor([], instanceFields);
        init := [Indent(indentSize, code, 1), ""];
      }
      assert init == InitBlock(indentSize, c);
      var blocks := MethodBlockLines(c.methods);
      lines := lines + init + blocks;
      ClassLinesAssembled(indentSize, c, lines);
      if |lines| == 3 {
        lines := lines + [Indent(indentSize, "pass", 1)];
      }
      r := Join(lines, "\n");
    }

    /** The class loop of `generate_code`: each class's text, and a `"\n"` part after all but the last. */
    method ClassSection(classes: seq<PyClass>) returns (parts: seq<string>)
      ensures parts == ClassSectionParts(indentSize, classes)
    {
      parts := [];
      for i := 0 to |classes|
        invariant parts == Separated(c => ClassText(indentSize, c), classes, i)
      {
        var classCode := GenerateClass(classes[i]);
        SeparatedStep(c => ClassText(indentSize, c), classes, i, parts, classCode);
        parts := parts + [classCode];
        if i < |classes| - 1 {
          parts := parts + ["\n"];
        }
      }
    }

    /** `generate_code`. */
    method GenerateCode(s: PyStructure) returns (r: string)
      ensures r == Join(CodeParts(indentSize, s), "\n")
    {
      var parts := FileHeader;
      var imports := GenerateImports(s.imports);
      if imports != "" {
        parts := parts + [imports];
      }
      HeadAssembled(s.imports, imports, parts);
      var classParts := ClassSection(s.classes);
      parts := parts + classParts;
      parts := parts + MainStub;
      r := Join(parts, "\n");
    }

    /** `format_code`. */
    method FormatCode(code: string) returns (r: string)
      ensures r == FormatText(code)
    {
      var lines := SplitLines(code);
      var formatted: seq<string> := [];
      var prevBlank := false;
      for i := 0 to |lines|
        invariant formatted + Collapse(lines[i..], prevBlank) == Collapse(lines, false)
      {
        var isBlank := IsBlank(lines[i]);
        assert lines[i..][1..] == lines[i + 1..];
        if isBlank && prevBlank {
          continue;
        }
        formatted := formatted + [lines[i]];
        prevBlank := isBlank;
      }
      assert lines[|lines|..] == [];
      assert formatted == Collapse(lines, false);
      var result := Join(formatted, "\n");
      if !EndsWith(result, "\n") {
        result := result + "\n";
      }
      r := result;
    }
  }
}

