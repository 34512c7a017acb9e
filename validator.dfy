/**
 * `src/validator.py`: the checks run over migrated Python code and the
 * aggregation of their results into a report whose overall status is
 * success, warning or failed.
 *
 * Python's own parser is an oracle here: `Parse` is either the sequence of
 * nodes `ast.walk` visits (only class and function definitions matter to
 * the checks) or the exception `ast.parse` raised. The flake8 and
 * execution sub-processes enter as their results.
 */
module Validation {
  import opened Wrappers
  import opened Text
  import opened PythonModel

  // ------------------------------------------------------------------ parser oracle

  /** A positional parameter of a function definition and whether it has an annotation. */
  datatype Arg = Arg(name: string, annotated: bool)

  /** A node of the parsed module, in `ast.walk` order. */
  datatype Node =
    | ClassDef(name: string)
    | FunctionDef(name: string, args: seq<Arg>, hasReturns: bool)
    | OtherNode

  /** The outcome of `ast.parse`. */
  datatype Parse =
    | Parsed(nodes: seq<Node>)
    | SyntaxFailure(lineno: string, msg: string, text: string)
    | OtherFailure(text: string)
  {
    /** `str(e)` of the exception raised. */
    function Describe(): string
      requires !Parsed?
    {
      text
    }
  }

  /** A check's `(passed, messages)` pair. */
  datatype Check = Check(passed: bool, messages: seq<string>)

  /** `(len(messages) == 0, messages)`, the way every warning check reports. */
  function Verdict(messages: seq<string>): (r: Check)
    ensures r.messages == messages
    ensures r.passed <==> messages == []
  {
    Check(messages == [], messages)
  }

  lemma AppendAssoc(a: seq<string>, b: seq<string>, c: seq<string>)
    ensures a + (b + c) == (a + b) + c
  {
  }

  // ------------------------------------------------------------------ messages

  function SyntaxMessage(p: Parse): string
    requires !p.Parsed?
  {
    if p.SyntaxFailure? then "语法错误 (行 " + p.lineno + "): " + p.msg
    else "解析错误: " + p.text
  }

  const NoClassesWarning := "代码中没有类定义"
  const UnnamedClassWarning := "发现未命名的类"
  function EmptyClassWarning(name: string): string { "类 " + name + " 没有方法或字段" }
  function NoConstructorWarning(name: string): string { "类 " + name + " 有字段但没有构造函数" }
  function ClassNameWarning(name: string): string { "类名 '" + name + "' 应该以大写字母开头" }
  function FunctionNameWarning(name: string): string { "函数名 '" + name + "' 应该使用 snake_case 命名" }
  function NamingFailure(text: string): string { "命名规范检查失败: " + text }
  /** The text of the `IndexError` that `name[0]` raises on an empty class name. */
  const IndexErrorText := "string index out of range"
  function ImportFailure(text: string): string { "导入验证失败: " + text }
  function ParamWarning(f: string, a: string): string { "函数 '" + f + "' 的参数 '" + a + "' 缺少类型注解" }
  function ReturnWarning(f: string): string { "函数 '" + f + "' 缺少返回类型注解" }
  function TypeFailure(text: string): string { "类型注解检查失败: " + text }
  function ExecutionFailure(output: string): string { "执行失败: " + output }

  // ------------------------------------------------------------------ validate_syntax

  /** `validate_syntax`: passes with no errors, or fails with exactly one message. */
  function SyntaxCheck(p: Parse): (r: Check)
    ensures r.passed <==> p.Parsed?
    ensures r.passed <==> r.messages == []
    ensures !r.passed ==> r.messages == [SyntaxMessage(p)]
  {
    if p.Parsed? then Check(true, []) else Check(false, [SyntaxMessage(p)])
  }

  // ------------------------------------------------------------------ validate_structure

  /** The warnings `validate_structure` gives for one class, in order. */
  function ClassWarnings(c: PyClass): seq<string> {
    (if c.name == "" then [UnnamedClassWarning] else [])
    + (if c.methods == [] && c.fields == [] then [EmptyClassWarning(c.name)] else [])
    + (if c.fields != [] && c.constructors == [] then [NoConstructorWarning(c.name)] else [])
  }

  function ClassesWarnings(cs: seq<PyClass>): seq<string> {
    if cs == [] then [] else ClassWarnings(cs[0]) + ClassesWarnings(cs[1..])
  }

  function StructureWarnings(s: PyStructure): seq<string> {
    (if s.classes == [] then [NoClassesWarning] else []) + ClassesWarnings(s.classes)
  }

  /** A class `validate_structure` has nothing to say about. */
  predicate SoundClass(c: PyClass) {
    c.name != "" && (c.methods != [] || c.fields != []) && (c.fields == [] || c.constructors != [])
  }

  lemma ClassWarningsEmpty(c: PyClass)
    ensures ClassWarnings(c) == [] <==> SoundClass(c)
  {
    if c.name == "" {
      assert ClassWarnings(c)[0] == UnnamedClassWarning;
    } else if c.methods == [] && c.fields == [] {
      assert ClassWarnings(c)[0] == EmptyClassWarning(c.name);
    }
  }

  lemma {:induction false} ClassesWarningsEmpty(cs: seq<PyClass>)
    ensures ClassesWarnings(cs) == [] <==> forall k :: 0 <= k < |cs| ==> SoundClass(cs[k])
  {
    if cs != [] {
      ClassWarningsEmpty(cs[0]);
      ClassesWarningsEmpty(cs[1..]);
      if ClassesWarnings(cs) == [] {
        forall k | 0 <= k < |cs| ensures SoundClass(cs[k]) {
          if k > 0 { assert cs[k] == cs[1..][k - 1]; }
        }
      }
      if forall k :: 0 <= k < |cs| ==> SoundClass(cs[k]) {
        forall k | 0 <= k < |cs| - 1 ensures SoundClass(cs[1..][k]) {
          assert cs[1..][k] == cs[k + 1];
        }
      }
    }
  }

  lemma ClassesWarningsStep(cs: seq<PyClass>, i: nat)
    requires i < |cs|
    ensures ClassesWarnings(cs[i..]) == ClassWarnings(cs[i]) + ClassesWarnings(cs[i + 1..])
  {
    assert cs[i..][1..] == cs[i + 1..];
  }

  /**
   * `validate_structure` passes exactly when there is at least one class and
   * every class is named, has a method or a field, and has a constructor if
   * it has fields.
   */
  lemma StructurePasses(s: PyStructure)
    ensures StructureWarnings(s) == [] <==>
      s.classes != [] && forall k :: 0 <= k < |s.classes| ==> SoundClass(s.classes[k])
  {
    ClassesWarningsEmpty(s.classes);
  }

  /** Without classes there is exactly the one "no classes" warning. */
  lemma NoClassesOneWarning(s: PyStructure)
    requires s.classes == []
    ensures StructureWarnings(s) == [NoClassesWarning]
  {
  }

  // ------------------------------------------------------------------ validate_naming_conventions

  /** `name[0]` of an empty class name raises, which ends the walk. */
  predicate NamingRaises(n: Node) { n.ClassDef? && n.name == "" }

  /** The naming warning one node gives when it does not raise. */
  function NodeNamingWarnings(n: Node): seq<string>
    requires !NamingRaises(n)
  {
    match n
    case ClassDef(name) => if !IsUpper(name[0]) then [ClassNameWarning(name)] else []
    case FunctionDef(name, _, _) =>
      if StartsWith(name, "_") then []
      else if HasUpper(name) then [FunctionNameWarning(name)]
      else []
    case OtherNode => []
  }

  /** The warnings of the walk; an empty class name stops it with the `IndexError` message. */
  function NamingWarnings(nodes: seq<Node>): seq<string> {
    if nodes == [] then []
    else if NamingRaises(nodes[0]) then [NamingFailure(IndexErrorText)]
    else NodeNamingWarnings(nodes[0]) + NamingWarnings(nodes[1..])
  }

  lemma NamingStep(nodes: seq<Node>, i: nat)
    requires i < |nodes|
    ensures NamingRaises(nodes[i]) ==> NamingWarnings(nodes[i..]) == [NamingFailure(IndexErrorText)]
    ensures !NamingRaises(nodes[i]) ==>
      NamingWarnings(nodes[i..]) == NodeNamingWarnings(nodes[i]) + NamingWarnings(nodes[i + 1..])
  {
    assert nodes[i..][1..] == nodes[i + 1..];
  }

  function NamingReport(p: Parse): seq<string> {
    if p.Parsed? then NamingWarnings(p.nodes) else [NamingFailure(p.Describe())]
  }

  /** A node that follows the naming rules: capitalised classes, snake_case public functions. */
  predicate Conventional(n: Node) {
    match n
    case ClassDef(name) => name != "" && IsUpper(name[0])
    case FunctionDef(name, _, _) => StartsWith(name, "_") || !HasUpper(name)
    case OtherNode => true
  }

  lemma NodeNamingEmpty(n: Node)
    requires !NamingRaises(n)
    ensures NodeNamingWarnings(n) == [] <==> Conventional(n)
  {
  }

  /** The naming check is silent exactly when every class and function follows the rules. */
  lemma {:induction false} NamingPasses(nodes: seq<Node>)
    ensures NamingWarnings(nodes) == [] <==> forall k :: 0 <= k < |nodes| ==> Conventional(nodes[k])
  {
    if nodes != [] && !NamingRaises(nodes[0]) {
      NodeNamingEmpty(nodes[0]);
      NamingPasses(nodes[1..]);
      if NamingWarnings(nodes) == [] {
        forall k | 0 <= k < |nodes| ensures Conventional(nodes[k]) {
          if k > 0 { assert nodes[k] == nodes[1..][k - 1]; }
        }
      }
      if forall k :: 0 <= k < |nodes| ==> Conventional(nodes[k]) {
        forall k | 0 <= k < |nodes| - 1 ensures Conventional(nodes[1..][k]) {
          assert nodes[1..][k] == nodes[k + 1];
        }
      }
    }
  }

  /** A function whose name starts with `_` is never reported, whatever its case. */
  lemma PrivateFunctionsExempt(name: string, args: seq<Arg>, hasReturns: bool)
    requires StartsWith(name, "_")
    ensures NamingWarnings([FunctionDef(name, args, hasReturns)]) == []
  {
    assert [FunctionDef(name, args, hasReturns)][1..] == [];
  }

  // ------------------------------------------------------------------ check_type_annotations

  /** One warning per non-`self` parameter without an annotation, in order. */
  function ArgWarnings(f: string, args: seq<Arg>): seq<string> {
    if args == [] then []
    else
      var here := if args[0].name != "self" && !args[0].annotated then [ParamWarning(f, args[0].name)] else [];
      here + ArgWarnings(f, args[1..])
  }

  lemma ArgWarningsStep(f: string, args: seq<Arg>, j: nat)
    requires j < |args|
    ensures ArgWarnings(f, args[j..]) == ArgWarnings(f, [args[j]]) + ArgWarnings(f, args[j + 1..])
  {
    assert args[j..][1..] == args[j + 1..];
    assert [args[j]][1..] == [];
  }

  /** Whether `check_type_annotations` wants a return annotation for this function name. */
  predicate NeedsReturn(name: string, hasReturns: bool) { name != "__init__" && !hasReturns }

  function NodeTypeWarnings(n: Node): seq<string> {
    match n
    case FunctionDef(name, args, hasReturns) =>
      ArgWarnings(name, args) + (if NeedsReturn(name, hasReturns) then [ReturnWarning(name)] else [])
    case _ => []
  }

  function TypeWarnings(nodes: seq<Node>): seq<string> {
    if nodes == [] then [] else NodeTypeWarnings(nodes[0]) + TypeWarnings(nodes[1..])
  }

  lemma TypeStep(nodes: seq<Node>, i: nat)
    requires i < |nodes|
    ensures TypeWarnings(nodes[i..]) == NodeTypeWarnings(nodes[i]) + TypeWarnings(nodes[i + 1..])
  {
    assert nodes[i..][1..] == nodes[i + 1..];
  }

  function TypeReport(p: Parse): seq<string> {
    if p.Parsed? then TypeWarnings(p.nodes) else [TypeFailure(p.Describe())]
  }

  /** A parameter the check accepts. */
  predicate AnnotatedArg(a: Arg) { a.name == "self" || a.annotated }

  /** A node the check accepts: every function fully annotated, `__init__` exempt from a return type. */
  predicate FullyAnnotated(n: Node) {
    n.FunctionDef? ==>
      !NeedsReturn(n.name, n.hasReturns) && forall k :: 0 <= k < |n.args| ==> AnnotatedArg(n.args[k])
  }

  lemma {:induction false} ArgWarningsEmpty(f: string, args: seq<Arg>)
    ensures ArgWarnings(f, args) == [] <==> forall k :: 0 <= k < |args| ==> AnnotatedArg(args[k])
  {
    if args != [] {
      ArgWarningsEmpty(f, args[1..]);
      if ArgWarnings(f, args) == [] {
        forall k | 0 <= k < |args| ensures AnnotatedArg(args[k]) {
          if k > 0 { assert args[k] == args[1..][k - 1]; }
        }
      }
      if forall k :: 0 <= k < |args| ==> AnnotatedArg(args[k]) {
        forall k | 0 <= k < |args| - 1 ensures AnnotatedArg(args[1..][k]) {
          assert args[1..][k] == args[k + 1];
        }
      }
    }
  }

  /** Each unannotated non-`self` parameter gets exactly one warning. */
  lemma {:induction false} ArgWarningsCount(f: string, args: seq<Arg>)
    ensures |ArgWarnings(f, args)| == |Filtered(args)|
  {
    if args != [] {
      ArgWarningsCount(f, args[1..]);
    }
  }

  /** The parameters the check reports. */
  function Filtered(args: seq<Arg>): (r: seq<Arg>)
    ensures forall k :: 0 <= k < |r| ==> !AnnotatedArg(r[k])
  {
    if args == [] then []
    else
      var here := if !AnnotatedArg(args[0]) then [args[0]] else [];
      here + Filtered(args[1..])
  }

  lemma NodeTypeEmpty(n: Node)
    ensures NodeTypeWarnings(n) == [] <==> FullyAnnotated(n)
  {
    if n.FunctionDef? {
      ArgWarningsEmpty(n.name, n.args);
    }
  }

  /** The type check is silent exactly when every function is fully annotated. */
  lemma {:induction false} TypesPass(nodes: seq<Node>)
    ensures TypeWarnings(nodes) == [] <==> forall k :: 0 <= k < |nodes| ==> FullyAnnotated(nodes[k])
  {
    if nodes != [] {
      NodeTypeEmpty(nodes[0]);
      TypesPass(nodes[1..]);
      if TypeWarnings(nodes) == [] {
        forall k | 0 <= k < |nodes| ensures FullyAnnotated(nodes[k]) {
          if k > 0 { assert nodes[k] == nodes[1..][k - 1]; }
        }
      }
      if forall k :: 0 <= k < |nodes| ==> FullyAnnotated(nodes[k]) {
        forall k | 0 <= k < |nodes| - 1 ensures FullyAnnotated(nodes[1..][k]) {
          assert nodes[1..][k] == nodes[k + 1];
        }
      }
    }
  }

  // ------------------------------------------------------------------ validate_imports

  /** `validate_imports` only fails when the code does not parse; the names it collects are discarded. */
  function ImportReport(p: Parse): (r: seq<string>)
    ensures r == [] <==> p.Parsed?
  {
    if p.Parsed? then [] else [ImportFailure(p.Describe())]
  }

  // ------------------------------------------------------------------ validate_migration

  datatype Status = Success | Warning | Failed

  /** The `execution` entry: `(passed, output)`. */
  datatype Execution = Execution(passed: bool, output: string)

  datatype Checks = Checks(
    syntax: Check,
    structure: Option<Check>,
    naming: Check,
    imports: Check,
    typeAnnotations: Check,
    staticAnalysis: Check,
    execution: Execution)

  datatype Report = Report(overallStatus: Status, checks: Checks, errors: seq<string>, warnings: seq<string>)

  /** The errors of a run: the syntax error, then the execution failure. */
  function ReportErrors(p: Parse, exec: Execution): seq<string> {
    SyntaxCheck(p).messages + (if exec.passed then [] else [ExecutionFailure(exec.output)])
  }

  /** The warnings of a run: structure, naming, imports, then annotations. */
  function ReportWarnings(p: Parse, structure: Option<PyStructure>): seq<string> {
    (if structure.Some? then StructureWarnings(structure.value) else [])
    + NamingReport(p) + ImportReport(p) + TypeReport(p)
  }

  function OverallStatus(errors: seq<string>, warnings: seq<string>): Status {
    if errors != [] then Failed else if warnings != [] then Warning else Success
  }

  function ReportChecks(p: Parse, structure: Option<PyStructure>, staticIssues: seq<string>, exec: Execution): Checks {
    Checks(
      SyntaxCheck(p),
      if structure.Some? then Some(Verdict(StructureWarnings(structure.value))) else None,
      Verdict(NamingReport(p)), Verdict(ImportReport(p)), Verdict(TypeReport(p)),
      Verdict(staticIssues), exec)
  }

  /**
   * The report `validate_migration` builds from the parse of the code, the
   * optional mapped structure, the flake8 issues and the execution outcome.
   */
  function MigrationReport(p: Parse, structure: Option<PyStructure>, staticIssues: seq<string>, exec: Execution): Report {
    var errors := ReportErrors(p, exec);
    var warnings := ReportWarnings(p, structure);
    Report(OverallStatus(errors, warnings), ReportChecks(p, structure, staticIssues, exec), errors, warnings)
  }

  /**
   * The overall status is failed exactly when the code does not parse or
   * does not run, warning exactly when otherwise some structure, naming,
   * import or annotation warning exists, and success otherwise. Static
   * analysis issues never affect it.
   */
  lemma StatusRule(p: Parse, structure: Option<PyStructure>, staticIssues: seq<string>, exec: Execution)
    ensures var r := MigrationReport(p, structure, staticIssues, exec);
      (r.overallStatus == Failed <==> !p.Parsed? || !exec.passed)
      && (r.overallStatus == Warning <==> p.Parsed? && exec.passed && r.warnings != [])
      && (r.overallStatus == Success <==> r.errors == [] && r.warnings == [])
  {
  }

  /** Errors come only from the syntax check and the execution; static analysis reaches neither list. */
  lemma ErrorSources(p: Parse, structure: Option<PyStructure>, staticIssues: seq<string>, exec: Execution)
    ensures var r := MigrationReport(p, structure, staticIssues, exec);
      r.errors == (if p.Parsed? then [] else [SyntaxMessage(p)]) + (if exec.passed then [] else [ExecutionFailure(exec.output)])
      && r.checks.staticAnalysis.messages == staticIssues
      && MigrationReport(p, structure, [], exec).errors == r.errors
      && MigrationReport(p, structure, [], exec).warnings == r.warnings
  {
  }

  /** The structure entry is present exactly when a structure is passed. */
  lemma StructureEntry(p: Parse, structure: Option<PyStructure>, staticIssues: seq<string>, exec: Execution)
    ensures var r := MigrationReport(p, structure, staticIssues, exec);
      r.checks.structure.Some? <==> structure.Some?
  {
  }

  /** Code that does not parse fails, and every code-level check reports exactly one message. */
  lemma UnparsableCode(p: Parse, structure: Option<PyStructure>, staticIssues: seq<string>, exec: Execution)
    requires !p.Parsed?
    ensures var r := MigrationReport(p, structure, staticIssues, exec);
      r.overallStatus == Failed
      && |r.checks.naming.messages| == 1 && |r.checks.imports.messages| == 1
      && |r.checks.typeAnnotations.messages| == 1
  {
  }

  /** `MigrationValidator`: the last report and the errors and warnings of the last run. */
  class MigrationValidator {
    /** `validation_results`: `None` until a report is produced (the empty dict). */
    var validationResults: Option<Report>
    var errors: seq<string>
    var warnings: seq<string>

    constructor()
      ensures validationResults == None && errors == [] && warnings == []
    {
      validationResults := None;
      errors := [];
      warnings := [];
    }

    method ValidateSyntax(p: Parse) returns (r: Check)
      ensures r == SyntaxCheck(p)
    {
      var found: seq<string> := [];
      if p.Parsed? {
        return Check(true, []);
      }
      found := found + [SyntaxMessage(p)];
      return Check(false, found);
    }

    /** The warnings for one class of the structure. */
    method ClassLines(c: PyClass) returns (here: seq<string>)
      ensures here == ClassWarnings(c)
    {
      here := [];
      if c.name == "" {
        here := here + [UnnamedClassWarning];
      }
      if c.methods == [] && c.fields == [] {
        here := here + [EmptyClassWarning(c.name)];
      }
      if c.fields != [] && c.constructors == [] {
        here := here + [NoConstructorWarning(c.name)];
      }
    }

    method ValidateStructure(s: PyStructure) returns (r: Check)
      ensures r == Verdict(StructureWarnings(s))
    {
      var found: seq<string> := [];
      if s.classes == [] {
        found := found + [NoClassesWarning];
      }
      var i := 0;
      while i < |s.classes|
        invariant 0 <= i <= |s.classes|
        invariant found + ClassesWarnings(s.classes[i..]) == StructureWarnings(s)
      {
        var here := ClassLines(s.classes[i]);
        ClassesWarningsStep(s.classes, i);
        AppendAssoc(found, here, ClassesWarnings(s.classes[i + 1..]));
        found := found + here;
        i := i + 1;
      }
      assert s.classes[i..] == [];
      return Verdict(found);
    }

    /** The naming warning for one walked node that does not raise. */
    method NodeNamingLines(n: Node) returns (here: seq<string>)
      requires !NamingRaises(n)
      ensures here == NodeNamingWarnings(n)
    {
      here := [];
      match n {
        case ClassDef(name) =>
          if !IsUpper(name[0]) {
            here := here + [ClassNameWarning(name)];
          }
        case FunctionDef(name, _, _) =>
          if !StartsWith(name, "_") && HasUpper(name) {
            here := here + [FunctionNameWarning(name)];
          }
        case OtherNode =>
      }
    }

    method ValidateNamingConventions(p: Parse) returns (r: Check)
      ensures r == Verdict(NamingReport(p))
    {
      var found: seq<string> := [];
      if !p.Parsed? {
        return Verdict([NamingFailure(p.Describe())]);
      }
      var nodes := p.nodes;
      var i := 0;
      while i < |nodes|
        invariant 0 <= i <= |nodes|
        invariant found + NamingWarnings(nodes[i..]) == NamingWarnings(nodes)
      {
        var n := nodes[i];
        NamingStep(nodes, i);
        if NamingRaises(n) {
          found := found + [NamingFailure(IndexErrorText)];
          return Verdict(found);
        }
        var here := NodeNamingLines(n);
        AppendAssoc(found, here, NamingWarnings(nodes[i + 1..]));
        found := found + here;
        i := i + 1;
      }
      assert nodes[i..] == [];
      return Verdict(found);
    }

    method ValidateImports(p: Parse) returns (r: Check)
      ensures r == Verdict(ImportReport(p))
    {
      if p.Parsed? {
        return Verdict([]);
      }
      return Verdict([ImportFailure(p.Describe())]);
    }

    /** The warnings for one function definition's parameters, appended to `found`. */
    method ArgLines(f: string, args: seq<Arg>, found: seq<string>) returns (r: seq<string>)
      ensures r == found + ArgWarnings(f, args)
    {
      r := found;
      var j := 0;
      while j < |args|
        invariant 0 <= j <= |args|
        invariant r + ArgWarnings(f, args[j..]) == found + ArgWarnings(f, args)
      {
        var here: seq<string> := [];
        if args[j].name != "self" && !args[j].annotated {
          here := here + [ParamWarning(f, args[j].name)];
        }
        assert here == ArgWarnings(f, [args[j]]);
        ArgWarningsStep(f, args, j);
        AppendAssoc(r, here, ArgWarnings(f, args[j + 1..]));
        r := r + here;
        j := j + 1;
      }
      assert args[j..] == [];
    }

    /** The warnings for one walked node. */
    method NodeTypeLines(n: Node) returns (here: seq<string>)
      ensures here == NodeTypeWarnings(n)
    {
      here := [];
      if n.FunctionDef? {
        here := ArgLines(n.name, n.args, here);
        if n.name != "__init__" && !n.hasReturns {
          here := here + [ReturnWarning(n.name)];
        }
      }
    }

    method CheckTypeAnnotations(p: Parse) returns (r: Check)
      ensures r == Verdict(TypeReport(p))
    {
      var found: seq<string> := [];
      if !p.Parsed? {
        return Verdict([TypeFailure(p.Describe())]);
      }
      var nodes := p.nodes;
      var i := 0;
      while i < |nodes|
        invariant 0 <= i <= |nodes|
        invariant found + TypeWarnings(nodes[i..]) == TypeWarnings(nodes)
      {
        var here := NodeTypeLines(nodes[i]);
        TypeStep(nodes, i);
        AppendAssoc(found, here, TypeWarnings(nodes[i + 1..]));
        found := found + here;
        i := i + 1;
      }
      assert nodes[i..] == [];
      return Verdict(found);
    }

    /** The six check entries of `validate_migration`'s report, in the order it runs them. */
    method RunChecks(p: Parse, structure: Option<PyStructure>, staticIssues: seq<string>, exec: Execution)
      returns (checks: Checks)
      ensures checks == ReportChecks(p, structure, staticIssues, exec)
    {
      var syntax := ValidateSyntax(p);
      var structureCheck: Option<Check> := None;
      if structure.Some? {
        var c := ValidateStructure(structure.value);
        structureCheck := Some(c);
      }
      var naming := ValidateNamingConventions(p);
      var imports := ValidateImports(p);
      var types := CheckTypeAnnotations(p);
      checks := Checks(syntax, structureCheck, naming, imports, types, Verdict(staticIssues), exec);
    }

    /**
     * `validate_migration`: both lists are reset, then filled check by check
     * (the syntax errors, the structure, naming, import and annotation
     * warnings, the execution failure); the lists, the report and the stored
     * report are the state afterwards.  The lists are built in locals and
     * stored once: nothing observes them half-filled.
     */
    method ValidateMigration(javaCode: string, p: Parse, structure: Option<PyStructure>,
                             staticIssues: seq<string>, exec: Execution) returns (report: Report)
      modifies this
      ensures report == MigrationReport(p, structure, staticIssues, exec)
      ensures errors == report.errors && warnings == report.warnings
      ensures validationResults == Some(report)
    {
      var checks := RunChecks(p, structure, staticIssues, exec);
      var errs: seq<string> := [];
      var warns: seq<string> := [];

      if !checks.syntax.passed {
        errs := errs + checks.syntax.messages;
      }
      if checks.structure.Some? {
        warns := warns + checks.structure.value.messages;
      }
      ghost var structureWarnings := if structure.Some? then StructureWarnings(structure.value) else [];
      assert warns == structureWarnings;
      warns := warns + checks.naming.messages;
      warns := warns + checks.imports.messages;
      assert warns == structureWarnings + NamingReport(p) + ImportReport(p);
      warns := warns + checks.typeAnnotations.messages;
      if !exec.passed {
        errs := errs + [ExecutionFailure(exec.output)];
      }
      assert errs == ReportErrors(p, exec);

      var status := Success;
      if errs != [] {
        status := Failed;
      } else if warns != [] {
        status := Warning;
      }
      report := Report(status, checks, errs, warns);
      errors, warnings := errs, warns;
      validationResults := Some(report);
    }
  }
}
