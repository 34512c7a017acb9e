/**
 * `src/migration_planner.py`: complexity statistics over the parsed Java
 * record, a numbered list of migration steps with dependencies between
 * them, a difficulty rating and a list of recommendations.
 */
module MigrationPlanning {
  import opened Wrappers
  import opened Text
  import opened JavaModel

  // ------------------------------------------------------------------ steps

  /** The `component` of a step. */
  datatype Component = Imports | ClassDefinition | Fields | Constructor | Methods

  /** A step's `complexity`: `low`, `medium` or `high`. */
  datatype Level = Low | Medium | High

  /** `MigrationStep`. */
  datatype MigrationStep = MigrationStep(
    stepId: int,
    description: string,
    component: Component,
    complexity: Level,
    dependencies: seq<int>,
    warnings: seq<string>)

  // ------------------------------------------------------------------ analyze_complexity

  /** The dictionary `analyze_complexity` returns. */
  datatype Stats = Stats(
    totalClasses: nat,
    totalMethods: nat,
    totalFields: nat,
    totalImports: nat,
    hasInheritance: bool,
    hasInterfaces: bool,
    hasGenerics: bool)

  function TotalMethods(cs: seq<JavaClass>): nat {
    if cs == [] then 0 else TotalMethods(cs[..|cs| - 1]) + |cs[|cs| - 1].methods|
  }

  function TotalFields(cs: seq<JavaClass>): nat {
    if cs == [] then 0 else TotalFields(cs[..|cs| - 1]) + |cs[|cs| - 1].fields|
  }

  /** Whether some parameter of the method has a type containing `<`. */
  predicate GenericMethod(m: JavaMethod) {
    exists j :: 0 <= j < |m.parameters| && '<' in m.parameters[j].typ
  }

  predicate GenericClass(c: JavaClass) {
    exists j :: 0 <= j < |c.methods| && GenericMethod(c.methods[j])
  }

  /** The statistics, class by class. */
  function Complexity(s: JavaStructure): Stats {
    Stats(
      |s.classes|,
      TotalMethods(s.classes),
      TotalFields(s.classes),
      |s.imports|,
      exists k :: 0 <= k < |s.classes| && s.classes[k].HasSuperclass(),
      exists k :: 0 <= k < |s.classes| && s.classes[k].interfaces != [],
      exists k :: 0 <= k < |s.classes| && GenericClass(s.classes[k]))
  }

  /** The totals add up over a split of the class list. */
  lemma {:induction false} TotalsAppend(a: seq<JavaClass>, b: seq<JavaClass>)
    ensures TotalMethods(a + b) == TotalMethods(a) + TotalMethods(b)
    ensures TotalFields(a + b) == TotalFields(a) + TotalFields(b)
    decreases |b|
  {
    if b == [] {
      assert a + b == a;
    } else {
      var last := b[|b| - 1];
      assert (a + b)[..|a + b| - 1] == a + b[..|b| - 1];
      TotalsAppend(a, b[..|b| - 1]);
    }
  }

  /** One class contributes its own counts. */
  lemma TotalsSingle(c: JavaClass)
    ensures TotalMethods([c]) == |c.methods| && TotalFields([c]) == |c.fields|
  {
    assert [c][..0] == [];
  }

  // ------------------------------------------------------------------ plan_imports_migration

  const IoWarning := "Java IO 操作需要手动检查和调整"
  const JavaxWarning := "javax 包可能需要寻找 Python 等价库"

  predicate AnyContains(xs: seq<string>, sub: string) {
    exists k :: 0 <= k < |xs| && Contains(xs[k], sub)
  }

  function ImportWarnings(imports: seq<string>): seq<string> {
    (if AnyContains(imports, "java.io") then [IoWarning] else [])
    + (if AnyContains(imports, "javax") then [JavaxWarning] else [])
  }

  function ImportsDescription(n: nat): string { "迁移 " + NatToDigits(n, 10) + " 个导入语句" }

  /** The import step, numbered after `counter`, when there are imports. */
  function ImportSteps(imports: seq<string>, counter: int): (r: seq<MigrationStep>)
    ensures |r| == (if imports == [] then 0 else 1)
    ensures r != [] ==>
      r[0].stepId == counter + 1 && r[0].component == Imports && r[0].dependencies == [] && r[0].complexity == Low
  {
    if imports == [] then []
    else [MigrationStep(counter + 1, ImportsDescription(|imports|), Imports, Low, [], ImportWarnings(imports))]
  }

  // ------------------------------------------------------------------ plan_class_migration

  /** The class step's complexity: `high` overrides `medium`, which overrides `low`. */
  function ClassLevel(c: JavaClass): (r: Level)
    ensures r == High <==> |c.methods| > 10
    ensures r == Medium <==> |c.methods| <= 10 && (c.HasSuperclass() || c.interfaces != [])
    ensures r == Low <==> |c.methods| <= 10 && !c.HasSuperclass() && c.interfaces == []
  {
    var level := if c.HasSuperclass() || c.interfaces != [] then Medium else Low;
    if |c.methods| > 10 then High else level
  }

  function ExtendsWarning(superclass: string): string { "类继承自 " + superclass + ",需要确保父类已迁移" }
  function InterfacesWarning(interfaces: seq<string>): string { "实现了接口: " + Join(interfaces, ", ") + ",Python 中使用抽象基类" }
  const ManyMethodsWarning := "类包含大量方法,建议分阶段迁移"
  const ConstructorWarning := "Java 构造函数重载将合并为一个 __init__ 方法"
  function ConstantWarning(name: string): string { "常量字段 " + name + " 将转换为大写命名" }
  function StaticWarning(name: string): string { "静态方法 " + name + " 将添加 @staticmethod 装饰器" }

  function ClassWarnings(c: JavaClass): seq<string> {
    (if c.HasSuperclass() then [ExtendsWarning(c.superclass.value)] else [])
    + (if c.interfaces != [] then [InterfacesWarning(c.interfaces)] else [])
    + (if |c.methods| > 10 then [ManyMethodsWarning] else [])
  }

  predicate IsConstantField(f: JavaField) { "static" in f.modifiers && "final" in f.modifiers }

  /** One warning per `static final` field, in order. */
  function FieldWarnings(fs: seq<JavaField>): seq<string> {
    if fs == [] then []
    else
      var last := fs[|fs| - 1];
      FieldWarnings(fs[..|fs| - 1]) + (if IsConstantField(last) then [ConstantWarning(last.name)] else [])
  }

  /** One warning per `static` method, in order. */
  function MethodWarnings(ms: seq<JavaMethod>): seq<string> {
    if ms == [] then []
    else
      var last := ms[|ms| - 1];
      MethodWarnings(ms[..|ms| - 1]) + (if "static" in last.modifiers then [StaticWarning(last.name)] else [])
  }

  function ClassDescription(name: string): string { "迁移类 " + name + " 的定义和结构" }
  function FieldsDescription(name: string, n: nat): string { "迁移类 " + name + " 的 " + NatToDigits(n, 10) + " 个字段" }
  function ConstructorDescription(name: string): string { "迁移类 " + name + " 的构造函数为 __init__" }
  function MethodsDescription(name: string, n: nat): string { "迁移类 " + name + " 的 " + NatToDigits(n, 10) + " 个方法" }

  /** `[import_step_id] if import_step_id else []`: an id of 0 counts as absent. */
  function ImportDependency(importStepId: Option<int>): seq<int> {
    if importStepId.Some? && importStepId.value != 0 then [importStepId.value] else []
  }

  /** The optional step that follows a class step, or none. */
  function Follow(present: bool, step: MigrationStep): seq<MigrationStep> {
    if present then [step] else []
  }

  /** The class-definition step, numbered after `counter`. */
  function ClassStep(c: JavaClass, importStepId: Option<int>, counter: int): MigrationStep {
    MigrationStep(counter + 1, ClassDescription(c.name), ClassDefinition, ClassLevel(c),
      ImportDependency(importStepId), ClassWarnings(c))
  }

  /** The fields step, when the class has fields, numbered after `counter` and depending on `classId`. */
  function FieldsSteps(c: JavaClass, classId: int, counter: int): seq<MigrationStep> {
    Follow(c.fields != [], MigrationStep(counter + 1, FieldsDescription(c.name, |c.fields|),
      Fields, Low, [classId], FieldWarnings(c.fields)))
  }

  /** The constructor step, when the class has constructors. */
  function ConstructorSteps(c: JavaClass, classId: int, counter: int): seq<MigrationStep> {
    Follow(c.constructors != [], MigrationStep(counter + 1, ConstructorDescription(c.name),
      Constructor, Medium, [classId], [ConstructorWarning]))
  }

  /** The methods step, when the class has methods. */
  function MethodsSteps(c: JavaClass, classId: int, counter: int): seq<MigrationStep> {
    Follow(c.methods != [], MigrationStep(counter + 1, MethodsDescription(c.name, |c.methods|),
      Methods, Medium, [classId], MethodWarnings(c.methods)))
  }

  /** The steps for one class, numbered after `counter`. */
  function ClassSteps(c: JavaClass, importStepId: Option<int>, counter: int): seq<MigrationStep> {
    var classId := counter + 1;
    var fieldSteps := FieldsSteps(c, classId, classId);
    var constructorSteps := ConstructorSteps(c, classId, classId + |fieldSteps|);
    var methodSteps := MethodsSteps(c, classId, classId + |fieldSteps| + |constructorSteps|);
    [ClassStep(c, importStepId, counter)] + fieldSteps + constructorSteps + methodSteps
  }

  /** `1` when `b` holds. */
  function Count(b: bool): nat { if b then 1 else 0 }

  /**
   * A class gets its class step, then a fields step, a constructor step and
   * a methods step exactly when it has fields, constructors and methods, in
   * that order; the class step carries the import dependency and each
   * following step depends on the class step alone.
   */
  lemma ClassStepsShape(c: JavaClass, importStepId: Option<int>, counter: int)
    ensures var r := ClassSteps(c, importStepId, counter);
      var f := Count(c.fields != []);
      var k := Count(c.constructors != []);
      |r| == 1 + f + k + Count(c.methods != [])
      && r[0].component == ClassDefinition && r[0].dependencies == ImportDependency(importStepId)
      && (c.fields != [] ==> r[1].component == Fields)
      && (c.constructors != [] ==> r[1 + f].component == Constructor)
      && (c.methods != [] ==> r[1 + f + k].component == Methods)
      && (forall j :: 0 < j < |r| ==> r[j].dependencies == [counter + 1] && r[j].component != ClassDefinition)
  {
  }

  /** Steps numbered consecutively after `counter`. */
  predicate Numbered(steps: seq<MigrationStep>, counter: int) {
    forall k :: 0 <= k < |steps| ==> steps[k].stepId == counter + 1 + k
  }

  /** Every dependency names an earlier step, numbered from 1. */
  predicate DependsBackward(steps: seq<MigrationStep>) {
    forall k, j :: 0 <= k < |steps| && 0 <= j < |steps[k].dependencies| ==>
      1 <= steps[k].dependencies[j] < steps[k].stepId
  }

  lemma ClassStepsNumbered(c: JavaClass, importStepId: Option<int>, counter: int)
    ensures Numbered(ClassSteps(c, importStepId, counter), counter)
  {
  }

  lemma ClassStepsBackward(c: JavaClass, importStepId: Option<int>, counter: int)
    requires counter >= 0
    requires importStepId.Some? ==> 0 <= importStepId.value <= counter
    ensures DependsBackward(ClassSteps(c, importStepId, counter))
  {
    ClassStepsShape(c, importStepId, counter);
    ClassStepsNumbered(c, importStepId, counter);
  }

  // ------------------------------------------------------------------ plan_migration

  /**
   * The steps for each item in turn, each group numbered after the steps
   * before it: how `plan_migration` extends the plan class by class while
   * the counter runs on.
   */
  function Chain<T>(f: (T, int) -> seq<MigrationStep>, xs: seq<T>, counter: int): seq<MigrationStep> {
    if xs == [] then []
    else
      var before := Chain(f, xs[..|xs| - 1], counter);
      before + f(xs[|xs| - 1], counter + |before|)
  }

  /** The class steps of every class in turn, continuing the numbering. */
  function AllClassSteps(cs: seq<JavaClass>, importStepId: Option<int>, counter: int): seq<MigrationStep> {
    Chain(ClassStepsOf(importStepId), cs, counter)
  }

  /** `plan_class_migration` with the import step fixed, as a function of the class and the counter. */
  function ClassStepsOf(importStepId: Option<int>): (JavaClass, int) -> seq<MigrationStep> {
    (c: JavaClass, n: int) => ClassSteps(c, importStepId, n)
  }

  lemma ClassStepsOfApply(importStepId: Option<int>, c: JavaClass, n: int)
    ensures ClassStepsOf(importStepId)(c, n) == ClassSteps(c, importStepId, n)
  {
  }

  lemma AppendAssoc(a: seq<MigrationStep>, b: seq<MigrationStep>, c: seq<MigrationStep>)
    ensures (a + b) + c == a + (b + c)
  {
  }

  function FirstId(steps: seq<MigrationStep>): Option<int> {
    if steps != [] then Some(steps[0].stepId) else None
  }

  /** The plan's steps: the import step if any, then each class's steps. */
  function PlanSteps(s: JavaStructure): seq<MigrationStep> {
    var importSteps := ImportSteps(s.imports, 0);
    importSteps + AllClassSteps(s.classes, FirstId(importSteps), |importSteps|)
  }

  lemma NumberedAppend(a: seq<MigrationStep>, b: seq<MigrationStep>, counter: int)
    requires Numbered(a, counter) && Numbered(b, counter + |a|)
    ensures Numbered(a + b, counter)
  {
    forall k | 0 <= k < |a + b| ensures (a + b)[k].stepId == counter + 1 + k {
      if k >= |a| { assert (a + b)[k] == b[k - |a|]; }
    }
  }

  lemma BackwardAppend(a: seq<MigrationStep>, b: seq<MigrationStep>)
    requires DependsBackward(a) && DependsBackward(b)
    ensures DependsBackward(a + b)
  {
    forall k, j | 0 <= k < |a + b| && 0 <= j < |(a + b)[k].dependencies|
      ensures 1 <= (a + b)[k].dependencies[j] < (a + b)[k].stepId
    {
      if k < |a| { assert (a + b)[k] == a[k]; } else { assert (a + b)[k] == b[k - |a|]; }
    }
  }

  /** Every class-definition step in `steps` has dependencies `d`. */
  predicate ClassStepsDepend(steps: seq<MigrationStep>, d: seq<int>) {
    forall k :: 0 <= k < |steps| && steps[k].component == ClassDefinition ==> steps[k].dependencies == d
  }

  lemma DependAppend(a: seq<MigrationStep>, b: seq<MigrationStep>, d: seq<int>)
    requires ClassStepsDepend(a, d) && ClassStepsDepend(b, d)
    ensures ClassStepsDepend(a + b, d)
  {
    forall k | 0 <= k < |a + b| && (a + b)[k].component == ClassDefinition
      ensures (a + b)[k].dependencies == d
    {
      if k < |a| { assert (a + b)[k] == a[k]; } else { assert (a + b)[k] == b[k - |a|]; }
    }
  }

  /** Extending the items by one appends that item's group, numbered after the groups before. */
  lemma ChainSnoc<T>(f: (T, int) -> seq<MigrationStep>, xs: seq<T>, counter: int, i: nat)
    requires i < |xs|
    ensures var before := Chain(f, xs[..i], counter);
      Chain(f, xs[..i + 1], counter) == before + f(xs[i], counter + |before|)
  {
    assert xs[..i + 1][..i] == xs[..i];
  }

  /** `ChainSnoc` with the appended group named by the caller. */
  lemma ChainSnocWith<T>(f: (T, int) -> seq<MigrationStep>, xs: seq<T>, counter: int, i: nat, at: int, group: seq<MigrationStep>)
    requires i < |xs| && at == counter + |Chain(f, xs[..i], counter)|
    requires group == f(xs[i], at)
    ensures Chain(f, xs[..i + 1], counter) == Chain(f, xs[..i], counter) + group
  {
    ChainSnoc(f, xs, counter, i);
  }

  /** Groups numbered after their start make a chain numbered after its start. */
  lemma {:induction false} ChainNumbered<T>(f: (T, int) -> seq<MigrationStep>, xs: seq<T>, counter: int)
    requires forall x, n :: Numbered(f(x, n), n)
    ensures Numbered(Chain(f, xs, counter), counter)
    decreases |xs|
  {
    if xs != [] {
      var before := Chain(f, xs[..|xs| - 1], counter);
      ChainNumbered(f, xs[..|xs| - 1], counter);
      NumberedAppend(before, f(xs[|xs| - 1], counter + |before|), counter);
    }
  }

  /** Groups whose dependencies point backwards, from any start at or past `low`, chain the same way. */
  lemma {:induction false} ChainBackward<T>(f: (T, int) -> seq<MigrationStep>, xs: seq<T>, counter: int, low: int)
    requires counter >= low
    requires forall x, n :: n >= low ==> DependsBackward(f(x, n))
    ensures DependsBackward(Chain(f, xs, counter))
    decreases |xs|
  {
    if xs != [] {
      var before := Chain(f, xs[..|xs| - 1], counter);
      ChainBackward(f, xs[..|xs| - 1], counter, low);
      BackwardAppend(before, f(xs[|xs| - 1], counter + |before|));
    }
  }

  lemma {:induction false} ChainDepend<T>(f: (T, int) -> seq<MigrationStep>, xs: seq<T>, counter: int, d: seq<int>)
    requires forall x, n :: ClassStepsDepend(f(x, n), d)
    ensures ClassStepsDepend(Chain(f, xs, counter), d)
    decreases |xs|
  {
    if xs != [] {
      var before := Chain(f, xs[..|xs| - 1], counter);
      ChainDepend(f, xs[..|xs| - 1], counter, d);
      DependAppend(before, f(xs[|xs| - 1], counter + |before|), d);
    }
  }

  /** When every group opens with a class step, so does a non-empty chain. */
  lemma {:induction false} ChainHead<T>(f: (T, int) -> seq<MigrationStep>, xs: seq<T>, counter: int)
    requires forall x, n :: f(x, n) != [] && f(x, n)[0].component == ClassDefinition
    ensures xs != [] ==> Chain(f, xs, counter) != [] && Chain(f, xs, counter)[0].component == ClassDefinition
    decreases |xs|
  {
    if xs != [] {
      var before := Chain(f, xs[..|xs| - 1], counter);
      ChainHead(f, xs[..|xs| - 1], counter);
      var here := f(xs[|xs| - 1], counter + |before|);
      if before == [] {
        assert (before + here)[0] == here[0];
      } else {
        assert (before + here)[0] == before[0];
      }
    }
  }

  lemma ClassStepsDependOnImport(c: JavaClass, importStepId: Option<int>, counter: int)
    ensures ClassStepsDepend(ClassSteps(c, importStepId, counter), ImportDependency(importStepId))
  {
    ClassStepsShape(c, importStepId, counter);
  }

  /** `plan_migration` numbers its steps 1, 2, … in order. */
  lemma PlanNumbered(s: JavaStructure)
    ensures Numbered(PlanSteps(s), 0)
  {
    var importSteps := ImportSteps(s.imports, 0);
    var imp := FirstId(importSteps);
    var f := ClassStepsOf(imp);
    forall c, n ensures Numbered(f(c, n), n) {
      ClassStepsNumbered(c, imp, n);
    }
    ChainNumbered(f, s.classes, |importSteps|);
    NumberedAppend(importSteps, AllClassSteps(s.classes, imp, |importSteps|), 0);
  }

  /** Every dependency points to an earlier step, so the step graph has no cycle. */
  lemma PlanAcyclic(s: JavaStructure)
    ensures DependsBackward(PlanSteps(s))
  {
    var importSteps := ImportSteps(s.imports, 0);
    var imp := FirstId(importSteps);
    var f := ClassStepsOf(imp);
    assert imp.Some? ==> imp.value == 1 && |importSteps| == 1;
    forall c, n | n >= |importSteps| ensures DependsBackward(f(c, n)) {
      ClassStepsBackward(c, imp, n);
    }
    ChainBackward(f, s.classes, |importSteps|, |importSteps|);
    BackwardAppend(importSteps, AllClassSteps(s.classes, imp, |importSteps|));
  }

  /**
   * There is an import step exactly when there are imports; it is then step 1
   * and every class step depends on it, otherwise class steps depend on nothing.
   */
  lemma PlanImportStep(s: JavaStructure)
    ensures var r := PlanSteps(s);
      (s.imports != [] <==> r != [] && r[0].component == Imports)
      && (s.imports != [] ==> r[0].stepId == 1)
      && ClassStepsDepend(r, if s.imports != [] then [1] else [])
  {
    var importSteps := ImportSteps(s.imports, 0);
    var imp := FirstId(importSteps);
    var d := ImportDependency(imp);
    assert d == (if s.imports != [] then [1] else []);
    var f := ClassStepsOf(imp);
    forall c, n ensures ClassStepsDepend(f(c, n), d) {
      ClassStepsDependOnImport(c, imp, n);
    }
    forall c, n ensures f(c, n) != [] && f(c, n)[0].component == ClassDefinition {
      ClassStepsShape(c, imp, n);
    }
    ChainDepend(f, s.classes, |importSteps|, d);
    ChainHead(f, s.classes, |importSteps|);
    var rest := AllClassSteps(s.classes, imp, |importSteps|);
    DependAppend(importSteps, rest, d);
    if s.imports == [] {
      assert importSteps + rest == rest;
    } else {
      assert (importSteps + rest)[0] == importSteps[0];
    }
  }

  // ------------------------------------------------------------------ difficulty and recommendations

  /** `_estimate_difficulty`'s rating: 简单, 中等 or 复杂. */
  datatype Difficulty = Simple | Moderate | Hard

  /** The score `_estimate_difficulty` accumulates. */
  function Score(c: Stats): nat {
    2 * Count(c.totalClasses > 5) + 2 * Count(c.totalMethods > 20)
    + Count(c.hasInheritance) + Count(c.hasInterfaces) + Count(c.hasGenerics)
  }

  function Rating(c: Stats): Difficulty {
    var score := Score(c);
    if score <= 2 then Simple else if score <= 5 then Moderate else Hard
  }

  /** The number of the three feature flags that are set. */
  function Features(c: Stats): nat { Count(c.hasInheritance) + Count(c.hasInterfaces) + Count(c.hasGenerics) }

  /**
   * A plan is rated hard exactly when it has more than five classes, more
   * than twenty methods and at least two of inheritance, interfaces and
   * generics; it is rated simple exactly when the score stays at 2 or below.
   */
  lemma RatingBands(c: Stats)
    ensures Rating(c) == Hard <==> c.totalClasses > 5 && c.totalMethods > 20 && Features(c) >= 2
    ensures Rating(c) == Simple <==> Score(c) <= 2
    ensures Rating(c) == Simple ==> !(c.totalClasses > 5 && c.totalMethods > 20)
  {
  }

  function Rank(d: Difficulty): nat { match d case Simple => 0 case Moderate => 1 case Hard => 2 }

  /** Statistics that are at least as large in every respect are rated at least as hard. */
  lemma RatingMonotone(a: Stats, b: Stats)
    requires a.totalClasses <= b.totalClasses && a.totalMethods <= b.totalMethods
    requires (a.hasInheritance ==> b.hasInheritance) && (a.hasInterfaces ==> b.hasInterfaces)
    requires a.hasGenerics ==> b.hasGenerics
    ensures Rank(Rating(a)) <= Rank(Rating(b))
  {
    assert Score(a) <= Score(b);
  }

  const ManyClassesAdvice := "建议按类分批迁移,逐步测试验证"
  const InheritanceAdvice := "先迁移父类,再迁移子类以保证继承关系正确"
  const InterfacesAdvice := "使用 Python 的 abc 模块实现抽象基类"
  const GenericsAdvice := "使用 typing 模块提供类型注解"
  const ImportsAdvice := "仔细检查第三方库依赖,寻找 Python 等价库"

  /** `_generate_recommendations`: the pieces of advice whose condition holds, in a fixed order. */
  function Recommendations(c: Stats): (r: seq<string>)
    ensures |r| <= 5
  {
    (if c.totalClasses > 3 then [ManyClassesAdvice] else [])
    + (if c.hasInheritance then [InheritanceAdvice] else [])
    + (if c.hasInterfaces then [InterfacesAdvice] else [])
    + (if c.hasGenerics then [GenericsAdvice] else [])
    + (if c.totalImports > 10 then [ImportsAdvice] else [])
  }

  /** Each piece of advice is given exactly when its condition holds. */
  lemma RecommendationsSelected(c: Stats)
    ensures var r := Recommendations(c);
      (ManyClassesAdvice in r <==> c.totalClasses > 3)
      && (InheritanceAdvice in r <==> c.hasInheritance)
      && (InterfacesAdvice in r <==> c.hasInterfaces)
      && (GenericsAdvice in r <==> c.hasGenerics)
      && (ImportsAdvice in r <==> c.totalImports > 10)
  {
    AdviceDistinct();
  }

  lemma AdviceDistinct()
    ensures ManyClassesAdvice != InheritanceAdvice && ManyClassesAdvice != InterfacesAdvice
    ensures ManyClassesAdvice != GenericsAdvice && ManyClassesAdvice != ImportsAdvice
    ensures InheritanceAdvice != InterfacesAdvice && InheritanceAdvice != GenericsAdvice
    ensures InheritanceAdvice != ImportsAdvice && InterfacesAdvice != GenericsAdvice
    ensures InterfacesAdvice != ImportsAdvice && GenericsAdvice != ImportsAdvice
  {
    assert ManyClassesAdvice[0] != InheritanceAdvice[0];
    assert ManyClassesAdvice[0] != InterfacesAdvice[0];
    assert ManyClassesAdvice[0] != GenericsAdvice[0];
    assert ManyClassesAdvice[0] != ImportsAdvice[0];
    assert InheritanceAdvice[0] != InterfacesAdvice[0];
    assert InheritanceAdvice[0] != GenericsAdvice[0];
    assert InheritanceAdvice[0] != ImportsAdvice[0];
    assert InterfacesAdvice[3] != GenericsAdvice[3];
    assert InterfacesAdvice[0] != ImportsAdvice[0];
    assert GenericsAdvice[0] != ImportsAdvice[0];
  }

  /** The report `plan_migration` returns. */
  datatype PlanReport = PlanReport(
    complexityAnalysis: Stats,
    totalSteps: nat,
    steps: seq<MigrationStep>,
    estimatedDifficulty: Difficulty,
    recommendations: seq<string>)

  function MigrationPlan(s: JavaStructure): PlanReport {
    var stats := Complexity(s);
    var steps := PlanSteps(s);
    PlanReport(stats, |steps|, steps, Rating(stats), Recommendations(stats))
  }

  // ------------------------------------------------------------------ the planner

  /** `MigrationPlanner`: the current plan and the step counter. */
  class MigrationPlanner {
    var migrationPlan: seq<MigrationStep>
    var stepCounter: int

    constructor()
      ensures migrationPlan == [] && stepCounter == 0
    {
      migrationPlan := [];
      stepCounter := 0;
    }

    method AnalyzeComplexity(s: JavaStructure) returns (c: Stats)
      ensures c == Complexity(s)
    {
      var totalClasses := 0;
      var totalMethods := 0;
      var totalFields := 0;
      var hasInheritance := false;
      var hasInterfaces := false;
      var hasGenerics := false;
      var cs := s.classes;
      var i := 0;
      while i < |cs|
        invariant 0 <= i <= |cs|
        invariant totalClasses == i
        invariant totalMethods == TotalMethods(cs[..i]) && totalFields == TotalFields(cs[..i])
        invariant hasInheritance <==> exists k :: 0 <= k < i && cs[k].HasSuperclass()
        invariant hasInterfaces <==> exists k :: 0 <= k < i && cs[k].interfaces != []
        invariant hasGenerics <==> exists k :: 0 <= k < i && GenericClass(cs[k])
      {
        var cls := cs[i];
        assert cs[..i + 1][..i] == cs[..i];
        totalClasses := totalClasses + 1;
        totalMethods := totalMethods + |cls.methods|;
        totalFields := totalFields + |cls.fields|;
        if cls.HasSuperclass() {
          hasInheritance := true;
        }
        if cls.interfaces != [] {
          hasInterfaces := true;
        }
        var generic := ScanGenerics(cls);
        hasGenerics := hasGenerics || generic;
        i := i + 1;
      }
      assert cs[..i] == cs;
      c := Stats(totalClasses, totalMethods, totalFields, |s.imports|, hasInheritance, hasInterfaces, hasGenerics);
    }

    /** The inner loops over methods and their parameters. */
    method ScanGenerics(c: JavaClass) returns (found: bool)
      ensures found <==> GenericClass(c)
    {
      found := false;
      var i := 0;
      while i < |c.methods|
        invariant 0 <= i <= |c.methods|
        invariant found <==> exists k :: 0 <= k < i && GenericMethod(c.methods[k])
      {
        var params := c.methods[i].parameters;
        var j := 0;
        var here := false;
        while j < |params|
          invariant 0 <= j <= |params|
          invariant here <==> exists q :: 0 <= q < j && '<' in params[q].typ
        {
          if '<' in params[j].typ {
            here := true;
          }
          j := j + 1;
        }
        found := found || here;
        i := i + 1;
      }
    }

    method CreateStep(description: string, component: Component, complexity: Level,
                      dependencies: seq<int>, warnings: seq<string>) returns (step: MigrationStep)
      modifies this
      ensures stepCounter == old(stepCounter) + 1 && migrationPlan == old(migrationPlan)
      ensures step == MigrationStep(stepCounter, description, component, complexity, dependencies, warnings)
    {
      stepCounter := stepCounter + 1;
      step := MigrationStep(stepCounter, description, component, complexity, dependencies, warnings);
    }

    method PlanImportsMigration(s: JavaStructure) returns (steps: seq<MigrationStep>)
      modifies this
      ensures steps == ImportSteps(s.imports, old(stepCounter))
      ensures stepCounter == old(stepCounter) + |steps| && migrationPlan == old(migrationPlan)
    {
      steps := [];
      var imports := s.imports;
      if imports != [] {
        var warnings: seq<string> := [];
        if AnyContains(imports, "java.io") {
          warnings := warnings + [IoWarning];
        }
        if AnyContains(imports, "javax") {
          warnings := warnings + [JavaxWarning];
        }
        assert warnings == ImportWarnings(imports);
        var step := CreateStep(ImportsDescription(|imports|), Imports, Low, [], warnings);
        steps := steps + [step];
      }
    }

    method FieldWarningLines(fs: seq<JavaField>) returns (r: seq<string>)
      ensures r == FieldWarnings(fs)
    {
      r := [];
      var i := 0;
      while i < |fs|
        invariant 0 <= i <= |fs|
        invariant r == FieldWarnings(fs[..i])
      {
        assert fs[..i + 1][..i] == fs[..i];
        if "static" in fs[i].modifiers && "final" in fs[i].modifiers {
          r := r + [ConstantWarning(fs[i].name)];
        }
        i := i + 1;
      }
      assert fs[..i] == fs;
    }

    method MethodWarningLines(ms: seq<JavaMethod>) returns (r: seq<string>)
      ensures r == MethodWarnings(ms)
    {
      r := [];
      var i := 0;
      while i < |ms|
        invariant 0 <= i <= |ms|
        invariant r == MethodWarnings(ms[..i])
      {
        assert ms[..i + 1][..i] == ms[..i];
        if "static" in ms[i].modifiers {
          r := r + [StaticWarning(ms[i].name)];
        }
        i := i + 1;
      }
      assert ms[..i] == ms;
    }

    /** The class-definition step: its warnings and complexity, then a new step. */
    method PlanClassStep(c: JavaClass, importStepId: Option<int>) returns (step: MigrationStep)
      modifies this
      ensures step == ClassStep(c, importStepId, old(stepCounter))
      ensures stepCounter == old(stepCounter) + 1 && migrationPlan == old(migrationPlan)
    {
      var dependencies := if importStepId.Some? && importStepId.value != 0 then [importStepId.value] else [];
      var warnings: seq<string> := [];
      var complexity := Low;
      if c.HasSuperclass() {
        warnings := warnings + [ExtendsWarning(c.superclass.value)];
        complexity := Medium;
      }
      if c.interfaces != [] {
        warnings := warnings + [InterfacesWarning(c.interfaces)];
        complexity := Medium;
      }
      if |c.methods| > 10 {
        warnings := warnings + [ManyMethodsWarning];
        complexity := High;
      }
      assert warnings == ClassWarnings(c);
      step := CreateStep(ClassDescription(c.name), ClassDefinition, complexity, dependencies, warnings);
    }

    method PlanFieldsStep(c: JavaClass, classId: int) returns (steps: seq<MigrationStep>)
      modifies this
      ensures steps == FieldsSteps(c, classId, old(stepCounter))
      ensures stepCounter == old(stepCounter) + |steps| && migrationPlan == old(migrationPlan)
    {
      steps := [];
      if c.fields != [] {
        var fieldWarnings := FieldWarningLines(c.fields);
        var fieldStep := CreateStep(FieldsDescription(c.name, |c.fields|), Fields, Low, [classId], fieldWarnings);
        steps := [fieldStep];
      }
    }

    method PlanConstructorStep(c: JavaClass, classId: int) returns (steps: seq<MigrationStep>)
      modifies this
      ensures steps == ConstructorSteps(c, classId, old(stepCounter))
      ensures stepCounter == old(stepCounter) + |steps| && migrationPlan == old(migrationPlan)
    {
      steps := [];
      if c.constructors != [] {
        var constructorStep := CreateStep(ConstructorDescription(c.name), Constructor, Medium, [classId], [ConstructorWarning]);
        steps := [constructorStep];
      }
    }

    method PlanMethodsStep(c: JavaClass, classId: int) returns (steps: seq<MigrationStep>)
      modifies this
      ensures steps == MethodsSteps(c, classId, old(stepCounter))
      ensures stepCounter == old(stepCounter) + |steps| && migrationPlan == old(migrationPlan)
    {
      steps := [];
      if c.methods != [] {
        var methodWarnings := MethodWarningLines(c.methods);
        var methodStep := CreateStep(MethodsDescription(c.name, |c.methods|), Methods, Medium, [classId], methodWarnings);
        steps := [methodStep];
      }
    }

    /** `plan_class_migration`: the class step, then the fields, constructor and methods steps it calls for. */
    method PlanClassMigration(c: JavaClass, importStepId: Option<int>) returns (steps: seq<MigrationStep>)
      modifies this
      ensures steps == ClassSteps(c, importStepId, old(stepCounter))
      ensures steps == ClassStepsOf(importStepId)(c, old(stepCounter))
      ensures stepCounter == old(stepCounter) + |steps| && migrationPlan == old(migrationPlan)
    {
      ClassStepsOfApply(importStepId, c, stepCounter);
      var classStep := PlanClassStep(c, importStepId);
      var fieldSteps := PlanFieldsStep(c, classStep.stepId);
      var constructorSteps := PlanConstructorStep(c, classStep.stepId);
      var methodSteps := PlanMethodsStep(c, classStep.stepId);
      steps := [classStep] + fieldSteps + constructorSteps + methodSteps;
    }

    method EstimateDifficulty(c: Stats) returns (r: Difficulty)
      ensures r == Rating(c)
    {
      var score := 0;
      if c.totalClasses > 5 {
        score := score + 2;
      }
      if c.totalMethods > 20 {
        score := score + 2;
      }
      if c.hasInheritance {
        score := score + 1;
      }
      if c.hasInterfaces {
        score := score + 1;
      }
      if c.hasGenerics {
        score := score + 1;
      }
      if score <= 2 {
        r := Simple;
      } else if score <= 5 {
        r := Moderate;
      } else {
        r := Hard;
      }
    }

    /** One turn of the class loop of `plan_migration`: plan class `i` and append its steps. */
    method PlanNextClass(cs: seq<JavaClass>, i: nat, importSteps: seq<MigrationStep>, importStepId: Option<int>)
      requires i < |cs|
      requires migrationPlan == importSteps + Chain(ClassStepsOf(importStepId), cs[..i], |importSteps|)
      requires stepCounter == |migrationPlan|
      modifies this
      ensures migrationPlan == importSteps + Chain(ClassStepsOf(importStepId), cs[..i + 1], |importSteps|)
      ensures stepCounter == |migrationPlan|
    {
      ghost var before := Chain(ClassStepsOf(importStepId), cs[..i], |importSteps|);
      ghost var at := stepCounter;
      var classSteps := PlanClassMigration(cs[i], importStepId);
      ChainSnocWith(ClassStepsOf(importStepId), cs, |importSteps|, i, at, classSteps);
      AppendAssoc(importSteps, before, classSteps);
      migrationPlan := migrationPlan + classSteps;
    }

    /** `plan_migration`: reset the plan and the counter, then plan the imports and each class. */
    method PlanMigration(s: JavaStructure) returns (report: PlanReport)
      modifies this
      ensures report == MigrationPlan(s)
      ensures migrationPlan == report.steps && stepCounter == |report.steps|
    {
      migrationPlan := [];
      stepCounter := 0;
      var complexity := AnalyzeComplexity(s);
      var importSteps := PlanImportsMigration(s);
      migrationPlan := migrationPlan + importSteps;
      var importStepId := if importSteps != [] then Some(importSteps[0].stepId) else None;
      assert importStepId == FirstId(ImportSteps(s.imports, 0));
      var cs := s.classes;
      var i := 0;
      while i < |cs|
        invariant 0 <= i <= |cs|
        invariant migrationPlan == importSteps + Chain(ClassStepsOf(importStepId), cs[..i], |importSteps|)
        invariant stepCounter == |migrationPlan|
      {
        PlanNextClass(cs, i, importSteps, importStepId);
        i := i + 1;
      }
      assert cs[..i] == cs;
      var difficulty := EstimateDifficulty(complexity);
      report := PlanReport(complexity, |migrationPlan|, migrationPlan, difficulty, Recommendations(complexity));
    }
  }
}
