/**
 * The deterministic part of the intelligent migrator
 * (`src/intelligent_migrator.py`): the complexity score by which HYBRID mode
 * picks between rule-based and semantic migration, and the bookkeeping of
 * the results dictionary that `migrate` fills in.
 *
 * The Java parser, the rule-based mapper and generator, the language-model
 * components and the validator are not modelled here: what each of them
 * returned, or the exception text it raised, is an input.
 */
module IntelligentMigration {
  import opened Wrappers
  import opened JavaModel
  import opened PyValues

  const RuleBased := "rule_based"
  const Semantic := "semantic"
  const Hybrid := "hybrid"

  /** HYBRID mode migrates semantically only above this score. */
  const ScoreThreshold := 3

  // ---------------------------------------------------------------------
  // The complexity score of `_decide_mode`
  // ---------------------------------------------------------------------

  /** What `get_full_structure` returned: the empty dictionary when parsing failed. */
  datatype ParseOutput = EmptyParse | Parsed(structure: JavaStructure)

  /** Points for the number of methods of one class. */
  function MethodCountScore(n: nat): (r: nat)
    ensures r <= 3
    ensures r == 0 <==> n <= 2
    ensures n <= 5 ==> r <= 1
    ensures n > 10 ==> r == 3
  {
    if n > 10 then 3 else if n > 5 then 2 else if n > 2 then 1 else 0
  }

  /** The number of methods whose body is truthy. */
  function BodyCount(ms: seq<JavaMethod>): (r: nat)
    ensures r <= |ms|
  {
    if ms == [] then 0
    else BodyCount(ms[..|ms| - 1]) + (if BodyTruthy(ms[|ms| - 1].body) then 1 else 0)
  }

  /** Points for inheritance: two for a superclass, two for implemented interfaces. */
  function InheritanceScore(c: JavaClass): (r: nat)
    ensures r == 0 <==> !c.HasSuperclass() && c.interfaces == []
    ensures r == 4 <==> c.HasSuperclass() && c.interfaces != []
  {
    (if c.HasSuperclass() then 2 else 0) + (if c.interfaces != [] then 2 else 0)
  }

  /** The contribution of one class to the complexity score. */
  function ClassScore(c: JavaClass): nat {
    MethodCountScore(|c.methods|) + InheritanceScore(c) + BodyCount(c.methods)
  }

  /** The complexity score of a list of classes. */
  function Score(cs: seq<JavaClass>): nat {
    if cs == [] then 0 else Score(cs[..|cs| - 1]) + ClassScore(cs[|cs| - 1])
  }

  /** The mode `_decide_mode` picks for what the parser returned. */
  function ChosenMode(parse: ParseOutput): (r: string)
    ensures r == RuleBased || r == Semantic
    ensures parse.EmptyParse? ==> r == RuleBased
  {
    match parse
    case EmptyParse => RuleBased
    case Parsed(s) => if Score(s.classes) <= ScoreThreshold then RuleBased else Semantic
  }

  /** The mode `migrate` uses: HYBRID decides by the score, every other mode is used as given. */
  function ActualMode(mode: string, parse: ParseOutput): string {
    if mode == Hybrid then ChosenMode(parse) else mode
  }

  lemma {:induction false} BodyCountAppend(ms: seq<JavaMethod>, i: nat)
    requires i < |ms|
    ensures BodyCount(ms[..i + 1]) == BodyCount(ms[..i]) + (if BodyTruthy(ms[i].body) then 1 else 0)
  {
    assert ms[..i + 1][..i] == ms[..i];
  }

  lemma {:induction false} ScoreSnoc(cs: seq<JavaClass>, i: nat)
    requires i < |cs|
    ensures Score(cs[..i + 1]) == Score(cs[..i]) + ClassScore(cs[i])
  {
    assert cs[..i + 1][..i] == cs[..i];
  }

  /** The score is additive over the class list. */
  lemma {:induction false} ScoreAppend(a: seq<JavaClass>, b: seq<JavaClass>)
    ensures Score(a + b) == Score(a) + Score(b)
    decreases |b|
  {
    if b == [] {
      assert a + b == a;
    } else {
      assert (a + b)[..|a + b| - 1] == a + b[..|b| - 1];
      ScoreAppend(a, b[..|b| - 1]);
    }
  }

  /** No class contributes more than the whole score. */
  lemma {:induction false} ClassScoreAtMostScore(cs: seq<JavaClass>, i: nat)
    requires i < |cs|
    ensures ClassScore(cs[i]) <= Score(cs)
    decreases |cs|
  {
    if i < |cs| - 1 {
      assert cs[..|cs| - 1][i] == cs[i];
      ClassScoreAtMostScore(cs[..|cs| - 1], i);
    }
  }

  /** Adding classes never lowers the score, so it never turns SEMANTIC into RULE_BASED. */
  lemma MoreClassesNeverSimpler(imports: seq<string>, a: seq<JavaClass>, b: seq<JavaClass>)
    ensures Score(a) <= Score(a + b)
    ensures ChosenMode(Parsed(JavaStructure(imports, a))) == Semantic
        ==> ChosenMode(Parsed(JavaStructure(imports, a + b))) == Semantic
  {
    ScoreAppend(a, b);
  }

  /** A single class scoring above the threshold makes the whole file SEMANTIC. */
  lemma ComplexClassSelectsSemantic(s: JavaStructure, i: nat)
    requires i < |s.classes| && ClassScore(s.classes[i]) > ScoreThreshold
    ensures ChosenMode(Parsed(s)) == Semantic
  {
    ClassScoreAtMostScore(s.classes, i);
  }

  /** A class that both extends a class and implements an interface scores at least four. */
  lemma ExtendsAndImplementsSelectsSemantic(s: JavaStructure, i: nat)
    requires i < |s.classes| && s.classes[i].HasSuperclass() && s.classes[i].interfaces != []
    ensures ChosenMode(Parsed(s)) == Semantic
  {
    ComplexClassSelectsSemantic(s, i);
  }

  /**
   * Four methods with non-empty bodies already push a class past the threshold,
   * so a plain bean with two getters and two setters is migrated semantically.
   */
  lemma FourImplementedMethodsSelectSemantic(s: JavaStructure, i: nat)
    requires i < |s.classes|
    requires |s.classes[i].methods| == 4
    requires forall j :: 0 <= j < 4 ==> BodyTruthy(s.classes[i].methods[j].body)
    ensures ChosenMode(Parsed(s)) == Semantic
  {
    var ms := s.classes[i].methods;
    BodyCountAppend(ms, 0);
    BodyCountAppend(ms, 1);
    BodyCountAppend(ms, 2);
    BodyCountAppend(ms, 3);
    assert ms[..4] == ms;
    ComplexClassSelectsSemantic(s, i);
  }

  /** A class scores nothing exactly when it is small, inherits nothing and implements no method. */
  lemma {:induction false} BodyCountZero(ms: seq<JavaMethod>)
    ensures BodyCount(ms) == 0 <==> forall j :: 0 <= j < |ms| ==> !BodyTruthy(ms[j].body)
    decreases |ms|
  {
    if ms != [] {
      var init := ms[..|ms| - 1];
      BodyCountZero(init);
      assert forall j :: 0 <= j < |init| ==> init[j] == ms[j];
    }
  }

  predicate Trivial(c: JavaClass) {
    |c.methods| <= 2 && !c.HasSuperclass() && c.interfaces == []
    && forall j :: 0 <= j < |c.methods| ==> !BodyTruthy(c.methods[j].body)
  }

  /** The score is zero exactly when every class is trivial. */
  lemma {:induction false} ScoreZeroIffTrivial(cs: seq<JavaClass>)
    ensures Score(cs) == 0 <==> forall i :: 0 <= i < |cs| ==> Trivial(cs[i])
    decreases |cs|
  {
    if cs != [] {
      var init := cs[..|cs| - 1];
      ScoreZeroIffTrivial(init);
      BodyCountZero(cs[|cs| - 1].methods);
      assert forall i :: 0 <= i < |init| ==> init[i] == cs[i];
    }
  }

  // ---------------------------------------------------------------------
  // The results dictionary of `migrate`
  // ---------------------------------------------------------------------

  /** What the language-model components did on the semantic path. */
  datatype SemanticOutcomes = SemanticOutcomes(
    analysis: Outcome,   // `analyze_business_logic`
    code: Outcome,       // `generate_python_code`, then `refactor_to_pythonic` when asked
    review: Outcome)     // `review_migration`

  /** What every collaborator of `migrate` did for this input. */
  datatype Oracles = Oracles(
    parse: ParseOutput,          // `get_full_structure`, the same on both calls
    mapping: Outcome,            // `map_structure`
    generation: Outcome,         // `generate_code` followed by `format_code`
    semantic: SemanticOutcomes,
    validation: Outcome)         // `validate_migration`

  /** The results dictionary; `pythonStructure` is `None` while the key is absent. */
  datatype MigrationResult = MigrationResult(
    success: bool,
    modeUsed: Option<string>,
    javaStructure: Option<ParseOutput>,
    pythonStructure: Option<Value>,
    pythonCode: Value,
    businessAnalysis: Value,
    reviewReport: Value,
    validationReport: Value,
    errors: seq<string>,
    warnings: seq<string>)

  const InitialResult := MigrationResult(false, None, None, None, NoneValue, NoneValue, NoneValue, NoneValue, [], [])

  const FailurePrefix := "迁移失败: "
  const ValidationWarning := "代码验证发现问题"
  const RatingPrefix := "代码质量评级: "
  /** `str(e)` of calling the analyzer that a non-semantic migrator never created. */
  const MissingAnalyzerMessage := "'NoneType' object has no attribute 'analyze_business_logic'"

  /** The review's `overall_rating`, when the report is a dictionary holding it. */
  function Rating(review: Value): Option<Value> {
    if review.Dict? && "overall_rating" in review.entries then Some(review.entries["overall_rating"]) else None
  }

  /** The warning `_migrate_semantic` adds for a poor or mediocre rating. */
  function RatingWarning(review: Value): (r: seq<string>)
    ensures |r| <= 1
    ensures r != [] <==> Rating(review) == Some(Str("较差")) || Rating(review) == Some(Str("一般"))
  {
    match Rating(review)
    case Some(Str(s)) => if s == "较差" || s == "一般" then [RatingPrefix + s] else []
    case _ => []
  }

  /** The results after the conversion step for mode `actual`; `code` is `None` when it raised. */
  datatype Converted = Converted(results: MigrationResult, code: Option<Value>)

  /** `_migrate_rule_based`: parse, map and generate, recording the structures on the way. */
  function RuleBasedConversion(r0: MigrationResult, o: Oracles): Converted {
    var r1 := r0.(javaStructure := Some(o.parse));
    match o.mapping
    case Raised(e) => Converted(r1.(errors := r1.errors + [FailurePrefix + e]), None)
    case Returned(ps) =>
      var r2 := r1.(pythonStructure := Some(ps));
      match o.generation
      case Raised(e) => Converted(r2.(errors := r2.errors + [FailurePrefix + e]), None)
      case Returned(code) => Converted(r2, Some(code))
  }

  /** `_migrate_semantic`, with the components present or (for an unknown mode) absent. */
  function SemanticConversion(r0: MigrationResult, hasLanguageModel: bool, o: SemanticOutcomes): Converted {
    if !hasLanguageModel then Converted(r0.(errors := r0.errors + [FailurePrefix + MissingAnalyzerMessage]), None)
    else match o.analysis
    case Raised(e) => Converted(r0.(errors := r0.errors + [FailurePrefix + e]), None)
    case Returned(analysis) =>
      var r1 := r0.(businessAnalysis := analysis);
      match o.code
      case Raised(e) => Converted(r1.(errors := r1.errors + [FailurePrefix + e]), None)
      case Returned(code) =>
        match o.review
        case Raised(e) => Converted(r1.(errors := r1.errors + [FailurePrefix + e]), None)
        case Returned(review) =>
          Converted(r1.(reviewReport := review, warnings := r1.warnings + RatingWarning(review)), Some(code))
  }

  /** The validation step and the final `success` flag, after a conversion that returned `code`. */
  function Validated(r0: MigrationResult, code: Value, validate: bool, o: Oracles): MigrationResult {
    var r1 := r0.(pythonCode := code);
    if !validate then r1.(success := r1.errors == [])
    else match o.validation
    case Raised(e) => r1.(errors := r1.errors + [FailurePrefix + e])
    case Returned(report) =>
      var r2 := r1.(validationReport := report);
      match ReportStatus(report)
      case None => r2.(errors := r2.errors + [FailurePrefix + MissingStatusMessage])
      case Some(status) =>
        var r3 := if status == Str("failed") then r2.(warnings := r2.warnings + [ValidationWarning]) else r2;
        r3.(success := r3.errors == [])
  }

  /** The results dictionary `migrate` returns. */
  function Migration(mode: string, hasLanguageModel: bool, validate: bool, o: Oracles): MigrationResult {
    var actual := ActualMode(mode, o.parse);
    var r0 := InitialResult.(modeUsed := Some(actual));
    var c := if actual == RuleBased then RuleBasedConversion(r0, o)
             else SemanticConversion(r0, hasLanguageModel, o.semantic);
    match c.code
    case None => c.results
    case Some(code) => Validated(c.results, code, validate, o)
  }

  /** `migrate` succeeds exactly when it records no error, and it records at most one. */
  lemma SuccessIffNoErrors(mode: string, hasLanguageModel: bool, validate: bool, o: Oracles)
    ensures var r := Migration(mode, hasLanguageModel, validate, o);
      (r.success <==> r.errors == [])
      && |r.errors| <= 1
      && (r.errors != [] ==> r.errors[0][..|FailurePrefix|] == FailurePrefix)
  {
  }

  /** The mode is always recorded: HYBRID records the scored choice, any other mode itself. */
  lemma ModeUsed(mode: string, hasLanguageModel: bool, validate: bool, o: Oracles)
    ensures var r := Migration(mode, hasLanguageModel, validate, o);
      && (mode != Hybrid ==> r.modeUsed == Some(mode))
      && (mode == Hybrid ==> r.modeUsed == Some(ChosenMode(o.parse)))
  {
  }

  /** A 'failed' validation report adds a warning, never an error. */
  lemma FailedValidationOnlyWarns(mode: string, hasLanguageModel: bool, o: Oracles, report: map<string, Value>)
    requires o.validation == Returned(Dict(report)) && StatusKey in report && report[StatusKey] == Str("failed")
    ensures var withCheck := Migration(mode, hasLanguageModel, true, o);
      var without := Migration(mode, hasLanguageModel, false, o);
      withCheck.errors == without.errors
      && withCheck.success == without.success
      && (without.success ==> withCheck.warnings == without.warnings + [ValidationWarning]
                              && withCheck.validationReport == Dict(report))
  {
  }

  /** The rule-based path never consults the language model and records both structures. */
  lemma RuleBasedPath(mode: string, hasLanguageModel: bool, validate: bool, o: Oracles)
    requires ActualMode(mode, o.parse) == RuleBased
    ensures var r := Migration(mode, hasLanguageModel, validate, o);
      r.businessAnalysis == NoneValue && r.reviewReport == NoneValue
      && r.javaStructure == Some(o.parse)
      && (o.mapping.Returned? <==> r.pythonStructure.Some?)
  {
  }

  /** A mode that is none of the three finds no language-model components and fails. */
  lemma UnknownModeFails(mode: string, validate: bool, o: Oracles)
    requires mode != RuleBased && mode != Semantic && mode != Hybrid
    ensures var r := Migration(mode, false, validate, o);
      !r.success && r.errors == [FailurePrefix + MissingAnalyzerMessage] && r.modeUsed == Some(mode)
  {
  }

  /** The migrator: its mode and whether it built the language-model components. */
  class IntelligentMigrator {
    const mode: string
    const hasLanguageModel: bool

    constructor(mode: string)
      ensures this.mode == mode
      ensures hasLanguageModel <==> mode == Semantic || mode == Hybrid
    {
      this.mode := mode;
      hasLanguageModel := mode == Semantic || mode == Hybrid;
    }

    /** `_decide_mode`: accumulate the complexity score class by class and method by method. */
    method DecideMode(parse: ParseOutput) returns (r: string)
      ensures r == ChosenMode(parse)
    {
      if parse.EmptyParse? {
        return RuleBased;
      }
      var cs := parse.structure.classes;
      var score := 0;
      var i := 0;
      while i < |cs|
        invariant i <= |cs|
        invariant score == Score(cs[..i])
      {
        var c := cs[i];
        var n := |c.methods|;
        if n > 10 {
          score := score + 3;
        } else if n > 5 {
          score := score + 2;
        } else if n > 2 {
          score := score + 1;
        }
        if c.HasSuperclass() {
          score := score + 2;
        }
        if c.interfaces != [] {
          score := score + 2;
        }
        var j := 0;
        while j < n
          invariant j <= n
          invariant score == Score(cs[..i]) + MethodCountScore(n) + InheritanceScore(c) + BodyCount(c.methods[..j])
        {
          BodyCountAppend(c.methods, j);
          if BodyTruthy(c.methods[j].body) {
            score := score + 1;
          }
          j := j + 1;
        }
        assert c.methods[..n] == c.methods;
        ScoreSnoc(cs, i);
        i := i + 1;
      }
      assert cs[..i] == cs;
      if score <= ScoreThreshold {
        r := RuleBased;
      } else {
        r := Semantic;
      }
    }

    /** `migrate`: fill in the results dictionary step by step, turning an exception into an error entry. */
    method Migrate(validate: bool, o: Oracles) returns (results: MigrationResult)
      ensures results == Migration(mode, hasLanguageModel, validate, o)
    {
      results := InitialResult;
      var actual := mode;
      if mode == Hybrid {
        actual := DecideMode(o.parse);
      }
      results := results.(modeUsed := Some(actual));
      var code: Value;
      if actual == RuleBased {
        results := results.(javaStructure := Some(o.parse));
        if o.mapping.Raised? {
          results := results.(errors := results.errors + [FailurePrefix + o.mapping.message]);
          return;
        }
        results := results.(pythonStructure := Some(o.mapping.value));
        if o.generation.Raised? {
          results := results.(errors := results.errors + [FailurePrefix + o.generation.message]);
          return;
        }
        code := o.generation.value;
      } else {
        if !hasLanguageModel {
          results := results.(errors := results.errors + [FailurePrefix + MissingAnalyzerMessage]);
          return;
        }
        var s := o.semantic;
        if s.analysis.Raised? {
          results := results.(errors := results.errors + [FailurePrefix + s.analysis.message]);
          return;
        }
        results := results.(businessAnalysis := s.analysis.value);
        if s.code.Raised? {
          results := results.(errors := results.errors + [FailurePrefix + s.code.message]);
          return;
        }
        if s.review.Raised? {
          results := results.(errors := results.errors + [FailurePrefix + s.review.message]);
          return;
        }
        results := results.(reviewReport := s.review.value);
        var rating := Rating(s.review.value);
        if rating == Some(Str("较差")) || rating == Some(Str("一般")) {
          results := results.(warnings := results.warnings + [RatingPrefix + rating.value.s]);
        }
        code := s.code.value;
      }
      results := results.(pythonCode := code);
      if validate {
        if o.validation.Raised? {
          results := results.(errors := results.errors + [FailurePrefix + o.validation.message]);
          return;
        }
        var report := o.validation.value;
        results := results.(validationReport := report);
        var status := ReportStatus(report);
        if status.None? {
          results := results.(errors := results.errors + [FailurePrefix + MissingStatusMessage]);
          return;
        }
        if status.value == Str("failed") {
          results := results.(warnings := results.warnings + [ValidationWarning]);
        }
      }
      results := results.(success := |results.errors| == 0);
    }
  }
}
