/**
 * The strict-mode orchestrator (`src/costrict_orchestrator.py`): six agents
 * run in a fixed workflow over a shared context, strict mode may skip test
 * generation and stops after a critical error, fast mode runs three phases,
 * and the results carry a success flag and quality metrics.
 *
 * The agents are language-model driven and are not modelled: together they
 * are one function from a phase and a context to the next context.
 */
module StrictOrchestration {
  import opened Wrappers
  import opened Text
  import opened PyValues

  datatype Phase =
    | RequirementsAnalysis
    | ArchitectureDesign
    | TaskPlanning
    | CodeGeneration
    | TestGeneration
    | CodeReview

  /** The strict workflow, in order. */
  const Workflow := [RequirementsAnalysis, ArchitectureDesign, TaskPlanning, CodeGeneration, TestGeneration, CodeReview]

  /** The phases of fast mode, in order. */
  const FastWorkflow := [RequirementsAnalysis, CodeGeneration, CodeReview]

  /** The context the agents pass along; the parsed structure, quality report and metadata are left out. */
  datatype Context = Context(
    javaCode: string,
    requirements: Option<map<string, Value>>,
    architecture: Option<map<string, Value>>,
    plan: Option<map<string, Value>>,
    pythonCode: Option<string>,
    testCode: Option<string>,
    reviewReport: Option<map<string, Value>>,
    errors: seq<string>,
    warnings: seq<string>)

  /** `AgentContext(java_code=java_code)`: every slot `None`, no errors, no warnings. */
  function InitialContext(javaCode: string): Context {
    Context(javaCode, None, None, None, None, None, None, [], [])
  }

  /** The agents: what executing a phase makes of a context. */
  type Agents = (Phase, Context) -> Context

  // ---------------------------------------------------------------------
  // Critical errors
  // ---------------------------------------------------------------------

  const CriticalKeywords := ["critical", "failed", "invalid"]

  /** An error is critical when its lower-cased text contains one of the keywords. */
  predicate IsCritical(error: string) {
    exists k :: 0 <= k < |CriticalKeywords| && Contains(Lower(error), CriticalKeywords[k])
  }

  /** `_has_critical_error`: scan the errors for the first critical one. */
  function HasCriticalError(errors: seq<string>): (r: bool)
    ensures r <==> exists i :: 0 <= i < |errors| && IsCritical(errors[i])
  {
    if errors == [] then false
    else if IsCritical(errors[0]) then true
    else
      var rest := HasCriticalError(errors[1..]);
      assert forall i :: 1 <= i < |errors| ==> errors[i] == errors[1..][i - 1];
      rest
  }

  lemma {:induction false} ContainsPrefix(s: string, sub: string, pre: string)
    requires Contains(s, sub)
    ensures Contains(pre + s, sub)
    decreases |pre|
  {
    if pre == [] {
      assert pre + s == s;
    } else {
      ContainsPrefix(s, sub, pre[1..]);
      assert (pre + s)[1..] == pre[1..] + s;
      assert Contains((pre + s)[1..], sub);
    }
  }

  /**
   * A keyword anywhere in an error, in any mix of upper and lower case, makes
   * it critical, whatever comes before or after it.
   */
  lemma {:induction false} KeywordMakesCritical(before: string, word: string, after: string, k: nat)
    requires k < |CriticalKeywords| && Lower(word) == CriticalKeywords[k]
    ensures IsCritical(before + word + after)
  {
    var kw := CriticalKeywords[k];
    var rest := kw + Lower(after);
    assert Lower(before + word + after) == Lower(before) + rest;
    assert rest[..|kw|] == kw;
    assert Contains(rest, kw);
    ContainsPrefix(rest, kw, Lower(before));
  }

  /** Upper case does not hide a keyword: "Generation FAILED" is critical. */
  lemma UpperCaseKeywordIsCritical()
    ensures IsCritical("Generation FAILED")
  {
    assert Lower("FAILED") == CriticalKeywords[1];
    KeywordMakesCritical("Generation ", "FAILED", "", 1);
    assert "Generation " + "FAILED" + "" == "Generation FAILED";
  }

  lemma {:induction false} ContainsTooShort(s: string, sub: string)
    requires |s| < |sub|
    ensures !Contains(s, sub)
    decreases |s|
  {
    if s != [] {
      ContainsTooShort(s[1..], sub);
    }
  }

  /** An error shorter than every keyword is never critical. */
  lemma ShortErrorNotCritical(error: string)
    requires |error| < 6
    ensures !IsCritical(error)
  {
    forall k | 0 <= k < |CriticalKeywords|
      ensures !Contains(Lower(error), CriticalKeywords[k])
    {
      ContainsTooShort(Lower(error), CriticalKeywords[k]);
    }
  }

  // ---------------------------------------------------------------------
  // The two workflows
  // ---------------------------------------------------------------------

  /** The context a run ends with and the phases it executed, in order. */
  datatype Trace = Trace(context: Context, ran: seq<Phase>)

  /** The loop of `migrate_strict` over `phases`. */
  function StrictRun(agents: Agents, c: Context, skipTests: bool, phases: seq<Phase>): Trace
    decreases |phases|
  {
    if phases == [] then Trace(c, [])
    else if skipTests && phases[0] == TestGeneration then StrictRun(agents, c, skipTests, phases[1..])
    else
      var next := agents(phases[0], c);
      if next.errors != [] && HasCriticalError(next.errors) then Trace(next, [phases[0]])
      else
        var t := StrictRun(agents, next, skipTests, phases[1..]);
        Trace(t.context, [phases[0]] + t.ran)
  }

  /** The phases strict mode means to run: all of them, minus test generation when it is skipped. */
  function Scheduled(skipTests: bool, phases: seq<Phase>): (r: seq<Phase>)
    ensures |r| <= |phases|
    ensures skipTests ==> TestGeneration !in r
    ensures !skipTests ==> r == phases
    ensures forall q :: q in r <==> q in phases && !(skipTests && q == TestGeneration)
  {
    if phases == [] then []
    else if skipTests && phases[0] == TestGeneration then Scheduled(skipTests, phases[1..])
    else [phases[0]] + Scheduled(skipTests, phases[1..])
  }

  lemma ScheduledWorkflow()
    ensures Scheduled(true, Workflow) == [RequirementsAnalysis, ArchitectureDesign, TaskPlanning, CodeGeneration, CodeReview]
    ensures Scheduled(false, Workflow) == Workflow
  {
  }

  /** Strict mode executes a prefix of the scheduled phases, in order. */
  lemma {:induction false} StrictRunsPrefix(agents: Agents, c: Context, skipTests: bool, phases: seq<Phase>)
    ensures var t := StrictRun(agents, c, skipTests, phases);
      var s := Scheduled(skipTests, phases);
      |t.ran| <= |s| && t.ran == s[..|t.ran|]
    decreases |phases|
  {
    if phases != [] {
      if skipTests && phases[0] == TestGeneration {
        StrictRunsPrefix(agents, c, skipTests, phases[1..]);
      } else {
        var next := agents(phases[0], c);
        if !(next.errors != [] && HasCriticalError(next.errors)) {
          StrictRunsPrefix(agents, next, skipTests, phases[1..]);
        }
      }
    }
  }

  /** Strict mode stops short of its schedule only right after a phase that left a critical error. */
  lemma {:induction false} StrictStopsOnlyOnCritical(agents: Agents, c: Context, skipTests: bool, phases: seq<Phase>)
    ensures var t := StrictRun(agents, c, skipTests, phases);
      |t.ran| < |Scheduled(skipTests, phases)| ==> t.ran != [] && HasCriticalError(t.context.errors)
    decreases |phases|
  {
    if phases != [] {
      if skipTests && phases[0] == TestGeneration {
        StrictStopsOnlyOnCritical(agents, c, skipTests, phases[1..]);
      } else {
        var next := agents(phases[0], c);
        if !(next.errors != [] && HasCriticalError(next.errors)) {
          StrictStopsOnlyOnCritical(agents, next, skipTests, phases[1..]);
        }
      }
    }
  }

  /** The context after running the phases `ran` in order from `c`. */
  function After(agents: Agents, c: Context, ran: seq<Phase>): Context
    decreases |ran|
  {
    if ran == [] then c else After(agents, agents(ran[0], c), ran[1..])
  }

  /**
   * The strict run's context is its phases applied in order, and every phase
   * but the last one run left no critical error: the first phase that leaves
   * one is the last to run.
   */
  lemma {:induction false} StrictStopsAtFirstCritical(agents: Agents, c: Context, skipTests: bool, phases: seq<Phase>)
    ensures StrictRun(agents, c, skipTests, phases).context == After(agents, c, StrictRun(agents, c, skipTests, phases).ran)
    ensures forall k :: 0 < k < |StrictRun(agents, c, skipTests, phases).ran| ==>
      !HasCriticalError(After(agents, c, StrictRun(agents, c, skipTests, phases).ran[..k]).errors)
    decreases |phases|
  {
    if phases == [] {
    } else if skipTests && phases[0] == TestGeneration {
      StrictStopsAtFirstCritical(agents, c, skipTests, phases[1..]);
      assert StrictRun(agents, c, skipTests, phases) == StrictRun(agents, c, skipTests, phases[1..]);
    } else {
      var p := phases[0];
      var next := agents(p, c);
      var t := StrictRun(agents, c, skipTests, phases);
      if next.errors != [] && HasCriticalError(next.errors) {
        assert t == Trace(next, [p]);
        assert [p][1..] == [];
      } else {
        StrictStopsAtFirstCritical(agents, next, skipTests, phases[1..]);
        var u := StrictRun(agents, next, skipTests, phases[1..]);
        assert t == Trace(u.context, [p] + u.ran);
        assert t.ran[0] == p && t.ran[1..] == u.ran;
        assert !HasCriticalError(next.errors);
        forall k | 0 < k < |t.ran|
          ensures !HasCriticalError(After(agents, c, t.ran[..k]).errors)
        {
          var pre := t.ran[..k];
          assert pre[0] == p && pre[1..] == u.ran[..k - 1];
          assert After(agents, c, pre) == After(agents, next, u.ran[..k - 1]);
          if k == 1 {
            assert u.ran[..0] == [];
          }
        }
      }
    }
  }

  /** Agents that never report a critical error let strict mode run its whole schedule. */
  lemma StrictRunsAllWithoutCriticalErrors(agents: Agents, c: Context, skipTests: bool, phases: seq<Phase>)
    requires forall p, x :: !HasCriticalError(agents(p, x).errors)
    ensures StrictRun(agents, c, skipTests, phases).ran == Scheduled(skipTests, phases)
  {
    StrictRunsPrefix(agents, c, skipTests, phases);
    StrictStopsOnlyOnCritical(agents, c, skipTests, phases);
    var t := StrictRun(agents, c, skipTests, phases);
    if t.ran != [] {
      StrictContextFromAgents(agents, c, skipTests, phases);
    }
  }

  /**
   * A run that executed nothing leaves the context alone; otherwise its final
   * context is one an agent returned.
   */
  lemma {:induction false} StrictContextFromAgents(agents: Agents, c: Context, skipTests: bool, phases: seq<Phase>)
    ensures var t := StrictRun(agents, c, skipTests, phases);
      (t.ran == [] ==> t.context == c)
      && (t.ran != [] ==> exists p, x :: t.context == agents(p, x))
    decreases |phases|
  {
    if phases == [] {
    } else if skipTests && phases[0] == TestGeneration {
      StrictContextFromAgents(agents, c, skipTests, phases[1..]);
    } else {
      var next := agents(phases[0], c);
      if next.errors != [] && HasCriticalError(next.errors) {
        assert StrictRun(agents, c, skipTests, phases).context == agents(phases[0], c);
      } else {
        StrictContextFromAgents(agents, next, skipTests, phases[1..]);
        if StrictRun(agents, next, skipTests, phases[1..]).ran == [] {
          assert StrictRun(agents, c, skipTests, phases).context == agents(phases[0], c);
        }
      }
    }
  }

  /** The loop of `migrate_fast`: every phase runs, whatever errors pile up. */
  function FastRun(agents: Agents, c: Context, phases: seq<Phase>): Context
    decreases |phases|
  {
    if phases == [] then c else FastRun(agents, agents(phases[0], c), phases[1..])
  }

  /** Fast mode is requirements, then code generation, then review. */
  lemma FastIsThreePhases(agents: Agents, c: Context)
    ensures FastRun(agents, c, FastWorkflow)
         == agents(CodeReview, agents(CodeGeneration, agents(RequirementsAnalysis, c)))
  {
    assert FastWorkflow[1..][1..][1..] == [];
  }

  // ---------------------------------------------------------------------
  // Results and quality metrics
  // ---------------------------------------------------------------------

  predicate DictFilled(d: Option<map<string, Value>>) { d.Some? && d.value != map[] }
  predicate TextFilled(s: Option<string>) { s.Some? && s.value != "" }

  /** Whether the context slot a phase produces is truthy. */
  predicate Filled(c: Context, p: Phase) {
    match p
    case RequirementsAnalysis => DictFilled(c.requirements)
    case ArchitectureDesign => DictFilled(c.architecture)
    case TaskPlanning => DictFilled(c.plan)
    case CodeGeneration => TextFilled(c.pythonCode)
    case TestGeneration => TextFilled(c.testCode)
    case CodeReview => DictFilled(c.reviewReport)
  }

  /** The number of phases among `phases` whose slot is filled. */
  function FilledCount(c: Context, phases: seq<Phase>): (r: nat)
    ensures r <= |phases|
  {
    if phases == [] then 0 else (if Filled(c, phases[0]) then 1 else 0) + FilledCount(c, phases[1..])
  }

  /**
   * `int(completed_phases / total_phases * 100)` with six phases in the
   * workflow. For the seven possible counts the float result truncates to
   * the same number as exact division does.
   */
  function Completeness(completed: nat): (r: nat)
    requires completed <= |Workflow|
    ensures r <= 100
    ensures r == 100 <==> completed == |Workflow|
  {
    100 * completed / |Workflow|
  }

  lemma CompletenessValues()
    ensures Completeness(0) == 0 && Completeness(1) == 16 && Completeness(2) == 33 && Completeness(3) == 50
    ensures Completeness(4) == 66 && Completeness(5) == 83 && Completeness(6) == 100
  {
  }

  datatype QualityMetrics = QualityMetrics(overallScore: Value, completeness: nat, qualityLevel: Value)

  const UnknownLevel := "未知"

  /** `review.get(key, default)`. */
  function Get(review: map<string, Value>, key: string, default: Value): Value {
    if key in review then review[key] else default
  }

  datatype Results = Results(
    success: bool,
    mode: string,
    requirements: Option<map<string, Value>>,
    architecture: Option<map<string, Value>>,
    plan: Option<map<string, Value>>,
    pythonCode: Option<string>,
    testCode: Option<string>,
    reviewReport: Option<map<string, Value>>,
    qualityMetrics: QualityMetrics,
    errors: seq<string>,
    warnings: seq<string>)

  /** An agent that touches only the slot of its own phase. */
  ghost predicate Confined(agents: Agents) {
    forall p, q, c :: q != p ==> Filled(agents(p, c), q) == Filled(c, q)
  }

  /** An agent that always fills the slot of its own phase. */
  ghost predicate Productive(agents: Agents) {
    forall p, c :: Filled(agents(p, c), p)
  }

  lemma {:induction false} FastRunFills(agents: Agents, c: Context, phases: seq<Phase>, q: Phase)
    requires Confined(agents)
    ensures q !in phases ==> Filled(FastRun(agents, c, phases), q) == Filled(c, q)
    decreases |phases|
  {
    if phases != [] && q !in phases {
      assert q != phases[0];
      FastRunFills(agents, agents(phases[0], c), phases[1..], q);
    }
  }

  lemma {:induction false} StrictRunFills(agents: Agents, c: Context, skipTests: bool, phases: seq<Phase>, q: Phase)
    requires Confined(agents) && Productive(agents)
    requires forall p, x :: !HasCriticalError(agents(p, x).errors)
    ensures var f := StrictRun(agents, c, skipTests, phases).context;
      (q in Scheduled(skipTests, phases) ==> Filled(f, q))
      && (q !in phases ==> Filled(f, q) == Filled(c, q))
    decreases |phases|
  {
    if phases != [] {
      if skipTests && phases[0] == TestGeneration {
        StrictRunFills(agents, c, skipTests, phases[1..], q);
      } else {
        var next := agents(phases[0], c);
        assert !HasCriticalError(next.errors);
        StrictRunFills(agents, next, skipTests, phases[1..], q);
        if q == phases[0] {
          assert Filled(next, q);
        } else {
          assert Filled(next, q) == Filled(c, q);
        }
      }
    }
  }

  lemma {:induction false} FilledCountAll(c: Context, phases: seq<Phase>)
    requires forall i :: 0 <= i < |phases| ==> Filled(c, phases[i])
    ensures FilledCount(c, phases) == |phases|
    decreases |phases|
  {
    if phases != [] {
      FilledCountAll(c, phases[1..]);
    }
  }

  /** The count over the workflow, one phase at a time. */
  lemma FilledCountWorkflow(c: Context)
    ensures FilledCount(c, Workflow)
         == (if Filled(c, RequirementsAnalysis) then 1 else 0) + (if Filled(c, ArchitectureDesign) then 1 else 0)
          + (if Filled(c, TaskPlanning) then 1 else 0) + (if Filled(c, CodeGeneration) then 1 else 0)
          + (if Filled(c, TestGeneration) then 1 else 0) + (if Filled(c, CodeReview) then 1 else 0)
  {
    var t6: seq<Phase> := [];
    var t5 := [CodeReview] + t6;
    var t4 := [TestGeneration] + t5;
    var t3 := [CodeGeneration] + t4;
    var t2 := [TaskPlanning] + t3;
    var t1 := [ArchitectureDesign] + t2;
    var t0 := [RequirementsAnalysis] + t1;
    assert t5[1..] == t6 && t4[1..] == t5 && t3[1..] == t4 && t2[1..] == t3 && t1[1..] == t2 && t0[1..] == t1;
    assert t0 == Workflow;
    assert FilledCount(c, t5) == (if Filled(c, CodeReview) then 1 else 0);
    assert FilledCount(c, t4) == (if Filled(c, TestGeneration) then 1 else 0) + FilledCount(c, t5);
    assert FilledCount(c, t3) == (if Filled(c, CodeGeneration) then 1 else 0) + FilledCount(c, t4);
    assert FilledCount(c, t2) == (if Filled(c, TaskPlanning) then 1 else 0) + FilledCount(c, t3);
    assert FilledCount(c, t1) == (if Filled(c, ArchitectureDesign) then 1 else 0) + FilledCount(c, t2);
  }

  /**
   * The results dictionary reports context `c`: success is the absence of
   * errors, every slot and both lists are copied, completeness counts the
   * filled slots, and score and level come from a non-empty review report.
   */
  predicate Reports(r: Results, c: Context) {
    (r.success <==> c.errors == [])
    && r.requirements == c.requirements && r.architecture == c.architecture && r.plan == c.plan
    && r.pythonCode == c.pythonCode && r.testCode == c.testCode && r.reviewReport == c.reviewReport
    && r.errors == c.errors && r.warnings == c.warnings
    && r.qualityMetrics.completeness == Completeness(FilledCount(c, Workflow))
    && (!DictFilled(c.reviewReport) ==>
          r.qualityMetrics.overallScore == Int(0) && r.qualityMetrics.qualityLevel == Str(UnknownLevel))
    && (DictFilled(c.reviewReport) ==>
          r.qualityMetrics.overallScore == Get(c.reviewReport.value, "overall_score", Int(0))
          && r.qualityMetrics.qualityLevel == Get(c.reviewReport.value, "overall_rating", Str(UnknownLevel)))
  }

  /** The orchestrator: the six agents and whether it was built for all phases. */
  class StrictModeOrchestrator {
    const agents: Agents
    const enableAllPhases: bool

    constructor(agents: Agents, enableAllPhases: bool)
      ensures this.agents == agents && this.enableAllPhases == enableAllPhases
    {
      this.agents := agents;
      this.enableAllPhases := enableAllPhases;
    }

    /** `_calculate_quality_metrics`: take score and level from a non-empty review, count the filled slots. */
    method CalculateQualityMetrics(c: Context) returns (m: QualityMetrics)
      ensures DictFilled(c.reviewReport) ==>
        m.overallScore == Get(c.reviewReport.value, "overall_score", Int(0))
        && m.qualityLevel == Get(c.reviewReport.value, "overall_rating", Str(UnknownLevel))
      ensures !DictFilled(c.reviewReport) ==> m.overallScore == Int(0) && m.qualityLevel == Str(UnknownLevel)
      ensures m.completeness == Completeness(FilledCount(c, Workflow))
    {
      m := QualityMetrics(Int(0), 0, Str(UnknownLevel));
      if DictFilled(c.reviewReport) {
        m := m.(overallScore := Get(c.reviewReport.value, "overall_score", Int(0)),
                 qualityLevel := Get(c.reviewReport.value, "overall_rating", Str(UnknownLevel)));
      }
      var completed := 0;
      var i := 0;
      while i < |Workflow|
        invariant i <= |Workflow|
        invariant completed + FilledCount(c, Workflow[i..]) == FilledCount(c, Workflow)
      {
        if Filled(c, Workflow[i]) {
          completed := completed + 1;
        }
        assert Workflow[i..][1..] == Workflow[i + 1..];
        i := i + 1;
      }
      m := m.(completeness := Completeness(completed));
    }

    /** `_build_results`: success is the absence of errors; the mode label comes from the constructor flag. */
    method BuildResults(c: Context) returns (r: Results)
      ensures Reports(r, c)
      ensures r.mode == (if enableAllPhases then "strict" else "fast")
    {
      var metrics := CalculateQualityMetrics(c);
      r := Results(|c.errors| == 0, if enableAllPhases then "strict" else "fast",
                   c.requirements, c.architecture, c.plan, c.pythonCode, c.testCode, c.reviewReport,
                   metrics, c.errors, c.warnings);
    }

    /** `migrate_strict`: run the workflow, skipping test generation on request and stopping at a critical error. */
    method MigrateStrict(javaCode: string, skipTests: bool) returns (r: Results, ghost final: Context)
      ensures final == StrictRun(agents, InitialContext(javaCode), skipTests, Workflow).context
      ensures Reports(r, final)
      ensures r.mode == (if enableAllPhases then "strict" else "fast")
    {
      var context := InitialContext(javaCode);
      final := StrictRun(agents, context, skipTests, Workflow).context;
      var i := 0;
      while i < |Workflow|
        invariant i <= |Workflow|
        invariant StrictRun(agents, context, skipTests, Workflow[i..]).context == final
      {
        var phase := Workflow[i];
        assert Workflow[i..][0] == phase && Workflow[i..][1..] == Workflow[i + 1..];
        if skipTests && phase == TestGeneration {
          i := i + 1;
          continue;
        }
        context := agents(phase, context);
        if context.errors != [] && HasCriticalError(context.errors) {
          break;
        }
        i := i + 1;
      }
      r := BuildResults(context);
    }

    /** `migrate_fast`: run requirements, code generation and review, with no early stop. */
    method MigrateFast(javaCode: string) returns (r: Results, ghost final: Context)
      ensures final == agents(CodeReview, agents(CodeGeneration, agents(RequirementsAnalysis, InitialContext(javaCode))))
      ensures Reports(r, final)
      ensures r.mode == (if enableAllPhases then "strict" else "fast")
    {
      var context := InitialContext(javaCode);
      final := FastRun(agents, context, FastWorkflow);
      FastIsThreePhases(agents, context);
      var i := 0;
      while i < |FastWorkflow|
        invariant i <= |FastWorkflow|
        invariant FastRun(agents, context, FastWorkflow[i..]) == final
      {
        assert FastWorkflow[i..][1..] == FastWorkflow[i + 1..];
        context := agents(FastWorkflow[i], context);
        i := i + 1;
      }
      r := BuildResults(context);
    }
  }

  /** With agents that keep to their own slot, fast mode never gets past 50% completeness. */
  lemma FastCompletenessAtMostHalf(agents: Agents, javaCode: string)
    requires Confined(agents)
    ensures var f := FastRun(agents, InitialContext(javaCode), FastWorkflow);
      Completeness(FilledCount(f, Workflow)) <= 50
  {
    var c := InitialContext(javaCode);
    var f := FastRun(agents, c, FastWorkflow);
    FastRunFills(agents, c, FastWorkflow, ArchitectureDesign);
    FastRunFills(agents, c, FastWorkflow, TaskPlanning);
    FastRunFills(agents, c, FastWorkflow, TestGeneration);
    FilledCountWorkflow(f);
  }

  /** Well-behaved agents without critical errors make strict mode 100% complete, or 83% without tests. */
  lemma StrictCompleteness(agents: Agents, javaCode: string, skipTests: bool)
    requires Confined(agents) && Productive(agents)
    requires forall p, x :: !HasCriticalError(agents(p, x).errors)
    ensures var f := StrictRun(agents, InitialContext(javaCode), skipTests, Workflow).context;
      Completeness(FilledCount(f, Workflow)) == if skipTests then 83 else 100
  {
    var c := InitialContext(javaCode);
    var f := StrictRun(agents, c, skipTests, Workflow).context;
    ScheduledWorkflow();
    StrictRunFills(agents, c, skipTests, Workflow, RequirementsAnalysis);
    StrictRunFills(agents, c, skipTests, Workflow, ArchitectureDesign);
    StrictRunFills(agents, c, skipTests, Workflow, TaskPlanning);
    StrictRunFills(agents, c, skipTests, Workflow, CodeGeneration);
    StrictRunFills(agents, c, skipTests, Workflow, CodeReview);
    if skipTests {
      StrictTestSlotUntouched(agents, c, Workflow);
    } else {
      StrictRunFills(agents, c, skipTests, Workflow, TestGeneration);
    }
    FilledCountWorkflow(f);
    assert FilledCount(f, Workflow) == if skipTests then 5 else 6;
    CompletenessValues();
  }

  /** When tests are skipped, strict mode leaves the test slot as it found it. */
  lemma {:induction false} StrictTestSlotUntouched(agents: Agents, c: Context, phases: seq<Phase>)
    requires Confined(agents)
    ensures Filled(StrictRun(agents, c, true, phases).context, TestGeneration) == Filled(c, TestGeneration)
    decreases |phases|
  {
    if phases != [] && phases[0] != TestGeneration {
      var next := agents(phases[0], c);
      if !(next.errors != [] && HasCriticalError(next.errors)) {
        StrictTestSlotUntouched(agents, next, phases[1..]);
      }
    } else if phases != [] {
      StrictTestSlotUntouched(agents, c, phases[1..]);
    }
  }
}
