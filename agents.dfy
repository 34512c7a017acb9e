/**
 * `src/agents.py`: the four pipeline agents (parser, mapper, generator,
 * validator) with their status field and error/warning logs, and the
 * orchestrator that runs them in order and builds the response dictionary.
 *
 * The components the agents call (the Java parser, the semantic mapper,
 * the code generator and formatter, the migration validator) are not run
 * here: each call's outcome, a returned value or a raised exception, is an
 * input of the agent.
 */
module Agents {
  import opened Wrappers
  import opened Text
  import opened PyValues

  /** `AgentStatus`. */
  datatype AgentStatus = Idle | Running | Success | Failed | Paused {
    /** The enum member's `value`. */
    function Value(): string {
      match this
      case Idle => "idle"
      case Running => "running"
      case Success => "success"
      case Failed => "failed"
      case Paused => "paused"
    }
  }

  /** The four agents, in pipeline order; also the keys of the orchestrator's `results`. */
  datatype AgentKind = Parser | Mapper | Generator | Validator

  const Stages: seq<AgentKind> := [Parser, Mapper, Generator, Validator]

  /** The position of a stage in the pipeline. */
  function Index(kind: AgentKind): (r: nat)
    ensures r < |Stages| && Stages[r] == kind
  {
    match kind
    case Parser => 0
    case Mapper => 1
    case Generator => 2
    case Validator => 3
  }

  /** The `name` each agent passes to `BaseAgent.__init__`. */
  function AgentName(kind: AgentKind): string {
    match kind
    case Parser => "ParserAgent"
    case Mapper => "MapperAgent"
    case Generator => "GeneratorAgent"
    case Validator => "ValidatorAgent"
  }

  /** The agents' `validate_input`. */
  predicate ValidInput(kind: AgentKind, input: Value) {
    match kind
    case Parser => input.Str? && !IsBlank(input.s)
    case Mapper => input.Dict? && "classes" in input.entries
    case Generator => input.Dict? && "classes" in input.entries
    case Validator => input.Dict? && "java_code" in input.entries && "python_code" in input.entries
  }

  /** The error logged when `validate_input` refuses the input. */
  function InvalidInputMessage(kind: AgentKind): string {
    match kind
    case Parser => "无效的输入数据"
    case Mapper => "无效的 Java 结构"
    case Generator => "无效的 Python 结构"
    case Validator => "无效的输入数据"
  }

  /** The error logged when the component raises. */
  function ExceptionMessage(kind: AgentKind, message: string): string {
    match kind
    case Parser => "解析过程中发生异常: " + message
    case Mapper => "映射过程中发生异常: " + message
    case Generator => "代码生成过程中发生异常: " + message
    case Validator => "验证过程中发生异常: " + message
  }

  const ParseFailureMessage := "Java 代码解析失败"
  const IssuesFoundMessage := "验证发现问题"

  /** What one `execute` call does: its final status and output and the error or warning it logs. */
  datatype Run = Run(status: AgentStatus, output: Value, error: Option<string>, warning: Option<string>)

  function Listed(x: Option<string>): (r: seq<string>)
    ensures |r| <= 1 && (r == [] <==> x.None?)
  {
    if x.Some? then [x.value] else []
  }

  /**
   * `execute`: refuse invalid input before calling the component, fail when
   * the component raises, and otherwise succeed with the component's value;
   * the parser also fails on an empty structure, and the validator succeeds
   * even on a failed report, with a warning.
   */
  function Execution(kind: AgentKind, input: Value, outcome: Outcome): (r: Run)
    ensures r.status == Success || r.status == Failed
    ensures r.status == Failed <==> r.error.Some?
    ensures r.status == Failed ==> r.output == NoneValue
    ensures r.status == Success ==> outcome.Returned? && r.output == outcome.value
    ensures !ValidInput(kind, input) ==> r.status == Failed && r.error == Some(InvalidInputMessage(kind))
    ensures outcome.Raised? ==> r.status == Failed
    ensures r.warning.Some? ==> kind == Validator && r.status == Success
  {
    if !ValidInput(kind, input) then Run(Failed, NoneValue, Some(InvalidInputMessage(kind)), None)
    else
      match outcome
      case Raised(message) => Run(Failed, NoneValue, Some(ExceptionMessage(kind, message)), None)
      case Returned(v) =>
        match kind
        case Parser =>
          if Truthy(v) then Run(Success, v, None, None)
          else Run(Failed, NoneValue, Some(ParseFailureMessage), None)
        case Mapper => Run(Success, v, None, None)
        case Generator => Run(Success, v, None, None)
        case Validator =>
          match ReportStatus(v)
          case None => Run(Failed, NoneValue, Some(ExceptionMessage(Validator, MissingStatusMessage)), None)
          case Some(status) =>
            Run(Success, v, None, if status == Str("failed") then Some(IssuesFoundMessage) else None)
  }

  /** The guard runs before the component: on refused input the component's outcome does not matter. */
  lemma GuardBeforeComponent(kind: AgentKind, input: Value, o1: Outcome, o2: Outcome)
    requires !ValidInput(kind, input)
    ensures Execution(kind, input, o1) == Execution(kind, input, o2)
    ensures Execution(kind, input, o1).error == Some(InvalidInputMessage(kind))
  {
  }

  /** The parser input is valid exactly when it is a string with a non-whitespace character. */
  lemma ParserInputNonBlank(input: Value)
    ensures ValidInput(Parser, input) <==> input.Str? && exists i :: 0 <= i < |input.s| && !IsSpace(input.s[i])
  {
  }

  /** An empty parse result fails the parser agent. */
  lemma EmptyStructureFails(input: Value, structure: Value)
    requires ValidInput(Parser, input) && !Truthy(structure)
    ensures Execution(Parser, input, Returned(structure)) == Run(Failed, NoneValue, Some(ParseFailureMessage), None)
  {
  }

  /** A report whose `overall_status` is `failed` still ends the validator agent in SUCCESS, with a warning. */
  lemma FailedReportSucceeds(input: Value, report: map<string, Value>)
    requires ValidInput(Validator, input)
    requires StatusKey in report && report[StatusKey] == Str("failed")
    ensures Execution(Validator, input, Returned(Dict(report)))
      == Run(Success, Dict(report), None, Some(IssuesFoundMessage))
  {
  }

  /** When the component never hands back `None`, the output is `None` exactly when the agent failed. */
  lemma OutputNoneIffFailed(kind: AgentKind, input: Value, outcome: Outcome)
    requires outcome.Returned? ==> outcome.value != NoneValue
    ensures Execution(kind, input, outcome).output == NoneValue <==> Execution(kind, input, outcome).status == Failed
  {
  }

  /** `AgentResult`. Its lists are the agent's own `errors`/`warnings` at the time it is returned. */
  datatype AgentResult = AgentResult(status: AgentStatus, output: Value, errors: seq<string>, warnings: seq<string>)

  /** `BaseAgent` and its four subclasses; `kind` selects the subclass. */
  class Agent {
    const kind: AgentKind
    const name: string
    var status: AgentStatus
    var errors: seq<string>
    var warnings: seq<string>

    constructor(kind: AgentKind)
      ensures this.kind == kind && name == AgentName(kind)
      ensures status == Idle && errors == [] && warnings == []
    {
      this.kind := kind;
      name := AgentName(kind);
      status := Idle;
      errors := [];
      warnings := [];
    }

    /** `log_error`: the logger is left out, the message is kept. */
    method LogError(message: string)
      modifies this
      ensures errors == old(errors) + [message]
      ensures warnings == old(warnings) && status == old(status)
    {
      errors := errors + [message];
    }

    /** `log_warning`. */
    method LogWarning(message: string)
      modifies this
      ensures warnings == old(warnings) + [message]
      ensures errors == old(errors) && status == old(status)
    {
      warnings := warnings + [message];
    }

    /** `execute`, with the component's outcome given. */
    method Execute(input: Value, outcome: Outcome) returns (r: AgentResult)
      modifies this
      ensures var run := Execution(kind, input, outcome);
        status == run.status
        && errors == old(errors) + Listed(run.error)
        && warnings == old(warnings) + Listed(run.warning)
        && r == AgentResult(run.status, run.output, errors, warnings)
    {
      status := Running;
      if !ValidInput(kind, input) {
        LogError(InvalidInputMessage(kind));
        status := Failed;
        return AgentResult(Failed, NoneValue, errors, warnings);
      }
      if outcome.Raised? {
        LogError(ExceptionMessage(kind, outcome.message));
        status := Failed;
        return AgentResult(Failed, NoneValue, errors, warnings);
      }
      var v := outcome.value;
      if kind == Parser && !Truthy(v) {
        LogError(ParseFailureMessage);
        status := Failed;
        return AgentResult(Failed, NoneValue, errors, warnings);
      }
      if kind == Validator {
        var reportStatus := ReportStatus(v);
        if reportStatus.None? {
          LogError(ExceptionMessage(Validator, MissingStatusMessage));
          status := Failed;
          return AgentResult(Failed, NoneValue, errors, warnings);
        }
        if reportStatus.value == Str("failed") {
          LogWarning(IssuesFoundMessage);
        }
      }
      status := Success;
      r := AgentResult(Success, v, errors, warnings);
    }
  }

  // ------------------------------------------------------------------ orchestration

  /** The component outcomes of one `orchestrate_migration` call, one per agent. */
  datatype Outcomes = Outcomes(parse: Outcome, mapping: Outcome, generate: Outcome, validate: Outcome)

  /** The dictionary handed to the validator agent. */
  function ValidationInput(javaCode: string, pythonCode: Value, pythonStructure: Value): Value {
    Dict(map["java_code" := Str(javaCode), "python_code" := pythonCode, "python_structure" := pythonStructure])
  }

  /**
   * The agents one call runs, in order: parser, mapper and generator, each
   * only after the previous one succeeded, then the validator when asked for.
   */
  function Runs(javaCode: string, validate: bool, o: Outcomes): (rs: seq<Run>)
    ensures 1 <= |rs| <= 4
    ensures forall j :: 0 <= j < |rs| - 1 && j < 3 ==> rs[j].status == Success
    ensures |rs| < 3 ==> rs[|rs| - 1].status == Failed
    ensures |rs| == 4 <==> validate && |rs| >= 3 && rs[2].status == Success
  {
    var p := Execution(Parser, Str(javaCode), o.parse);
    if p.status != Success then [p]
    else
      var m := Execution(Mapper, p.output, o.mapping);
      if m.status != Success then [p, m]
      else
        var g := Execution(Generator, m.output, o.generate);
        if g.status != Success || !validate then [p, m, g]
        else [p, m, g, Execution(Validator, ValidationInput(javaCode, g.output, m.output), o.validate)]
  }

  /** The call reaches `_build_success_response`: parser, mapper and generator all succeeded. */
  predicate Migrated(rs: seq<Run>) {
    |rs| >= 3 && rs[2].status == Success
  }

  /** Whether the migration succeeds does not depend on the validator: its outcome and the flag do not matter. */
  lemma ValidatorNeverDecides(javaCode: string, v1: bool, v2: bool, o1: Outcomes, o2: Outcomes)
    requires o1.parse == o2.parse && o1.mapping == o2.mapping && o1.generate == o2.generate
    ensures Migrated(Runs(javaCode, v1, o1)) <==> Migrated(Runs(javaCode, v2, o2))
    ensures forall j :: 0 <= j < 3 && j < |Runs(javaCode, v1, o1)| ==> Runs(javaCode, v1, o1)[j] == Runs(javaCode, v2, o2)[j]
  {
  }

  /** The pipeline succeeds exactly when all three translating agents succeed. */
  lemma MigratedIffAllSucceed(javaCode: string, validate: bool, o: Outcomes)
    ensures var rs := Runs(javaCode, validate, o);
      Migrated(rs) <==> |rs| >= 3 && rs[0].status == Success && rs[1].status == Success && rs[2].status == Success
  {
  }

  /** The reason `_build_failure_response` is given: the stage that failed. */
  function FailureReason(stopped: nat): string {
    if stopped <= 1 then "解析失败" else if stopped == 2 then "映射失败" else "代码生成失败"
  }

  /** The response dictionary of `orchestrate_migration`. */
  datatype Response = Response(
    success: bool,
    javaStructure: Value,
    pythonStructure: Value,
    pythonCode: Value,
    validationReport: Value,
    errors: seq<string>,
    warnings: seq<string>)

  /**
   * What `self.results` keeps of an `AgentResult`. Its error and warning
   * lists are the agent's own list objects, so they are read from the agent
   * rather than stored.
   */
  datatype Entry = Entry(status: AgentStatus, output: Value)

  /** `results` after one call has recorded its runs, stage by stage, over `before`. */
  function Recorded(before: map<AgentKind, Entry>, rs: seq<Run>): map<AgentKind, Entry>
    requires |rs| <= 4
  {
    if rs == [] then before
    else
      var last := rs[|rs| - 1];
      Recorded(before, rs[..|rs| - 1])[Stages[|rs| - 1] := Entry(last.status, last.output)]
  }

  /** Recording one more run updates the entry of the stage at its position. */
  lemma RecordedSnoc(before: map<AgentKind, Entry>, rs: seq<Run>, r: Run)
    requires |rs| < 4
    ensures Recorded(before, rs + [r]) == Recorded(before, rs)[Stages[|rs|] := Entry(r.status, r.output)]
  {
    assert (rs + [r])[..|rs|] == rs;
  }

  /**
   * Recording never removes a key: the stages that ran hold their new
   * entries and every other key keeps its old entry.
   */
  lemma {:induction false} RecordedEntries(before: map<AgentKind, Entry>, rs: seq<Run>)
    requires |rs| <= 4
    ensures forall k :: k in Recorded(before, rs) <==> k in before || Index(k) < |rs|
    ensures forall k :: Index(k) < |rs| ==> Recorded(before, rs)[k] == Entry(rs[Index(k)].status, rs[Index(k)].output)
    ensures forall k :: k in before && Index(k) >= |rs| ==> Recorded(before, rs)[k] == before[k]
  {
    if rs != [] {
      var init := rs[..|rs| - 1];
      RecordedEntries(before, init);
      forall k | Index(k) < |init|
        ensures rs[Index(k)] == init[Index(k)]
      {
      }
    }
  }

  /** One agent stepped through `execute` with the given run. */
  twostate predicate Stepped(a: Agent, run: Run)
    reads a
  {
    a.status == run.status
    && a.errors == old(a.errors) + Listed(run.error)
    && a.warnings == old(a.warnings) + Listed(run.warning)
  }

  /** `MigrationOrchestrator`. */
  class Orchestrator {
    const parser: Agent
    const mapper: Agent
    const generator: Agent
    const validator: Agent
    /** The keys of `self.results`, in insertion order. */
    var recorded: seq<AgentKind>
    var results: map<AgentKind, Entry>

    /** The agent registered for a stage. */
    function AgentFor(kind: AgentKind): Agent {
      match kind
      case Parser => parser
      case Mapper => mapper
      case Generator => generator
      case Validator => validator
    }

    /**
     * The agents are four distinct objects of the right kinds, and the
     * results hold a prefix of the stages: a later stage is only ever
     * recorded after the earlier ones, and no entry is ever removed.
     */
    predicate Valid()
      reads this
    {
      parser.kind == Parser && mapper.kind == Mapper && generator.kind == Generator && validator.kind == Validator
      && parser != mapper && parser != generator && parser != validator
      && mapper != generator && mapper != validator && generator != validator
      && |recorded| <= 4 && recorded == Stages[..|recorded|]
      && results.Keys == set k | k in recorded
    }

    constructor()
      ensures Valid()
      ensures fresh(parser) && fresh(mapper) && fresh(generator) && fresh(validator)
      ensures parser.status == Idle && mapper.status == Idle && generator.status == Idle && validator.status == Idle
      ensures parser.errors == [] && mapper.errors == [] && generator.errors == [] && validator.errors == []
      ensures recorded == [] && results == map[]
    {
      parser := new Agent(Parser);
      mapper := new Agent(Mapper);
      generator := new Agent(Generator);
      validator := new Agent(Validator);
      recorded := [];
      results := map[];
    }

    /** `self.results[kind] = result`: a new key goes last, an existing key keeps its place. */
    method Record(kind: AgentKind, result: Entry)
      requires Valid()
      requires kind in recorded || (|recorded| < 4 && Stages[|recorded|] == kind)
      modifies this
      ensures Valid()
      ensures results == old(results)[kind := result]
      ensures recorded == if kind in old(recorded) then old(recorded) else old(recorded) + [kind]
    {
      results := results[kind := result];
      if kind !in recorded {
        assert Stages[..|recorded| + 1] == recorded + [kind];
        recorded := recorded + [kind];
      }
    }

    /** The errors of the recorded agents, in `results` order. */
    function ErrorsOf(ks: seq<AgentKind>): seq<string>
      reads parser, mapper, generator, validator
    {
      if ks == [] then [] else AgentFor(ks[0]).errors + ErrorsOf(ks[1..])
    }

    function WarningsOf(ks: seq<AgentKind>): seq<string>
      reads parser, mapper, generator, validator
    {
      if ks == [] then [] else AgentFor(ks[0]).warnings + WarningsOf(ks[1..])
    }

    /**
     * `_build_failure_response`: the reason, then each recorded agent's
     * errors and warnings. A result's lists are the agent's own lists, so
     * they are read from the agent as they are now, including entries from
     * earlier calls.
     */
    method BuildFailureResponse(reason: string) returns (response: Response)
      ensures response == Response(false, NoneValue, NoneValue, NoneValue, NoneValue,
        [reason] + ErrorsOf(recorded), WarningsOf(recorded))
    {
      var allErrors := [reason];
      var allWarnings := [];
      var i := 0;
      while i < |recorded|
        invariant 0 <= i <= |recorded|
        invariant allErrors + ErrorsOf(recorded[i..]) == [reason] + ErrorsOf(recorded)
        invariant allWarnings + WarningsOf(recorded[i..]) == WarningsOf(recorded)
      {
        var agent := AgentFor(recorded[i]);
        assert recorded[i..][1..] == recorded[i + 1..];
        allErrors := allErrors + agent.errors;
        allWarnings := allWarnings + agent.warnings;
        i := i + 1;
      }
      response := Response(false, NoneValue, NoneValue, NoneValue, NoneValue, allErrors, allWarnings);
    }

    /** `_build_success_response`: the outputs of the recorded results, with no errors or warnings. */
    method BuildSuccessResponse() returns (response: Response)
      requires Parser in results && Mapper in results && Generator in results
      ensures response == Response(true, results[Parser].output, results[Mapper].output, results[Generator].output,
        if Validator in results then results[Validator].output else NoneValue, [], [])
    {
      var report := if Validator in results then results[Validator].output else NoneValue;
      response := Response(true, results[Parser].output, results[Mapper].output, results[Generator].output, report, [], []);
    }

    /** Whether `kind` can be recorded now: it is already a key, or it is the next stage. */
    predicate Recordable(kind: AgentKind)
      reads this
    {
      kind in recorded || (|recorded| < 4 && Stages[|recorded|] == kind)
    }

    /** A stage is recordable once every earlier stage has been recorded. */
    lemma StageRecordable(kind: AgentKind)
      requires Valid() && Index(kind) <= |recorded|
      ensures Recordable(kind)
    {
      if Index(kind) < |recorded| {
        assert recorded[Index(kind)] == kind;
      }
    }

    /** One stage of `orchestrate_migration`: the agent's `execute`, then `self.results[kind] = result`. */
    method RunStage(kind: AgentKind, input: Value, outcome: Outcome) returns (r: AgentResult)
      requires Valid() && Index(kind) <= |recorded|
      modifies this, AgentFor(kind)
      ensures Valid()
      ensures Stepped(AgentFor(kind), Execution(kind, input, outcome))
      ensures r == AgentResult(Execution(kind, input, outcome).status, Execution(kind, input, outcome).output,
        AgentFor(kind).errors, AgentFor(kind).warnings)
      ensures results == old(results)[kind := Entry(r.status, r.output)]
      ensures |recorded| == if Index(kind) < old(|recorded|) then old(|recorded|) else Index(kind) + 1
    {
      StageRecordable(kind);
      r := AgentFor(kind).Execute(input, outcome);
      Record(kind, Entry(r.status, r.output));
    }

    /**
     * The stages of `orchestrate_migration`: run the agents as `Runs` says and
     * record each result; the failure reason names the stage that stopped
     * the pipeline, if any.
     */
    method RunPipeline(javaCode: string, validate: bool, o: Outcomes) returns (reason: Option<string>)
      requires Valid()
      modifies this, parser, mapper, generator, validator
      ensures Valid()
      ensures var rs := Runs(javaCode, validate, o);
        Stepped(parser, rs[0])
        && (if |rs| > 1 then Stepped(mapper, rs[1]) else unchanged(mapper))
        && (if |rs| > 2 then Stepped(generator, rs[2]) else unchanged(generator))
        && (if |rs| > 3 then Stepped(validator, rs[3]) else unchanged(validator))
      ensures results == Recorded(old(results), Runs(javaCode, validate, o))
      ensures var rs := Runs(javaCode, validate, o);
        reason == if Migrated(rs) then None else Some(FailureReason(|rs|))
    {
      ghost var rs := Runs(javaCode, validate, o);
      ghost var p := Execution(Parser, Str(javaCode), o.parse);
      var parserResult := RunStage(Parser, Str(javaCode), o.parse);
      RecordedSnoc(old(results), [], p);
      assert [] + [p] == [p];
      if parserResult.status != Success {
        assert rs == [p];
        return Some("解析失败");
      }
      ghost var m := Execution(Mapper, p.output, o.mapping);
      var mapperResult := RunStage(Mapper, parserResult.output, o.mapping);
      RecordedSnoc(old(results), [p], m);
      assert [p] + [m] == [p, m];
      if mapperResult.status != Success {
        assert rs == [p, m];
        return Some("映射失败");
      }
      ghost var g := Execution(Generator, m.output, o.generate);
      var generatorResult := RunStage(Generator, mapperResult.output, o.generate);
      RecordedSnoc(old(results), [p, m], g);
      assert [p, m] + [g] == [p, m, g];
      if generatorResult.status != Success {
        assert rs == [p, m, g];
        return Some("代码生成失败");
      }
      if validate {
        var input := ValidationInput(javaCode, generatorResult.output, mapperResult.output);
        var validatorResult := RunStage(Validator, input, o.validate);
        RecordedSnoc(old(results), [p, m, g], Execution(Validator, input, o.validate));
        assert [p, m, g] + [Execution(Validator, input, o.validate)] == [p, m, g, Execution(Validator, input, o.validate)];
        assert rs == [p, m, g, Execution(Validator, input, o.validate)];
      } else {
        assert rs == [p, m, g];
      }
      return None;
    }

    /**
     * `orchestrate_migration`: the failure response at the first stage that
     * fails, otherwise the success response, whatever the validator found.
     */
    method OrchestrateMigration(javaCode: string, validate: bool, o: Outcomes) returns (response: Response)
      requires Valid()
      modifies this, parser, mapper, generator, validator
      ensures Valid()
      ensures var rs := Runs(javaCode, validate, o);
        Stepped(parser, rs[0])
        && (if |rs| > 1 then Stepped(mapper, rs[1]) else unchanged(mapper))
        && (if |rs| > 2 then Stepped(generator, rs[2]) else unchanged(generator))
        && (if |rs| > 3 then Stepped(validator, rs[3]) else unchanged(validator))
      ensures results == Recorded(old(results), Runs(javaCode, validate, o))
      ensures response.success <==> Migrated(Runs(javaCode, validate, o))
      ensures var rs := Runs(javaCode, validate, o);
        !Migrated(rs) ==> response == Response(false, NoneValue, NoneValue, NoneValue, NoneValue,
          [FailureReason(|rs|)] + ErrorsOf(recorded), WarningsOf(recorded))
      ensures var rs := Runs(javaCode, validate, o);
        Migrated(rs) ==> response == Response(true, rs[0].output, rs[1].output, rs[2].output,
          if |rs| == 4 then rs[3].output
          else if Validator in old(results) then old(results)[Validator].output
          else NoneValue,
          [], [])
    {
      var reason := RunPipeline(javaCode, validate, o);
      ghost var rs := Runs(javaCode, validate, o);
      RecordedEntries(old(results), rs);
      if reason.Some? {
        response := BuildFailureResponse(reason.value);
      } else {
        response := BuildSuccessResponse();
      }
    }

    /** `get_agent_statuses`. */
    function AgentStatuses(): (r: map<string, string>)
      reads parser, mapper, generator, validator
      ensures r.Keys == {"parser", "mapper", "generator", "validator"}
      ensures r["parser"] == parser.status.Value() && r["mapper"] == mapper.status.Value()
      ensures r["generator"] == generator.status.Value() && r["validator"] == validator.status.Value()
    {
      map["parser" := parser.status.Value(), "mapper" := mapper.status.Value(),
          "generator" := generator.status.Value(), "validator" := validator.status.Value()]
    }
  }
}
