# j2p_migration, modelled in Dafny

`j2p_migration` migrates Java source to Python. Its deterministic core is a
rule-based pipeline:

- a parser (javalang) produces a class record;
- the **semantic mapper** turns it into a Python-side record (types, names, modifiers, initializers, imports);
- the **code generator** renders that record as Python text and tidies blank lines;
- the **validator** checks the result and aggregates a `success | warning | failed` report;
- the **migration planner** counts complexity, numbers plan steps and scores difficulty.

Three orchestrators drive this pipeline:

- the agent pipeline of `agents.py`;
- the HYBRID mode chooser of `intelligent_migrator.py`;
- the six-phase strict workflow of `costrict_orchestrator.py`.

A configuration record, `config.py`, holds the options.

The repository also carries a small port of an emoji library (`emoji_python`):

- a character trie;
- a brace extractor;
- the Fitzpatrick skin-tone enum;
- HTML numeric entities of an emoji's code points.

## Files

| file | models |
|---|---|
| `wrappers.dfy` | `Option` and `Result` |
| `text.dfy` | characters and strings: case, `str.strip`, `int()` on text, decimal and hexadecimal digits, `split('\n')`/`join`, `splitlines(True)` with every line break Python knows, string order and `sorted(set(...))` |
| `seqs.dfy` | mapping and filtering a sequence |
| `values.dfy` | the dynamically typed values the agents pass around (`None`, strings, dicts) |
| `java_model.dfy` | the parser's class record, which the mapper, planner and orchestrators take as input |
| `python_model.dfy` | the mapper's Python-side record, which the generator and validator take as input |
| `semantic_mapper.dfy` | `src/semantic_mapper.py` |
| `code_generator.dfy` | `src/code_generater.py` |
| `validator.dfy` | `src/validator.py` |
| `migration_planner.dfy` | `src/migration_planner.py` |
| `agents.dfy` | `src/agents.py` |
| `intelligent_migrator.dfy` | `src/intelligent_migrator.py` |
| `costrict_orchestrator.dfy` | `src/costrict_orchestrator.py` |
| `config.dfy` | `src/config.py` |
| `emoji_trie.dfy` | `emoji_migration/emoji_python/EmojiTrie.py` |
| `emoji_parser.dfy` | `emoji_migration/emoji_python/EmojiParser.py` |
| `fitzpatrick.dfy` | `emoji_migration/emoji_python/Fitzpatrick.py` |
| `emoji.dfy` | `emoji_migration/emoji_python/Emoji.py` |

Stateful code is modelled as classes whose methods update fields:

- the mapper's `mapped_structure`;
- the generator's output;
- the validator's `errors`, `warnings` and `validation_results`;
- the planner's step counter and plan;
- the agents' status and logs, and the orchestrator's `results`;
- the trie's nodes.

Each such method is proved equal to a specification function, and the properties are proved about those functions.

Pure code is modelled as functions and lemmas.

The model follows the code wherever the code and its tests disagree:

- `ArrayList<Integer>` maps to `List[int]`;
- a `static final` field `maxSize` is named `MAXSIZE`;
- a private constant keeps the `_` prefix.

Calls the model cannot see enter as parameters:

- Python's `ast.parse`, as its outcome;
- `float()` on a string;
- the javalang parser's outcome;
- the flake8 and execution subprocess checks;
- UTF-8 decoding;
- the language-model agents, as a function from phase and context to context.

## Model

| member | source | states |
|---|---|---|
| SemanticMapping.MapTypePlain | src/semantic_mapper.py:68-97 | a plain type name maps to its `TYPE_MAPPING` entry, or to itself if it has none; the result is plain and mapping it again changes nothing |
| SemanticMapping.MapTypeArray | src/semantic_mapper.py:92-95 | `T[]` maps to `List[m(T)]` |
| SemanticMapping.MapTypeGeneric | src/semantic_mapper.py:79-97 | `X<Y>` maps to `List[m(Y)]`, `Set[m(Y)]` or `Dict[str, m(Y)]` when X maps to list, set or dict; any other base passes through unchanged |
| SemanticMapping.MapTypeArrayList | src/semantic_mapper.py:12-35 | `ArrayList<Integer>` maps to `List[int]` |
| SemanticMapping.TypeMappingValuesFixed | src/semantic_mapper.py:12-35 | every value of the type table is a plain name that the table maps to itself |
| SemanticMapping.ToSnakeCase | src/semantic_mapper.py:52-66 | the snake-case form contains no upper-case letter |
| SemanticMapping.SnakeCaseIdentity | src/semantic_mapper.py:52-66 | a name without upper-case letters is returned unchanged |
| SemanticMapping.SnakeCaseIdempotent | src/semantic_mapper.py:52-66 | converting twice gives the same result as converting once |
| SemanticMapping.SnakeCaseOnlyInsertsUnderscores | src/semantic_mapper.py:52-66 | with underscores removed, the result is the lower-cased input with underscores removed: the two passes only insert `_` and lower-case |
| SemanticMapping.SnakeCaseExamples | src/semantic_mapper.py:52-66 | getUserName, XMLParser and simpleMethod become get_user_name, xml_parser and simple_method |
| SemanticMapping.MapModifiers | src/semantic_mapper.py:118-134 | each flag is set exactly when its keyword is among the modifiers |
| SemanticMapping.MapModifiersBySet | src/semantic_mapper.py:118-134 | the flags depend only on which keywords occur, not on order or repetition |
| SemanticMapping.ExtractInitializer | src/semantic_mapper.py:136-194 | a rendered initializer is never empty |
| SemanticMapping.ExtractIntegerText | src/semantic_mapper.py:150-156 | an integer string renders as its canonical decimal, which parses back to the same integer |
| SemanticMapping.ExtractCanonicalInteger | src/semantic_mapper.py:150-156 | a canonical decimal string and a Python int both render as that decimal |
| SemanticMapping.WordNotInteger | src/semantic_mapper.py:152-156 | text that starts and ends with a letter is not an integer |
| SemanticMapping.ExtractBooleanText | src/semantic_mapper.py:165-169 | "true"/"false" in any case render as `True`/`False`, as the matching Python bool does |
| SemanticMapping.ExtractQuotedText | src/semantic_mapper.py:171-172 | any other string is wrapped in double quotes, without escaping |
| SemanticMapping.ExtractUnwraps | src/semantic_mapper.py:174-192 | a literal dict or object renders as the value it wraps |
| SemanticMapping.MapField | src/semantic_mapper.py:196-229 | name, mapped type, `: T` annotation, flags, initializer, and Python name (`_`+name if private, upper-case if constant, else unchanged) |
| SemanticMapping.FieldNameRecoverable | src/semantic_mapper.py:221-227 | the Java name is recoverable from the Python name: it follows the `_` when the field is private; for a constant (not private) it agrees with the Python name once both are lower-cased, and the Python name has no lower-case letter; any other field keeps its name unchanged |
| SemanticMapping.PrivateConstantName | src/semantic_mapper.py:222-225 | a private static final field is a constant, yet its Python name is `_`+name |
| SemanticMapping.ConstantMaxSize | src/semantic_mapper.py:224-225 | a public static final `maxSize` is named `MAXSIZE` |
| SemanticMapping.MapParamAnnotation | src/semantic_mapper.py:245-250 | a parameter keeps its name, maps its type and is annotated `name: mapped` |
| SemanticMapping.Decorators | src/semantic_mapper.py:273-280 | `@staticmethod` iff static, `@abstractmethod` iff abstract, the former first |
| SemanticMapping.MethodPythonName | src/semantic_mapper.py:265-271 | the method name in snake case, prefixed with `_` exactly when private; never upper-case |
| SemanticMapping.MappedMethodShape | src/semantic_mapper.py:231-282 | a mapped method keeps its name and body, maps each parameter in order and its return type, and takes its Python name and decorators as above |
| SemanticMapping.MapMethod | src/semantic_mapper.py:231-282 | the parameter and decorator loops build `MappedMethod` |
| SemanticMapping.MapConstructor | src/semantic_mapper.py:323-345 | the constructor becomes `__init__`, keeping the body and one mapped parameter per parameter |
| SemanticMapping.BaseClasses | src/semantic_mapper.py:295-299 | the superclass, if any, then the interfaces in order |
| SemanticMapping.MappedClassShape | src/semantic_mapper.py:284-321 | a mapped class keeps its name, and the count and order of fields, methods and constructors; each constructor is `__init__`; abstract iff declared abstract |
| SemanticMapping.MapClass | src/semantic_mapper.py:284-321 | the three loops build `MappedClass` |
| SemanticMapping.MapImports | src/semantic_mapper.py:99-116 | strictly sorted (sorted, no duplicates), and holding exactly the non-empty mappings of the given imports |
| SemanticMapping.MappedImportsAreTyping | src/semantic_mapper.py:38-47 | a non-empty mapped import is one of the three `typing` imports |
| SemanticMapping.SemanticMapper.MapStructure | src/semantic_mapper.py:347-368 | sorted, deduplicated imports; one mapped class per class, in order; the result is stored in `mapped_structure` |
| CodeGeneration.Spaces | src/code_generater.py:16-19 | a run of `n` spaces (none for a negative count) |
| CodeGeneration.IndentLines | src/code_generater.py:16-19 | over the lines of `splitlines(True)` (every Python line break, `\r\n` as one), indenting keeps the line count, prefixes each line that is not whitespace-only, and leaves the others unchanged |
| CodeGeneration.IndentAllLines | src/code_generater.py:16-19 | prefixing the non-blank pieces of a line split and splitting the glued result again gives back each piece, indented or not |
| Text.ConcatKeepLines | src/code_generater.py:16-19 | the lines `textwrap.indent` works over, glued back together, are the text itself |
| CodeGeneration.IndentOneLine | src/code_generater.py:16-19 | a text without any line break is indented by `indent_size * level` spaces unless it is blank |
| CodeGeneration.GenerateImports | src/code_generater.py:21-41 | the import block is empty exactly when there are no imports |
| CodeGeneration.ImportBlockJoin | src/code_generater.py:31-41 | the block is the standard typing line plus the imports, sorted and deduplicated, followed by two blank lines |
| CodeGeneration.ImportBlockLines | src/code_generater.py:31-41 | read back as lines, the block gives the sorted unique imports, then the blank lines |
| CodeGeneration.FieldNameAndType | src/code_generater.py:54-55 | a field is declared under its `python_name` when present, else its name, and typed `Any` when it has no type |
| CodeGeneration.FieldForms | src/code_generater.py:54-69 | class level: `name: T = init` or `name: T`; instance: `self.name: T = init` or `self.name: T = None`; an empty initializer counts as absent |
| CodeGeneration.ParameterParts | src/code_generater.py:71-92 | `self` comes first exactly when asked for, then one part per parameter: its annotation, else its name |
| CodeGeneration.PythonCodeGenerator.GenerateParameterList | src/code_generater.py:71-92 | the parts joined by ", " |
| CodeGeneration.MethodShape | src/code_generater.py:94-136 | decorators in order, then the signature (`self` iff neither static nor `__init__`, always `-> return_type:`), the placeholder docstring and `pass`; the body never matters |
| CodeGeneration.PythonCodeGenerator.GenerateMethod | src/code_generater.py:94-136 | the method's lines, built by appending |
| CodeGeneration.FieldsPartition | src/code_generater.py:201-215 | the class-level and instance filters split the fields: every field falls in exactly one, with multiplicity |
| CodeGeneration.ConstructorSignature | src/code_generater.py:150-166 | `def __init__(self, …):` with each parameter's annotation, else its name, and no return annotation; then one line per field that is neither a class variable nor a constant |
| CodeGeneration.ConstructorAssigns | src/code_generater.py:160-166 | each instance field is assigned its initializer or None, never a parameter |
| CodeGeneration.ConstructorPass | src/code_generater.py:168-170 | without instance fields the body is `pass` |
| CodeGeneration.PythonCodeGenerator.GenerateConstructor | src/code_generater.py:138-172 | the constructor's lines joined by newlines |
| CodeGeneration.ClassLineCount | src/code_generater.py:174-244 | header, docstring and blank line; one line per class-level field and a blank line if any; two lines for `__init__` when there is a constructor or an instance field; two per method; a `pass` only when nothing else follows |
| CodeGeneration.EmptyClassLines | src/code_generater.py:190-199 | an empty class renders its header, the docstring, a blank line and an indented `pass` |
| CodeGeneration.FirstConstructorOnly | src/code_generater.py:213-223 | only the first constructor is rendered |
| CodeGeneration.PythonCodeGenerator.GenerateClass | src/code_generater.py:174-244 | the class text, built block by block |
| CodeGeneration.CodeShape | src/code_generater.py:246-284 | the file header, then the import block only when there are imports, then the classes in order with separators between them (not after), then the `__main__` stub |
| CodeGeneration.PythonCodeGenerator.GenerateCode | src/code_generater.py:246-284 | the parts joined by newlines |
| CodeGeneration.FormatEndsWithNewline | src/code_generater.py:286-315 | formatted code ends with a newline |
| CodeGeneration.FormatNoBlankRun | src/code_generater.py:296-312 | no two adjacent lines of `formatted_lines` (before the final newline is added) are both whitespace-only |
| CodeGeneration.FormatTextLines | src/code_generater.py:296-313 | the returned text split on newlines is `formatted_lines`, plus one empty piece when the newline had to be appended; so two whitespace-only lines can meet only at its very end |
| CodeGeneration.CollapseKeepsText | src/code_generater.py:296-312 | every line with text is kept, in order, and no line is invented |
| CodeGeneration.FormatIdempotent | src/code_generater.py:286-315 | formatting twice gives the same text as formatting once |
| CodeGeneration.PythonCodeGenerator.FormatCode | src/code_generater.py:286-315 | the `prev_blank` loop computes `FormatText` |
| Validation.Verdict | src/validator.py:73 | a check passes exactly when it has no messages |
| Validation.SyntaxCheck | src/validator.py:20-40 | passes iff the code parses; otherwise exactly one message |
| Validation.MigrationValidator.ValidateSyntax | src/validator.py:20-40 | the syntax verdict |
| Validation.StructurePasses | src/validator.py:42-73 | passes iff there is a class and every class is named, has a method or a field, and has a constructor if it has fields |
| Validation.NoClassesOneWarning | src/validator.py:54-56 | without classes there is exactly the one warning |
| Validation.MigrationValidator.ValidateStructure | src/validator.py:42-73 | the per-class warning loop computes the structure verdict |
| Validation.NamingPasses | src/validator.py:75-108 | no warning iff every class starts upper-case and every function not starting with `_` has no upper-case letter |
| Validation.PrivateFunctionsExempt | src/validator.py:97-99 | a function whose name starts with `_` is never reported |
| Validation.NamingStep | src/validator.py:90-106 | an empty class name ends the walk with the `IndexError` failure message |
| Validation.MigrationValidator.ValidateNamingConventions | src/validator.py:75-108 | the walk computes the naming verdict |
| Validation.ImportReport | src/validator.py:110-140 | import validation fails only when the code does not parse |
| Validation.MigrationValidator.ValidateImports | src/validator.py:110-140 | the import verdict |
| Validation.ArgWarningsCount | src/validator.py:157-163 | one warning per non-`self` parameter without an annotation |
| Validation.TypesPass | src/validator.py:142-173 | no warning iff every function is fully annotated (each non-`self` parameter, and the return unless it is `__init__`) |
| Validation.MigrationValidator.CheckTypeAnnotations | src/validator.py:142-173 | the annotation verdict |
| Validation.StatusRule | src/validator.py:346-353 | failed iff the code does not parse or does not run; else warning iff some warning exists; else success |
| Validation.ErrorSources | src/validator.py:282-347 | errors are the syntax message and the execution failure only; static analysis issues are stored under checks and change neither errors nor warnings |
| Validation.StructureEntry | src/validator.py:301-307 | the structure check appears iff a structure is passed |
| Validation.UnparsableCode | src/validator.py:282-347 | unparsable code fails, and the naming, import and annotation checks each report one message |
| Validation.MigrationValidator.RunChecks | src/validator.py:290-351 | the six check entries of the report, each the verdict of its check |
| Validation.MigrationValidator.ValidateMigration | src/validator.py:269-359 | the report, with errors and warnings reset and refilled for this call, and stored as `validation_results` |
| MigrationPlanning.TotalsAppend | src/migration_planner.py:37-47 | method and field totals are sums over the classes |
| MigrationPlanning.MigrationPlanner.AnalyzeComplexity | src/migration_planner.py:27-63 | the counting loop computes the statistics: totals, and flags set iff some class has a superclass, interfaces or a generic parameter type |
| MigrationPlanning.MigrationPlanner.ScanGenerics | src/migration_planner.py:48-56 | a class counts as generic iff one of its method parameter types contains `<` |
| MigrationPlanning.MigrationPlanner.CreateStep | src/migration_planner.py:65-77 | the counter is incremented and the step takes the new value as its id |
| MigrationPlanning.ImportSteps | src/migration_planner.py:79-99 | one import step iff there are imports, with no dependencies |
| MigrationPlanning.MigrationPlanner.PlanImportsMigration | src/migration_planner.py:79-99 | the import steps, and the counter advanced by their number |
| MigrationPlanning.ClassLevel | src/migration_planner.py:110-123 | high iff more than 10 methods; otherwise medium iff there is a superclass or interfaces; otherwise low |
| MigrationPlanning.ClassStepsShape | src/migration_planner.py:101-178 | a class step, then fields, constructor and methods steps, each only when its list is non-empty, in that order, each depending on the class step alone |
| MigrationPlanning.ClassStepsBackward | src/migration_planner.py:101-178 | within a class's steps every dependency precedes its step |
| MigrationPlanning.MigrationPlanner.PlanClassMigration | src/migration_planner.py:101-178 | the class's steps, and the counter advanced by their number |
| MigrationPlanning.PlanNumbered | src/migration_planner.py:180-215 | the plan's step ids are exactly 1..n in order |
| MigrationPlanning.PlanAcyclic | src/migration_planner.py:180-215 | every dependency id is smaller than the id of its step, so the step graph is acyclic |
| MigrationPlanning.PlanImportStep | src/migration_planner.py:190-199 | an import step exists iff there are imports, and is then step 1; every class step depends on it, or on nothing |
| MigrationPlanning.MigrationPlanner.PlanMigration | src/migration_planner.py:180-215 | the counter is reset, the plan is the import steps then each class's steps, and the counter ends at the number of steps |
| MigrationPlanning.RatingBands | src/migration_planner.py:217-237 | hard iff more than 5 classes and more than 20 methods and two features; simple iff the score is at most 2 |
| MigrationPlanning.RatingMonotone | src/migration_planner.py:217-237 | more classes, methods or features never make the rating easier |
| MigrationPlanning.MigrationPlanner.EstimateDifficulty | src/migration_planner.py:217-237 | the accumulating score gives `Rating` |
| MigrationPlanning.RecommendationsSelected | src/migration_planner.py:239-258 | each piece of advice is given iff its condition holds (more than 3 classes, inheritance, interfaces, generics, more than 10 imports) |
| Agents.Index | src/agents.py:408-436 | each agent has its place in the pipeline order |
| Agents.Execution | src/agents.py:89-367 | a run ends in SUCCESS or FAILED; FAILED iff an error is logged, and then the output is None; an invalid input fails with its own message; a raised component fails |
| Agents.GuardBeforeComponent | src/agents.py:97-99 | an invalid input fails the same way whatever the component would have done |
| Agents.ParserInputNonBlank | src/agents.py:97-99 | the parser's input is valid iff it is a string with a non-whitespace character |
| Agents.EmptyStructureFails | src/agents.py:128-137 | an empty parse result fails the parser agent |
| Agents.FailedReportSucceeds | src/agents.py:340-355 | a report with `overall_status` 'failed' still ends the validator agent in SUCCESS, with one warning |
| Agents.OutputNoneIffFailed | src/agents.py:111-162 | when the component never returns None, the output is None iff the run failed |
| Agents.Agent.constructor | src/agents.py:33-39 | a new agent is IDLE with empty error and warning logs |
| Agents.Agent.Execute | src/agents.py:101-163 | the agent's status becomes the run's, and its error and warning logs grow by what the run logged |
| Agents.Agent.LogError | src/agents.py:76-80 | appends one error; nothing else changes |
| Agents.Agent.LogWarning | src/agents.py:82-87 | appends one warning; nothing else changes |
| Agents.Runs | src/agents.py:392-438 | parser, mapper and generator in order; the pipeline stops at the first failure; the validator runs iff `validate` is set and the first three succeeded |
| Agents.ValidatorNeverDecides | src/agents.py:392-438 | the validator's outcome and the `validate` flag never change whether the migration succeeds |
| Agents.MigratedIffAllSucceed | src/agents.py:392-438 | success iff parser, mapper and generator all succeed |
| Agents.RecordedEntries | src/agents.py:408-436 | `results` gains one entry per agent run, and keeps earlier entries for agents that did not run |
| Agents.Orchestrator.constructor | src/agents.py:372-382 | four fresh IDLE agents and no results |
| Agents.Orchestrator.BuildFailureResponse | src/agents.py:452-469 | the failure response: the reason first, then every recorded agent's errors in recording order |
| Agents.Orchestrator.BuildSuccessResponse | src/agents.py:440-450 | the success response, with the recorded outputs and empty errors and warnings |
| Agents.Orchestrator.OrchestrateMigration | src/agents.py:392-438 | the agents run as `Runs` says and are recorded; success iff `Migrated`; on success, a stale validator entry from an earlier call can supply the report |
| Agents.Orchestrator.AgentStatuses | src/agents.py:471-478 | one status name per agent, under the four agent keys |
| IntelligentMigration.MethodCountScore | src/intelligent_migrator.py:146-152 | +3 above 10 methods, +2 above 5, +1 above 2, else 0 |
| IntelligentMigration.InheritanceScore | src/intelligent_migrator.py:154-158 | 0 iff neither a superclass nor interfaces, 4 iff both |
| IntelligentMigration.ChosenMode | src/intelligent_migrator.py:127-174 | RULE_BASED or SEMANTIC; an empty or missing structure gives RULE_BASED |
| IntelligentMigration.ScoreAppend | src/intelligent_migrator.py:144-166 | the score is a sum over the classes |
| IntelligentMigration.MoreClassesNeverSimpler | src/intelligent_migrator.py:144-174 | adding classes never lowers the score, so never turns SEMANTIC into RULE_BASED |
| IntelligentMigration.ComplexClassSelectsSemantic | src/intelligent_migrator.py:169-174 | one class scoring above 3 selects SEMANTIC |
| IntelligentMigration.ExtendsAndImplementsSelectsSemantic | src/intelligent_migrator.py:155-174 | a class that both extends and implements selects SEMANTIC |
| IntelligentMigration.FourImplementedMethodsSelectSemantic | src/intelligent_migrator.py:161-174 | a class with four methods that all have bodies selects SEMANTIC |
| IntelligentMigration.ScoreZeroIffTrivial | src/intelligent_migrator.py:144-166 | the score is zero iff every class has at most two methods, none with a body, and neither a superclass nor interfaces |
| IntelligentMigration.IntelligentMigrator.constructor | src/intelligent_migrator.py:26-58 | the language-model components exist iff the mode is SEMANTIC or HYBRID |
| IntelligentMigration.IntelligentMigrator.DecideMode | src/intelligent_migrator.py:127-174 | the nested scoring loops compute `ChosenMode` |
| IntelligentMigration.RatingWarning | src/intelligent_migrator.py:232-235 | a warning iff the review rates the code 较差 or 一般 |
| IntelligentMigration.SuccessIffNoErrors | src/intelligent_migrator.py:116-123 | success iff no error is recorded; at most one error, always with the failure prefix |
| IntelligentMigration.ModeUsed | src/intelligent_migrator.py:88-95 | HYBRID records the scored choice; any other mode is recorded as given |
| IntelligentMigration.FailedValidationOnlyWarns | src/intelligent_migrator.py:106-119 | a 'failed' validation adds a warning and the report, never an error |
| IntelligentMigration.RuleBasedPath | src/intelligent_migrator.py:176-198 | the rule-based path records both structures and no analysis or review |
| IntelligentMigration.UnknownModeFails | src/intelligent_migrator.py:44-58 | a mode that is none of the three finds no language-model components and fails |
| IntelligentMigration.IntelligentMigrator.Migrate | src/intelligent_migrator.py:60-125 | the results dictionary `migrate` fills |
| StrictOrchestration.HasCriticalError | src/costrict_orchestrator.py:141-147 | true iff some error, lower-cased, contains 'critical', 'failed' or 'invalid' |
| StrictOrchestration.KeywordMakesCritical | src/costrict_orchestrator.py:141-147 | a keyword in any case, anywhere in the error, makes it critical |
| StrictOrchestration.ShortErrorNotCritical | src/costrict_orchestrator.py:141-147 | an error shorter than six characters is never critical |
| StrictOrchestration.Scheduled | src/costrict_orchestrator.py:80-84 | the phases in order, with TEST_GENERATION dropped exactly when tests are skipped |
| StrictOrchestration.ScheduledWorkflow | src/costrict_orchestrator.py:48-55 | the six-phase workflow, and its five-phase form without tests |
| StrictOrchestration.StrictRunsPrefix | src/costrict_orchestrator.py:80-93 | the phases run are a prefix of the schedule |
| StrictOrchestration.StrictStopsOnlyOnCritical | src/costrict_orchestrator.py:90-93 | the run stops early only right after a phase that left a critical error |
| StrictOrchestration.StrictStopsAtFirstCritical | src/costrict_orchestrator.py:80-93 | the run's context is its phases applied in order, and no phase before the last one run left a critical error, so the first phase that leaves one is the last to run |
| StrictOrchestration.StrictRunsAllWithoutCriticalErrors | src/costrict_orchestrator.py:80-93 | without critical errors every scheduled phase runs |
| StrictOrchestration.FastIsThreePhases | src/costrict_orchestrator.py:123-131 | fast mode runs requirements, code generation and review, in that order, with no early stop |
| StrictOrchestration.Completeness | src/costrict_orchestrator.py:209 | at most 100, and 100 iff all six slots are filled |
| StrictOrchestration.CompletenessValues | src/costrict_orchestrator.py:193-209 | 0, 16, 33, 50, 66, 83 and 100 for 0 to 6 filled slots |
| StrictOrchestration.FastCompletenessAtMostHalf | src/costrict_orchestrator.py:193-209 | with agents that fill only their own slot, fast mode scores at most 50 |
| StrictOrchestration.StrictCompleteness | src/costrict_orchestrator.py:193-209 | with productive agents and no critical error, strict mode scores 100, or 83 when tests are skipped |
| StrictOrchestration.StrictTestSlotUntouched | src/costrict_orchestrator.py:80-88 | skipping tests leaves the test slot as it was |
| StrictOrchestration.StrictModeOrchestrator.CalculateQualityMetrics | src/costrict_orchestrator.py:179-211 | the score and level come from the review report, or are 0 and 未知; completeness counts the filled slots out of six |
| StrictOrchestration.StrictModeOrchestrator.BuildResults | src/costrict_orchestrator.py:149-177 | the results report the context: success iff there are no errors, every output slot and both lists copied, completeness and score/level as `_calculate_quality_metrics` computes them; the mode label follows `enable_all_phases` |
| StrictOrchestration.StrictModeOrchestrator.MigrateStrict | src/costrict_orchestrator.py:59-105 | the loop's final context is the strict run's, and the results report all of it: success, every output slot, errors, warnings, completeness, review score and level, mode |
| StrictOrchestration.StrictModeOrchestrator.MigrateFast | src/costrict_orchestrator.py:107-139 | the loop's final context is the three fast phases applied in order, and the results report all of it: success, every output slot, errors, warnings, completeness, review score and level, mode |
| MigrationConfiguration.FieldOf | src/config.py:16-49 | a key names a declared field exactly when it is one of the twenty names |
| MigrationConfiguration.NamesDistinct | src/config.py:16-49 | the twenty field names are distinct |
| MigrationConfiguration.DefaultValues | src/config.py:16-49 | verbose is False, indent_size is 4, add_type_hints is True; only log_file defaults to None |
| MigrationConfiguration.ToDict | src/config.py:68-91 | the dictionary has exactly the twenty field names as keys |
| MigrationConfiguration.ToDictGet | src/config.py:68-91 | each key holds its field's value |
| MigrationConfiguration.FromDictToDict | src/config.py:51-91 | reading the dictionary back gives the same configuration |
| MigrationConfiguration.FromDictIgnoresUnknown | src/config.py:51-54 | keys that are not fields are ignored |
| MigrationConfiguration.FromDictMissing | src/config.py:51-54 | a missing key takes its default, so an empty dictionary gives the defaults |
| MigrationConfiguration.Prefer | src/config.py:103-106 | the other value wins unless it is None |
| MigrationConfiguration.MergeSelf | src/config.py:99-108 | merging a configuration with itself changes nothing |
| MigrationConfiguration.MergeWithoutNone | src/config.py:99-108 | when no value of the other is None, the merge is the other |
| MigrationConfiguration.MergeDefaultResets | src/config.py:99-108 | merging with the defaults resets every field except log_file |
| MigrationConfiguration.Merge | src/config.py:99-108 | the overwrite loop computes `Merged` |
| EmojiTrieModel.Node.GetEmoji | emoji_migration/emoji_python/EmojiTrie.py:16-17 | an emoji iff the node ends an emoji |
| EmojiTrieModel.Node.HasChild | emoji_migration/emoji_python/EmojiTrie.py:19-20 | true iff `get_child` finds the child |
| EmojiTrieModel.Node.GetChild | emoji_migration/emoji_python/EmojiTrie.py:25-29 | None iff there is no such child |
| EmojiTrieModel.Node.AddChild | emoji_migration/emoji_python/EmojiTrie.py:22-23 | a fresh empty child under the character; other children and the emoji slot unchanged |
| EmojiTrieModel.Node.SetEmoji | emoji_migration/emoji_python/EmojiTrie.py:13-14 | the slot holds the emoji; the children are unchanged |
| EmojiTrieModel.EmojiTrie.constructor | emoji_migration/emoji_python/EmojiTrie.py:35-46 | the trie stores the inserted emojis, the last one winning per string, and `max_depth` is the longest length |
| EmojiTrieModel.EmojiTrie.InsertAll | emoji_migration/emoji_python/EmojiTrie.py:38-46 | the insertion loop over the empty trie stores exactly what `Inserted` says and sets `max_depth` to the longest length |
| EmojiTrieModel.EmojiTrie.Insert | emoji_migration/emoji_python/EmojiTrie.py:40-46 | one insertion: the string now maps to the emoji, `max_depth` grows to its length, and every existing node stays where it was |
| EmojiTrieModel.EmojiTrie.Grow | emoji_migration/emoji_python/EmojiTrie.py:43-44 | a child is added only where none existed, and nothing else moves |
| EmojiTrieModel.EmojiTrie.IsEmoji | emoji_migration/emoji_python/EmojiTrie.py:48-55 | true iff the sequence was inserted, so a proper prefix is false unless it was inserted itself |
| EmojiTrieModel.EmojiTrie.GetEmoji | emoji_migration/emoji_python/EmojiTrie.py:57-65 | the emoji stored for the string, or None when it was not inserted |
| EmojiTrieModel.InsertedKeys | emoji_migration/emoji_python/EmojiTrie.py:38-46 | a string is stored iff some inserted emoji has it |
| EmojiTrieModel.InsertedLastWins | emoji_migration/emoji_python/EmojiTrie.py:38-46 | the emoji stored for a string is one of the inserted emojis with that string |
| EmojiTrieModel.FindInserted | emoji_migration/emoji_python/EmojiTrie.py:57-65 | every inserted emoji's string is found again, holding an emoji with that string |
| EmojiTrieModel.MaxDepthIsLongest | emoji_migration/emoji_python/EmojiTrie.py:37-41 | `max_depth` bounds every length and is reached by one, when there are emojis |
| EmojiParsing.Close | emoji_migration/emoji_python/EmojiParser.py:12 | the first `}` after the opening brace, when no newline comes before it |
| EmojiParsing.Spans | emoji_migration/emoji_python/EmojiParser.py:12-25 | every span lies inside the text, starts at or after the scan position, and closes after it opens |
| EmojiParsing.SpansAreMatches | emoji_migration/emoji_python/EmojiParser.py:12-25 | every span found is a match of the pattern: a `{`, then neither `}` nor a newline, then a `}` |
| EmojiParsing.SpansOrdered | emoji_migration/emoji_python/EmojiParser.py:12-25 | the matches are in left-to-right order and do not overlap |
| EmojiParsing.ParseBetweenBraces | emoji_migration/emoji_python/EmojiParser.py:14-25 | each result is the text strictly between a `{` and the first `}` after it, holding no `}` and no newline |
| EmojiParsing.SpansComplete | emoji_migration/emoji_python/EmojiParser.py:12-25 | every `{` with a `}` after it on its line lies inside some match |
| EmojiParsing.UnclosedLineSkipped | emoji_migration/emoji_python/EmojiParser.py:12 | a `{` with no later `}` on its line starts no match |
| EmojiParsing.NoCloseParsesEmpty | emoji_migration/emoji_python/EmojiParser.py:14-25 | input without `}` gives no results |
| EmojiParsing.SingleBrace | emoji_migration/emoji_python/tests/test_EmojiParser.py:110-119 | "{A}" gives ["A"] |
| EmojiParsing.TwoBraces | emoji_migration/emoji_python/tests/test_EmojiParser.py:187-192 | "{A} {B}" gives ["A", "B"] |
| Fitzpatrick.Value | emoji_migration/emoji_python/Fitzpatrick.py:15-22 | each value is the high surrogate, then a low surrogate from 0xDFFB to 0xDFFF |
| Fitzpatrick.ValuesDistinct | emoji_migration/emoji_python/Fitzpatrick.py:15-19 | the five values are pairwise distinct |
| Fitzpatrick.FromType | emoji_migration/emoji_python/Fitzpatrick.py:41-54 | the member with that value, or None when no member has it |
| Fitzpatrick.FromUnicode | emoji_migration/emoji_python/Fitzpatrick.py:25-38 | the search loop finds what the lookup by value finds |
| Fitzpatrick.FromTypeValue | emoji_migration/emoji_python/Fitzpatrick.py:41-54 | every member is found again from its own value |
| Fitzpatrick.OnlyPairsMatch | emoji_migration/emoji_python/Fitzpatrick.py:15-19 | only a two-code-point string of that shape can match |
| Fitzpatrick.NameIsNotAType | emoji_migration/emoji_python/Fitzpatrick.py:51-54 | looking up a member's name finds nothing: the lookup is by value |
| Fitzpatrick.Type3ByName | emoji_migration/emoji_python/Fitzpatrick.py:51-54 | "TYPE_3" gives None |
| EmojiData.Digits | emoji_migration/emoji_python/Emoji.py:27-28 | the digits read back as the code point and hold no `;` |
| EmojiData.NewEmoji | emoji_migration/emoji_python/Emoji.py:18-28 | fails with the ValueError message iff decoding fails; otherwise the fields are stored as given, and both references decode back to the text |
| EmojiData.EntitiesRoundTrip | emoji_migration/emoji_python/Emoji.py:27-28 | both encodings decode back to the text they encode |
| EmojiData.OneEntityPerCharacter | emoji_migration/emoji_python/Emoji.py:27-28 | one `;`-terminated entity per code point, and the empty string encodes to "" |
| EmojiData.PileOfPooDecimal | emoji_migration/emoji_python/Emoji.py:27 | U+1F4A9 encodes as `&#128169;` |
| EmojiData.LetterAHexadecimal | emoji_migration/emoji_python/Emoji.py:28 | "A" encodes as `&#x0041;`: upper-case hexadecimal padded to four digits |

## Left out

- Parsing. The Java parser (`src/ast_parser.py`) and Python's `ast.parse` are not part of this model. Their outcomes are inputs: a class record, or a parse result over abstract class and function declarations.
- Subprocess checks. `run_static_analysis` and `test_code_execution` spawn processes and write temporary files. They enter `validate_migration` as their findings: the flake8 issues, and a pass flag with output. `print_report` and the legacy module-level `validate_migration` are left out.
- Validation.MigrationValidator.ValidateMigration: an empty structure dictionary is falsy in Python and skips the structure check, the same as `None`. The model has no empty dictionary: a structure always carries its `imports` and `classes` keys, and `None` stands for both. The lists are filled in locals and stored at the end; that ordering is unobservable because the checks do not read them.
- Language-model code is not part of this model: the LLM providers, the semantic and strict agents, and `_migrate_semantic`. In the strict orchestrator the agents are an abstract function from phase and context to context. In the intelligent migrator the semantic path is its components' outcomes.
- Clocks, printing, JSON export and file I/O are left out:
  - `duration`, `_print_summary`, `print_results` and `export_report`;
  - `save_to_file` in the generator;
  - `MigrationConfig.from_file` and `save_to_file` (`src/config.py:56-66, 93-97`).
- Floating point. In `_extract_initializer_value`, the `float()` branch is an oracle returning the rendered text or nothing. Python floats and non-integer numeric initializers are not modelled.
- Case and digits are modelled on ASCII only:
  - `str.lower`/`upper`/`isupper`, in the mapper, the validator and `_has_critical_error`;
  - `int()` on non-ASCII digits.
- SemanticMapping.MapTypeGeneric: nested generics and more than one type argument are modelled as the code computes them, but no lemma describes them.
- MigrationConfiguration.Merge: field types are not enforced. The model also does not capture that the merged configuration shares the custom-mapping dictionaries with its inputs.
- StrictOrchestration.StrictModeOrchestrator.BuildResults:
  - `phase_scores` is always an empty dict and is omitted;
  - so are `duration`, `metadata`, `java_structure` and the quality report's other entries;
  - completeness is the integer division that `int(k / 6 * 100)` equals for k from 0 to 6.
- IntelligentMigration.Migration:
  - the refactoring flag of the semantic path is folded into the code outcome;
  - a review that is not a dictionary counts as having no rating;
  - the Java parser is one oracle for both calls, so its reuse of the previous `ast_tree` is not modelled.
- Agents.Execution: the agents' loggers and the result's `metadata` are left out. Each component (parser, mapper, generator, validator) is its outcome: a returned value or a raised message.
- Agents.Execution: a validation report that is not a dictionary is treated as one missing `overall_status`, so its failure message is the KeyError text `'overall_status'`; Python would raise a TypeError with other text. The validator always returns a dictionary holding that key, so this case does not arise in the program.
- EmojiData.NewEmoji:
  - UTF-8 decoding is an oracle;
  - `__str__` depends on Python's list repr and is left out;
  - the getters are the record's fields.
- EmojiTrieModel: the trie's `Emoji` holds only its unicode string, as in `EmojiTrie.py`.
- Fitzpatrick: strings are sequences of code points, because the enum's values are lone surrogates.
- EmojiParsing.Parse: the seven `parse_*` methods of `BusinessParser` are the same computation, so one function models all of them.
- `EmojiManager.py` and `EmojiLoader.py` are not part of this model. They use names they never define, and the loader is JSON stream input.
- The CLI, demos, scripts, logger and visualizer are left out. So are packaging and the legacy helpers `map_java_to_python`, `plan_migration(str)` and `generate_python_code`.
