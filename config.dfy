/**
 * The migration tool's configuration record (`src/config.py`): twenty
 * settings with defaults, conversion from and to a dictionary, and merging
 * two configurations with the second taking precedence.
 *
 * The dataclass does not check the types of its fields, so every setting
 * holds an arbitrary Python value; the defaults fix the intended types.
 */
module MigrationConfiguration {
  import opened Wrappers
  import opened PyValues

  /** A dataclass field, by its position in the declaration. */
  type Field = i: nat | i < 20

  const Verbose: Field := 0
  const UseColor: Field := 1
  const LogFile: Field := 2
  const SkipErrors: Field := 3
  const StrictMode: Field := 4
  const IndentSize: Field := 5
  const MaxLineLength: Field := 6
  const AddTypeHints: Field := 7
  const AddDocstrings: Field := 8
  const RunValidation: Field := 9
  const RunStaticAnalysis: Field := 10
  const RunExecutionTest: Field := 11
  const ShowPlan: Field := 12
  const ShowWarnings: Field := 13
  const ShowRecommendations: Field := 14
  const OutputFormat: Field := 15
  const OverwriteExisting: Field := 16
  const CreateBackup: Field := 17
  const CustomTypeMapping: Field := 18
  const CustomImportMapping: Field := 19

  /** The attribute names, in declaration order, which is also the key order of `to_dict`. */
  const FieldNames: seq<string> := [
    "verbose",
    "use_color",
    "log_file",
    "skip_errors",
    "strict_mode",
    "indent_size",
    "max_line_length",
    "add_type_hints",
    "add_docstrings",
    "run_validation",
    "run_static_analysis",
    "run_execution_test",
    "show_plan",
    "show_warnings",
    "show_recommendations",
    "output_format",
    "overwrite_existing",
    "create_backup",
    "custom_type_mapping",
    "custom_import_mapping"
  ]

  /** The declared defaults, in declaration order. */
  const Defaults: seq<Value> := [
    Bool(false),
    Bool(true),
    NoneValue,
    Bool(false),
    Bool(true),
    Int(4),
    Int(100),
    Bool(true),
    Bool(true),
    Bool(true),
    Bool(false),
    Bool(false),
    Bool(false),
    Bool(true),
    Bool(true),
    Str("python"),
    Bool(false),
    Bool(true),
    Dict(map[]),
    Dict(map[])
  ]

  /** The key `to_dict` stores a field under. */
  function Name(f: Field): string {
    FieldNames[f]
  }

  /** `k in MigrationConfig.__annotations__`: the field a key names, if any. */
  function FieldOf(k: string): (r: Option<Field>)
    ensures r.Some? ==> Name(r.value) == k
  {
    if |k| == 7 then if k == "verbose" then Some(Verbose) else None
    else if |k| == 8 then if k == "log_file" then Some(LogFile) else None
    else if |k| == 9 then if k == "use_color" then Some(UseColor) else if k == "show_plan" then Some(ShowPlan) else None
    else if |k| == 11 then if k == "skip_errors" then Some(SkipErrors) else if k == "strict_mode" then Some(StrictMode) else if k == "indent_size" then Some(IndentSize) else None
    else if |k| == 13 then if k == "show_warnings" then Some(ShowWarnings) else if k == "output_format" then Some(OutputFormat) else if k == "create_backup" then Some(CreateBackup) else None
    else if |k| == 14 then if k == "add_type_hints" then Some(AddTypeHints) else if k == "add_docstrings" then Some(AddDocstrings) else if k == "run_validation" then Some(RunValidation) else None
    else if |k| == 15 then if k == "max_line_length" then Some(MaxLineLength) else None
    else if |k| == 18 then if k == "run_execution_test" then Some(RunExecutionTest) else if k == "overwrite_existing" then Some(OverwriteExisting) else None
    else if |k| == 19 then if k == "run_static_analysis" then Some(RunStaticAnalysis) else if k == "custom_type_mapping" then Some(CustomTypeMapping) else None
    else if |k| == 20 then if k == "show_recommendations" then Some(ShowRecommendations) else None
    else if |k| == 21 then if k == "custom_import_mapping" then Some(CustomImportMapping) else None
    else None
  }

  /** A `MigrationConfig`: one value per field, in declaration order. */
  type Config = s: seq<Value> | |s| == 20 witness Defaults

  /** `MigrationConfig()`: every field at its declared default. */
  function Default(): Config {
    Defaults
  }

  /** `to_dict`: every field under its own name. */
  function ToDict(c: Config): (r: map<string, Value>)
    ensures forall k :: k in r <==> FieldOf(k).Some?
  {
    NamesDeclared();
    map k | k in FieldNames :: c[FieldOf(k).value]
  }

  /** `d.get(key, default)`. */
  function Lookup(d: map<string, Value>, key: string, default: Value): Value {
    if key in d then d[key] else default
  }

  /**
   * `from_dict`: keep the entries whose key is a declared field, pass them as
   * keyword arguments, and let every other field take its default.
   */
  function FromDict(d: map<string, Value>): Config {
    seq(20, (f: Field) => Lookup(d, Name(f), Defaults[f]))
  }

  /** The value `merge` keeps for one field: other's unless it is `None`. */
  function Prefer(theirs: Value, ours: Value): (r: Value)
    ensures theirs != NoneValue ==> r == theirs
    ensures theirs == NoneValue ==> r == ours
  {
    if theirs == NoneValue then ours else theirs
  }

  /** The configuration `merge` builds, field by field. */
  function Merged(base: Config, other: Config): Config {
    seq(20, (f: Field) => Prefer(other[f], base[f]))
  }

  // ---------------------------------------------------------------------
  // Field names
  // ---------------------------------------------------------------------

  /** Every field's name is declared, and it names that field only. */
  lemma FieldOfName(f: Field)
    ensures FieldOf(Name(f)) == Some(f)
  {
  }

  lemma NamesDistinct()
    ensures forall f: Field, g: Field :: Name(f) == Name(g) ==> f == g
  {
    forall f: Field, g: Field | Name(f) == Name(g) ensures f == g {
      FieldOfName(f);
      FieldOfName(g);
    }
  }

  lemma NamesDeclared()
    ensures forall k :: k in FieldNames <==> FieldOf(k).Some?
  {
    forall k | k in FieldNames ensures FieldOf(k).Some? {
      var i :| 0 <= i < |FieldNames| && FieldNames[i] == k;
      FieldOfName(i);
    }
  }

  // ---------------------------------------------------------------------
  // to_dict and from_dict
  // ---------------------------------------------------------------------

  /** `to_dict` stores every field under its name. */
  lemma ToDictGet(c: Config, f: Field)
    ensures Name(f) in ToDict(c) && ToDict(c)[Name(f)] == c[f]
  {
    FieldOfName(f);
  }

  /** `from_dict(to_dict(c)) == c`. */
  lemma FromDictToDict(c: Config)
    ensures FromDict(ToDict(c)) == c
  {
    forall f: Field ensures FromDict(ToDict(c))[f] == c[f] {
      ToDictGet(c, f);
    }
  }

  /** Keys that are not declared fields make no difference. */
  lemma FromDictIgnoresUnknown(d: map<string, Value>, k: string, v: Value)
    requires FieldOf(k).None?
    ensures FromDict(d[k := v]) == FromDict(d)
  {
    forall f: Field ensures FromDict(d[k := v])[f] == FromDict(d)[f] {
      FieldOfName(f);
    }
  }

  /** A field absent from the dictionary takes its default; an empty dictionary gives the default configuration. */
  lemma FromDictMissing(d: map<string, Value>, f: Field)
    requires Name(f) !in d
    ensures FromDict(d)[f] == Default()[f]
    ensures FromDict(map[]) == Default()
  {
  }

  lemma DefaultValues()
    ensures Default()[Verbose] == Bool(false)
    ensures Default()[IndentSize] == Int(4)
    ensures Default()[AddTypeHints] == Bool(true)
    ensures forall f: Field :: Default()[f] == NoneValue <==> f == LogFile
  {
  }

  // ---------------------------------------------------------------------
  // merge
  // ---------------------------------------------------------------------

  /** Merging a configuration with itself changes nothing. */
  lemma MergeSelf(c: Config)
    ensures Merged(c, c) == c
  {
  }

  /** A configuration without `None` settings wins every field of a merge. */
  lemma MergeWithoutNone(base: Config, other: Config)
    requires forall f: Field :: other[f] != NoneValue
    ensures Merged(base, other) == other
  {
  }

  /**
   * Merging in a default configuration resets every setting but `log_file`:
   * the defaults are not `None`, so they take precedence.
   */
  lemma MergeDefaultResets(c: Config)
    ensures Merged(c, Default()) == Default()[LogFile := c[LogFile]]
  {
  }

  /** The dictionary `merge` holds once the first `n` fields are overwritten. */
  ghost predicate MergedUpTo(merged: map<string, Value>, base: Config, other: Config, n: nat) {
    forall f: Field :: Name(f) in merged && merged[Name(f)] == if f < n then Prefer(other[f], base[f]) else base[f]
  }

  /** `merge`: copy this configuration's dictionary, overwrite it with other's non-`None` entries, rebuild. */
  method Merge(base: Config, other: Config) returns (r: Config)
    ensures r == Merged(base, other)
  {
    var merged := ToDict(base);
    var otherDict := ToDict(other);
    forall f: Field ensures Name(f) in merged && merged[Name(f)] == base[f] {
      ToDictGet(base, f);
    }
    NamesDistinct();
    var i := 0;
    while i < |FieldNames|
      invariant i <= |FieldNames|
      invariant MergedUpTo(merged, base, other, i)
    {
      var key := FieldNames[i];
      ToDictGet(other, i);
      var value := otherDict[key];
      if value != NoneValue {
        merged := merged[key := value];
      }
      i := i + 1;
    }
    r := FromDict(merged);
  }
}
