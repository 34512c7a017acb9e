/**
 * The Python values the pipeline components hand to each other, as far as
 * the modelled code looks at them, and the outcome of calling a component
 * that is not modelled.
 */
module PyValues {
  import opened Wrappers

  /** A Python value: `None`, a bool, a string, an int, a dictionary with string keys, or anything else. */
  datatype Value = NoneValue | Bool(b: bool) | Str(s: string) | Int(i: int) | Dict(entries: map<string, Value>) | Opaque

  /** Python truthiness: `None`, `False`, `""`, `0` and `{}` are false. */
  predicate Truthy(v: Value) {
    match v
    case NoneValue => false
    case Bool(b) => b
    case Str(s) => s != ""
    case Int(i) => i != 0
    case Dict(m) => m != map[]
    case Opaque => true
  }

  /** What a called component did: returned a value or raised an exception with this text. */
  datatype Outcome = Returned(value: Value) | Raised(message: string)

  const StatusKey := "overall_status"

  /** `str(KeyError('overall_status'))`, the text of a report lookup that misses. */
  const MissingStatusMessage := "'overall_status'"

  /** A validation report's `overall_status`, when the report is a dictionary holding it. */
  function ReportStatus(report: Value): (r: Option<Value>)
    ensures r.Some? <==> report.Dict? && StatusKey in report.entries
  {
    if report.Dict? && StatusKey in report.entries then Some(report.entries[StatusKey]) else None
  }
}
