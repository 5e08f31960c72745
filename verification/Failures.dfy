// Failure codes and their classes (errors.py).
module Failures {

  datatype FailureCode =
    | AuthError | PermissionError | RateLimited | NetworkUnreachable | Timeout | OomKilled
    | InvalidPlanOutput | InvalidReviewOutput | AdapterParseError | ToolInternalError | SystemDegradedCode

  datatype FailureClass = Transient | Unknown | Fatal

  // FAILURE_CLASS
  function ClassOf(code: FailureCode): FailureClass {
    match code
    case AuthError => Fatal
    case PermissionError => Fatal
    case AdapterParseError => Fatal
    case SystemDegradedCode => Fatal
    case RateLimited => Transient
    case NetworkUnreachable => Transient
    case Timeout => Unknown
    case OomKilled => Unknown
    case InvalidPlanOutput => Unknown
    case InvalidReviewOutput => Unknown
    case ToolInternalError => Unknown
  }

  // for code in FailureCode
  const CODES: seq<FailureCode> :=
    [AuthError, PermissionError, RateLimited, NetworkUnreachable, Timeout, OomKilled,
     InvalidPlanOutput, InvalidReviewOutput, AdapterParseError, ToolInternalError, SystemDegradedCode]

  lemma EveryCode(code: FailureCode)
    ensures code in CODES
  {
    var i := match code
      case AuthError => 0
      case PermissionError => 1
      case RateLimited => 2
      case NetworkUnreachable => 3
      case Timeout => 4
      case OomKilled => 5
      case InvalidPlanOutput => 6
      case InvalidReviewOutput => 7
      case AdapterParseError => 8
      case ToolInternalError => 9
      case SystemDegradedCode => 10;
    assert CODES[i] == code;
  }
}
