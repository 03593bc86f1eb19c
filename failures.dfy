/** The values the plugin's error handling works on: the exceptions it
    inspects and the program failures it builds. The failure type itself
    belongs to the host framework; only the fields the plugin sets are kept. */
module Failures {

  datatype Option<T> = None | Some(value: T)

  /** The index of the first element of `s` satisfying `p`, if any: the
      `findFirst` of a filtered stream, or a scan that stops at the first hit. */
  function FirstIndex<T>(s: seq<T>, p: T -> bool): (r: Option<nat>)
    ensures r.Some? ==> r.value < |s| && p(s[r.value])
    ensures r.Some? ==> forall j :: 0 <= j < r.value ==> !p(s[j])
    ensures r.None? <==> forall j :: 0 <= j < |s| ==> !p(s[j])
  {
    if s == [] then None
    else if p(s[0]) then Some(0)
    else match FirstIndex(s[1..], p) {
      case None => None
      case Some(i) => Some(i + 1)
    }
  }

  /** Who is to blame for a failure. */
  datatype ErrorType = User | System | Unknown

  /** The first hit is the hit with no hit before it. */
  lemma FirstIndexAt<T>(s: seq<T>, p: T -> bool, n: nat)
    requires n < |s| && p(s[n])
    requires forall j :: 0 <= j < n ==> !p(s[j])
    ensures FirstIndex(s, p) == Some(n)
  {
  }

  /** Elements after the first hit are never looked at: extending the
      sequence behind it leaves the first index unchanged. */
  lemma FirstIndexIgnoresRest<T>(s: seq<T>, rest: seq<T>, p: T -> bool)
    requires FirstIndex(s, p).Some?
    ensures FirstIndex(s + rest, p) == FirstIndex(s, p)
  {
    var i := FirstIndex(s, p).value;
    assert (s + rest)[i] == s[i];
    assert forall j :: 0 <= j < i ==> (s + rest)[j] == s[j];
  }

  /** The top-level category of the framework; PLUGIN is the only one the
      plugin uses. */
  datatype ErrorCategoryEnum = Plugin

  /** The sub-category names the plugin attaches to driver errors. */
  datatype SubCategory =
    | FeatureNotSupported
    | DataException
    | InvalidAuthorizationSpecification
    | ProgramLimitExceeded
    | SqlStatementNotYetComplete
    | InvalidParameterValue
    | SyntaxError
    | InternalError
    | SqlClientUnableToEstablishSqlConnection
    | QueryCanceled
    | SystemError
    | IoError
  {
    /** The name as the framework receives it. */
    function Name(): string
    {
      match this
      case FeatureNotSupported => "FEATURE_NOT_SUPPORTED"
      case DataException => "DATA_EXCEPTION"
      case InvalidAuthorizationSpecification => "INVALID_AUTHORIZATION_SPECIFICATION"
      case ProgramLimitExceeded => "PROGRAM_LIMIT_EXCEEDED"
      case SqlStatementNotYetComplete => "SQL_STATEMENT_NOT_YET_COMPLETE"
      case InvalidParameterValue => "INVALID_PARAMETER_VALUE"
      case SyntaxError => "SYNTAX_ERROR"
      case InternalError => "INTERNAL_ERROR"
      case SqlClientUnableToEstablishSqlConnection => "SQLCLIENT_UNABLE_TO_ESTABLISH_SQLCONNECTION"
      case QueryCanceled => "QUERY_CANCELED"
      case SystemError => "SYSTEM_ERROR"
      case IoError => "IO_ERROR"
    }

    /** The names reserved for failures on the system's side. */
    predicate SystemSide()
    {
      this in {InternalError, SqlClientUnableToEstablishSqlConnection, QueryCanceled, SystemError, IoError}
    }
  }

  /** Distinct sub-categories reach the framework under distinct names. */
  lemma NameInjective(a: SubCategory, b: SubCategory)
    ensures a.Name() == b.Name() <==> a == b
  {
    // Length, first and third letter already tell the names apart.
    var m, n := a.Name(), b.Name();
    if m == n {
      assert |m| == |n| && m[0] == n[0] && m[2] == n[2];
    }
  }

  /** A category with an optional sub-category. */
  datatype ErrorCategory = ErrorCategory(parent: ErrorCategoryEnum, subCategory: Option<SubCategory>)

  /** The kind of code attached to a failure; the plugin only attaches SQL states. */
  datatype ErrorCodeType = SqlState

  /** The exception classes the plugin tests for with `instanceof`. */
  datatype ExceptionClass =
    | ProgramFailureException
    | IllegalArgumentException
    | IllegalStateException
    | URISyntaxException
    | SchemaParseException
    | UnexpectedFormatException
    | ConnectionTimeoutException
    | SQLException

  /** An exception as far as the plugin looks at it: every listed class it is
      an instance of (so subclassing is captured by membership), its message
      (`getMessage()`, possibly null) and, for SQL exceptions, its SQL state
      (`getSQLState()`, possibly null). */
  datatype Throwable = Throwable(classes: set<ExceptionClass>, message: Option<string>, sqlState: Option<string>)

  /** A program failure as built by the framework's failure factory; absent
      optional arguments are `None`. */
  datatype ProgramFailure = ProgramFailure(
    category: ErrorCategory,
    reason: Option<string>,
    message: Option<string>,
    errorType: ErrorType,
    dependent: bool,
    codeType: Option<ErrorCodeType>,
    errorCode: Option<string>,
    documentUrl: Option<string>,
    cause: Throwable)

  /** A bare PLUGIN category, without a sub-category. */
  const PluginCategory: ErrorCategory := ErrorCategory(Plugin, None)
}
