/** Classification of the Snowflake JDBC driver's errors: the plugin's two
    static tables keyed by the driver's numeric message code, and the lookup
    that turns a SQL exception into a program failure. */
module ErrorTypes {
  import opened Failures

  /** Where failures raised from driver errors point the user. */
  const SupportedDocumentUrl: string :=
    "https://docs.snowflake.com/en/user-guide/client-connectivity-troubleshooting/error-messages"

  /** The codes the static initializer puts into the type table as USER. */
  const UserCodes: set<int> := {
    200004, 200006, 200007, 200008, 200009, 200010, 200011, 200012,
    200014, 200017, 200018, 200019, 200021, 200023, 200024, 200025,
    200026, 200028, 200029, 200030, 200031, 200032, 200033, 200034,
    200035, 200036, 200037, 200038, 200045, 200046, 200047, 200056
  }

  /** The codes the static initializer puts into the type table as SYSTEM. */
  const SystemCodes: set<int> := {
    200001, 200002, 200003, 200013, 200015, 200016, 200020, 200022,
    200039, 200040, 200044, 200061
  }

  /** A named sub-category under PLUGIN, as every entry of the category table is. */
  function Sub(name: SubCategory): ErrorCategory
  {
    ErrorCategory(Plugin, Some(name))
  }

  /** The type table: the entry the static initializer puts for `code`,
      `None` when it puts none. */
  function TypeTable(code: int): Option<ErrorType>
  {
    match code
    case 200004 => Some(User)
    case 200006 => Some(User)
    case 200007 => Some(User)
    case 200008 => Some(User)
    case 200009 => Some(User)
    case 200010 => Some(User)
    case 200011 => Some(User)
    case 200012 => Some(User)
    case 200014 => Some(User)
    case 200017 => Some(User)
    case 200018 => Some(User)
    case 200019 => Some(User)
    case 200021 => Some(User)
    case 200023 => Some(User)
    case 200024 => Some(User)
    case 200025 => Some(User)
    case 200026 => Some(User)
    case 200028 => Some(User)
    case 200029 => Some(User)
    case 200030 => Some(User)
    case 200031 => Some(User)
    case 200032 => Some(User)
    case 200033 => Some(User)
    case 200034 => Some(User)
    case 200035 => Some(User)
    case 200036 => Some(User)
    case 200037 => Some(User)
    case 200038 => Some(User)
    case 200045 => Some(User)
    case 200046 => Some(User)
    case 200047 => Some(User)
    case 200056 => Some(User)
    case 200001 => Some(System)
    case 200002 => Some(System)
    case 200003 => Some(System)
    case 200013 => Some(System)
    case 200015 => Some(System)
    case 200016 => Some(System)
    case 200020 => Some(System)
    case 200022 => Some(System)
    case 200039 => Some(System)
    case 200040 => Some(System)
    case 200044 => Some(System)
    case 200061 => Some(System)
    case _ => None
  }

  /** The category table: the entry the static initializer puts for `code`,
      `None` when it puts none. */
  function CategoryTable(code: int): Option<ErrorCategory>
  {
    match code
    case 200004 => Some(Sub(FeatureNotSupported))
    case 200006 => Some(Sub(FeatureNotSupported))
    case 200007 => Some(Sub(DataException))
    case 200008 => Some(Sub(DataException))
    case 200009 => Some(Sub(DataException))
    case 200010 => Some(Sub(DataException))
    case 200011 => Some(Sub(InvalidAuthorizationSpecification))
    case 200012 => Some(Sub(InvalidAuthorizationSpecification))
    case 200014 => Some(Sub(ProgramLimitExceeded))
    case 200017 => Some(Sub(DataException))
    case 200018 => Some(Sub(FeatureNotSupported))
    case 200019 => Some(Sub(FeatureNotSupported))
    case 200021 => Some(Sub(SqlStatementNotYetComplete))
    case 200023 => Some(Sub(FeatureNotSupported))
    case 200024 => Some(Sub(FeatureNotSupported))
    case 200025 => Some(Sub(FeatureNotSupported))
    case 200026 => Some(Sub(InvalidAuthorizationSpecification))
    case 200028 => Some(Sub(InvalidAuthorizationSpecification))
    case 200029 => Some(Sub(InvalidAuthorizationSpecification))
    case 200030 => Some(Sub(DataException))
    case 200031 => Some(Sub(FeatureNotSupported))
    case 200032 => Some(Sub(DataException))
    case 200033 => Some(Sub(InvalidParameterValue))
    case 200034 => Some(Sub(DataException))
    case 200035 => Some(Sub(FeatureNotSupported))
    case 200036 => Some(Sub(FeatureNotSupported))
    case 200037 => Some(Sub(FeatureNotSupported))
    case 200038 => Some(Sub(FeatureNotSupported))
    case 200045 => Some(Sub(SyntaxError))
    case 200046 => Some(Sub(SyntaxError))
    case 200047 => Some(Sub(InvalidParameterValue))
    case 200056 => Some(Sub(InvalidParameterValue))
    case 200001 => Some(Sub(InternalError))
    case 200002 => Some(Sub(SqlClientUnableToEstablishSqlConnection))
    case 200003 => Some(Sub(QueryCanceled))
    case 200013 => Some(Sub(SystemError))
    case 200015 => Some(Sub(IoError))
    case 200016 => Some(Sub(IoError))
    case 200020 => Some(Sub(SystemError))
    case 200022 => Some(Sub(InternalError))
    case 200039 => Some(Sub(SqlClientUnableToEstablishSqlConnection))
    case 200040 => Some(Sub(SqlClientUnableToEstablishSqlConnection))
    case 200044 => Some(Sub(SystemError))
    case 200061 => Some(Sub(SystemError))
    case _ => None
  }

  /** No code is put both as USER and as SYSTEM. */
  lemma CodeGroupsDisjoint()
    ensures UserCodes !! SystemCodes
  {
    forall c | c in SystemCodes ensures c !in UserCodes {
      UserGroup(c);
      SystemGroup(c);
    }
  }

  /** The type table holds USER for exactly the user codes, SYSTEM for
      exactly the system codes, and nothing for any other code. */
  lemma TypeTableGroups(code: int)
    ensures TypeTable(code) == Some(User) <==> code in UserCodes
    ensures TypeTable(code) == Some(System) <==> code in SystemCodes
    ensures TypeTable(code) == None <==> code !in UserCodes && code !in SystemCodes
  {
    UserGroup(code);
    SystemGroup(code);
  }

  lemma UserGroup(code: int)
    ensures TypeTable(code) == Some(User) <==> code in UserCodes
  {
  }

  lemma SystemGroup(code: int)
    ensures TypeTable(code) == Some(System) <==> code in SystemCodes
  {
  }

  /** Both tables have the same keys: a code has a type entry exactly when it
      has a category entry. */
  lemma TablesShareKeys()
    ensures forall code :: TypeTable(code).Some? <==> CategoryTable(code).Some?
  {
  }

  /** Every category entry is a named sub-category under PLUGIN, and the
      sub-category is a system-side one exactly for the SYSTEM codes. */
  lemma CategoryTableShape()
    ensures forall code :: CategoryTable(code).Some? ==>
      CategoryTable(code).value.parent == Plugin
      && CategoryTable(code).value.subCategory.Some?
      && (CategoryTable(code).value.subCategory.value.SystemSide() <==> TypeTable(code) == Some(System))
  {
  }

  /** The error type of a driver message code: USER for the user codes,
      SYSTEM for the system codes, UNKNOWN for every other code. */
  function ErrorTypeFromCode(code: int): (t: ErrorType)
    ensures t == User <==> code in UserCodes
    ensures t == System <==> code in SystemCodes
    ensures t == Unknown <==> code !in UserCodes && code !in SystemCodes
  {
    TypeTableGroups(code);
    match TypeTable(code)
    case Some(t) => t
    case None => Unknown
  }

  /** The error category of a driver message code: always under PLUGIN, with a
      sub-category exactly when the code has a known type; a system code gets
      a system-side sub-category, a user code never does. */
  function CategoryFromCode(code: int): (c: ErrorCategory)
    ensures c.parent == Plugin
    ensures c.subCategory.Some? <==> ErrorTypeFromCode(code) != Unknown
    ensures ErrorTypeFromCode(code) == System ==> c.subCategory.Some? && c.subCategory.value.SystemSide()
    ensures ErrorTypeFromCode(code) == User ==> c.subCategory.Some? && !c.subCategory.value.SystemSide()
  {
    TypeTableGroups(code);
    TablesShareKeys();
    CategoryTableShape();
    match CategoryTable(code)
    case Some(c) => c
    case None => PluginCategory
  }

  /** One entry of the driver's error-code enumeration. */
  datatype DriverErrorCode = DriverErrorCode(messageCode: int, sqlState: string)

  /** Whether a driver error code carries the given SQL state; a null state
      matches none, since a driver code's state is never null. */
  predicate Matches(code: DriverErrorCode, state: Option<string>)
  {
    state == Some(code.sqlState)
  }

  /** The failure raised for a SQL exception `e`: the first driver code with
      `e`'s SQL state decides the type and the category (UNKNOWN and a bare
      PLUGIN category when there is none), and the failure always carries
      `e`'s SQL state as a SQLSTATE code, is marked dependent and points to the
      driver's error documentation. */
  function FetchProgramFailureException(codes: seq<DriverErrorCode>, e: Throwable,
                                        errorReason: Option<string>,
                                        errorMessage: Option<string>): (f: ProgramFailure)
    requires SQLException in e.classes
    ensures f.codeType == Some(SqlState) && f.errorCode == e.sqlState
    ensures f.dependent && f.documentUrl == Some(SupportedDocumentUrl)
    ensures f.reason == errorReason && f.message == errorMessage && f.cause == e
    ensures f.category.parent == Plugin
    ensures f.errorType != Unknown <==> f.category.subCategory.Some?
    ensures (forall j :: 0 <= j < |codes| ==> !Matches(codes[j], e.sqlState)) ==>
      f.errorType == Unknown && f.category == PluginCategory
    ensures forall i :: 0 <= i < |codes| && Matches(codes[i], e.sqlState)
                          && (forall j :: 0 <= j < i ==> !Matches(codes[j], e.sqlState)) ==>
      f.errorType == ErrorTypeFromCode(codes[i].messageCode)
      && f.category == CategoryFromCode(codes[i].messageCode)
  {
    var found := FirstIndex(codes, (c: DriverErrorCode) => Matches(c, e.sqlState));
    var category := if found.Some? then CategoryFromCode(codes[found.value].messageCode) else PluginCategory;
    var errorType := if found.Some? then ErrorTypeFromCode(codes[found.value].messageCode) else Unknown;
    ProgramFailure(category, errorReason, errorMessage, errorType, true,
                   Some(SqlState), e.sqlState, Some(SupportedDocumentUrl), e)
  }

  /** An exception without a SQL state matches no driver code, so its failure
      is UNKNOWN under a bare PLUGIN category. */
  lemma NullStateIsUnknown(codes: seq<DriverErrorCode>, e: Throwable,
                           errorReason: Option<string>, errorMessage: Option<string>)
    requires SQLException in e.classes && e.sqlState == None
    ensures var f := FetchProgramFailureException(codes, e, errorReason, errorMessage);
      f.errorType == Unknown && f.category == PluginCategory
  {
  }
}
