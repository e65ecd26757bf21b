/**
 * `SqlFileModifyQuery`: the common part of insert, update and delete queries whose
 * statement comes from an SQL file. Its kind is fixed at construction, its timeout
 * defaults from the configuration, and it is always executable without any
 * optimistic-lock check or generated keys.
 */
module FileModifyQuery {
  import opened Wrappers
  import opened Jdbc

  class SqlFileModifyQuery {
    const kind: SqlKind
    var config: Option<Config>
    var sqlFilePath: Option<string>
    var parameters: map<string, Value>
    var callerClassName: Option<string>
    var callerMethodName: Option<string>
    var sql: Option<PreparedSql>
    var queryTimeout: int

    /** A query of the given kind, with nothing else set yet. */
    constructor (kind: SqlKind)
      ensures this.kind == kind
      ensures config.None? && sqlFilePath.None? && parameters == map[]
      ensures callerClassName.None? && callerMethodName.None? && sql.None? && queryTimeout == 0
    {
      this.kind := kind;
      config := None;
      sqlFilePath := None;
      parameters := map[];
      callerClassName := None;
      callerMethodName := None;
      sql := None;
      queryTimeout := 0;
    }

    /** A non-positive timeout falls back to the configured one. */
    method PrepareOptions()
      requires config.Some?
      modifies this`queryTimeout
      ensures queryTimeout == DefaultIfNonPositive(old(queryTimeout), config.value.queryTimeout)
    {
      if queryTimeout <= 0 {
        queryTimeout := config.value.queryTimeout;
      }
    }

    /** Nothing happens after execution. */
    method Complete()
      ensures unchanged(this)
    {
    }

    /** Binds a template parameter; a later binding under the same name replaces it. */
    method AddParameter(name: string, declaredClass: string, value: Datum)
      modifies this`parameters
      ensures parameters == old(parameters)[name := Value(declaredClass, value)]
    {
      parameters := parameters[name := Value(declaredClass, value)];
    }

    /** A statement from an SQL file is never checked for an optimistic-lock failure. */
    function IsOptimisticLockCheckRequired(): (r: bool)
      ensures !r
    {
      false
    }

    /** A statement from an SQL file is always executed. */
    function IsExecutable(): (r: bool)
      ensures r
    {
      true
    }

    /** Since the statement always runs, there is no reason to skip it. */
    function ExecutionSkipCause(): (r: Option<SqlExecutionSkipCause>)
      ensures r.None?
    {
      None
    }

    /** Generated keys are never requested. */
    function IsAutoGeneratedKeysSupported(): (r: bool)
      ensures !r
    {
      false
    }

    /** The statement's text, or none before a statement is prepared. */
    function ToString(): (r: Option<string>)
      reads this
      ensures r.None? <==> sql.None?
      ensures r.Some? ==> r.value == sql.value.rawSql
    {
      match sql
      case None => None
      case Some(s) => Some(s.ToString())
    }
  }
}
