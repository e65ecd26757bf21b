/**
 * `SqlSelectQuery`: a select statement built from a two-way SQL template. The query
 * defaults its options from the configuration, keeps a parameter environment for the
 * template's expressions, expands `expand` directives into the entity's columns, and
 * after execution records the row count when the options ask for one.
 */
module SelectQuery {
  import opened Wrappers
  import opened Jdbc
  import opened Entities

  /**
   * The column expansion handed to the template build: without an entity type the
   * directive is rejected with DOMA2144 at its location, otherwise it yields the column
   * of every entity property, quoted by the dialect and without the configured `Naming`.
   */
  function ExpandColumns(entityType: Option<EntityDesc>, config: Config, node: ExpandNode): (r: Result<seq<string>, JdbcError>)
    ensures r.Err? <==> entityType.None?
    ensures r.Err? ==> r.error == Doma2144(node.location.sql, node.location.lineNumber, node.location.position)
    ensures r.Ok? ==> |r.value| == |entityType.value.properties|
    ensures r.Ok? ==> forall i :: 0 <= i < |r.value| ==>
                        r.value[i] == config.quotedColumnName(entityType.value.name, entityType.value.properties[i].name)
  {
    match entityType
    case None => Err(Doma2144(node.location.sql, node.location.lineNumber, node.location.position))
    case Some(d) =>
      Ok(seq(|d.properties|, k requires 0 <= k < |d.properties| => config.quotedColumnName(d.name, d.properties[k].name)))
  }

  /** The expansion callback as a value, fixed to the query's entity type and configuration. */
  function Expander(entityType: Option<EntityDesc>, config: Config): ExpandNode -> Result<seq<string>, JdbcError>
  {
    node => ExpandColumns(entityType, config, node)
  }

  /** Whether a directive expands does not depend on the directive, and neither do the columns it yields. */
  lemma ExpansionIndependentOfDirective(entityType: Option<EntityDesc>, config: Config, a: ExpandNode, b: ExpandNode)
    ensures ExpandColumns(entityType, config, a).Ok? == ExpandColumns(entityType, config, b).Ok?
    ensures ExpandColumns(entityType, config, a).Ok? ==> ExpandColumns(entityType, config, a) == ExpandColumns(entityType, config, b)
  {
  }

  class SqlSelectQuery {
    var config: Option<Config>
    var parameters: map<string, Value>
    var callerClassName: Option<string>
    var callerMethodName: Option<string>
    var sqlNode: Option<SqlNode>
    var sql: Option<PreparedSql>
    var options: SelectOptions
    var fetchSize: int
    var maxRows: int
    var queryTimeout: int
    var entityType: Option<EntityDesc>

    /** A fresh query; `options` is the object `SelectOptions.get()` yields. */
    constructor (options: SelectOptions)
      ensures config.None? && parameters == map[] && callerClassName.None? && callerMethodName.None?
      ensures sqlNode.None? && sql.None? && this.options == options
      ensures fetchSize == 0 && maxRows == 0 && queryTimeout == 0 && entityType.None?
    {
      config := None;
      parameters := map[];
      callerClassName := None;
      callerMethodName := None;
      sqlNode := None;
      sql := None;
      this.options := options;
      fetchSize := 0;
      maxRows := 0;
      queryTimeout := 0;
      entityType := None;
    }

    /**
     * Defaults the options, then builds the statement; a failed column expansion
     * propagates and leaves no statement behind. On success a statement exists.
     */
    method Prepare() returns (err: Option<JdbcError>)
      requires config.Some? && sqlNode.Some? && callerClassName.Some? && callerMethodName.Some?
      modifies this`fetchSize, this`maxRows, this`queryTimeout, this`sql
      ensures fetchSize == DefaultIfNonPositive(old(fetchSize), config.value.fetchSize)
      ensures maxRows == DefaultIfNonPositive(old(maxRows), config.value.maxRows)
      ensures queryTimeout == DefaultIfNonPositive(old(queryTimeout), config.value.queryTimeout)
      ensures err.None? ==> sql.Some?
      ensures match BuiltSql()
              case Ok(s) => err.None? && sql == Some(s)
              case Err(e) => err == Some(e) && sql == old(sql)
    {
      PrepareOptions();
      err := PrepareSql();
    }

    method PrepareOptions()
      requires config.Some?
      modifies this`fetchSize, this`maxRows, this`queryTimeout
      ensures fetchSize == DefaultIfNonPositive(old(fetchSize), config.value.fetchSize)
      ensures maxRows == DefaultIfNonPositive(old(maxRows), config.value.maxRows)
      ensures queryTimeout == DefaultIfNonPositive(old(queryTimeout), config.value.queryTimeout)
    {
      if fetchSize <= 0 {
        fetchSize := config.value.fetchSize;
      }
      if maxRows <= 0 {
        maxRows := config.value.maxRows;
      }
      if queryTimeout <= 0 {
        queryTimeout := config.value.queryTimeout;
      }
    }

    /** What the template build yields for the current node, options, parameters and entity type. */
    function BuiltSql(): Result<PreparedSql, JdbcError>
      requires config.Some? && sqlNode.Some?
      reads this, options
    {
      config.value.buildSelect(sqlNode.value, options.State(), parameters, Expander(entityType, config.value))
    }

    method PrepareSql() returns (err: Option<JdbcError>)
      requires config.Some? && sqlNode.Some?
      modifies this`sql
      ensures match BuiltSql()
              case Ok(s) => err.None? && sql == Some(s)
              case Err(e) => err == Some(e) && sql == old(sql)
    {
      var expand := Expander(entityType, config.value);
      var built := config.value.buildSelect(sqlNode.value, options.State(), parameters, expand);
      match built {
        case Ok(s) =>
          sql := Some(s);
          err := None;
        case Err(e) =>
          err := Some(e);
      }
    }

    /**
     * After execution: nothing unless the options request a count; then the count the
     * count query returns (a JDBC round trip, so a parameter) is stored in the options
     * object itself, where the caller that passed it in reads it.
     */
    method Complete(count: int)
      modifies options
      ensures options.count == old(options.count)
      ensures options.countSize == if old(options.count) then count else old(options.countSize)
    {
      if !options.count {
        return;
      }
      options.countSize := count;
    }

    /** Binds a template parameter; a later binding under the same name replaces it. */
    method AddParameter(name: string, declaredClass: string, value: Datum)
      modifies this`parameters
      ensures parameters == old(parameters)[name := Value(declaredClass, value)]
    {
      parameters := parameters[name := Value(declaredClass, value)];
    }

    /** The statement's text, or none before a statement is prepared. */
    function ToString(): (r: Option<string>)
      reads this
      ensures r.None? <==> sql.None?
      ensures r.Some? ==> r.value == sql.value.rawSql
    {
      match sql
      case None => None
      case Some(s) => Some(s.ToString())
    }
  }
}
