/**
 * The JDBC-side vocabulary the queries share: bound values, prepared statements,
 * the append/cut-back statement builder, and the configuration the queries read.
 */
module Jdbc {
  import opened Wrappers
  import opened Text

  /** A Java value as far as the queries care: null or something else. */
  datatype Datum = Null | Number(n: int) | Chars(s: string) | Bool(b: bool)

  /** A value bound to one `?` of a prepared statement. */
  datatype InParameter = InParameter(value: Datum)

  /** An expression-language binding: the declared class (by name) and the runtime value. */
  datatype Value = Value(declaredClass: string, value: Datum)

  datatype SqlKind = Select | Insert | Update | Delete | BatchInsert | BatchUpdate | BatchDelete | Script

  /** Why a modify query is not executed. */
  datatype SqlExecutionSkipCause = StateUnchanged | BatchTargetNonexistent

  /** A statement ready for the driver: its text and its ordered parameters. */
  datatype PreparedSql = PreparedSql(kind: SqlKind, rawSql: string, parameters: seq<InParameter>)
  {
    /** `PreparedSql.toString`: the raw SQL text. */
    function ToString(): string { rawSql }
  }

  /** A parsed SQL template; the template engine that reads it is not part of this model. */
  datatype SqlNode = SqlNode(source: string)

  /** Where an `expand` directive stands in its template. */
  datatype SqlLocation = SqlLocation(sql: string, lineNumber: int, position: int)

  /** The `expand` directive node handed to the column-expansion callback. */
  datatype ExpandNode = ExpandNode(location: SqlLocation, alias: string)

  /**
   * The part of `SelectOptions` the select query reads and writes. It is an object: the
   * caller that hands it to the query keeps it and reads the count the query stores.
   */
  class SelectOptions {
    var count: bool
    var countSize: int

    constructor (count: bool, countSize: int)
      ensures this.count == count && this.countSize == countSize
    {
      this.count := count;
      this.countSize := countSize;
    }

    /** The options' current values, as the template build sees them. */
    function State(): (r: SelectOptionsState)
      reads this
      ensures r.count == count && r.countSize == countSize
    {
      SelectOptionsState(count, countSize)
    }
  }

  datatype SelectOptionsState = SelectOptionsState(count: bool, countSize: int)

  datatype FetchType = Lazy | Eager | Stream

  /** Exceptions the queries raise, by message code. */
  datatype JdbcError =
    | Doma2020(entityName: string, propertyName: string)
    | Doma2144(sql: string, lineNumber: int, position: int)

  /**
   * What a query reads from its `Config`. Naming, quoting and the template engine are
   * collaborators whose code is not part of this model, so they are given as functions:
   * `tableName` maps an entity name to its qualified, quoted table name; `columnName`
   * maps (entity name, property name) to the column name under the configured `Naming`,
   * quoted by the dialect; `quotedColumnName` is the property's column name quoted by the
   * dialect without the configured `Naming`; and `buildSelect` is the dialect's select
   * transformation followed by the template build, which calls the given column expansion
   * for each `expand` directive and fails when an expansion does.
   */
  datatype Config = Config(
    fetchSize: int,
    maxRows: int,
    queryTimeout: int,
    tableName: string -> string,
    columnName: (string, string) -> string,
    quotedColumnName: (string, string) -> string,
    buildSelect: (SqlNode, SelectOptionsState, map<string, Value>, ExpandNode -> Result<seq<string>, JdbcError>)
                 -> Result<PreparedSql, JdbcError>)

  /** Option defaulting: a non-positive query setting falls back to the configured value. */
  function DefaultIfNonPositive(value: int, configured: int): (r: int)
    ensures value > 0 ==> r == value
    ensures value <= 0 ==> r == configured
  {
    if value <= 0 then configured else value
  }

  /** Defaulting twice is defaulting once. */
  lemma DefaultIfNonPositiveIdempotent(value: int, configured: int)
    ensures DefaultIfNonPositive(DefaultIfNonPositive(value, configured), configured)
            == DefaultIfNonPositive(value, configured)
  {
  }

  /** After defaulting, a setting is positive whenever the configured value is. */
  lemma DefaultIfNonPositivePositive(value: int, configured: int)
    requires configured > 0
    ensures DefaultIfNonPositive(value, configured) > 0
  {
  }

  /**
   * In the parameter environment the last binding of a name wins: binding it again
   * replaces the earlier value, and every other name keeps its binding.
   */
  lemma ParameterLastWriteWins(parameters: map<string, Value>, name: string, first: Value, second: Value, other: string)
    requires other != name
    ensures parameters[name := first][name := second] == parameters[name := second]
    ensures parameters[name := second][name] == second
    ensures other in parameters[name := second] <==> other in parameters
    ensures other in parameters ==> parameters[name := second][other] == parameters[other]
  {
  }

  /** One call a collaborator makes on the builder. */
  datatype BuilderOp = AppendSqlOp(text: string) | AppendParameterOp(parameter: InParameter)

  /** The text the calls append: literal text, and `?` for each parameter. */
  function OpsSql(ops: seq<BuilderOp>): string
  {
    if ops == [] then ""
    else OpsSql(ops[..|ops| - 1]) + (match ops[|ops| - 1]
                                     case AppendSqlOp(t) => t
                                     case AppendParameterOp(_) => "?")
  }

  /** The parameters the calls append, in call order. */
  function OpsParameters(ops: seq<BuilderOp>): seq<InParameter>
  {
    if ops == [] then []
    else OpsParameters(ops[..|ops| - 1]) + (match ops[|ops| - 1]
                                            case AppendSqlOp(_) => []
                                            case AppendParameterOp(p) => [p])
  }

  /** Literal text without `?`: then the calls put exactly one `?` per parameter. */
  lemma {:induction false} OpsPlaceholdersMatchParameters(ops: seq<BuilderOp>)
    requires forall i :: 0 <= i < |ops| && ops[i].AppendSqlOp? ==> '?' !in ops[i].text
    ensures Occurrences(OpsSql(ops), '?') == |OpsParameters(ops)|
  {
    if ops != [] {
      var init := ops[..|ops| - 1];
      OpsPlaceholdersMatchParameters(init);
      var last := match ops[|ops| - 1] case AppendSqlOp(t) => t case AppendParameterOp(_) => "?";
      OccurrencesAppend(OpsSql(init), last, '?');
      if ops[|ops| - 1].AppendSqlOp? {
        OccurrencesAbsent(last, '?');
      } else {
        assert Occurrences(last, '?') == Occurrences([], '?') + 1;
      }
    }
  }

  /**
   * The statement under construction: the raw text and the bound parameters. The
   * formatted (logging) text the real builder also keeps is not modelled.
   */
  class PreparedSqlBuilder {
    const kind: SqlKind
    var rawSql: string
    var parameters: seq<InParameter>

    constructor (kind: SqlKind)
      ensures this.kind == kind && rawSql == [] && parameters == []
    {
      this.kind := kind;
      rawSql := [];
      parameters := [];
    }

    method AppendSql(s: string)
      modifies this
      ensures rawSql == old(rawSql) + s && parameters == old(parameters)
    {
      rawSql := rawSql + s;
    }

    /** Appends a driver placeholder and binds `p` to it. */
    method AppendParameter(p: InParameter)
      modifies this
      ensures rawSql == old(rawSql) + "?" && parameters == old(parameters) + [p]
    {
      rawSql := rawSql + "?";
      parameters := parameters + [p];
    }

    /** Drops the last `n` characters of the text; the buffer cannot be shortened below empty. */
    method CutBackSql(n: nat)
      requires n <= |rawSql|
      modifies this
      ensures rawSql == old(rawSql)[..|old(rawSql)| - n] && parameters == old(parameters)
    {
      rawSql := rawSql[..|rawSql| - n];
    }

    /** Performs a collaborator's calls in order. */
    method Apply(ops: seq<BuilderOp>)
      modifies this
      ensures rawSql == old(rawSql) + OpsSql(ops)
      ensures parameters == old(parameters) + OpsParameters(ops)
    {
      var i := 0;
      while i < |ops|
        invariant 0 <= i <= |ops|
        invariant rawSql == old(rawSql) + OpsSql(ops[..i])
        invariant parameters == old(parameters) + OpsParameters(ops[..i])
      {
        assert ops[..i + 1][..i] == ops[..i];
        match ops[i] {
          case AppendSqlOp(t) => AppendSql(t);
          case AppendParameterOp(p) => AppendParameter(p);
        }
        i := i + 1;
      }
      assert ops[..i] == ops;
    }

    function Build(): (sql: PreparedSql)
      reads this
      ensures sql.kind == kind && sql.rawSql == rawSql && sql.parameters == parameters
    {
      PreparedSql(kind, rawSql, parameters)
    }
  }
}
