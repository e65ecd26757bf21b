/**
 * `AutoUpdateQuery`: the `update T set … where id = ? and version = ?` statement of one
 * entity, the optimistic-lock and executable flags, and the listener contexts that report
 * which properties changed.
 */
module AutoUpdate {
  import opened Wrappers
  import opened Text
  import opened Jdbc
  import opened Entities

  /** The options `setupHelper` hands to the update helper. */
  datatype UpdateQueryHelper = UpdateQueryHelper(
    includedPropertyNames: seq<string>,
    excludedPropertyNames: seq<string>,
    nullExcluded: bool,
    versionIgnored: bool,
    optimisticLockExceptionSuppressed: bool,
    unchangedPropertyIncluded: bool)

  /**
   * What the update helper computes; its class is not part of this model. `targets` is
   * `getTargetPropertyTypes(entity)` and `populate` is the sequence of builder calls
   * `populateValues` makes for the set clause.
   */
  datatype UpdateHelperLogic = UpdateHelperLogic(
    targets: (UpdateQueryHelper, Entity) -> seq<PropertyDesc>,
    populate: (UpdateQueryHelper, Entity, seq<PropertyDesc>, Option<PropertyDesc>) -> seq<BuilderOp>)

  /** Raised by a listener context asked about a name that is not a property of the entity. */
  datatype ContextError = PropertyNotDefined(entityName: string, propertyName: string)

  /** Whether the statement checks the version: it is not ignored and the entity has one. */
  predicate VersionChecked(versionIgnored: bool, version: Option<PropertyDesc>)
  {
    !versionIgnored && version.Some?
  }

  /** `col = ?` for each id column. */
  function IdPredicates(idColumns: seq<string>): (r: seq<string>)
    ensures |r| == |idColumns|
  {
    seq(|idColumns|, k requires 0 <= k < |idColumns| => idColumns[k] + " = " + "?")
  }

  /** ` where ` and the id predicates joined by ` and `; nothing without ids. */
  function IdClause(idColumns: seq<string>): (r: string)
    ensures idColumns == [] <==> r == ""
  {
    if idColumns == [] then "" else " where " + Join(IdPredicates(idColumns), " and ")
  }

  /** The version predicate, after ` where ` without ids and after ` and ` otherwise; nothing when unchecked. */
  function VersionClause(hasIds: bool, versionColumn: Option<string>): (r: string)
    ensures versionColumn.None? <==> r == ""
    ensures versionColumn.Some? && hasIds ==> |r| > 5 && r[..5] == " and "
    ensures versionColumn.Some? && !hasIds ==> |r| > 7 && r[..7] == " where "
    ensures versionColumn.Some? ==> r[|r| - 1] == '?'
  {
    match versionColumn
    case None => ""
    case Some(c) => (if hasIds then " and " else " where ") + c + " = " + "?"
  }

  /** The update text: table, set clause, id predicates, then the version predicate. */
  function UpdateSqlText(table: string, setClause: string, idColumns: seq<string>, versionColumn: Option<string>): (r: string)
    ensures var head := "update " + table + " set " + setClause;
            |r| >= |head| && r[..|head|] == head
    ensures idColumns == [] && versionColumn.None? ==> r == "update " + table + " set " + setClause
  {
    "update " + table + " set " + setClause + IdClause(idColumns) + VersionClause(idColumns != [], versionColumn)
  }

  /** The statement `prepareSql` builds. */
  function UpdateSql(desc: EntityDesc, config: Config, setOps: seq<BuilderOp>, ids: seq<PropertyDesc>,
                     checkedVersion: Option<PropertyDesc>, e: Entity): (r: PreparedSql)
    ensures r.kind == Update
    ensures |r.parameters| == |OpsParameters(setOps)| + |ids| + (if checkedVersion.Some? then 1 else 0)
  {
    PreparedSql(Update,
                UpdateSqlText(config.tableName(desc.name), OpsSql(setOps), Columns(desc.name, config, ids),
                              VersionColumn(desc.name, config, checkedVersion)),
                UpdateParameters(setOps, ids, checkedVersion, e))
  }

  /** The version property the statement checks, if any. */
  function CheckedVersion(versionIgnored: bool, version: Option<PropertyDesc>): (r: Option<PropertyDesc>)
    ensures r.Some? <==> VersionChecked(versionIgnored, version)
    ensures r.Some? ==> r == version
  {
    if VersionChecked(versionIgnored, version) then version else None
  }

  /** The quoted column of the checked version, if any. */
  function VersionColumn(entityName: string, config: Config, checkedVersion: Option<PropertyDesc>): Option<string>
  {
    match checkedVersion
    case None => None
    case Some(v) => Some(config.columnName(entityName, v.name))
  }

  /** Set-clause values, then the id values in id order, then the version value. */
  function UpdateParameters(setOps: seq<BuilderOp>, ids: seq<PropertyDesc>, checkedVersion: Option<PropertyDesc>,
                            e: Entity): (r: seq<InParameter>)
    ensures |r| == |OpsParameters(setOps)| + |ids| + (if checkedVersion.Some? then 1 else 0)
    ensures r[..|OpsParameters(setOps)|] == OpsParameters(setOps)
    ensures forall k :: 0 <= k < |ids| ==> r[|OpsParameters(setOps)| + k] == AsInParameter(ids[k], e)
    ensures checkedVersion.Some? ==> r[|r| - 1] == AsInParameter(checkedVersion.value, e)
  {
    OpsParameters(setOps)
    + InParams(ids, e)
    + (match checkedVersion case None => [] case Some(v) => [AsInParameter(v, e)])
  }

  /** The id clause has one placeholder per id column when the column names have none. */
  lemma {:induction false} IdClausePlaceholders(idColumns: seq<string>)
    requires forall k :: 0 <= k < |idColumns| ==> '?' !in idColumns[k]
    ensures Occurrences(IdClause(idColumns), '?') == |idColumns|
  {
    if idColumns != [] {
      var preds := IdPredicates(idColumns);
      forall k | 0 <= k < |preds| ensures Occurrences(preds[k], '?') == 1 {
        IdPredicatePlaceholder(idColumns[k]);
      }
      OccurrencesAbsent(" and ", '?');
      OccurrencesInJoin(preds, " and ", '?', 1);
      OccurrencesAbsent(" where ", '?');
      OccurrencesAppend(" where ", Join(preds, " and "), '?');
    }
  }

  /** `col = ?` has one placeholder when the column name has none. */
  lemma IdPredicatePlaceholder(column: string)
    requires '?' !in column
    ensures Occurrences(column + " = " + "?", '?') == 1
  {
    OccurrencesAbsent(column, '?');
    OccurrencesAbsent(" = ", '?');
    OccurrencesAppend(column, " = ", '?');
    OccurrencesAppend(column + " = ", "?", '?');
    assert "?"[..0] == "";
  }

  /** The version clause has one placeholder when the version is checked, none otherwise. */
  lemma VersionClausePlaceholders(hasIds: bool, versionColumn: Option<string>)
    requires versionColumn.Some? ==> '?' !in versionColumn.value
    ensures Occurrences(VersionClause(hasIds, versionColumn), '?') == if versionColumn.Some? then 1 else 0
  {
    if versionColumn.Some? {
      var c := versionColumn.value;
      var lead := if hasIds then " and " else " where ";
      OccurrencesAbsent(lead, '?');
      OccurrencesAbsent(c, '?');
      OccurrencesAbsent(" = ", '?');
      OccurrencesAppend(lead, c, '?');
      OccurrencesAppend(lead + c, " = ", '?');
      OccurrencesAppend(lead + c + " = ", "?", '?');
      assert "?"[..0] == "";
    }
  }

  /**
   * When neither names nor literal set-clause text contain `?`, the update statement has
   * exactly one placeholder per bound parameter.
   */
  lemma UpdateSqlPlaceholdersMatchParameters(desc: EntityDesc, config: Config, setOps: seq<BuilderOp>,
                                             ids: seq<PropertyDesc>, checkedVersion: Option<PropertyDesc>, e: Entity)
    requires '?' !in config.tableName(desc.name)
    requires forall i :: 0 <= i < |setOps| && setOps[i].AppendSqlOp? ==> '?' !in setOps[i].text
    requires forall k :: 0 <= k < |ids| ==> '?' !in config.columnName(desc.name, ids[k].name)
    requires checkedVersion.Some? ==> '?' !in config.columnName(desc.name, checkedVersion.value.name)
    ensures var sql := UpdateSql(desc, config, setOps, ids, checkedVersion, e);
            Occurrences(sql.rawSql, '?') == |sql.parameters|
  {
    var idColumns := Columns(desc.name, config, ids);
    var versionColumn := VersionColumn(desc.name, config, checkedVersion);
    var table := config.tableName(desc.name);
    OpsPlaceholdersMatchParameters(setOps);
    IdClausePlaceholders(idColumns);
    VersionClausePlaceholders(idColumns != [], versionColumn);
    UpdateHeadPlaceholders(table);
    OccurrencesAppend("update " + table + " set ", OpsSql(setOps), '?');
    OccurrencesAppend("update " + table + " set " + OpsSql(setOps), IdClause(idColumns), '?');
    OccurrencesAppend("update " + table + " set " + OpsSql(setOps) + IdClause(idColumns),
                      VersionClause(idColumns != [], versionColumn), '?');
  }

  lemma UpdateHeadPlaceholders(table: string)
    requires '?' !in table
    ensures Occurrences("update " + table + " set ", '?') == 0
  {
    OccurrencesAbsent("update " + table + " set ", '?');
  }

  lemma Concat4(s: string, a: string, b: string, c: string, d: string)
    ensures s + a + b + c + d == s + (a + b + c) + d
  {
  }

  /** The where loop appends each predicate and ` and `; cutting back five characters leaves the joined predicates. */
  lemma IdLoopCutBack(head: string, preds: seq<string>)
    requires preds != []
    ensures var s := head + " where " + Terminated(preds, " and ");
            s[..|s| - 5] == head + " where " + Join(preds, " and ")
  {
    TerminatedIsJoinThenSeparator(preds, " and ");
    CutBackSuffix(head + " where " + Join(preds, " and "), " and ");
  }

  /**
   * The listener context of `preUpdate` and `postUpdate`: the names of the properties
   * the update targets. (The post-update context offers the same queries but
   * `isEntityChanged`.)
   */
  class UpdateContext {
    const entityDesc: EntityDesc
    ghost const targets: seq<PropertyDesc>
    const changedPropertyNames: set<string>

    constructor (entityDesc: EntityDesc, targetPropertyTypes: seq<PropertyDesc>)
      ensures this.entityDesc == entityDesc && targets == targetPropertyTypes
      ensures changedPropertyNames == NamesOf(targetPropertyTypes)
    {
      var names: set<string> := {};
      var i := 0;
      while i < |targetPropertyTypes|
        invariant 0 <= i <= |targetPropertyTypes|
        invariant names == NamesOf(targetPropertyTypes[..i])
      {
        assert targetPropertyTypes[..i + 1][..i] == targetPropertyTypes[..i];
        names := names + {targetPropertyTypes[i].name};
        i := i + 1;
      }
      assert targetPropertyTypes[..i] == targetPropertyTypes;
      this.entityDesc := entityDesc;
      targets := targetPropertyTypes;
      changedPropertyNames := names;
    }

    ghost predicate Valid()
    {
      changedPropertyNames == NamesOf(targets)
    }

    /** The entity changed exactly when some property is an update target. */
    function IsEntityChanged(): (r: bool)
      requires Valid()
      ensures r <==> targets != []
    {
      NamesOfEmpty(targets);
      changedPropertyNames != {}
    }

    /**
     * Whether the property is an update target; a name that is not a property of the
     * entity is rejected.
     */
    function IsPropertyChanged(propertyName: string): (r: Result<bool, ContextError>)
      requires Valid()
      ensures r.Err? <==> propertyName !in NamesOf(entityDesc.properties)
      ensures r.Err? ==> r.error == PropertyNotDefined(entityDesc.name, propertyName)
      ensures r.Ok? ==> (r.value <==> exists i :: 0 <= i < |targets| && targets[i].name == propertyName)
    {
      NamesOfMembership(targets, propertyName);
      if propertyName !in NamesOf(entityDesc.properties) then Err(PropertyNotDefined(entityDesc.name, propertyName))
      else Ok(propertyName in changedPropertyNames)
    }
  }

  class AutoUpdateQuery {
    const entityDesc: EntityDesc
    const config: Config
    const logic: UpdateHelperLogic
    const includedPropertyNames: seq<string>
    const excludedPropertyNames: seq<string>
    var entity: Entity
    var nullExcluded: bool
    var versionIgnored: bool
    var optimisticLockExceptionSuppressed: bool
    var unchangedPropertyIncluded: bool
    var helper: Option<UpdateQueryHelper>
    var idPropertyTypes: seq<PropertyDesc>
    var versionPropertyDesc: Option<PropertyDesc>
    var targetPropertyTypes: seq<PropertyDesc>
    var optimisticLockCheckRequired: bool
    var executable: bool
    var sqlExecutionSkipCause: Option<SqlExecutionSkipCause>
    var sql: Option<PreparedSql>

    /** The query with its entity description, configuration, helper logic, property filter and entity set. */
    constructor (entityDesc: EntityDesc, config: Config, logic: UpdateHelperLogic,
                 includedPropertyNames: seq<string>, excludedPropertyNames: seq<string>, entity: Entity)
      ensures this.entityDesc == entityDesc && this.config == config && this.logic == logic
      ensures this.includedPropertyNames == includedPropertyNames
      ensures this.excludedPropertyNames == excludedPropertyNames && this.entity == entity
      ensures !nullExcluded && !versionIgnored && !optimisticLockExceptionSuppressed && !unchangedPropertyIncluded
      ensures helper.None? && idPropertyTypes == [] && versionPropertyDesc.None? && targetPropertyTypes == []
      ensures !optimisticLockCheckRequired && !executable && sqlExecutionSkipCause == Some(StateUnchanged)
      ensures sql.None?
    {
      this.entityDesc := entityDesc;
      this.config := config;
      this.logic := logic;
      this.includedPropertyNames := includedPropertyNames;
      this.excludedPropertyNames := excludedPropertyNames;
      this.entity := entity;
      nullExcluded := false;
      versionIgnored := false;
      optimisticLockExceptionSuppressed := false;
      unchangedPropertyIncluded := false;
      helper := None;
      idPropertyTypes := [];
      versionPropertyDesc := None;
      targetPropertyTypes := [];
      optimisticLockCheckRequired := false;
      executable := false;
      sqlExecutionSkipCause := Some(StateUnchanged);
      sql := None;
    }

    /** The steps of `prepare`; afterwards a statement exists. */
    method Prepare()
      modifies this`helper, this`entity, this`idPropertyTypes, this`versionPropertyDesc
      modifies this`optimisticLockCheckRequired, this`targetPropertyTypes, this`executable
      modifies this`sqlExecutionSkipCause, this`sql
      ensures sql.Some?
      ensures helper == Some(UpdateQueryHelper(includedPropertyNames, excludedPropertyNames, nullExcluded,
                                               versionIgnored, optimisticLockExceptionSuppressed,
                                               unchangedPropertyIncluded))
      ensures entity == WithNewEntity(old(entity),
                                      entityDesc.preUpdate(old(entity), NamesOf(logic.targets(helper.value, old(entity)))))
      ensures idPropertyTypes == entityDesc.idProperties && versionPropertyDesc == entityDesc.versionProperty
      ensures optimisticLockCheckRequired ==
              (old(optimisticLockCheckRequired)
               || (VersionChecked(versionIgnored, versionPropertyDesc) && !optimisticLockExceptionSuppressed))
      ensures targetPropertyTypes == logic.targets(helper.value, entity)
      ensures executable == (old(executable) || targetPropertyTypes != [])
      ensures sqlExecutionSkipCause == if targetPropertyTypes != [] then None else old(sqlExecutionSkipCause)
      ensures sql == Some(UpdateSql(entityDesc, config,
                                    logic.populate(helper.value, entity, targetPropertyTypes, versionPropertyDesc),
                                    idPropertyTypes, CheckedVersion(versionIgnored, versionPropertyDesc), entity))
    {
      PrepareState();
      PrepareSql();
    }

    /** Every step of `prepare` before the statement is built. */
    method PrepareState()
      modifies this`helper, this`entity, this`idPropertyTypes, this`versionPropertyDesc
      modifies this`optimisticLockCheckRequired, this`targetPropertyTypes, this`executable
      modifies this`sqlExecutionSkipCause
      ensures helper == Some(UpdateQueryHelper(includedPropertyNames, excludedPropertyNames, nullExcluded,
                                               versionIgnored, optimisticLockExceptionSuppressed,
                                               unchangedPropertyIncluded))
      ensures entity == WithNewEntity(old(entity),
                                      entityDesc.preUpdate(old(entity), NamesOf(logic.targets(helper.value, old(entity)))))
      ensures idPropertyTypes == entityDesc.idProperties && versionPropertyDesc == entityDesc.versionProperty
      ensures optimisticLockCheckRequired ==
              (old(optimisticLockCheckRequired)
               || (VersionChecked(versionIgnored, versionPropertyDesc) && !optimisticLockExceptionSuppressed))
      ensures targetPropertyTypes == logic.targets(helper.value, entity)
      ensures executable == (old(executable) || targetPropertyTypes != [])
      ensures sqlExecutionSkipCause == if targetPropertyTypes != [] then None else old(sqlExecutionSkipCause)
    {
      SetupHelper();
      PreUpdate();
      PrepareFlagsAndTargets();
    }

    /** The identifier, version, optimistic-lock and target steps, once the helper and entity are settled. */
    method PrepareFlagsAndTargets()
      requires helper.Some?
      modifies this`idPropertyTypes, this`versionPropertyDesc
      modifies this`optimisticLockCheckRequired, this`targetPropertyTypes, this`executable
      modifies this`sqlExecutionSkipCause
      ensures idPropertyTypes == entityDesc.idProperties && versionPropertyDesc == entityDesc.versionProperty
      ensures optimisticLockCheckRequired ==
              (old(optimisticLockCheckRequired)
               || (VersionChecked(versionIgnored, versionPropertyDesc) && !optimisticLockExceptionSuppressed))
      ensures targetPropertyTypes == logic.targets(helper.value, entity)
      ensures executable == (old(executable) || targetPropertyTypes != [])
      ensures sqlExecutionSkipCause == if targetPropertyTypes != [] then None else old(sqlExecutionSkipCause)
    {
      PrepareIdAndVersionPropertyTypes();
      PrepareOptimisticLock();
      PrepareTargetPropertyTypes();
    }

    method SetupHelper()
      modifies this`helper
      ensures helper == Some(UpdateQueryHelper(includedPropertyNames, excludedPropertyNames, nullExcluded,
                                               versionIgnored, optimisticLockExceptionSuppressed,
                                               unchangedPropertyIncluded))
    {
      helper := Some(UpdateQueryHelper(includedPropertyNames, excludedPropertyNames, nullExcluded,
                                       versionIgnored, optimisticLockExceptionSuppressed, unchangedPropertyIncluded));
    }

    /** Runs the pre-update listener with the current targets and keeps the entity it set, if any. */
    method PreUpdate()
      requires helper.Some?
      modifies this`entity
      ensures entity == WithNewEntity(old(entity),
                                      entityDesc.preUpdate(old(entity), NamesOf(logic.targets(helper.value, old(entity)))))
    {
      var targets := logic.targets(helper.value, entity);
      var context := new UpdateContext(entityDesc, targets);
      entity := WithNewEntity(entity, entityDesc.preUpdate(entity, context.changedPropertyNames));
    }

    method PrepareIdAndVersionPropertyTypes()
      modifies this`idPropertyTypes, this`versionPropertyDesc
      ensures idPropertyTypes == entityDesc.idProperties && versionPropertyDesc == entityDesc.versionProperty
    {
      idPropertyTypes := entityDesc.idProperties;
      versionPropertyDesc := entityDesc.versionProperty;
    }

    /** Switches the optimistic-lock check on when the version is checked and exceptions are not suppressed. */
    method PrepareOptimisticLock()
      modifies this`optimisticLockCheckRequired
      ensures optimisticLockCheckRequired ==
              (old(optimisticLockCheckRequired)
               || (VersionChecked(versionIgnored, versionPropertyDesc) && !optimisticLockExceptionSuppressed))
    {
      if !versionIgnored && versionPropertyDesc.Some? {
        if !optimisticLockExceptionSuppressed {
          optimisticLockCheckRequired := true;
        }
      }
    }

    /** The targets; a non-empty target list makes the query executable and clears the skip cause. */
    method PrepareTargetPropertyTypes()
      requires helper.Some?
      modifies this`targetPropertyTypes, this`executable, this`sqlExecutionSkipCause
      ensures targetPropertyTypes == logic.targets(helper.value, entity)
      ensures if targetPropertyTypes != [] then executable && sqlExecutionSkipCause.None?
              else executable == old(executable) && sqlExecutionSkipCause == old(sqlExecutionSkipCause)
    {
      targetPropertyTypes := logic.targets(helper.value, entity);
      if targetPropertyTypes != [] {
        executable := true;
        sqlExecutionSkipCause := None;
      }
    }

    /** Builds the update statement. */
    method PrepareSql()
      requires helper.Some?
      modifies this`sql
      ensures sql == Some(UpdateSql(entityDesc, config,
                                    logic.populate(helper.value, entity, targetPropertyTypes, versionPropertyDesc),
                                    idPropertyTypes, CheckedVersion(versionIgnored, versionPropertyDesc), entity))
    {
      var ops := logic.populate(helper.value, entity, targetPropertyTypes, versionPropertyDesc);
      var table := config.tableName(entityDesc.name);
      var b := new PreparedSqlBuilder(Update);
      b.AppendSql("update ");
      b.AppendSql(table);
      b.AppendSql(" set ");
      b.Apply(ops);
      ghost var head := b.rawSql;
      assert head == "update " + table + " set " + OpsSql(ops);
      assert b.parameters == OpsParameters(ops);
      AppendIdClause(b);
      AppendVersionClause(b);
      ghost var idColumns := Columns(entityDesc.name, config, idPropertyTypes);
      assert idColumns != [] <==> idPropertyTypes != [];
      assert b.rawSql == UpdateSqlText(table, OpsSql(ops), idColumns,
                                       VersionColumn(entityDesc.name, config, CheckedVersion(versionIgnored, versionPropertyDesc)));
      assert b.parameters == UpdateParameters(ops, idPropertyTypes, CheckedVersion(versionIgnored, versionPropertyDesc), entity);
      sql := Some(b.Build());
    }

    /** The version predicate of `prepareSql`, after ` where ` or ` and `, when the version is checked. */
    method AppendVersionClause(b: PreparedSqlBuilder)
      modifies b
      ensures b.rawSql == old(b.rawSql)
                          + VersionClause(idPropertyTypes != [],
                                          VersionColumn(entityDesc.name, config,
                                                        CheckedVersion(versionIgnored, versionPropertyDesc)))
      ensures b.parameters == old(b.parameters)
                              + match CheckedVersion(versionIgnored, versionPropertyDesc)
                                case None => []
                                case Some(v) => [AsInParameter(v, entity)]
    {
      if !versionIgnored && versionPropertyDesc.Some? {
        var v := versionPropertyDesc.value;
        var column := config.columnName(entityDesc.name, v.name);
        var lead := if |idPropertyTypes| == 0 then " where " else " and ";
        if |idPropertyTypes| == 0 {
          b.AppendSql(" where ");
        } else {
          b.AppendSql(" and ");
        }
        b.AppendSql(column);
        b.AppendSql(" = ");
        b.AppendParameter(AsInParameter(v, entity));
        Concat4(old(b.rawSql), lead, column, " = ", "?");
      } else {
        assert b.rawSql == old(b.rawSql) + "";
        assert b.parameters == old(b.parameters) + [];
      }
    }

    /** The where part of `prepareSql`: ` where `, the id loop, then a cut-back of five characters. */
    method AppendIdClause(b: PreparedSqlBuilder)
      modifies b
      ensures b.rawSql == old(b.rawSql) + IdClause(Columns(entityDesc.name, config, idPropertyTypes))
      ensures b.parameters == old(b.parameters) + InParams(idPropertyTypes, entity)
    {
      if |idPropertyTypes| > 0 {
        ghost var preds := IdPredicates(Columns(entityDesc.name, config, idPropertyTypes));
        b.AppendSql(" where ");
        AppendIdPredicates(b);
        IdLoopCutBack(old(b.rawSql), preds);
        b.CutBackSql(5);
      } else {
        assert b.rawSql == old(b.rawSql) + "";
        assert b.parameters == old(b.parameters) + [];
      }
    }

    /** The id loop of `prepareSql`: `col = ?` and ` and ` for each id, in id order. */
    method AppendIdPredicates(b: PreparedSqlBuilder)
      modifies b
      ensures b.rawSql == old(b.rawSql) + Terminated(IdPredicates(Columns(entityDesc.name, config, idPropertyTypes)), " and ")
      ensures b.parameters == old(b.parameters) + InParams(idPropertyTypes, entity)
    {
      var ids := idPropertyTypes;
      ghost var idParams := InParams(ids, entity);
      ghost var preds := IdPredicates(Columns(entityDesc.name, config, ids));
      var i := 0;
      while i < |ids|
        invariant 0 <= i <= |ids|
        invariant b.rawSql == old(b.rawSql) + Terminated(preds[..i], " and ")
        invariant b.parameters == old(b.parameters) + idParams[..i]
      {
        assert preds[..i + 1] == preds[..i] + [preds[i]];
        assert idParams[..i + 1] == idParams[..i] + [idParams[i]];
        assert preds[i] == config.columnName(entityDesc.name, ids[i].name) + " = " + "?";
        assert idParams[i] == AsInParameter(ids[i], entity);
        TerminatedSnoc(preds[..i], preds[i], " and ");
        AppendAssoc(old(b.rawSql), Terminated(preds[..i], " and "), preds[i] + " and ");
        AppendAssoc(old(b.parameters), idParams[..i], [idParams[i]]);
        AppendIdPredicate(b, ids[i]);
        i := i + 1;
      }
      assert preds[..i] == preds && idParams[..i] == idParams;
    }

    /** One turn of the where loop: the id's column, ` = `, its bound value, and ` and `. */
    method AppendIdPredicate(b: PreparedSqlBuilder, id: PropertyDesc)
      modifies b
      ensures b.rawSql == old(b.rawSql) + (config.columnName(entityDesc.name, id.name) + " = " + "?") + " and "
      ensures b.parameters == old(b.parameters) + [AsInParameter(id, entity)]
    {
      var column := config.columnName(entityDesc.name, id.name);
      b.AppendSql(column);
      b.AppendSql(" = ");
      b.AppendParameter(AsInParameter(id, entity));
      b.AppendSql(" and ");
      Concat4(old(b.rawSql), column, " = ", "?", " and ");
    }

    /** Increments the version, when it is checked. */
    method IncrementVersion()
      modifies this`entity
      ensures entity == if VersionChecked(versionIgnored, versionPropertyDesc)
                        then entityDesc.incrementVersion(old(entity)) else old(entity)
    {
      if !versionIgnored && versionPropertyDesc.Some? {
        entity := entityDesc.incrementVersion(entity);
      }
    }

    method Complete()
      requires helper.Some?
      modifies this`entity
      ensures entity == entityDesc.saveCurrentStates(PostUpdated(old(entity)))
    {
      PostUpdate();
    }

    /** The entity the post-update listener leaves, given the targets plus the checked version. */
    ghost function PostUpdated(e: Entity): Entity
      requires helper.Some?
      reads this
    {
      var targets := logic.targets(helper.value, e)
                     + (if VersionChecked(versionIgnored, versionPropertyDesc) then [versionPropertyDesc.value] else []);
      WithNewEntity(e, entityDesc.postUpdate(e, NamesOf(targets)))
    }

    /**
     * Runs the post-update listener with the targets plus the checked version, keeps the
     * entity it set, and records the entity's current state.
     */
    method PostUpdate()
      requires helper.Some?
      modifies this`entity
      ensures entity == entityDesc.saveCurrentStates(PostUpdated(old(entity)))
    {
      var targets := logic.targets(helper.value, entity);
      if !versionIgnored && versionPropertyDesc.Some? {
        targets := targets + [versionPropertyDesc.value];
      }
      assert targets == logic.targets(helper.value, entity)
                        + (if VersionChecked(versionIgnored, versionPropertyDesc) then [versionPropertyDesc.value] else []);
      var context := new UpdateContext(entityDesc, targets);
      ghost var updated := PostUpdated(entity);
      entity := WithNewEntity(entity, entityDesc.postUpdate(entity, context.changedPropertyNames));
      assert entity == updated;
      entity := entityDesc.saveCurrentStates(entity);
    }

    method SetNullExcluded(nullExcluded: bool)
      modifies this`nullExcluded
      ensures this.nullExcluded == nullExcluded
    {
      this.nullExcluded := nullExcluded;
    }

    /** Once ignored, the version stays ignored. */
    method SetVersionIgnored(versionIgnored: bool)
      modifies this`versionIgnored
      ensures this.versionIgnored == (old(this.versionIgnored) || versionIgnored)
    {
      this.versionIgnored := this.versionIgnored || versionIgnored;
    }

    method SetOptimisticLockExceptionSuppressed(optimisticLockExceptionSuppressed: bool)
      modifies this`optimisticLockExceptionSuppressed
      ensures this.optimisticLockExceptionSuppressed == optimisticLockExceptionSuppressed
    {
      this.optimisticLockExceptionSuppressed := optimisticLockExceptionSuppressed;
    }

    method SetUnchangedPropertyIncluded(unchangedPropertyIncluded: bool)
      modifies this`unchangedPropertyIncluded
      ensures this.unchangedPropertyIncluded == unchangedPropertyIncluded
    {
      this.unchangedPropertyIncluded := unchangedPropertyIncluded;
    }
  }
}
