/**
 * `AutoBatchInsertQuery`: prepares one `insert` statement per entity of a batch, runs the
 * pre-insert listener, id generation and initial versioning on each entity and stores the
 * result back at the entity's own index.
 */
module BatchInsert {
  import opened Wrappers
  import opened Text
  import opened Jdbc
  import opened Entities

  /**
   * Whether `p` becomes an insert target: only insertable properties do; an id does unless
   * it is the generated id and generation leaves it out; any other property does when the
   * name filter accepts it.
   */
  predicate IsInsertTarget(p: PropertyDesc, gen: Option<GeneratedIdDesc>, idCfg: Option<IdGenerationConfig>,
                           isTargetPropertyName: string -> bool)
    ensures IsInsertTarget(p, gen, idCfg, isTargetPropertyName) ==> p.insertable
    ensures p.insertable && p.isId && (gen.None? || p != gen.value.property) ==> IsInsertTarget(p, gen, idCfg, isTargetPropertyName)
    ensures p.isId && gen.Some? && p == gen.value.property ==>
              (IsInsertTarget(p, gen, idCfg, isTargetPropertyName) <==> p.insertable && gen.value.isIncluded(idCfg))
    ensures !p.isId ==> (IsInsertTarget(p, gen, idCfg, isTargetPropertyName) <==> p.insertable && isTargetPropertyName(p.name))
  {
    p.insertable &&
    if p.isId then gen.None? || p != gen.value.property || gen.value.isIncluded(idCfg)
    else isTargetPropertyName(p.name)
  }

  /** The target properties, in the order of the entity's properties. */
  function InsertTargets(ps: seq<PropertyDesc>, gen: Option<GeneratedIdDesc>, idCfg: Option<IdGenerationConfig>,
                         isTargetPropertyName: string -> bool): (r: seq<PropertyDesc>)
    ensures |r| <= |ps|
  {
    if ps == [] then []
    else
      InsertTargets(ps[..|ps| - 1], gen, idCfg, isTargetPropertyName)
      + (if IsInsertTarget(ps[|ps| - 1], gen, idCfg, isTargetPropertyName) then [ps[|ps| - 1]] else [])
  }

  /** A property is a target exactly when it is one of the entity's and passes the selection. */
  lemma {:induction false} InsertTargetsMembership(ps: seq<PropertyDesc>, gen: Option<GeneratedIdDesc>,
                                                    idCfg: Option<IdGenerationConfig>,
                                                    isTargetPropertyName: string -> bool, p: PropertyDesc)
    ensures p in InsertTargets(ps, gen, idCfg, isTargetPropertyName)
            <==> p in ps && IsInsertTarget(p, gen, idCfg, isTargetPropertyName)
  {
    if ps != [] {
      InsertTargetsMembership(ps[..|ps| - 1], gen, idCfg, isTargetPropertyName, p);
      assert ps == ps[..|ps| - 1] + [ps[|ps| - 1]];
    }
  }

  /** Selection distributes over concatenation, so it keeps the properties' relative order. */
  lemma {:induction false} InsertTargetsAppend(a: seq<PropertyDesc>, b: seq<PropertyDesc>, gen: Option<GeneratedIdDesc>,
                                                idCfg: Option<IdGenerationConfig>, isTargetPropertyName: string -> bool)
    ensures InsertTargets(a + b, gen, idCfg, isTargetPropertyName)
            == InsertTargets(a, gen, idCfg, isTargetPropertyName) + InsertTargets(b, gen, idCfg, isTargetPropertyName)
  {
    if b == [] {
      assert a + b == a;
    } else {
      assert (a + b)[..|a + b| - 1] == a + b[..|b| - 1];
      InsertTargetsAppend(a, b[..|b| - 1], gen, idCfg, isTargetPropertyName);
    }
  }

  /** An insertable id property whose value is null. */
  predicate IsNullId(p: PropertyDesc, e: Entity)
  {
    p.insertable && p.isId && Load(p, e) == Null
  }

  /** The first insertable id property whose value is null. */
  function FirstNullId(ps: seq<PropertyDesc>, e: Entity): (r: Option<PropertyDesc>)
    ensures r.Some? ==> IsNullId(r.value, e)
  {
    if ps == [] then None
    else
      match FirstNullId(ps[..|ps| - 1], e)
      case Some(p) => Some(p)
      case None => if IsNullId(ps[|ps| - 1], e) then Some(ps[|ps| - 1]) else None
  }

  /** `FirstNullId` finds a null id exactly when there is one, and it finds the earliest. */
  lemma {:induction false} FirstNullIdSpec(ps: seq<PropertyDesc>, e: Entity)
    ensures FirstNullId(ps, e).None? <==> forall i :: 0 <= i < |ps| ==> !IsNullId(ps[i], e)
    ensures FirstNullId(ps, e).Some? ==>
              exists i :: 0 <= i < |ps| && ps[i] == FirstNullId(ps, e).value && IsNullId(ps[i], e)
                          && forall j :: 0 <= j < i ==> !IsNullId(ps[j], e)
  {
    if ps != [] {
      var init := ps[..|ps| - 1];
      FirstNullIdSpec(init, e);
      if FirstNullId(init, e).Some? {
        var i :| 0 <= i < |init| && init[i] == FirstNullId(init, e).value && IsNullId(init[i], e)
                 && forall j :: 0 <= j < i ==> !IsNullId(init[j], e);
        assert ps[i] == init[i];
      } else {
        assert forall i :: 0 <= i < |init| ==> ps[i] == init[i];
      }
    }
  }

  /** A null id found in a prefix stays the first one found, whatever follows. */
  lemma {:induction false} FirstNullIdPrefix(a: seq<PropertyDesc>, b: seq<PropertyDesc>, e: Entity)
    requires FirstNullId(a, e).Some?
    ensures FirstNullId(a + b, e) == FirstNullId(a, e)
  {
    if b == [] {
      assert a + b == a;
    } else {
      assert (a + b)[..|a + b| - 1] == a + b[..|b| - 1];
      FirstNullIdPrefix(a, b[..|b| - 1], e);
    }
  }

  /** The loop's first null id is the search's answer for the whole list. */
  lemma FirstNullIdAt(ps: seq<PropertyDesc>, i: nat, e: Entity)
    requires i < |ps| && FirstNullId(ps[..i], e).None? && IsNullId(ps[i], e)
    ensures FirstNullId(ps, e) == Some(ps[i])
  {
    assert ps[..i + 1][..i] == ps[..i];
    FirstNullIdPrefix(ps[..i + 1], ps[i + 1..], e);
    assert ps[..i + 1] + ps[i + 1..] == ps;
  }

  /**
   * The generation-strategy validation of the generated id, which runs only when the id
   * generation configuration is created, that is when none was set before.
   */
  function StrategyError(desc: EntityDesc, idCfg: Option<IdGenerationConfig>, size: nat): (r: Option<JdbcError>)
    ensures r.Some? ==> desc.generatedId.Some? && idCfg.None?
  {
    if desc.generatedId.Some? && idCfg.None? then desc.generatedId.value.validateStrategy(IdGenerationConfig(desc.name, size))
    else None
  }

  /**
   * The error `prepare` raises on the first entity of a non-empty batch: an invalid
   * generation strategy first, as it is validated before the targets are selected, then
   * DOMA2020 for the entity the pre-insert listener leaves.
   */
  function FirstEntityError(desc: EntityDesc, idCfg: Option<IdGenerationConfig>, entities: seq<Entity>): (r: Option<JdbcError>)
    requires entities != []
    ensures StrategyError(desc, idCfg, |entities|).Some? ==> r == StrategyError(desc, idCfg, |entities|)
    ensures r.Some? && StrategyError(desc, idCfg, |entities|).None? ==>
              desc.generatedId.None? && r.value.Doma2020? && r.value.entityName == desc.name
  {
    var strategy := StrategyError(desc, idCfg, |entities|);
    if strategy.Some? then strategy
    else MissingIdError(desc, desc.generatedId, WithNewEntity(entities[0], desc.preInsert(entities[0])))
  }

  /** DOMA2020: without a generated id, every insertable id of the entity must have a value. */
  function MissingIdError(desc: EntityDesc, gen: Option<GeneratedIdDesc>, e: Entity): (r: Option<JdbcError>)
    ensures gen.Some? ==> r.None?
    ensures r.Some? ==> r.value.Doma2020? && r.value.entityName == desc.name
  {
    if gen.Some? then None
    else
      match FirstNullId(desc.properties, e)
      case Some(p) => Some(Doma2020(desc.name, p.name))
      case None => None
  }

  /**
   * DOMA2020 is raised exactly when no id is generated and some insertable id is null,
   * and it names the earliest such property.
   */
  lemma MissingIdErrorSpec(desc: EntityDesc, gen: Option<GeneratedIdDesc>, e: Entity)
    ensures MissingIdError(desc, gen, e).Some?
            <==> gen.None? && exists i :: 0 <= i < |desc.properties| && IsNullId(desc.properties[i], e)
    ensures MissingIdError(desc, gen, e).Some? ==>
              exists i :: 0 <= i < |desc.properties| && IsNullId(desc.properties[i], e)
                          && MissingIdError(desc, gen, e).value == Doma2020(desc.name, desc.properties[i].name)
                          && forall j :: 0 <= j < i ==> !IsNullId(desc.properties[j], e)
  {
    FirstNullIdSpec(desc.properties, e);
  }

  /** The text of the insert statement for a table and its target columns. */
  function InsertSqlText(table: string, columns: seq<string>): (r: string)
    ensures |r| > |"insert into " + table| && r[..|"insert into " + table|] == "insert into " + table
    ensures r[|r| - 1] == ')'
  {
    if columns == [] then "insert into " + table + ") values)"
    else
      "insert into " + table + " (" + Join(columns, ", ") + ") values ("
      + Join(Repeat("?", |columns|), ", ") + ")"
  }

  /** The statement `prepareSql` adds for entity `e`. */
  function InsertSql(entityName: string, config: Config, targets: seq<PropertyDesc>, e: Entity): (r: PreparedSql)
    ensures r.kind == BatchInsert
    ensures |r.parameters| == |targets|
  {
    PreparedSql(BatchInsert,
                InsertSqlText(config.tableName(entityName), Columns(entityName, config, targets)),
                InParams(targets, e))
  }

  /** With names free of `?`, the statement has one placeholder per column. */
  lemma InsertSqlPlaceholders(table: string, columns: seq<string>)
    requires '?' !in table
    requires forall k :: 0 <= k < |columns| ==> '?' !in columns[k]
    ensures Occurrences(InsertSqlText(table, columns), '?') == |columns|
  {
    OccurrencesAbsent("insert into ", '?');
    OccurrencesAbsent(table, '?');
    if columns == [] {
      OccurrencesInFrame("insert into ", table, ") values)");
    } else {
      OccurrencesInFrame("insert into ", table, " (");
      var joined := Join(columns, ", ");
      var marks := Join(Repeat("?", |columns|), ", ");
      JoinedColumnsHaveNoMark(columns);
      JoinedMarksCount(|columns|);
      OccurrencesInFrame("insert into " + table + " (", joined, ") values (");
      OccurrencesInFrame("insert into " + table + " (" + joined + ") values (", marks, ")");
    }
  }

  lemma JoinedColumnsHaveNoMark(columns: seq<string>)
    requires forall k :: 0 <= k < |columns| ==> '?' !in columns[k]
    ensures Occurrences(Join(columns, ", "), '?') == 0
  {
    forall k | 0 <= k < |columns| ensures Occurrences(columns[k], '?') == 0 {
      OccurrencesAbsent(columns[k], '?');
    }
    OccurrencesAbsent(", ", '?');
    OccurrencesInJoin(columns, ", ", '?', 0);
  }

  lemma JoinedMarksCount(n: nat)
    ensures Occurrences(Join(Repeat("?", n), ", "), '?') == n
  {
    var marks := Repeat("?", n);
    forall k | 0 <= k < |marks| ensures Occurrences(marks[k], '?') == 1 {
      OccurrencesOfMark();
    }
    OccurrencesAbsent(", ", '?');
    OccurrencesInJoin(marks, ", ", '?', 1);
  }

  lemma OccurrencesOfMark()
    ensures Occurrences("?", '?') == 1
  {
    assert "?"[..0] == "";
  }

  /** `?` occurrences of `pre + mid + post` when `post` has none. */
  lemma OccurrencesInFrame(pre: string, mid: string, post: string)
    requires '?' !in post
    ensures Occurrences(pre + mid + post, '?') == Occurrences(pre, '?') + Occurrences(mid, '?')
  {
    OccurrencesAbsent(post, '?');
    OccurrencesAppend(pre, mid, '?');
    OccurrencesAppend(pre + mid, post, '?');
  }

  /**
   * The statement binds exactly one parameter per placeholder, and the k-th parameter is
   * the value of the k-th target, whose column is the k-th in the column list.
   */
  lemma InsertSqlMatchesTargets(entityName: string, config: Config, targets: seq<PropertyDesc>, e: Entity)
    requires '?' !in config.tableName(entityName)
    requires forall k :: 0 <= k < |targets| ==> '?' !in config.columnName(entityName, targets[k].name)
    ensures var sql := InsertSql(entityName, config, targets, e);
            && Occurrences(sql.rawSql, '?') == |sql.parameters| == |targets|
            && forall k :: 0 <= k < |targets| ==>
                 sql.parameters[k].value == Load(targets[k], e)
                 && Columns(entityName, config, targets)[k] == config.columnName(entityName, targets[k].name)
  {
    InsertSqlPlaceholders(config.tableName(entityName), Columns(entityName, config, targets));
  }

  /** The entity `prepare` stores back: listener result, then the generated id, then initial version 1. */
  function PreparedEntity(desc: EntityDesc, gen: Option<GeneratedIdDesc>, idCfg: Option<IdGenerationConfig>,
                          version: Option<PropertyDesc>, e: Entity): Entity
  {
    var listened := WithNewEntity(e, desc.preInsert(e));
    var withId := if gen.Some? && idCfg.Some? then gen.value.preInsert(listened, idCfg.value) else listened;
    if version.Some? then desc.setVersionIfNecessary(withId, 1) else withId
  }

  /** The entity `complete` stores back. */
  function PostInserted(desc: EntityDesc, e: Entity): Entity
  {
    WithNewEntity(e, desc.postInsert(e))
  }

  /** What the column part of `prepareSql` leaves after the table name. */
  function ColumnListText(cols: seq<string>): string
  {
    if cols == [] then "" else " (" + Join(cols, ", ")
  }

  /** What the value part of `prepareSql` appends for `n` targets. */
  function ValueListText(n: nat): string
  {
    if n == 0 then ") values)" else ") values (" + Join(Repeat("?", n), ", ") + ")"
  }

  /** The insert text is the table name, then the column part, then the value part. */
  lemma InsertSqlTextParts(table: string, cols: seq<string>)
    ensures InsertSqlText(table, cols) == "insert into " + table + ColumnListText(cols) + ValueListText(|cols|)
  {
    if cols == [] {
      assert ColumnListText(cols) == "";
      assert "insert into " + table + "" == "insert into " + table;
    } else {
      var joined := Join(cols, ", ");
      var marks := ") values (" + Join(Repeat("?", |cols|), ", ") + ")";
      assert ColumnListText(cols) == " (" + joined;
      assert ValueListText(|cols|) == marks;
      assert "insert into " + table + " (" + joined + ") values (" + Join(Repeat("?", |cols|), ", ") + ")"
             == "insert into " + table + (" (" + joined) + marks;
    }
  }

  /** The first cut-back of `prepareSql`: it drops the trailing `, `, or the ` (` when there is no column. */
  lemma ColumnListCutBack(head: string, cols: seq<string>)
    ensures var s := head + " (" + Terminated(cols, ", ");
            s[..|s| - 2] == head + ColumnListText(cols)
  {
    if cols == [] {
      CutBackSuffix(head, " (");
    } else {
      TerminatedIsJoinThenSeparator(cols, ", ");
      CutBackSuffix(head + " (" + Join(cols, ", "), ", ");
    }
  }

  /** The second cut-back of `prepareSql`: it drops the trailing `, `, or the ` (` when there is no value. */
  lemma ValueListCutBack(head: string, n: nat)
    ensures var s := head + ") values (" + Terminated(Repeat("?", n), ", ");
            s[..|s| - 2] + ")" == head + ValueListText(n)
  {
    if n == 0 {
      CutBackSuffix(head + ") values", " (");
      assert head + ") values" + " (" == head + ") values (";
    } else {
      TerminatedIsJoinThenSeparator(Repeat("?", n), ", ");
      CutBackSuffix(head + ") values (" + Join(Repeat("?", n), ", "), ", ");
    }
  }

  /**
   * The first `upTo` of `entities` are the prepared `originals`, each with its statement at
   * the same index of `sqls`; the other entities are still the originals.
   */
  ghost predicate PreparedPrefix(desc: EntityDesc, gen: Option<GeneratedIdDesc>, idCfg: Option<IdGenerationConfig>,
                                 version: Option<PropertyDesc>, config: Config, targets: seq<PropertyDesc>,
                                 originals: seq<Entity>, entities: seq<Entity>, sqls: seq<PreparedSql>, upTo: nat)
  {
    && upTo <= |entities| == |originals|
    && |sqls| == upTo
    && (forall k :: 0 <= k < upTo ==> entities[k] == PreparedEntity(desc, gen, idCfg, version, originals[k]))
    && (forall k :: upTo <= k < |entities| ==> entities[k] == originals[k])
    && (forall k :: 0 <= k < upTo ==> sqls[k] == InsertSql(desc.name, config, targets, entities[k]))
  }

  /** Preparing the next entity in place and adding its statement extends the prepared prefix by one. */
  lemma PreparedPrefixStep(desc: EntityDesc, gen: Option<GeneratedIdDesc>, idCfg: Option<IdGenerationConfig>,
                           version: Option<PropertyDesc>, config: Config, targets: seq<PropertyDesc>,
                           originals: seq<Entity>, entities: seq<Entity>, sqls: seq<PreparedSql>, upTo: nat)
    requires PreparedPrefix(desc, gen, idCfg, version, config, targets, originals, entities, sqls, upTo)
    requires upTo < |entities|
    ensures var e := PreparedEntity(desc, gen, idCfg, version, entities[upTo]);
            PreparedPrefix(desc, gen, idCfg, version, config, targets, originals,
                           entities[upTo := e], sqls + [InsertSql(desc.name, config, targets, e)], upTo + 1)
  {
  }

  class AutoBatchInsertQuery {
    const entityDesc: EntityDesc
    const config: Config
    /** The included/excluded property-name filter of the base query. */
    const isTargetPropertyName: string -> bool
    var entities: seq<Entity>
    var sqls: seq<PreparedSql>
    var currentEntity: Option<Entity>
    var executable: bool
    var executionSkipCause: Option<SqlExecutionSkipCause>
    var idPropertyTypes: seq<PropertyDesc>
    var versionPropertyDesc: Option<PropertyDesc>
    var generatedIdPropertyDesc: Option<GeneratedIdDesc>
    var idGenerationConfig: Option<IdGenerationConfig>
    var autoGeneratedKeysSupported: bool
    var batchSupported: bool
    var targetPropertyTypes: seq<PropertyDesc>

    /** The query with its entity description, configuration, filter and entities set. */
    constructor (entityDesc: EntityDesc, config: Config, isTargetPropertyName: string -> bool, entities: seq<Entity>)
      ensures this.entityDesc == entityDesc && this.config == config
      ensures this.isTargetPropertyName == isTargetPropertyName && this.entities == entities
      ensures sqls == [] && currentEntity.None? && !executable
      ensures executionSkipCause == Some(BatchTargetNonexistent)
      ensures idPropertyTypes == [] && versionPropertyDesc.None? && generatedIdPropertyDesc.None?
      ensures idGenerationConfig.None? && !autoGeneratedKeysSupported && batchSupported
      ensures targetPropertyTypes == []
    {
      this.entityDesc := entityDesc;
      this.config := config;
      this.isTargetPropertyName := isTargetPropertyName;
      this.entities := entities;
      sqls := [];
      currentEntity := None;
      executable := false;
      executionSkipCause := Some(BatchTargetNonexistent);
      idPropertyTypes := [];
      versionPropertyDesc := None;
      generatedIdPropertyDesc := None;
      idGenerationConfig := None;
      autoGeneratedKeysSupported := false;
      batchSupported := true;
      targetPropertyTypes := [];
    }

    /**
     * The first `upTo` entities are prepared from `originals`, at their own indexes, and
     * each has its statement at the same index in `sqls`; the other entities are untouched.
     */
    ghost predicate PreparedUpTo(originals: seq<Entity>, upTo: nat)
      reads this
      ensures PreparedUpTo(originals, upTo) ==> upTo <= |entities| == |originals| && |sqls| == upTo
    {
      PreparedPrefix(entityDesc, generatedIdPropertyDesc, idGenerationConfig, versionPropertyDesc, config,
                     targetPropertyTypes, originals, entities, sqls, upTo)
    }

    /**
     * Prepares every entity and its statement. An empty batch changes nothing; otherwise
     * the first entity decides the targets (and the DOMA2020 check), and every entity is
     * replaced at its own index and gets its own statement, in entity order.
     */
    method Prepare() returns (err: Option<JdbcError>)
      requires entities != [] ==> sqls == []
      modifies this
      ensures old(entities) == [] ==> unchanged(this) && err.None?
      ensures old(entities) != [] ==>
                err == FirstEntityError(entityDesc, old(idGenerationConfig), old(entities))
      ensures old(entities) != [] ==>
                && executable && executionSkipCause.None?
                && GenerationPrepared(old(idGenerationConfig), old(autoGeneratedKeysSupported), old(batchSupported),
                                      |old(entities)|)
      ensures old(entities) != [] && err.None? ==>
                && currentEntity.None?
                && targetPropertyTypes == InsertTargets(entityDesc.properties, generatedIdPropertyDesc,
                                                        idGenerationConfig, isTargetPropertyName)
                && PreparedUpTo(old(entities), |old(entities)|)
    {
      if |entities| == 0 {
        return None;
      }
      executable := true;
      executionSkipCause := None;
      err := PrepareBatch();
    }

    /** `prepare` of a non-empty batch: the first entity, then, unless it failed, the others. */
    method PrepareBatch() returns (err: Option<JdbcError>)
      requires entities != [] && sqls == []
      modifies this`currentEntity, this`entities, this`sqls, this`targetPropertyTypes
      modifies this`idPropertyTypes, this`versionPropertyDesc, this`generatedIdPropertyDesc
      modifies this`idGenerationConfig, this`autoGeneratedKeysSupported, this`batchSupported
      ensures err == FirstEntityError(entityDesc, old(idGenerationConfig), old(entities))
      ensures GenerationPrepared(old(idGenerationConfig), old(autoGeneratedKeysSupported), old(batchSupported),
                                 |old(entities)|)
      ensures err.None? ==>
                && currentEntity.None?
                && targetPropertyTypes == InsertTargets(entityDesc.properties, generatedIdPropertyDesc,
                                                        idGenerationConfig, isTargetPropertyName)
                && PreparedUpTo(old(entities), |old(entities)|)
    {
      err := PrepareFirstEntity();
      if err.Some? {
        return;
      }
      PrepareRemainingEntities(old(entities));
    }

    /** The loop of `prepare` over the entities after the first, which the first one set up. */
    method PrepareRemainingEntities(ghost originals: seq<Entity>)
      requires PreparedUpTo(originals, 1)
      modifies this`currentEntity, this`entities, this`sqls
      ensures currentEntity.None? && PreparedUpTo(originals, |originals|)
    {
      var i := 1;
      while i < |entities|
        invariant 1 <= i <= |entities|
        invariant PreparedUpTo(originals, i)
      {
        PrepareEntityAt(originals, i);
        i := i + 1;
      }
      currentEntity := None;
    }

    /**
     * The steps of `prepare` for the first entity, which alone fixes the id/version
     * properties, the id generation configuration and the target properties.
     */
    method PrepareFirstEntity() returns (err: Option<JdbcError>)
      requires entities != [] && sqls == []
      modifies this`currentEntity, this`entities, this`sqls, this`targetPropertyTypes
      modifies this`idPropertyTypes, this`versionPropertyDesc, this`generatedIdPropertyDesc
      modifies this`idGenerationConfig, this`autoGeneratedKeysSupported, this`batchSupported
      ensures err == FirstEntityError(entityDesc, old(idGenerationConfig), old(entities))
      ensures GenerationPrepared(old(idGenerationConfig), old(autoGeneratedKeysSupported), old(batchSupported),
                                 |old(entities)|)
      ensures err.None? ==>
                && targetPropertyTypes == InsertTargets(entityDesc.properties, generatedIdPropertyDesc,
                                                        idGenerationConfig, isTargetPropertyName)
                && PreparedUpTo(old(entities), 1)
    {
      currentEntity := Some(entities[0]);
      PreInsert();
      err := PrepareIdAndVersionPropertyTypes();
      if err.Some? {
        return;
      }
      err := PrepareFirstTargetsAndSql();
    }

    /**
     * The steps of `prepare` for the first entity after its generation state is settled:
     * the target properties (or DOMA2020), then its id, version and statement.
     */
    method PrepareFirstTargetsAndSql() returns (err: Option<JdbcError>)
      requires entities != [] && sqls == []
      requires currentEntity == Some(WithNewEntity(entities[0], entityDesc.preInsert(entities[0])))
      modifies this`currentEntity, this`entities, this`sqls, this`targetPropertyTypes
      ensures err == MissingIdError(entityDesc, generatedIdPropertyDesc, old(currentEntity).value)
      ensures err.None? ==>
                && targetPropertyTypes == InsertTargets(entityDesc.properties, generatedIdPropertyDesc,
                                                        idGenerationConfig, isTargetPropertyName)
                && PreparedUpTo(old(entities), 1)
    {
      err := PrepareTargetPropertyTypes();
      if err.Some? {
        return;
      }
      assert PreparedUpTo(entities, 0);
      FinishEntityAt(entities, 0);
    }

    /** One turn of the loop over the entities after the first. */
    method PrepareEntityAt(ghost originals: seq<Entity>, i: nat)
      requires i < |entities| && PreparedUpTo(originals, i)
      modifies this`currentEntity, this`entities, this`sqls
      ensures PreparedUpTo(originals, i + 1)
    {
      currentEntity := Some(entities[i]);
      PreInsert();
      FinishEntityAt(originals, i);
    }

    /**
     * The steps after the pre-insert listener for entity `i`: id, initial version, the
     * statement, and the entity stored back at its own index.
     */
    method FinishEntityAt(ghost originals: seq<Entity>, i: nat)
      requires i < |entities| && PreparedUpTo(originals, i)
      requires currentEntity == Some(WithNewEntity(entities[i], entityDesc.preInsert(entities[i])))
      modifies this`currentEntity, this`entities, this`sqls
      ensures PreparedUpTo(originals, i + 1)
    {
      ghost var e := PreparedEntity(entityDesc, generatedIdPropertyDesc, idGenerationConfig, versionPropertyDesc, entities[i]);
      PreparedPrefixStep(entityDesc, generatedIdPropertyDesc, idGenerationConfig, versionPropertyDesc, config,
                         targetPropertyTypes, originals, entities, sqls, i);
      PrepareIdValue();
      PrepareVersionValue();
      assert currentEntity == Some(e);
      PrepareSql();
      entities := entities[i := currentEntity.value];
    }

    /** Runs the pre-insert listener on the current entity and keeps the entity it set, if any. */
    method PreInsert()
      requires currentEntity.Some?
      modifies this`currentEntity
      ensures currentEntity == Some(WithNewEntity(old(currentEntity).value, entityDesc.preInsert(old(currentEntity).value)))
    {
      var e := currentEntity.value;
      currentEntity := Some(WithNewEntity(e, entityDesc.preInsert(e)));
    }

    /**
     * What `prepareIdAndVersionPropertyTypes` leaves, given the generation state before it
     * and the batch size: the description's id, version and generated-id properties; a new
     * id generation configuration only when there is a generated id and none was set; and,
     * when that configuration is created and its strategy is valid, auto-generated keys and
     * batching each as the generator says, otherwise both flags as they were.
     */
    ghost predicate GenerationPrepared(idCfg0: Option<IdGenerationConfig>, keys0: bool, batch0: bool, size: nat)
      reads this`idPropertyTypes, this`versionPropertyDesc, this`generatedIdPropertyDesc
      reads this`idGenerationConfig, this`autoGeneratedKeysSupported, this`batchSupported
    {
      && idPropertyTypes == entityDesc.idProperties
      && versionPropertyDesc == entityDesc.versionProperty
      && generatedIdPropertyDesc == entityDesc.generatedId
      && idGenerationConfig == (if entityDesc.generatedId.Some? && idCfg0.None?
                                then Some(IdGenerationConfig(entityDesc.name, size))
                                else idCfg0)
      && if entityDesc.generatedId.Some? && idCfg0.None? && StrategyError(entityDesc, idCfg0, size).None? then
           var cfg := IdGenerationConfig(entityDesc.name, size);
           && autoGeneratedKeysSupported == entityDesc.generatedId.value.isAutoGeneratedKeysSupported(cfg)
           && batchSupported == entityDesc.generatedId.value.isBatchSupported(cfg)
         else
           autoGeneratedKeysSupported == keys0 && batchSupported == batch0
    }

    /**
     * Reads the id, version and generated-id properties; the id generation configuration,
     * with ids reserved for the whole batch, is created only once, and its generation
     * strategy is validated before the generator is asked for its flags.
     */
    method PrepareIdAndVersionPropertyTypes() returns (err: Option<JdbcError>)
      modifies this`idPropertyTypes, this`versionPropertyDesc, this`generatedIdPropertyDesc
      modifies this`idGenerationConfig, this`autoGeneratedKeysSupported, this`batchSupported
      ensures err == StrategyError(entityDesc, old(idGenerationConfig), |entities|)
      ensures GenerationPrepared(old(idGenerationConfig), old(autoGeneratedKeysSupported), old(batchSupported), |entities|)
    {
      idPropertyTypes := entityDesc.idProperties;
      versionPropertyDesc := entityDesc.versionProperty;
      generatedIdPropertyDesc := entityDesc.generatedId;
      err := None;
      if generatedIdPropertyDesc.Some? {
        if idGenerationConfig.None? {
          var cfg := IdGenerationConfig(entityDesc.name, |entities|);
          idGenerationConfig := Some(cfg);
          err := generatedIdPropertyDesc.value.validateStrategy(cfg);
          if err.Some? {
            return;
          }
          autoGeneratedKeysSupported := generatedIdPropertyDesc.value.isAutoGeneratedKeysSupported(cfg);
          batchSupported := generatedIdPropertyDesc.value.isBatchSupported(cfg);
        }
      }
    }

    /** Selects the target properties; without a generated id a null id raises DOMA2020. */
    method PrepareTargetPropertyTypes() returns (err: Option<JdbcError>)
      requires currentEntity.Some?
      modifies this`targetPropertyTypes
      ensures err == MissingIdError(entityDesc, generatedIdPropertyDesc, currentEntity.value)
      ensures err.None? ==>
                targetPropertyTypes == InsertTargets(entityDesc.properties, generatedIdPropertyDesc,
                                                     idGenerationConfig, isTargetPropertyName)
    {
      var ps := entityDesc.properties;
      var gen := generatedIdPropertyDesc;
      var e := currentEntity.value;
      targetPropertyTypes := [];
      var i := 0;
      while i < |ps|
        invariant 0 <= i <= |ps|
        invariant targetPropertyTypes == InsertTargets(ps[..i], gen, idGenerationConfig, isTargetPropertyName)
        invariant gen.None? ==> FirstNullId(ps[..i], e).None?
      {
        var p := ps[i];
        assert ps[..i + 1][..i] == ps[..i];
        if !p.insertable {
          i := i + 1;
          continue;
        }
        if p.isId {
          if gen.None? || p != gen.value.property || gen.value.isIncluded(idGenerationConfig) {
            targetPropertyTypes := targetPropertyTypes + [p];
          }
          if gen.None? && Load(p, e) == Null {
            FirstNullIdAt(ps, i, e);
            return Some(Doma2020(entityDesc.name, p.name));
          }
          i := i + 1;
          continue;
        }
        if !isTargetPropertyName(p.name) {
          i := i + 1;
          continue;
        }
        targetPropertyTypes := targetPropertyTypes + [p];
        i := i + 1;
      }
      assert ps[..i] == ps;
      return None;
    }

    /** Gives the current entity its generated id, when an id is generated before the insert. */
    method PrepareIdValue()
      requires currentEntity.Some?
      modifies this`currentEntity
      ensures currentEntity == Some(if generatedIdPropertyDesc.Some? && idGenerationConfig.Some?
                                    then generatedIdPropertyDesc.value.preInsert(old(currentEntity).value,
                                                                                 idGenerationConfig.value)
                                    else old(currentEntity).value)
    {
      if generatedIdPropertyDesc.Some? && idGenerationConfig.Some? {
        currentEntity := Some(generatedIdPropertyDesc.value.preInsert(currentEntity.value, idGenerationConfig.value));
      }
    }

    /** Sets the initial version 1 where the version property asks for it. */
    method PrepareVersionValue()
      requires currentEntity.Some?
      modifies this`currentEntity
      ensures currentEntity == Some(if versionPropertyDesc.Some?
                                    then entityDesc.setVersionIfNecessary(old(currentEntity).value, 1)
                                    else old(currentEntity).value)
    {
      if versionPropertyDesc.Some? {
        currentEntity := Some(entityDesc.setVersionIfNecessary(currentEntity.value, 1));
      }
    }

    /** Builds the insert statement of the current entity and adds it to `sqls`. */
    method PrepareSql()
      requires currentEntity.Some?
      modifies this`sqls
      ensures sqls == old(sqls) + [InsertSql(entityDesc.name, config, targetPropertyTypes, currentEntity.value)]
    {
      var table := config.tableName(entityDesc.name);
      var b := new PreparedSqlBuilder(BatchInsert);
      ghost var cols := Columns(entityDesc.name, config, targetPropertyTypes);
      b.AppendSql("insert into ");
      b.AppendSql(table);
      assert b.rawSql == "insert into " + table;
      AppendColumnList(b);
      AppendValueList(b);
      assert b.rawSql == "insert into " + table + ColumnListText(cols) + ValueListText(|targetPropertyTypes|);
      InsertSqlTextParts(table, cols);
      var sql := b.Build();
      assert sql.rawSql == InsertSqlText(table, cols);
      assert sql.parameters == [] + InParams(targetPropertyTypes, currentEntity.value);
      assert sql.kind == BatchInsert;
      assert sql == InsertSql(entityDesc.name, config, targetPropertyTypes, currentEntity.value);
      sqls := sqls + [sql];
    }

    /** ` (`, then each target's column name followed by `, `, then the cut-back of two characters. */
    method AppendColumnList(b: PreparedSqlBuilder)
      modifies b
      ensures b.rawSql == old(b.rawSql) + ColumnListText(Columns(entityDesc.name, config, targetPropertyTypes))
      ensures b.parameters == old(b.parameters)
    {
      var ts := targetPropertyTypes;
      ghost var cols := Columns(entityDesc.name, config, ts);
      ghost var head := b.rawSql;
      b.AppendSql(" (");
      var i := 0;
      while i < |ts|
        invariant 0 <= i <= |ts|
        invariant b.rawSql == head + " (" + Terminated(cols[..i], ", ")
        invariant b.parameters == old(b.parameters)
      {
        assert cols[..i + 1] == cols[..i] + [cols[i]];
        TerminatedSnoc(cols[..i], cols[i], ", ");
        b.AppendSql(config.columnName(entityDesc.name, ts[i].name));
        b.AppendSql(", ");
        i := i + 1;
      }
      assert cols[..i] == cols;
      b.CutBackSql(2);
      ColumnListCutBack(head, cols);
    }

    /** `) values (`, then a placeholder bound to each target's value followed by `, `, cut back, then `)`. */
    method AppendValueList(b: PreparedSqlBuilder)
      requires currentEntity.Some?
      modifies b
      ensures b.rawSql == old(b.rawSql) + ValueListText(|targetPropertyTypes|)
      ensures b.parameters == old(b.parameters) + InParams(targetPropertyTypes, currentEntity.value)
    {
      var ts := targetPropertyTypes;
      var e := currentEntity.value;
      ghost var head := b.rawSql;
      b.AppendSql(") values (");
      var i := 0;
      while i < |ts|
        invariant 0 <= i <= |ts|
        invariant b.rawSql == head + ") values (" + Terminated(Repeat("?", i), ", ")
        invariant b.parameters == old(b.parameters) + InParams(ts, e)[..i]
      {
        RepeatSnoc("?", i);
        TerminatedSnoc(Repeat("?", i), "?", ", ");
        assert InParams(ts, e)[..i + 1] == InParams(ts, e)[..i] + [AsInParameter(ts[i], e)];
        b.AppendParameter(AsInParameter(ts[i], e));
        b.AppendSql(", ");
        i := i + 1;
      }
      assert InParams(ts, e)[..i] == InParams(ts, e);
      b.CutBackSql(2);
      ValueListCutBack(head, |ts|);
      b.AppendSql(")");
    }

    /** Whether the statements can run as one JDBC batch (false when ids come back one by one). */
    function IsBatchSupported(): (r: bool)
      reads this
      ensures r == batchSupported
    {
      batchSupported
    }

    /** After the statement at `index` ran, gives that entity its id read back from the driver. */
    method GenerateId(statement: Statement, index: nat)
      requires index < |entities|
      modifies this`entities
      ensures |entities| == |old(entities)|
      ensures entities == if generatedIdPropertyDesc.Some? && idGenerationConfig.Some?
                          then old(entities)[index := generatedIdPropertyDesc.value.postInsert(
                                 old(entities)[index], idGenerationConfig.value, statement)]
                          else old(entities)
      ensures forall k :: 0 <= k < |entities| && k != index ==> entities[k] == old(entities)[k]
    {
      if generatedIdPropertyDesc.Some? && idGenerationConfig.Some? {
        var e := generatedIdPropertyDesc.value.postInsert(entities[index], idGenerationConfig.value, statement);
        entities := entities[index := e];
      }
    }

    /** Runs the post-insert listener on every entity, storing each result at its own index. */
    method Complete()
      modifies this`entities, this`currentEntity
      ensures |entities| == |old(entities)|
      ensures forall k :: 0 <= k < |entities| ==> entities[k] == PostInserted(entityDesc, old(entities)[k])
      ensures currentEntity == if old(entities) == [] then old(currentEntity) else Some(entities[|entities| - 1])
    {
      var i := 0;
      while i < |entities|
        invariant 0 <= i <= |entities| == |old(entities)|
        invariant forall k :: 0 <= k < i ==> entities[k] == PostInserted(entityDesc, old(entities)[k])
        invariant forall k :: i <= k < |entities| ==> entities[k] == old(entities)[k]
        invariant currentEntity == if i == 0 then old(currentEntity) else Some(entities[i - 1])
      {
        currentEntity := Some(entities[i]);
        PostInsert();
        entities := entities[i := currentEntity.value];
        i := i + 1;
      }
    }

    /** Runs the post-insert listener on the current entity and keeps the entity it set, if any. */
    method PostInsert()
      requires currentEntity.Some?
      modifies this`currentEntity
      ensures currentEntity == Some(PostInserted(entityDesc, old(currentEntity).value))
    {
      currentEntity := Some(PostInserted(entityDesc, currentEntity.value));
    }
  }
}
