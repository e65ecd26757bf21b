/**
 * Entity descriptions as the auto-generated DML queries see them. The generated
 * `EntityDesc` classes are not part of this model: their callbacks (pre/post insert and
 * update hooks, version handling, id generation) are function-typed fields.
 */
module Entities {
  import opened Wrappers
  import opened Jdbc

  /** An entity instance: the value of each property, by property name (absent = null). */
  type Entity = map<string, Datum>

  /** What the queries read of an `EntityPropertyDesc`. */
  datatype PropertyDesc = PropertyDesc(
    name: string,
    isId: bool,
    isVersion: bool,
    insertable: bool,
    updatable: bool)

  /** `createProperty()` then `load(entity)`: the property's current value. */
  function Load(p: PropertyDesc, e: Entity): Datum
  {
    if p.name in e then e[p.name] else Null
  }

  /** `InParameter` built from the loaded property (`property.asInParameter()`). */
  function AsInParameter(p: PropertyDesc, e: Entity): (r: InParameter)
    ensures r.value == Load(p, e)
  {
    InParameter(Load(p, e))
  }

  /** The quoted column names of `props`, in order. */
  function Columns(entityName: string, config: Config, props: seq<PropertyDesc>): (r: seq<string>)
    ensures |r| == |props|
  {
    seq(|props|, k requires 0 <= k < |props| => config.columnName(entityName, props[k].name))
  }

  /** The values of `props` read from `e`, in order. */
  function InParams(props: seq<PropertyDesc>, e: Entity): (r: seq<InParameter>)
    ensures |r| == |props|
  {
    seq(|props|, k requires 0 <= k < |props| => AsInParameter(props[k], e))
  }

  /** The id generation configuration a batch insert creates once, with its reserved-id provider. */
  datatype IdGenerationConfig = IdGenerationConfig(entityName: string, reservedIdCount: nat)

  /** An executed JDBC statement, only passed through to id generation. */
  datatype Statement = Statement(handle: nat)

  /**
   * The generated-id property and what its generator decides. `validateStrategy` is the
   * check that the dialect supports the generation strategy: the error it raises, if any.
   */
  datatype GeneratedIdDesc = GeneratedIdDesc(
    property: PropertyDesc,
    validateStrategy: IdGenerationConfig -> Option<JdbcError>,
    isIncluded: Option<IdGenerationConfig> -> bool,
    isBatchSupported: IdGenerationConfig -> bool,
    isAutoGeneratedKeysSupported: IdGenerationConfig -> bool,
    preInsert: (Entity, IdGenerationConfig) -> Entity,
    postInsert: (Entity, IdGenerationConfig, Statement) -> Entity)

  /**
   * An entity description. The listener callbacks return the entity a context's
   * `getNewEntity()` yields (None when the listener set none); the update listeners
   * see the changed-property names of their context.
   */
  datatype EntityDesc = EntityDesc(
    name: string,
    properties: seq<PropertyDesc>,
    idProperties: seq<PropertyDesc>,
    versionProperty: Option<PropertyDesc>,
    generatedId: Option<GeneratedIdDesc>,
    preInsert: Entity -> Option<Entity>,
    postInsert: Entity -> Option<Entity>,
    preUpdate: (Entity, set<string>) -> Option<Entity>,
    postUpdate: (Entity, set<string>) -> Option<Entity>,
    setVersionIfNecessary: (Entity, int) -> Entity,
    incrementVersion: Entity -> Entity,
    saveCurrentStates: Entity -> Entity)

  /** `if (context.getNewEntity() != null) entity = context.getNewEntity()`. */
  function WithNewEntity(current: Entity, newEntity: Option<Entity>): (r: Entity)
    ensures newEntity.Some? ==> r == newEntity.value
    ensures newEntity.None? ==> r == current
  {
    match newEntity
    case Some(e) => e
    case None => current
  }

  /** The names of `ps`, as a set. */
  function NamesOf(ps: seq<PropertyDesc>): set<string>
  {
    if ps == [] then {} else NamesOf(ps[..|ps| - 1]) + {ps[|ps| - 1].name}
  }

  /** A name is in `NamesOf(ps)` exactly when some property of `ps` has it. */
  lemma {:induction false} NamesOfMembership(ps: seq<PropertyDesc>, n: string)
    ensures n in NamesOf(ps) <==> exists i :: 0 <= i < |ps| && ps[i].name == n
  {
    if ps != [] {
      var init := ps[..|ps| - 1];
      NamesOfMembership(init, n);
      if n in NamesOf(init) {
        var i :| 0 <= i < |init| && init[i].name == n;
        assert ps[i].name == n;
      }
      if exists i :: 0 <= i < |ps| && ps[i].name == n {
        var i :| 0 <= i < |ps| && ps[i].name == n;
        if i < |init| {
          assert init[i].name == n;
        }
      }
    }
  }

  lemma {:induction false} NamesOfEmpty(ps: seq<PropertyDesc>)
    ensures NamesOf(ps) == {} <==> ps == []
  {
    if ps != [] {
      assert ps[|ps| - 1].name in NamesOf(ps);
    }
  }
}
