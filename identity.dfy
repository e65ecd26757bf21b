/**
 * `BuiltinIdentityIdGenerator`: the decisions an identity strategy makes about where
 * the id comes from. With a reserved-id provider available the id is taken before the
 * insert and the identity column is written like any other; otherwise the database
 * assigns it and it is read back after the insert, from the generated keys when the
 * dialect supports them and by the dialect's identity-select statement when not.
 */
module IdentityIdGeneration {
  import opened Wrappers

  /** The reserved-id provider of the configuration: whether it can hand out ids, and the next one. */
  datatype IdProvider = IdProvider(isAvailable: bool, next: int)

  /** The two dialect capabilities the generator consults. */
  datatype Dialect = Dialect(includesIdentityColumn: bool, supportsAutoGeneratedKeys: bool)

  datatype IdGenerationConfig = IdGenerationConfig(idProvider: IdProvider, dialect: Dialect)

  /** How the id is read back after the insert, if at all. */
  datatype PostInsertSource = NotRead | GeneratedKeys | IdentitySelect

  /** Batch inserts need the id before the insert, so they are possible only with the provider. */
  function SupportsBatch(config: IdGenerationConfig): (r: bool)
    ensures r <==> config.idProvider.isAvailable
  {
    config.idProvider.isAvailable
  }

  /** The identity column is in the insert when the id is known beforehand, or when the dialect wants it. */
  function IncludesIdentityColumn(config: IdGenerationConfig): (r: bool)
    ensures config.idProvider.isAvailable ==> r
    ensures !config.idProvider.isAvailable ==> (r <==> config.dialect.includesIdentityColumn)
  {
    if config.idProvider.isAvailable then true else config.dialect.includesIdentityColumn
  }

  /** Generated keys are requested only when the database assigns the id and the dialect can return it. */
  function SupportsAutoGeneratedKeys(config: IdGenerationConfig): (r: bool)
    ensures config.idProvider.isAvailable ==> !r
    ensures !config.idProvider.isAvailable ==> (r <==> config.dialect.supportsAutoGeneratedKeys)
  {
    if config.idProvider.isAvailable then false else config.dialect.supportsAutoGeneratedKeys
  }

  /** The id before the insert: the provider's next id when it is available, none otherwise. */
  function GeneratePreInsert(config: IdGenerationConfig): (r: Option<int>)
    ensures r.Some? <==> SupportsBatch(config)
    ensures r.Some? ==> r.value == config.idProvider.next
  {
    if config.idProvider.isAvailable then Some(config.idProvider.next) else None
  }

  /** Where `generatePostInsert` reads the id from. */
  function PostInsertSourceOf(config: IdGenerationConfig): (r: PostInsertSource)
    ensures r.NotRead? <==> config.idProvider.isAvailable
    ensures r.GeneratedKeys? <==> SupportsAutoGeneratedKeys(config)
  {
    if config.idProvider.isAvailable then NotRead
    else if config.dialect.supportsAutoGeneratedKeys then GeneratedKeys
    else IdentitySelect
  }

  /**
   * The id after the insert. Reading the statement's generated keys and running the
   * identity-select statement are JDBC round trips, so their results are parameters.
   */
  function GeneratePostInsert(config: IdGenerationConfig, generatedKey: int, selectedIdentity: int): (r: Option<int>)
    ensures r.None? <==> config.idProvider.isAvailable
    ensures r.Some? && SupportsAutoGeneratedKeys(config) ==> r.value == generatedKey
    ensures r.Some? && !SupportsAutoGeneratedKeys(config) ==> r.value == selectedIdentity
  {
    match PostInsertSourceOf(config)
    case NotRead => None
    case GeneratedKeys => Some(generatedKey)
    case IdentitySelect => Some(selectedIdentity)
  }

  /** For every configuration exactly one of the two steps yields the id. */
  lemma ExactlyOneStepYieldsId(config: IdGenerationConfig, generatedKey: int, selectedIdentity: int)
    ensures GeneratePreInsert(config).Some? != GeneratePostInsert(config, generatedKey, selectedIdentity).Some?
  {
  }

  /** An id obtained before the insert is always written: such inserts include the identity column. */
  lemma PreInsertIdIsWritten(config: IdGenerationConfig)
    ensures GeneratePreInsert(config).Some? ==> IncludesIdentityColumn(config)
  {
  }

  /** Generated keys are requested exactly when the id is read back from them. */
  lemma AutoGeneratedKeysOnlyForPostInsert(config: IdGenerationConfig, generatedKey: int, selectedIdentity: int)
    ensures SupportsAutoGeneratedKeys(config) ==> GeneratePostInsert(config, generatedKey, selectedIdentity) == Some(generatedKey)
    ensures SupportsBatch(config) ==> !SupportsAutoGeneratedKeys(config)
  {
  }
}
