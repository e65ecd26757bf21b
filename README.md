# Doma query preparation and compile-time type classification

A model of two parts of the Doma data-access framework.

The first part is the runtime query layer:

- **Batch insert** (`AutoBatchInsertQuery`) picks the target properties of an entity. It writes one `insert into T (c1, c2) values (?, ?)` statement per entity and replaces each entity of the batch in place after its listener, id generation and initial version have run.
- **Update** (`AutoUpdateQuery`) writes `update T set ... where id = ? and version = ?`. It keeps the optimistic-lock, executable and version-ignored flags, and gives its listeners contexts that report which properties changed.
- **Select** (`SqlSelectQuery`) and **SQL-file modify** (`SqlFileModifyQuery`) queries fall back to configured options and keep a parameter environment. The select query expands `expand` directives into an entity's columns.
- **Identity ids** (`BuiltinIdentityIdGenerator`) are decided by a table: taken before the insert from a reserved-id provider, or read back after it.

The second part is the annotation processor's type classification:

- **Wrapper mapping** (`CtTypes`) maps a Java type to the value-wrapper class that stores it, in an order where subtypes win.
- **Factory selection** (`toCtType`) returns the first description an ordered list of factories yields, and falls back to `AnyCtType`.
- **Flags** (`AbstractCtType`) are what every description derives from its type: raw, wildcard and type-variable.
- **Entity properties** (`EntityPropertyMeta`) are what the processor records about one entity field.

Modules follow the source files:

| module | file | models |
|---|---|---|
| `Wrappers` | wrappers.dfy | `Option` and `Result` (exceptions and null) |
| `Text` | text.dfy | joining, separator-terminated lists, `?` counting, Java `trim` and `split` |
| `Jdbc` | jdbc.dfy | bound values, `PreparedSql`, the append/cut-back statement builder, `Config` |
| `Entities` | entities.dfy | property and entity descriptions, their callbacks as functions |
| `BatchInsert` | batch_insert.dfy | `AutoBatchInsertQuery` |
| `AutoUpdate` | update.dfy | `AutoUpdateQuery` and its listener contexts |
| `IdentityIdGeneration` | identity.dfy | `BuiltinIdentityIdGenerator` |
| `SelectQuery` | select_query.dfy | `SqlSelectQuery` |
| `FileModifyQuery` | file_modify_query.dfy | `SqlFileModifyQuery` |
| `TypeModel` | types.dfy | the `javax.lang.model` types and relations consulted |
| `AbstractCtTypes` | abstract_cttype.dfy | `AbstractCtType` |
| `CtTypes` | cttypes.dfy | `CtTypes` and its `WrapperClassMapper` |
| `EntityMeta` | entity_property_meta.dfy | `EntityPropertyMeta` |

The query classes are Dafny classes whose methods change their fields. Entity lists are `seq` fields, updated index by index. The statement builder is a class with a text buffer and a parameter list. The type classification is pure: a type is a datatype that carries its own direct supertypes, so the supertype hierarchy is a finite tree, and every factory is a function returning a `Result`.

Collaborators whose code is not part of this model are given as function-typed fields:

- entity listeners and `getNewEntity`;
- naming and quoting of table and column names;
- the update helper's target selection and `populateValues`;
- the generated-id property's decisions;
- the template engine's build.

## Model

| member | source | states |
|---|---|---|
| Jdbc.DefaultIfNonPositive | src/main/java/org/seasar/doma/jdbc/query/SqlSelectQuery.java:90-100 | a positive setting is kept, a non-positive one becomes the configured value |
| Jdbc.DefaultIfNonPositiveIdempotent | src/main/java/org/seasar/doma/jdbc/query/SqlSelectQuery.java:90-100 | defaulting an already defaulted setting changes nothing |
| Jdbc.DefaultIfNonPositivePositive | src/main/java/org/seasar/doma/jdbc/query/SqlSelectQuery.java:90-100 | with a positive configured value every defaulted setting is positive |
| Jdbc.ParameterLastWriteWins | src/main/java/org/seasar/doma/jdbc/query/SqlSelectQuery.java:218-221 | a second binding under a name replaces the first; every other name keeps its binding and presence |
| Jdbc.OpsPlaceholdersMatchParameters | src/main/java/org/seasar/doma/jdbc/query/AutoUpdateQuery.java:116-117 | when the update helper appends no literal `?`, its calls leave one placeholder per bound parameter |
| Jdbc.PreparedSqlBuilder.constructor | src/main/java/org/seasar/doma/jdbc/query/AutoBatchInsertQuery.java:170-171 | a builder of the given kind starts with empty text and no parameters |
| Jdbc.PreparedSqlBuilder.AppendSql | src/main/java/org/seasar/doma/jdbc/query/AutoBatchInsertQuery.java:172-175 | text is appended and the parameters stay as they were |
| Jdbc.PreparedSqlBuilder.AppendParameter | src/main/java/org/seasar/doma/jdbc/query/AutoBatchInsertQuery.java:186 | a `?` is appended and the value is bound as the last parameter |
| Jdbc.PreparedSqlBuilder.CutBackSql | src/main/java/org/seasar/doma/jdbc/query/AutoBatchInsertQuery.java:181 | exactly the last n characters are dropped; the parameters stay |
| Jdbc.PreparedSqlBuilder.Apply | src/main/java/org/seasar/doma/jdbc/query/AutoUpdateQuery.java:116-117 | the collaborator calls append their text and their parameters in call order |
| Jdbc.PreparedSqlBuilder.Build | src/main/java/org/seasar/doma/jdbc/query/AutoBatchInsertQuery.java:191 | the statement carries the builder's kind, text and parameters |
| Entities.AsInParameter | src/main/java/org/seasar/doma/jdbc/query/AutoBatchInsertQuery.java:184-186 | the bound value is the property's loaded value |
| Entities.Columns | src/main/java/org/seasar/doma/jdbc/query/AutoBatchInsertQuery.java:176-180 | one column name per property; that the k-th is the k-th property's configured column name is stated by `BatchInsert.InsertSqlMatchesTargets` |
| Entities.InParams | src/main/java/org/seasar/doma/jdbc/query/AutoBatchInsertQuery.java:183-188 | one parameter per property, in property order |
| Entities.WithNewEntity | src/main/java/org/seasar/doma/jdbc/query/AutoBatchInsertQuery.java:96-98 | an entity the listener set replaces the current one; otherwise the current one stays |
| Entities.NamesOfMembership | src/main/java/org/seasar/doma/jdbc/query/AutoUpdateQuery.java:201-205 | a name is a changed-property name exactly when some target property has it |
| Entities.NamesOfEmpty | src/main/java/org/seasar/doma/jdbc/query/AutoUpdateQuery.java:209-211 | the name set is empty exactly when there are no targets |
| BatchInsert.IsInsertTarget | src/main/java/org/seasar/doma/jdbc/query/AutoBatchInsertQuery.java:125-148 | only insertable properties are targets; an id is one unless it is the generated id and generation leaves it out; another property is one iff the name filter accepts it |
| BatchInsert.InsertTargets | src/main/java/org/seasar/doma/jdbc/query/AutoBatchInsertQuery.java:120-149 | no more targets than properties; which properties and in what order are stated by `InsertTargetsMembership` and `InsertTargetsAppend` |
| BatchInsert.InsertTargetsMembership | src/main/java/org/seasar/doma/jdbc/query/AutoBatchInsertQuery.java:120-149 | a property is a target iff it is insertable and, for an id, not the excluded generated id, for a non-id, accepted by the name filter |
| BatchInsert.InsertTargetsAppend | src/main/java/org/seasar/doma/jdbc/query/AutoBatchInsertQuery.java:120-149 | selection distributes over concatenation, so targets keep the entity's property order |
| BatchInsert.FirstNullId | src/main/java/org/seasar/doma/jdbc/query/AutoBatchInsertQuery.java:134-142 | a property found is an insertable id whose value is null |
| BatchInsert.FirstNullIdSpec | src/main/java/org/seasar/doma/jdbc/query/AutoBatchInsertQuery.java:134-142 | the DOMA2020 search finds a null insertable id exactly when one exists, and the earliest one |
| BatchInsert.FirstNullIdPrefix | src/main/java/org/seasar/doma/jdbc/query/AutoBatchInsertQuery.java:134-142 | the first null id of a prefix stays the first whatever follows (the loop stops there) |
| BatchInsert.MissingIdError | src/main/java/org/seasar/doma/jdbc/query/AutoBatchInsertQuery.java:134-142 | never with a generated id; an error is DOMA2020 for the entity |
| BatchInsert.StrategyError | src/main/java/org/seasar/doma/jdbc/query/AutoBatchInsertQuery.java:104-111 | the generation-strategy validation can fail only when there is a generated id and the configuration is created by this call |
| BatchInsert.FirstEntityError | src/main/java/org/seasar/doma/jdbc/query/AutoBatchInsertQuery.java:71-75 | an invalid generation strategy wins; otherwise an error is DOMA2020 for the entity, raised only without a generated id |
| BatchInsert.MissingIdErrorSpec | src/main/java/org/seasar/doma/jdbc/query/AutoBatchInsertQuery.java:134-142 | DOMA2020 iff no id is generated and some insertable id is null, naming the earliest such property |
| BatchInsert.InsertSqlText | src/main/java/org/seasar/doma/jdbc/query/AutoBatchInsertQuery.java:172-191 | the text starts with `insert into` and the table, and ends with `)` |
| BatchInsert.InsertSql | src/main/java/org/seasar/doma/jdbc/query/AutoBatchInsertQuery.java:172-191 | a batch-insert statement with one parameter per target |
| BatchInsert.InsertSqlPlaceholders | src/main/java/org/seasar/doma/jdbc/query/AutoBatchInsertQuery.java:172-191 | with names free of `?` the insert text has exactly one placeholder per column |
| BatchInsert.JoinedColumnsHaveNoMark | src/main/java/org/seasar/doma/jdbc/query/AutoBatchInsertQuery.java:176-181 | column names free of `?` joined by `, ` hold no placeholder |
| BatchInsert.JoinedMarksCount | src/main/java/org/seasar/doma/jdbc/query/AutoBatchInsertQuery.java:182-189 | `n` placeholders joined by `, ` hold exactly `n` placeholders |
| BatchInsert.OccurrencesInFrame | src/main/java/org/seasar/doma/jdbc/query/AutoBatchInsertQuery.java:172-191 | a suffix free of `?` adds no placeholder to the text before it |
| BatchInsert.InsertSqlMatchesTargets | src/main/java/org/seasar/doma/jdbc/query/AutoBatchInsertQuery.java:172-191 | placeholders, parameters and targets agree in number, and the k-th parameter is the k-th target's value beside the k-th column |
| BatchInsert.InsertSqlTextParts | src/main/java/org/seasar/doma/jdbc/query/AutoBatchInsertQuery.java:172-190 | the insert text is prefix, table, column part, value part |
| BatchInsert.ColumnListCutBack | src/main/java/org/seasar/doma/jdbc/query/AutoBatchInsertQuery.java:175-181 | cutting two characters leaves ` (` plus the joined columns, or removes ` (` when there is no column |
| BatchInsert.ValueListCutBack | src/main/java/org/seasar/doma/jdbc/query/AutoBatchInsertQuery.java:182-190 | cutting two characters and closing leaves the joined placeholders, or `) values)` without targets |
| BatchInsert.PreparedPrefixStep | src/main/java/org/seasar/doma/jdbc/query/AutoBatchInsertQuery.java:80-87 | preparing the next entity in place and adding its statement extends the prepared prefix by one |
| BatchInsert.AutoBatchInsertQuery.constructor | src/main/java/org/seasar/doma/jdbc/query/AutoBatchInsertQuery.java:57-59 | a query over the given entities with no statements, not executable, skip cause "batch target nonexistent", batch supported |
| BatchInsert.AutoBatchInsertQuery.Prepare | src/main/java/org/seasar/doma/jdbc/query/AutoBatchInsertQuery.java:62-90 | an empty batch changes nothing; otherwise the query is executable with no skip cause, the id, version and generated-id properties are the description's, and the id generation configuration and the auto-generated-keys and batch flags are as `prepareIdAndVersionPropertyTypes` leaves them; the error is the generation-strategy error, else DOMA2020 on the first entity; on success every entity is replaced at its own index with one statement per entity in entity order and the current entity is cleared |
| BatchInsert.AutoBatchInsertQuery.PrepareBatch | src/main/java/org/seasar/doma/jdbc/query/AutoBatchInsertQuery.java:71-88 | the first entity, then, unless it raised an error, the loop over the others; the same generation state, error and prepared entities as `Prepare` |
| BatchInsert.AutoBatchInsertQuery.PrepareFirstEntity | src/main/java/org/seasar/doma/jdbc/query/AutoBatchInsertQuery.java:71-79 | the first entity fixes the id, version and generated-id properties, the id generation configuration and both generator flags; it raises the generation-strategy error first, DOMA2020 second; otherwise it fixes the targets and is prepared with its statement |
| BatchInsert.AutoBatchInsertQuery.PrepareFirstTargetsAndSql | src/main/java/org/seasar/doma/jdbc/query/AutoBatchInsertQuery.java:75-79 | DOMA2020 for the listener's entity when no id is generated and an insertable id is null; otherwise the targets are selected and the first entity is prepared with its statement |
| BatchInsert.AutoBatchInsertQuery.PreparedUpTo | src/main/java/org/seasar/doma/jdbc/query/AutoBatchInsertQuery.java:62-90 | the invariant of the entity loop: the prefix prepared so far has as many statements as entities, and the entity count is the batch's |
| BatchInsert.AutoBatchInsertQuery.PrepareRemainingEntities | src/main/java/org/seasar/doma/jdbc/query/AutoBatchInsertQuery.java:80-88 | from the first entity on, every entity is prepared at its own index with its own statement; the current entity is cleared |
| BatchInsert.AutoBatchInsertQuery.PrepareEntityAt | src/main/java/org/seasar/doma/jdbc/query/AutoBatchInsertQuery.java:80-87 | one loop turn keeps the prepared-prefix invariant one entity further |
| BatchInsert.AutoBatchInsertQuery.FinishEntityAt | src/main/java/org/seasar/doma/jdbc/query/AutoBatchInsertQuery.java:74-78 | after the listener ran on an entity, id, version and statement extend the prepared prefix by that entity |
| BatchInsert.AutoBatchInsertQuery.PreInsert | src/main/java/org/seasar/doma/jdbc/query/AutoBatchInsertQuery.java:92-99 | the current entity becomes the listener's entity when it set one |
| BatchInsert.AutoBatchInsertQuery.PrepareIdAndVersionPropertyTypes | src/main/java/org/seasar/doma/jdbc/query/AutoBatchInsertQuery.java:102-118 | the description's id, version and generated-id properties; the id generation configuration, reserving ids for the whole batch, is created only when none was set; its generation strategy is then validated, and its error aborts; only after a valid strategy are the auto-generated-keys and batch flags asked of the generator, otherwise both stay as they were |
| BatchInsert.AutoBatchInsertQuery.PrepareTargetPropertyTypes | src/main/java/org/seasar/doma/jdbc/query/AutoBatchInsertQuery.java:120-150 | the targets are the selected properties in order, or DOMA2020 names the first null id when no id is generated |
| BatchInsert.AutoBatchInsertQuery.PrepareIdValue | src/main/java/org/seasar/doma/jdbc/query/AutoBatchInsertQuery.java:152-158 | the generator's pre-insert entity replaces the current one only with a generated id and its configuration |
| BatchInsert.AutoBatchInsertQuery.PrepareVersionValue | src/main/java/org/seasar/doma/jdbc/query/AutoBatchInsertQuery.java:160-165 | the initial version 1 is set only when there is a version property |
| BatchInsert.AutoBatchInsertQuery.PrepareSql | src/main/java/org/seasar/doma/jdbc/query/AutoBatchInsertQuery.java:167-193 | exactly one statement, the insert of the current entity over the targets, is added |
| BatchInsert.AutoBatchInsertQuery.AppendColumnList | src/main/java/org/seasar/doma/jdbc/query/AutoBatchInsertQuery.java:175-181 | the column part is appended and no parameter is bound |
| BatchInsert.AutoBatchInsertQuery.AppendValueList | src/main/java/org/seasar/doma/jdbc/query/AutoBatchInsertQuery.java:182-190 | the value part is appended and the targets' values are bound in order |
| BatchInsert.AutoBatchInsertQuery.IsBatchSupported | src/main/java/org/seasar/doma/jdbc/query/AutoBatchInsertQuery.java:196-198 | the answer is the flag preparation left, true unless the generator refused batching |
| BatchInsert.AutoBatchInsertQuery.GenerateId | src/main/java/org/seasar/doma/jdbc/query/AutoBatchInsertQuery.java:201-207 | only the entity at the index changes, to the generator's post-insert entity; the length is unchanged |
| BatchInsert.AutoBatchInsertQuery.Complete | src/main/java/org/seasar/doma/jdbc/query/AutoBatchInsertQuery.java:210-216 | every entity is replaced at its own index by its post-insert entity; the length is unchanged |
| BatchInsert.AutoBatchInsertQuery.PostInsert | src/main/java/org/seasar/doma/jdbc/query/AutoBatchInsertQuery.java:218-225 | the current entity becomes the listener's entity when it set one |
| AutoUpdate.IdPredicates | src/main/java/org/seasar/doma/jdbc/query/AutoUpdateQuery.java:120-128 | one `col = ?` predicate per id column |
| AutoUpdate.CheckedVersion | src/main/java/org/seasar/doma/jdbc/query/AutoUpdateQuery.java:131 | a version is checked exactly when it is not ignored and exists |
| AutoUpdate.IdClause | src/main/java/org/seasar/doma/jdbc/query/AutoUpdateQuery.java:118-130 | nothing iff there are no id columns |
| AutoUpdate.VersionClause | src/main/java/org/seasar/doma/jdbc/query/AutoUpdateQuery.java:131-143 | nothing iff the version is unchecked; otherwise led by ` and ` with ids and by ` where ` without, and ending in the placeholder |
| AutoUpdate.UpdateSqlText | src/main/java/org/seasar/doma/jdbc/query/AutoUpdateQuery.java:107-145 | the text starts with `update`, the table, ` set ` and the set clause; with neither ids nor a checked version that is all |
| AutoUpdate.UpdateSql | src/main/java/org/seasar/doma/jdbc/query/AutoUpdateQuery.java:107-145 | an update statement with the set-clause, id and version parameters in number |
| AutoUpdate.UpdateParameters | src/main/java/org/seasar/doma/jdbc/query/AutoUpdateQuery.java:107-145 | the set-clause parameters first, then the id values in id order, then the checked version's value last |
| AutoUpdate.IdClausePlaceholders | src/main/java/org/seasar/doma/jdbc/query/AutoUpdateQuery.java:118-130 | the where part has one placeholder per id column |
| AutoUpdate.VersionClausePlaceholders | src/main/java/org/seasar/doma/jdbc/query/AutoUpdateQuery.java:131-143 | the version part has one placeholder when the version is checked, none otherwise |
| AutoUpdate.UpdateSqlPlaceholdersMatchParameters | src/main/java/org/seasar/doma/jdbc/query/AutoUpdateQuery.java:107-145 | the update statement has exactly one placeholder per bound parameter |
| AutoUpdate.IdLoopCutBack | src/main/java/org/seasar/doma/jdbc/query/AutoUpdateQuery.java:127-129 | cutting back five characters removes exactly the trailing ` and ` |
| AutoUpdate.UpdateContext.constructor | src/main/java/org/seasar/doma/jdbc/query/AutoUpdateQuery.java:196-206 | the changed-property names are the names of the targets |
| AutoUpdate.UpdateContext.IsEntityChanged | src/main/java/org/seasar/doma/jdbc/query/AutoUpdateQuery.java:209-211 | the entity changed iff some property is a target |
| AutoUpdate.UpdateContext.IsPropertyChanged | src/main/java/org/seasar/doma/jdbc/query/AutoUpdateQuery.java:214-217 | an unknown property name is rejected; otherwise true iff a target has that name |
| AutoUpdate.AutoUpdateQuery.constructor | src/main/java/org/seasar/doma/jdbc/query/AutoUpdateQuery.java:54-57 | a fresh query: no flags, no helper, no targets, skip cause "state unchanged", no statement |
| AutoUpdate.AutoUpdateQuery.Prepare | src/main/java/org/seasar/doma/jdbc/query/AutoUpdateQuery.java:59-71 | the helper from the flags; the entity is the one the pre-update listener leaves for the old entity and its target names (kept when it sets none); id/version properties, lock flag and targets for that entity; a statement with text and parameters as prepareSql writes them |
| AutoUpdate.AutoUpdateQuery.PrepareState | src/main/java/org/seasar/doma/jdbc/query/AutoUpdateQuery.java:62-68 | the steps before the statement, composed: the helper, the entity the pre-update listener leaves for the old entity, then the id/version properties, lock flag and targets for it |
| AutoUpdate.AutoUpdateQuery.PrepareFlagsAndTargets | src/main/java/org/seasar/doma/jdbc/query/AutoUpdateQuery.java:64-68 | id/version properties, the optimistic-lock flag and the targets, composed |
| AutoUpdate.AutoUpdateQuery.SetupHelper | src/main/java/org/seasar/doma/jdbc/query/AutoUpdateQuery.java:73-78 | the helper is built from the query's current options |
| AutoUpdate.AutoUpdateQuery.PreUpdate | src/main/java/org/seasar/doma/jdbc/query/AutoUpdateQuery.java:80-89 | the listener sees the helper's targets; its entity replaces the current one when it set one |
| AutoUpdate.AutoUpdateQuery.PrepareIdAndVersionPropertyTypes | src/main/java/org/seasar/doma/jdbc/query/AutoUpdateQuery.java:64 | the entity description's id and version properties are taken |
| AutoUpdate.AutoUpdateQuery.PrepareOptimisticLock | src/main/java/org/seasar/doma/jdbc/query/AutoUpdateQuery.java:91-97 | the check is switched on exactly when the version is checked and exceptions are not suppressed, and never switched off |
| AutoUpdate.AutoUpdateQuery.PrepareTargetPropertyTypes | src/main/java/org/seasar/doma/jdbc/query/AutoUpdateQuery.java:99-105 | non-empty targets make the query executable and clear the skip cause; empty targets change neither |
| AutoUpdate.AutoUpdateQuery.PrepareSql | src/main/java/org/seasar/doma/jdbc/query/AutoUpdateQuery.java:107-145 | the statement is `update T set` + the helper's set clause + the id predicates + the version predicate, with parameters set values, id values, version value |
| AutoUpdate.AutoUpdateQuery.AppendVersionClause | src/main/java/org/seasar/doma/jdbc/query/AutoUpdateQuery.java:131-143 | the version predicate follows ` where ` without ids and ` and ` with ids, and binds the version last; nothing when unchecked |
| AutoUpdate.AutoUpdateQuery.AppendIdClause | src/main/java/org/seasar/doma/jdbc/query/AutoUpdateQuery.java:118-130 | ` where ` and the predicates joined by ` and `, with the id values in id order; nothing without ids |
| AutoUpdate.AutoUpdateQuery.AppendIdPredicates | src/main/java/org/seasar/doma/jdbc/query/AutoUpdateQuery.java:120-128 | before the cut-back: each predicate followed by ` and `, the id values bound in order |
| AutoUpdate.AutoUpdateQuery.AppendIdPredicate | src/main/java/org/seasar/doma/jdbc/query/AutoUpdateQuery.java:121-127 | one id's column, ` = `, its bound value and ` and ` |
| AutoUpdate.AutoUpdateQuery.IncrementVersion | src/main/java/org/seasar/doma/jdbc/query/AutoUpdateQuery.java:148-152 | the entity changes only when the version is checked |
| AutoUpdate.AutoUpdateQuery.Complete | src/main/java/org/seasar/doma/jdbc/query/AutoUpdateQuery.java:155-157 | the post-update step runs |
| AutoUpdate.AutoUpdateQuery.PostUpdate | src/main/java/org/seasar/doma/jdbc/query/AutoUpdateQuery.java:159-172 | the listener sees the targets plus the checked version; its entity is kept and its state saved |
| AutoUpdate.AutoUpdateQuery.SetNullExcluded | src/main/java/org/seasar/doma/jdbc/query/AutoUpdateQuery.java:174-176 | the option takes the given value |
| AutoUpdate.AutoUpdateQuery.SetVersionIgnored | src/main/java/org/seasar/doma/jdbc/query/AutoUpdateQuery.java:178-180 | sticky: once ignored, the version stays ignored |
| AutoUpdate.AutoUpdateQuery.SetOptimisticLockExceptionSuppressed | src/main/java/org/seasar/doma/jdbc/query/AutoUpdateQuery.java:182-185 | the option takes the given value |
| AutoUpdate.AutoUpdateQuery.SetUnchangedPropertyIncluded | src/main/java/org/seasar/doma/jdbc/query/AutoUpdateQuery.java:187-189 | the option takes the given value |
| IdentityIdGeneration.SupportsBatch | src/main/java/org/seasar/doma/jdbc/id/BuiltinIdentityIdGenerator.java:39-41 | batching iff the id provider is available |
| IdentityIdGeneration.IncludesIdentityColumn | src/main/java/org/seasar/doma/jdbc/id/BuiltinIdentityIdGenerator.java:44-49 | always with the provider, otherwise the dialect's flag |
| IdentityIdGeneration.SupportsAutoGeneratedKeys | src/main/java/org/seasar/doma/jdbc/id/BuiltinIdentityIdGenerator.java:52-57 | never with the provider, otherwise the dialect's flag |
| IdentityIdGeneration.GeneratePreInsert | src/main/java/org/seasar/doma/jdbc/id/BuiltinIdentityIdGenerator.java:60-66 | an id iff batching is supported, and then the provider's next id |
| IdentityIdGeneration.PostInsertSourceOf | src/main/java/org/seasar/doma/jdbc/id/BuiltinIdentityIdGenerator.java:71-77 | nothing is read with the provider; generated keys exactly when they are supported; identity select otherwise |
| IdentityIdGeneration.GeneratePostInsert | src/main/java/org/seasar/doma/jdbc/id/BuiltinIdentityIdGenerator.java:69-78 | no id iff the provider is available; otherwise the generated key or the identity-select result |
| IdentityIdGeneration.ExactlyOneStepYieldsId | src/main/java/org/seasar/doma/jdbc/id/BuiltinIdentityIdGenerator.java:60-78 | for every configuration exactly one of the two steps yields the id |
| IdentityIdGeneration.PreInsertIdIsWritten | src/main/java/org/seasar/doma/jdbc/id/BuiltinIdentityIdGenerator.java:44-66 | an id taken before the insert goes with an insert that includes the identity column |
| IdentityIdGeneration.AutoGeneratedKeysOnlyForPostInsert | src/main/java/org/seasar/doma/jdbc/id/BuiltinIdentityIdGenerator.java:52-78 | generated keys are requested only when the id is read back from them, never for batchable configurations |
| SelectQuery.ExpandColumns | src/main/java/org/seasar/doma/jdbc/query/SqlSelectQuery.java:113-122 | DOMA2144 with the directive's sql, line and position iff no entity type; otherwise one column per entity property, in order, quoted by the dialect without the configured naming |
| SelectQuery.ExpansionIndependentOfDirective | src/main/java/org/seasar/doma/jdbc/query/SqlSelectQuery.java:113-122 | success and the columns do not depend on which directive asks |
| SelectQuery.SqlSelectQuery.constructor | src/main/java/org/seasar/doma/jdbc/query/SqlSelectQuery.java:52-80 | a fresh query: nothing set, no parameters, zero fetch size, max rows and timeout, holding the options object `SelectOptions.get()` yields |
| SelectQuery.SqlSelectQuery.Prepare | src/main/java/org/seasar/doma/jdbc/query/SqlSelectQuery.java:83-88 | requires configuration, template and both caller names; defaults the options; a built statement or the expansion error, which leaves no statement |
| SelectQuery.SqlSelectQuery.PrepareOptions | src/main/java/org/seasar/doma/jdbc/query/SqlSelectQuery.java:90-100 | each of fetch size, max rows and timeout is defaulted independently |
| SelectQuery.SqlSelectQuery.PrepareSql | src/main/java/org/seasar/doma/jdbc/query/SqlSelectQuery.java:102-111 | the statement is what the template build yields with the column expansion, or its error |
| SelectQuery.SqlSelectQuery.Complete | src/main/java/org/seasar/doma/jdbc/query/SqlSelectQuery.java:161-184 | nothing unless a count is requested; then the count size of the options object itself, which the caller shares, becomes the count |
| SelectQuery.SqlSelectQuery.AddParameter | src/main/java/org/seasar/doma/jdbc/query/SqlSelectQuery.java:218-221 | the name is bound to the value, replacing an earlier binding |
| SelectQuery.SqlSelectQuery.ToString | src/main/java/org/seasar/doma/jdbc/query/SqlSelectQuery.java:267-270 | none iff no statement, otherwise the statement's text |
| FileModifyQuery.SqlFileModifyQuery.constructor | doma/src/main/java/org/seasar/doma/internal/jdbc/query/SqlFileModifyQuery.java:54-57 | the kind is fixed at construction (a `const`), nothing else set |
| FileModifyQuery.SqlFileModifyQuery.PrepareOptions | doma/src/main/java/org/seasar/doma/internal/jdbc/query/SqlFileModifyQuery.java:59-63 | the timeout is defaulted |
| FileModifyQuery.SqlFileModifyQuery.Complete | doma/src/main/java/org/seasar/doma/internal/jdbc/query/SqlFileModifyQuery.java:75-77 | no state changes |
| FileModifyQuery.SqlFileModifyQuery.AddParameter | doma/src/main/java/org/seasar/doma/internal/jdbc/query/SqlFileModifyQuery.java:87-90 | the name is bound to the value, replacing an earlier binding |
| FileModifyQuery.SqlFileModifyQuery.IsOptimisticLockCheckRequired | doma/src/main/java/org/seasar/doma/internal/jdbc/query/SqlFileModifyQuery.java:124-127 | always false |
| FileModifyQuery.SqlFileModifyQuery.IsExecutable | doma/src/main/java/org/seasar/doma/internal/jdbc/query/SqlFileModifyQuery.java:129-132 | always true |
| FileModifyQuery.SqlFileModifyQuery.ExecutionSkipCause | doma/src/main/java/org/seasar/doma/internal/jdbc/query/SqlFileModifyQuery.java:134-137 | always none |
| FileModifyQuery.SqlFileModifyQuery.IsAutoGeneratedKeysSupported | doma/src/main/java/org/seasar/doma/internal/jdbc/query/SqlFileModifyQuery.java:143-146 | always false |
| FileModifyQuery.SqlFileModifyQuery.ToString | doma/src/main/java/org/seasar/doma/internal/jdbc/query/SqlFileModifyQuery.java:148-151 | none iff no statement, otherwise the statement's text |
| TypeModel.DeclaredTypeFromHierarchy | src/main/java/org/seasar/doma/internal/apt/cttype/CtTypes.java:510-524 | a found type is of the class and no larger than the searched type |
| TypeModel.DeclaredTypeFromSupertypes | src/main/java/org/seasar/doma/internal/apt/cttype/CtTypes.java:514-523 | a found type is of the class and smaller than the supertypes searched |
| TypeModel.HierarchyLookupIsPreorderFirst | src/main/java/org/seasar/doma/internal/apt/cttype/CtTypes.java:510-524 | the lookup is the first type of the class in depth-first preorder of the hierarchy |
| TypeModel.SupertypesLookupIsPreorderFirst | src/main/java/org/seasar/doma/internal/apt/cttype/CtTypes.java:514-523 | the supertype loop is the first match in the preorder of the supertypes in order |
| TypeModel.HierarchyLookupFindsAssignable | src/main/java/org/seasar/doma/internal/apt/cttype/CtTypes.java:510-524 | the lookup finds a type iff the type is assignable to the class |
| TypeModel.SupertypesLookupFindsAssignable | src/main/java/org/seasar/doma/internal/apt/cttype/CtTypes.java:514-523 | the loop finds a type iff some supertype is assignable to the class |
| AbstractCtTypes.AnyOfKind | src/main/java/org/seasar/doma/internal/apt/cttype/AbstractCtType.java:89 | true iff some type argument has the kind |
| AbstractCtTypes.MatchTypeArguments | src/main/java/org/seasar/doma/internal/apt/cttype/AbstractCtType.java:85-90 | false without a declared type, otherwise iff some argument has the kind |
| AbstractCtTypes.IsRawType | src/main/java/org/seasar/doma/internal/apt/cttype/AbstractCtType.java:72-83 | illegal state iff a generic element's type is not declared; otherwise raw iff generic element and no arguments |
| AbstractCtTypes.Derive | src/main/java/org/seasar/doma/internal/apt/cttype/AbstractCtType.java:50-70 | type name, element, qualified name (the type name without an element) and the three flags, or the illegal state |
| AbstractCtTypes.RawTypeHasNoArgumentFlags | src/main/java/org/seasar/doma/internal/apt/cttype/AbstractCtType.java:61-64 | a raw type has neither the wildcard nor the type-variable flag |
| AbstractCtTypes.DeriveFailsOnlyOnUnresolvedGenerics | src/main/java/org/seasar/doma/internal/apt/cttype/AbstractCtType.java:72-77 | every resolved type is described without error |
| CtTypes.PrimitiveWrapper | src/main/java/org/seasar/doma/internal/apt/cttype/CtTypes.java:633-653 | every primitive but `char` has a wrapper |
| CtTypes.WrapperClassOf | src/main/java/org/seasar/doma/internal/apt/cttype/CtTypes.java:534-654 | primitives by kind, arrays iff `byte[]` (to the bytes wrapper), declared types by the ordered tests, anything else none |
| CtTypes.FirstAssignableIsEarliest | src/main/java/org/seasar/doma/internal/apt/cttype/CtTypes.java:587-629 | the first assignable entry in list order decides |
| CtTypes.FirstAssignableNone | src/main/java/org/seasar/doma/internal/apt/cttype/CtTypes.java:587-629 | no wrapper iff no entry is assignable |
| CtTypes.DeclaredWrapper | src/main/java/org/seasar/doma/internal/apt/cttype/CtTypes.java:551-631 | an enum maps to the enum wrapper; no wrapper only when the type is no enum, has no listed name and is assignable to no listed class |
| CtTypes.NamedWrapper | src/main/java/org/seasar/doma/internal/apt/cttype/CtTypes.java:559-586 | a wrapper found is the one listed beside that exact name; none only when no listed name matches |
| CtTypes.AssignableWrapper | src/main/java/org/seasar/doma/internal/apt/cttype/CtTypes.java:587-629 | none only when the type is assignable to no listed class |
| CtTypes.NamedWrapperIsTableLookup | src/main/java/org/seasar/doma/internal/apt/cttype/CtTypes.java:559-586 | the name tests are a first-match lookup in the name table |
| CtTypes.LaterNamedIsTableLookup | src/main/java/org/seasar/doma/internal/apt/cttype/CtTypes.java:568-586 | the second half of the name table, consulted in order |
| CtTypes.AssignableWrapperIsTableLookup | src/main/java/org/seasar/doma/internal/apt/cttype/CtTypes.java:587-629 | the assignability tests are a first-match lookup in the class table |
| CtTypes.LaterAssignableIsTableLookup | src/main/java/org/seasar/doma/internal/apt/cttype/CtTypes.java:608-629 | the second half of the class table, consulted in order |
| CtTypes.DeclaredWrapperIsTableLookup | src/main/java/org/seasar/doma/internal/apt/cttype/CtTypes.java:551-631 | enum first, then the first exact name, then the first assignable class |
| CtTypes.TimeBeforeUtilDate | src/main/java/org/seasar/doma/internal/apt/cttype/CtTypes.java:593-604 | a `Time` maps to the time wrapper though it is a `java.util.Date`, when no enum, name or earlier class test matched |
| CtTypes.TimestampBeforeUtilDate | src/main/java/org/seasar/doma/internal/apt/cttype/CtTypes.java:596-604 | a `Timestamp` maps to the timestamp wrapper though it is a `java.util.Date`, when no enum, name or earlier class test matched |
| CtTypes.SqlDateBeforeUtilDate | src/main/java/org/seasar/doma/internal/apt/cttype/CtTypes.java:599-604 | a `java.sql.Date` maps to the date wrapper though it is a `java.util.Date`, when no enum, name or earlier class test matched |
| CtTypes.NClobBeforeClob | src/main/java/org/seasar/doma/internal/apt/cttype/CtTypes.java:620-625 | an `NClob` maps to the NClob wrapper though it is a `Clob`, when no enum, name or earlier class test matched |
| CtTypes.EnumFirst | src/main/java/org/seasar/doma/internal/apt/cttype/CtTypes.java:556-558 | any enum maps to the enum wrapper, whatever its name or supertypes |
| CtTypes.UnmatchedDeclaredHasNoWrapper | src/main/java/org/seasar/doma/internal/apt/cttype/CtTypes.java:551-631 | no wrapper iff no enum, no listed name and no listed class |
| CtTypes.Construct | src/main/java/org/seasar/doma/internal/apt/cttype/AbstractCtType.java:50-70 | constructing any description succeeds exactly when the derivation does |
| CtTypes.NewAnyCtType | src/main/java/org/seasar/doma/internal/apt/cttype/CtTypes.java:109-112 | the fallback description of the type, when its derivation succeeds |
| CtTypes.NewBasicCtType | src/main/java/org/seasar/doma/internal/apt/cttype/CtTypes.java:114-131 | none iff no wrapper class or no wrapper element; otherwise the wrapper type, applied to the type for enums |
| CtTypes.NewConfigCtType | src/main/java/org/seasar/doma/internal/apt/cttype/CtTypes.java:180-186 | a description iff the type is `Config` |
| CtTypes.NewPreparedSqlCtType | src/main/java/org/seasar/doma/internal/apt/cttype/CtTypes.java:456-462 | a description iff the type is `PreparedSql` |
| CtTypes.NewSelectOptionsCtType | src/main/java/org/seasar/doma/internal/apt/cttype/CtTypes.java:481-487 | a description iff the type is assignable to `SelectOptions` |
| CtTypes.NewEmbeddableCtType | src/main/java/org/seasar/doma/internal/apt/cttype/CtTypes.java:188-200 | none iff no element or not `@Embeddable`; otherwise its description |
| CtTypes.NewEntityCtType | src/main/java/org/seasar/doma/internal/apt/cttype/CtTypes.java:202-213 | none iff no element or not `@Entity`; otherwise the description with its `immutable` value |
| CtTypes.NewMapCtType | src/main/java/org/seasar/doma/internal/apt/cttype/CtTypes.java:372-392 | a description iff `Map` with exactly the two arguments `String`, `Object` |
| CtTypes.NewOptionalIntCtType | src/main/java/org/seasar/doma/internal/apt/cttype/CtTypes.java:428-440 | a description iff `OptionalInt`, whose element is the basic description of `int` |
| CtTypes.NewOptionalLongCtType | src/main/java/org/seasar/doma/internal/apt/cttype/CtTypes.java:442-454 | a description iff `OptionalLong`, whose element is the basic description of `long` |
| CtTypes.NewOptionalDoubleCtType | src/main/java/org/seasar/doma/internal/apt/cttype/CtTypes.java:414-426 | a description iff `OptionalDouble`, whose element is the basic description of `double` |
| CtTypes.ConverterArgTypes | src/main/java/org/seasar/doma/internal/apt/cttype/CtTypes.java:318-336 | only the assertion can fail; a converter with no supertype assignable to `HolderConverter` has no arguments |
| CtTypes.SupertypesConverterArgTypes | src/main/java/org/seasar/doma/internal/apt/cttype/CtTypes.java:319-335 | the supertype loop: only the assertion can fail; nothing without an assignable supertype |
| CtTypes.ConverterArgTypesIsHierarchyLookup | src/main/java/org/seasar/doma/internal/apt/cttype/CtTypes.java:318-336 | the result is the two arguments of the first `HolderConverter` found depth-first (preorder) among the supertypes, the assertion failure when that one has not exactly two, and nothing when there is none |
| CtTypes.SupertypesConverterArgTypesIsHierarchyLookup | src/main/java/org/seasar/doma/internal/apt/cttype/CtTypes.java:319-335 | the supertype loop yields the arguments of the `HolderConverter` that the hierarchy lookup over those supertypes finds first |
| CtTypes.FirstConverterFor | src/main/java/org/seasar/doma/internal/apt/cttype/CtTypes.java:287-299 | only the assertion can fail |
| CtTypes.FirstConverterForStep | src/main/java/org/seasar/doma/internal/apt/cttype/CtTypes.java:287-299 | one turn: a converter that names no class, is no converter or converts another type is passed over; any other decides, with its value type or its assertion failure |
| CtTypes.FirstConverterForNone | src/main/java/org/seasar/doma/internal/apt/cttype/CtTypes.java:287-299 | nothing iff every converter is passed over |
| CtTypes.FirstConverterForIsFirstMatch | src/main/java/org/seasar/doma/internal/apt/cttype/CtTypes.java:287-299 | otherwise the first converter not passed over decides: every earlier one is passed over, and a value type found is that converter's, whose holder argument is the holder type |
| CtTypes.ProviderEntryInfo | src/main/java/org/seasar/doma/internal/apt/cttype/CtTypes.java:274-300 | an entry's holder information is external |
| CtTypes.ProviderEntryErrors | src/main/java/org/seasar/doma/internal/apt/cttype/CtTypes.java:274-286 | a blank trimmed entry yields nothing; DOMA4200 with the trimmed name iff it is non-blank and does not resolve; DOMA4201 iff it resolves to a class that is no provider |
| CtTypes.ProviderEntryOfProvider | src/main/java/org/seasar/doma/internal/apt/cttype/CtTypes.java:287-299 | an entry naming a provider yields what its converter loop yields, as external holder information |
| CtTypes.ProvidersHolderInfo | src/main/java/org/seasar/doma/internal/apt/cttype/CtTypes.java:273-301 | results are external; errors are DOMA4200, DOMA4201 or the assertion; DOMA4200 only for an unresolved name; DOMA4201 only for a resolved class that is no provider |
| CtTypes.FirstDecidedNone | src/main/java/org/seasar/doma/internal/apt/cttype/CtTypes.java:273-301 | the search over outcomes yields nothing iff every outcome is nothing |
| CtTypes.FirstDecidedIsFirst | src/main/java/org/seasar/doma/internal/apt/cttype/CtTypes.java:273-301 | otherwise it yields the first outcome that is not nothing |
| CtTypes.FirstDecidedAfterNothing | src/main/java/org/seasar/doma/internal/apt/cttype/CtTypes.java:273-301 | outcomes that are all nothing in front change nothing |
| CtTypes.ProvidersHolderInfoIsFirstDecided | src/main/java/org/seasar/doma/internal/apt/cttype/CtTypes.java:273-301 | the provider loop is the search over the entries' outcomes |
| CtTypes.ProvidersHolderInfoIsFirstEntry | src/main/java/org/seasar/doma/internal/apt/cttype/CtTypes.java:273-301 | nothing iff every entry yields nothing; otherwise the first entry that yields something or fails decides |
| CtTypes.SkippedEntriesChangeNothing | src/main/java/org/seasar/doma/internal/apt/cttype/CtTypes.java:273-301 | entries that yield nothing in front change nothing |
| CtTypes.BlankEntriesSkipped | src/main/java/org/seasar/doma/internal/apt/cttype/CtTypes.java:273-277 | blank entries of the option change nothing |
| CtTypes.DecidingEntry | src/main/java/org/seasar/doma/internal/apt/cttype/CtTypes.java:273-301 | after entries that yield nothing, an entry that yields something or fails is the result |
| CtTypes.UnresolvedEntryIsDoma4200 | src/main/java/org/seasar/doma/internal/apt/cttype/CtTypes.java:278-281 | an unresolved non-blank entry reached after entries that yield nothing is DOMA4200 with its trimmed name |
| CtTypes.NonProviderEntryIsDoma4201 | src/main/java/org/seasar/doma/internal/apt/cttype/CtTypes.java:282-286 | a resolved class that is no provider, reached after entries that yield nothing, is DOMA4201 with its trimmed name |
| CtTypes.ExternalHolderInfo | src/main/java/org/seasar/doma/internal/apt/cttype/CtTypes.java:267-303 | nothing without the option; otherwise the provider search over the comma-separated entries of the option, with the class's `asType()` as holder type; any result is external |
| CtTypes.HolderInfoOf | src/main/java/org/seasar/doma/internal/apt/cttype/CtTypes.java:259-265 | an annotated holder first (not external), otherwise the external converters |
| CtTypes.NewHolderCtType | src/main/java/org/seasar/doma/internal/apt/cttype/CtTypes.java:236-257 | none without an element; the holder-information error propagates; none without information or when the value type has no basic description; otherwise the holder description of the type with the basic description of the value type, external as the information says |
| CtTypes.ToCtType | src/main/java/org/seasar/doma/internal/apt/cttype/CtTypes.java:526-532 | never none: any result describes the given type |
| CtTypes.Apply | src/main/java/org/seasar/doma/internal/apt/cttype/CtTypes.java:526-532 | any description a factory yields describes the given type |
| CtTypes.NewOptionalCtType | src/main/java/org/seasar/doma/internal/apt/cttype/CtTypes.java:394-412 | a description iff `Optional`; the element is classified iff there is a type argument |
| CtTypes.NewStreamCtType | src/main/java/org/seasar/doma/internal/apt/cttype/CtTypes.java:489-508 | a description iff `Stream`; the element is classified iff there is a type argument |
| CtTypes.NewBiFunctionCtType | src/main/java/org/seasar/doma/internal/apt/cttype/CtTypes.java:133-154 | a description iff a `BiFunction` is in the hierarchy; parts classified iff it has exactly three arguments |
| CtTypes.NewCollectorCtType | src/main/java/org/seasar/doma/internal/apt/cttype/CtTypes.java:156-178 | a description iff a `Collector` is in the hierarchy; target and result classified iff exactly three arguments |
| CtTypes.NewFunctionCtType | src/main/java/org/seasar/doma/internal/apt/cttype/CtTypes.java:215-234 | a description iff a `Function` is in the hierarchy; target and result classified iff exactly two arguments |
| CtTypes.NewReferenceCtType | src/main/java/org/seasar/doma/internal/apt/cttype/CtTypes.java:464-479 | a description iff a `Reference` is in the hierarchy; the referent classified iff exactly one argument |
| CtTypes.ToCtTypeFirstMatch | src/main/java/org/seasar/doma/internal/apt/cttype/CtTypes.java:526-532 | the first factory that yields a description decides |
| CtTypes.ToCtTypeFallsBackToAny | src/main/java/org/seasar/doma/internal/apt/cttype/CtTypes.java:526-532 | when every factory declines the result is `AnyCtType` |
| CtTypes.EntityElementIsEntity | src/main/java/org/seasar/doma/internal/apt/cttype/CtTypes.java:163-167 | an entity class as a collector or stream element is described as an entity |
| CtTypes.CharElementIsAny | src/main/java/org/seasar/doma/internal/apt/cttype/CtTypes.java:649-650 | a `char` element has no wrapper and is described as `AnyCtType` |
| EntityMeta.EntityPropertyMeta.constructor | src/main/java/org/seasar/doma/internal/apt/meta/entity/EntityPropertyMeta.java:44-49 | name, type and prefix fixed; neither id nor version |
| EntityMeta.EntityPropertyMeta.FieldName | src/main/java/org/seasar/doma/internal/apt/meta/entity/EntityPropertyMeta.java:51-53 | the prefix followed by the property name |
| EntityMeta.EntityPropertyMeta.SetId | src/main/java/org/seasar/doma/internal/apt/meta/entity/EntityPropertyMeta.java:59-61 | the id flag takes the value; the version flag is unchanged |
| EntityMeta.EntityPropertyMeta.SetVersion | src/main/java/org/seasar/doma/internal/apt/meta/entity/EntityPropertyMeta.java:67-69 | the version flag takes the value; the id flag is unchanged |
| EntityMeta.EntityPropertyMeta.IsEmbedded | src/main/java/org/seasar/doma/internal/apt/meta/entity/EntityPropertyMeta.java:79-87 | true iff the type description is embeddable |
| EntityMeta.EntityPropertyMeta.EmbeddableDescClassName | src/main/java/org/seasar/doma/internal/apt/meta/entity/EntityPropertyMeta.java:89-103 | the description class iff embeddable; otherwise the illegal state "getEmbeddableDescClassName" |
| EntityMeta.FieldNameStripsToName | src/main/java/org/seasar/doma/internal/apt/meta/entity/EntityPropertyMeta.java:51-53 | with the same prefix, equal field names mean equal property names |
| EntityMeta.EmbeddableFactoryMakesEmbeddedProperty | src/main/java/org/seasar/doma/internal/apt/meta/entity/EntityPropertyMeta.java:79-103 | a property typed by the embeddable factory is embedded, with the class's description name |
| EntityMeta.BasicPropertyIsNotEmbedded | src/main/java/org/seasar/doma/internal/apt/meta/entity/EntityPropertyMeta.java:79-103 | a property of basic type is not embedded, and asking for its description class is the illegal state |

## Left out

- The base classes `AbstractBatchInsertQuery`, `AutoModifyQuery`, `AbstractSelectQuery` and the entity description, property and builder classes are not part of this model. `super.prepare()`, `prepareOptions` of the auto queries, `validateIdExistent` and the comment callback are not modelled.
- The initial field values those base classes give are assumed: batch skip cause "batch target nonexistent", update skip cause "state unchanged", and auto-generated keys off. `prepareIdAndVersionPropertyTypes` of the base class is assumed to read the description's id and version properties.
- `validatePropertyDefined` of the listener contexts is assumed to reject a name that is not one of the entity's properties.
- The pre- and post-update contexts share one class. They hold the same data, and only the pre-update one offers `isEntityChanged`.
- Listener callbacks, naming and quoting, `UpdateQueryHelper`, `Property.load`, version increment and initial setting, and id generation are collaborators given as functions: their own behaviour is not modelled.
- `GeneratedIdPropertyDesc.validateGenerationStrategy` is a given function of the generated-id description that returns the exception it throws, if any. Which strategies a dialect supports is not part of this model.
- The template engine (`NodePreparedSqlBuilder`, `ExpressionEvaluator`, the dialect's select transformation) is one given function. `SqlFileModifyQuery.prepareSql` is left out: it loads an SQL file (I/O) and then runs that engine.
- JDBC execution is left out: the count query of `SqlSelectQuery.complete`, `Statement.getGeneratedKeys` and the identity-select round trip. Their results are parameters.
- The select options object holds only the count flag and the count size. Paging and locking options are read only by the dialect's select transformation, which is a given function and sees a snapshot of the options.
- The formatted (logging) SQL text the builder also keeps is not modelled, and neither is the SQL log type.
- Plain getters and setters without logic are not modelled. This covers, for example, `setConfig`, `getFetchSize`, `setIdGeneratorMeta`, `getMethod`, and the select query's result-ensured and fetch-type options.
- Java null checks (`assertNotNull`) on arguments have no counterpart: every value here is non-null by type, and absence is an `Option`.
- Java `int` and `long` widths are not modelled: sizes, timeouts and counts are unbounded integers.
- `CtTypes.ToCtType`: `newIterableCtType` is left out, because it relies on `Types.getSupertype`, whose behaviour is not part of this model. `IterableCtType` is therefore not among the descriptions.
- `CtTypes.FirstConverterFor`: `reloadTypeMirror` is an incremental-compile workaround. It is modelled only as "a converter that names no class is skipped"; the reload by binary name is taken to yield the same type.
- `TypeModel.TypeName`: the type name is a javac-like rendering (arguments in angle brackets, separated by commas). The exact `toString` of the compiler is not modelled.
- `TypeModel.IsSameClass` and `TypeModel.IsAssignable`: tests against a `Class` constant compare qualified names (erasure) and reachability through the supertype tree. Other Java subtyping rules (boxing, arrays) are not modelled.
- The `CtTypes` constructor and the description classes' own code (`getDescClassName`, code-spec factories) are not part of this model. The embeddable description class name is given per class in the processor context.
- `BatchInsert.InsertSqlText`: a batch with no target property is modelled as written. The two cut-backs then remove ` (` and the value list's ` (`, giving `insert into T) values)`.
