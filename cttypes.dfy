/**
 * `CtTypes`: the annotation processor's classification of Java types into compile-time
 * type descriptions. Each factory either recognises the type (a description) or
 * declines (none); `toCtType` tries factories in order and falls back to `AnyCtType`.
 * Basic types are recognised through the ordered wrapper-class mapping.
 */
module CtTypes {
  import opened Wrappers
  import opened Text
  import opened TypeModel
  import opened AbstractCtTypes

  /** The value wrappers of the runtime library, in the order the mapper knows them. */
  datatype WrapperClass =
    | BytesWrapper | EnumWrapper
    | StringWrapper | BooleanWrapper | ByteWrapper | ShortWrapper | IntegerWrapper | LongWrapper
    | FloatWrapper | DoubleWrapper | ObjectWrapper
    | BigDecimalWrapper | BigIntegerWrapper | TimeWrapper | TimestampWrapper | DateWrapper | UtilDateWrapper
    | LocalTimeWrapper | LocalDateTimeWrapper | LocalDateWrapper | ArrayWrapper | BlobWrapper
    | NClobWrapper | ClobWrapper | SQLXMLWrapper

  function WrapperClassName(w: WrapperClass): string
  {
    "org.seasar.doma.wrapper." +
    match w
    case BytesWrapper => "BytesWrapper"
    case EnumWrapper => "EnumWrapper"
    case StringWrapper => "StringWrapper"
    case BooleanWrapper => "BooleanWrapper"
    case ByteWrapper => "ByteWrapper"
    case ShortWrapper => "ShortWrapper"
    case IntegerWrapper => "IntegerWrapper"
    case LongWrapper => "LongWrapper"
    case FloatWrapper => "FloatWrapper"
    case DoubleWrapper => "DoubleWrapper"
    case ObjectWrapper => "ObjectWrapper"
    case BigDecimalWrapper => "BigDecimalWrapper"
    case BigIntegerWrapper => "BigIntegerWrapper"
    case TimeWrapper => "TimeWrapper"
    case TimestampWrapper => "TimestampWrapper"
    case DateWrapper => "DateWrapper"
    case UtilDateWrapper => "UtilDateWrapper"
    case LocalTimeWrapper => "LocalTimeWrapper"
    case LocalDateTimeWrapper => "LocalDateTimeWrapper"
    case LocalDateWrapper => "LocalDateWrapper"
    case ArrayWrapper => "ArrayWrapper"
    case BlobWrapper => "BlobWrapper"
    case NClobWrapper => "NClobWrapper"
    case ClobWrapper => "ClobWrapper"
    case SQLXMLWrapper => "SQLXMLWrapper"
  }

  /** `visitPrimitive`: each primitive but `char` has a wrapper. */
  function PrimitiveWrapper(k: PrimitiveKind): (r: Option<WrapperClass>)
    ensures r.None? <==> k == Char
  {
    match k
    case Boolean => Some(BooleanWrapper)
    case Byte => Some(ByteWrapper)
    case Short => Some(ShortWrapper)
    case Int => Some(IntegerWrapper)
    case Long => Some(LongWrapper)
    case Float => Some(FloatWrapper)
    case Double => Some(DoubleWrapper)
    case Char => None
  }

  /**
   * `visitDeclared`: enums first, then the exact class names, then the assignability
   * tests in an order where every subtype comes before its supertype.
   */
  function DeclaredWrapper(t: TypeMirror): (r: Option<WrapperClass>)
    requires t.Declared?
    ensures t.element.kind == EnumElement ==> r == Some(EnumWrapper)
    ensures r.None? ==> && t.element.kind != EnumElement
                        && (forall k :: 0 <= k < |NamedWrappers| ==> NamedWrappers[k].0 != t.element.qualifiedName)
                        && (forall k :: 0 <= k < |AssignableWrappers| ==> !IsAssignable(t, AssignableWrappers[k].0))
  {
    if t.element.kind == EnumElement then Some(EnumWrapper)
    else
      var named := NamedWrapper(t.element.qualifiedName);
      if named.Some? then named else AssignableWrapper(t)
  }

  /** The exact class-name tests of `visitDeclared`. */
  function NamedWrapper(name: string): (r: Option<WrapperClass>)
    ensures r.Some? ==> (name, r.value) in NamedWrappers
    ensures r.None? ==> forall k :: 0 <= k < |NamedWrappers| ==> NamedWrappers[k].0 != name
  {
    if name == "java.lang.String" then Some(StringWrapper)
    else if name == "java.lang.Boolean" then Some(BooleanWrapper)
    else if name == "java.lang.Byte" then Some(ByteWrapper)
    else if name == "java.lang.Short" then Some(ShortWrapper)
    else if name == "java.lang.Integer" then Some(IntegerWrapper)
    else if name == "java.lang.Long" then Some(LongWrapper)
    else if name == "java.lang.Float" then Some(FloatWrapper)
    else if name == "java.lang.Double" then Some(DoubleWrapper)
    else if name == "java.lang.Object" then Some(ObjectWrapper)
    else None
  }

  /** The assignability tests of `visitDeclared`, in the source's order. */
  function AssignableWrapper(t: TypeMirror): (r: Option<WrapperClass>)
    ensures r.None? ==> forall k :: 0 <= k < |AssignableWrappers| ==> !IsAssignable(t, AssignableWrappers[k].0)
  {
    if IsAssignable(t, "java.math.BigDecimal") then Some(BigDecimalWrapper)
    else if IsAssignable(t, "java.math.BigInteger") then Some(BigIntegerWrapper)
    else if IsAssignable(t, "java.sql.Time") then Some(TimeWrapper)
    else if IsAssignable(t, "java.sql.Timestamp") then Some(TimestampWrapper)
    else if IsAssignable(t, "java.sql.Date") then Some(DateWrapper)
    else if IsAssignable(t, "java.util.Date") then Some(UtilDateWrapper)
    else if IsAssignable(t, "java.time.LocalTime") then Some(LocalTimeWrapper)
    else if IsAssignable(t, "java.time.LocalDateTime") then Some(LocalDateTimeWrapper)
    else if IsAssignable(t, "java.time.LocalDate") then Some(LocalDateWrapper)
    else if IsAssignable(t, "java.sql.Array") then Some(ArrayWrapper)
    else if IsAssignable(t, "java.sql.Blob") then Some(BlobWrapper)
    else if IsAssignable(t, "java.sql.NClob") then Some(NClobWrapper)
    else if IsAssignable(t, "java.sql.Clob") then Some(ClobWrapper)
    else if IsAssignable(t, "java.sql.SQLXML") then Some(SQLXMLWrapper)
    else None
  }

  /** `WrapperClassMapper`: the wrapper class of a type, if it has one. */
  function WrapperClassOf(t: TypeMirror): (r: Option<WrapperClass>)
    ensures t.Primitive? ==> r == PrimitiveWrapper(t.primitiveKind)
    ensures t.ArrayType? ==> (r.Some? <==> t.componentType == Primitive(Byte))
    ensures t.ArrayType? && r.Some? ==> r.value == BytesWrapper
    ensures t.Declared? ==> r == DeclaredWrapper(t)
    ensures !t.Primitive? && !t.ArrayType? && !t.Declared? ==> r.None?
  {
    match t
    case Primitive(k) => PrimitiveWrapper(k)
    case ArrayType(c) => if KindOf(c) == PrimitiveTypeKind(Byte) then Some(BytesWrapper) else None
    case Declared(_, _, _) => DeclaredWrapper(t)
    case _ => None
  }

  /** The exact-name entries, in test order: a reference for the mapper's name tests. */
  const NamedWrappers: seq<(string, WrapperClass)> := [
    ("java.lang.String", StringWrapper), ("java.lang.Boolean", BooleanWrapper),
    ("java.lang.Byte", ByteWrapper), ("java.lang.Short", ShortWrapper),
    ("java.lang.Integer", IntegerWrapper), ("java.lang.Long", LongWrapper),
    ("java.lang.Float", FloatWrapper), ("java.lang.Double", DoubleWrapper),
    ("java.lang.Object", ObjectWrapper)]

  /** The assignability entries, in test order: a reference for the mapper's assignability tests. */
  const AssignableWrappers: seq<(string, WrapperClass)> := [
    ("java.math.BigDecimal", BigDecimalWrapper), ("java.math.BigInteger", BigIntegerWrapper),
    ("java.sql.Time", TimeWrapper), ("java.sql.Timestamp", TimestampWrapper),
    ("java.sql.Date", DateWrapper), ("java.util.Date", UtilDateWrapper),
    ("java.time.LocalTime", LocalTimeWrapper), ("java.time.LocalDateTime", LocalDateTimeWrapper),
    ("java.time.LocalDate", LocalDateWrapper), ("java.sql.Array", ArrayWrapper),
    ("java.sql.Blob", BlobWrapper), ("java.sql.NClob", NClobWrapper),
    ("java.sql.Clob", ClobWrapper), ("java.sql.SQLXML", SQLXMLWrapper)]

  /** The wrapper of the first entry whose class name is `name`. */
  function FirstNamed(name: string, table: seq<(string, WrapperClass)>): Option<WrapperClass>
  {
    if table == [] then None
    else if table[0].0 == name then Some(table[0].1)
    else FirstNamed(name, table[1..])
  }

  /** The wrapper of the first entry whose class `t` is assignable to. */
  function FirstAssignable(t: TypeMirror, table: seq<(string, WrapperClass)>): Option<WrapperClass>
  {
    if table == [] then None
    else if IsAssignable(t, table[0].0) then Some(table[0].1)
    else FirstAssignable(t, table[1..])
  }

  /** The first matching entry wins: its wrapper is the result, and no earlier entry matches. */
  lemma {:induction false} FirstAssignableIsEarliest(t: TypeMirror, table: seq<(string, WrapperClass)>, i: nat)
    requires i < |table| && IsAssignable(t, table[i].0)
    requires forall j :: 0 <= j < i ==> !IsAssignable(t, table[j].0)
    ensures FirstAssignable(t, table) == Some(table[i].1)
  {
    if i > 0 {
      assert !IsAssignable(t, table[0].0);
      forall j | 0 <= j < i - 1
        ensures !IsAssignable(t, table[1..][j].0)
      {
        assert table[1..][j] == table[j + 1];
      }
      FirstAssignableIsEarliest(t, table[1..], i - 1);
    }
  }

  lemma {:induction false} FirstAssignableNone(t: TypeMirror, table: seq<(string, WrapperClass)>)
    ensures FirstAssignable(t, table).None? <==> forall j :: 0 <= j < |table| ==> !IsAssignable(t, table[j].0)
  {
    if table != [] {
      FirstAssignableNone(t, table[1..]);
      assert forall j :: 0 < j < |table| ==> table[j] == table[1..][j - 1];
    }
  }

  /** One step of the name lookup, from entry `k` on. */
  lemma FirstNamedStep(name: string, table: seq<(string, WrapperClass)>, k: nat)
    requires k < |table|
    ensures FirstNamed(name, table[k..]) == if table[k].0 == name then Some(table[k].1) else FirstNamed(name, table[k + 1..])
  {
    assert table[k..][1..] == table[k + 1..];
  }

  /** One step of the assignability lookup, from entry `k` on. */
  lemma FirstAssignableStep(t: TypeMirror, table: seq<(string, WrapperClass)>, k: nat)
    requires k < |table|
    ensures FirstAssignable(t, table[k..]) == if IsAssignable(t, table[k].0) then Some(table[k].1) else FirstAssignable(t, table[k + 1..])
  {
    assert table[k..][1..] == table[k + 1..];
  }

  /** The name tests are the lookup of the first entry of that name. */
  lemma NamedWrapperIsTableLookup(name: string)
    ensures NamedWrapper(name) == FirstNamed(name, NamedWrappers)
  {
    assert NamedWrappers[0..] == NamedWrappers;
    FirstNamedStep(name, NamedWrappers, 0);
    FirstNamedStep(name, NamedWrappers, 1);
    FirstNamedStep(name, NamedWrappers, 2);
    FirstNamedStep(name, NamedWrappers, 3);
    LaterNamedIsTableLookup(name);
  }

  /** The second half of the name tests, from `Integer` on. */
  lemma LaterNamedIsTableLookup(name: string)
    ensures FirstNamed(name, NamedWrappers[4..])
            == if name == "java.lang.Integer" then Some(IntegerWrapper)
               else if name == "java.lang.Long" then Some(LongWrapper)
               else if name == "java.lang.Float" then Some(FloatWrapper)
               else if name == "java.lang.Double" then Some(DoubleWrapper)
               else if name == "java.lang.Object" then Some(ObjectWrapper)
               else None
  {
    FirstNamedStep(name, NamedWrappers, 4);
    FirstNamedStep(name, NamedWrappers, 5);
    FirstNamedStep(name, NamedWrappers, 6);
    FirstNamedStep(name, NamedWrappers, 7);
    FirstNamedStep(name, NamedWrappers, 8);
    assert NamedWrappers[9..] == [];
  }

  /** The assignability tests are the lookup of the first entry the type is assignable to. */
  lemma AssignableWrapperIsTableLookup(t: TypeMirror)
    ensures AssignableWrapper(t) == FirstAssignable(t, AssignableWrappers)
  {
    assert AssignableWrappers[0..] == AssignableWrappers;
    FirstAssignableStep(t, AssignableWrappers, 0);
    FirstAssignableStep(t, AssignableWrappers, 1);
    FirstAssignableStep(t, AssignableWrappers, 2);
    FirstAssignableStep(t, AssignableWrappers, 3);
    FirstAssignableStep(t, AssignableWrappers, 4);
    FirstAssignableStep(t, AssignableWrappers, 5);
    FirstAssignableStep(t, AssignableWrappers, 6);
    LaterAssignableIsTableLookup(t);
  }

  /** The second half of the assignability tests, from `LocalDateTime` on. */
  lemma LaterAssignableIsTableLookup(t: TypeMirror)
    ensures FirstAssignable(t, AssignableWrappers[7..])
            == if IsAssignable(t, "java.time.LocalDateTime") then Some(LocalDateTimeWrapper)
               else if IsAssignable(t, "java.time.LocalDate") then Some(LocalDateWrapper)
               else if IsAssignable(t, "java.sql.Array") then Some(ArrayWrapper)
               else if IsAssignable(t, "java.sql.Blob") then Some(BlobWrapper)
               else if IsAssignable(t, "java.sql.NClob") then Some(NClobWrapper)
               else if IsAssignable(t, "java.sql.Clob") then Some(ClobWrapper)
               else if IsAssignable(t, "java.sql.SQLXML") then Some(SQLXMLWrapper)
               else None
  {
    FirstAssignableStep(t, AssignableWrappers, 7);
    FirstAssignableStep(t, AssignableWrappers, 8);
    FirstAssignableStep(t, AssignableWrappers, 9);
    FirstAssignableStep(t, AssignableWrappers, 10);
    FirstAssignableStep(t, AssignableWrappers, 11);
    FirstAssignableStep(t, AssignableWrappers, 12);
    FirstAssignableStep(t, AssignableWrappers, 13);
    assert AssignableWrappers[14..] == [];
  }

  /** The mapper's declared-type branch is the table lookup: enum, else first exact name, else first assignable class. */
  lemma DeclaredWrapperIsTableLookup(t: TypeMirror)
    requires t.Declared?
    ensures DeclaredWrapper(t)
            == if t.element.kind == EnumElement then Some(EnumWrapper)
               else if FirstNamed(t.element.qualifiedName, NamedWrappers).Some?
               then FirstNamed(t.element.qualifiedName, NamedWrappers)
               else FirstAssignable(t, AssignableWrappers)
  {
    NamedWrapperIsTableLookup(t.element.qualifiedName);
    AssignableWrapperIsTableLookup(t);
  }

  /** A time is a `java.util.Date` too, but the earlier time test wins. */
  lemma TimeBeforeUtilDate(t: TypeMirror)
    requires t.Declared? && t.element.kind != EnumElement && FirstNamed(t.element.qualifiedName, NamedWrappers).None?
    requires !IsAssignable(t, "java.math.BigDecimal") && !IsAssignable(t, "java.math.BigInteger")
    requires IsAssignable(t, "java.sql.Time") && IsAssignable(t, "java.util.Date")
    ensures WrapperClassOf(t) == Some(TimeWrapper)
  {
    NamedWrapperIsTableLookup(t.element.qualifiedName);
  }

  /** A timestamp is a `java.util.Date` too, but the earlier timestamp test wins. */
  lemma TimestampBeforeUtilDate(t: TypeMirror)
    requires t.Declared? && t.element.kind != EnumElement && FirstNamed(t.element.qualifiedName, NamedWrappers).None?
    requires !IsAssignable(t, "java.math.BigDecimal") && !IsAssignable(t, "java.math.BigInteger")
    requires !IsAssignable(t, "java.sql.Time")
    requires IsAssignable(t, "java.sql.Timestamp") && IsAssignable(t, "java.util.Date")
    ensures WrapperClassOf(t) == Some(TimestampWrapper)
  {
    NamedWrapperIsTableLookup(t.element.qualifiedName);
  }

  /** A `java.sql.Date` is a `java.util.Date` too, but the earlier `java.sql.Date` test wins. */
  lemma SqlDateBeforeUtilDate(t: TypeMirror)
    requires t.Declared? && t.element.kind != EnumElement && FirstNamed(t.element.qualifiedName, NamedWrappers).None?
    requires forall j :: 0 <= j < 4 ==> !IsAssignable(t, AssignableWrappers[j].0)
    requires IsAssignable(t, "java.sql.Date") && IsAssignable(t, "java.util.Date")
    ensures WrapperClassOf(t) == Some(DateWrapper)
  {
    NamedWrapperIsTableLookup(t.element.qualifiedName);
    AssignableWrapperIsTableLookup(t);
    FirstAssignableIsEarliest(t, AssignableWrappers, 4);
  }

  /** An `NClob` is a `Clob` too, but the earlier `NClob` test wins. */
  lemma NClobBeforeClob(t: TypeMirror)
    requires t.Declared? && t.element.kind != EnumElement && FirstNamed(t.element.qualifiedName, NamedWrappers).None?
    requires forall j :: 0 <= j < 11 ==> !IsAssignable(t, AssignableWrappers[j].0)
    requires IsAssignable(t, "java.sql.NClob") && IsAssignable(t, "java.sql.Clob")
    ensures WrapperClassOf(t) == Some(NClobWrapper)
  {
    NamedWrapperIsTableLookup(t.element.qualifiedName);
    AssignableWrapperIsTableLookup(t);
    FirstAssignableIsEarliest(t, AssignableWrappers, 11);
  }

  /** An enum maps to the enum wrapper whatever its name and supertypes. */
  lemma EnumFirst(t: TypeMirror)
    requires t.Declared? && t.element.kind == EnumElement
    ensures WrapperClassOf(t) == Some(EnumWrapper)
  {
  }

  /** A declared type has no wrapper exactly when it is no enum and matches no name and no class. */
  lemma UnmatchedDeclaredHasNoWrapper(t: TypeMirror)
    requires t.Declared?
    ensures WrapperClassOf(t).None?
            <==> t.element.kind != EnumElement && FirstNamed(t.element.qualifiedName, NamedWrappers).None?
                 && forall j :: 0 <= j < |AssignableWrappers| ==> !IsAssignable(t, AssignableWrappers[j].0)
  {
    DeclaredWrapperIsTableLookup(t);
    FirstAssignableNone(t, AssignableWrappers);
  }

  /** What the processor's environment answers about classes. */
  datatype Context = Context(
    /** `Elements.getTypeElement`, for the names it resolves. */
    typeElements: map<string, TypeElement>,
    /** The classes annotated `@Embeddable`, with the name of their generated description class. */
    embeddables: map<string, string>,
    /** The classes annotated `@Entity`, with their `immutable` element. */
    entities: map<string, bool>,
    /** The classes annotated `@Holder`, with their `valueType` element. */
    holders: map<string, TypeMirror>,
    /** The classes annotated `@HolderConverters`, with their `value` element. */
    holderConverterProviders: map<string, seq<TypeMirror>>,
    /** The processor option naming holder-converter providers, comma separated. */
    holderConverters: Option<string>)

  /** The compile-time type descriptions; optional parts are null when the type's arity does not fit. */
  datatype CtType =
    | AnyCtType(typeMirror: TypeMirror)
    | BasicCtType(typeMirror: TypeMirror, wrapperType: TypeMirror)
    | BiFunctionCtType(typeMirror: TypeMirror, firstArg: Option<CtType>, secondArg: Option<CtType>, result: Option<CtType>)
    | CollectorCtType(typeMirror: TypeMirror, target: Option<CtType>, returnType: Option<CtType>)
    | ConfigCtType(typeMirror: TypeMirror)
    | EmbeddableCtType(typeMirror: TypeMirror, descClassName: string)
    | EntityCtType(typeMirror: TypeMirror, immutable: bool)
    | FunctionCtType(typeMirror: TypeMirror, target: Option<CtType>, returnType: Option<CtType>)
    | HolderCtType(typeMirror: TypeMirror, basicCtType: CtType, external: bool)
    | MapCtType(typeMirror: TypeMirror)
    | OptionalCtType(typeMirror: TypeMirror, element: Option<CtType>)
    | OptionalDoubleCtType(typeMirror: TypeMirror, element: Option<CtType>)
    | OptionalIntCtType(typeMirror: TypeMirror, element: Option<CtType>)
    | OptionalLongCtType(typeMirror: TypeMirror, element: Option<CtType>)
    | PreparedSqlCtType(typeMirror: TypeMirror)
    | ReferenceCtType(typeMirror: TypeMirror, referent: Option<CtType>)
    | SelectOptionsCtType(typeMirror: TypeMirror)
    | StreamCtType(typeMirror: TypeMirror, element: Option<CtType>)

  /** The factories a `toCtType` list can name. */
  datatype Factory =
    | BasicFactory | BiFunctionFactory | CollectorFactory | ConfigFactory | EmbeddableFactory
    | EntityFactory | FunctionFactory | HolderFactory | MapFactory | OptionalFactory
    | OptionalDoubleFactory | OptionalIntFactory | OptionalLongFactory | PreparedSqlFactory
    | ReferenceFactory | SelectOptionsFactory | StreamFactory

  /** The list for elements of collectors, streams and iterables. */
  const ElementFactories: seq<Factory> := [
    EntityFactory, OptionalFactory, OptionalIntFactory, OptionalLongFactory,
    OptionalDoubleFactory, HolderFactory, BasicFactory, MapFactory]

  /** The list for the element of an `Optional`. */
  const OptionalElementFactories: seq<Factory> := [EntityFactory, HolderFactory, BasicFactory, MapFactory]

  /** The list for the referent of a `Reference`. */
  const ReferentFactories: seq<Factory> := [
    OptionalFactory, OptionalIntFactory, OptionalLongFactory, OptionalDoubleFactory, HolderFactory, BasicFactory]

  /** Constructing a description runs the `AbstractCtType` derivation, which may fail. */
  function Construct(t: TypeMirror, c: CtType): (r: Result<Option<CtType>, AptError>)
    ensures r.Ok? <==> Derive(t).Ok?
    ensures r.Ok? ==> r.value == Some(c)
    ensures r.Err? ==> r.error == Derive(t).error
  {
    var _ :- Derive(t);
    Ok(Some(c))
  }

  function NewAnyCtType(t: TypeMirror): (r: Result<CtType, AptError>)
    ensures r.Ok? <==> Derive(t).Ok?
    ensures r.Ok? ==> r.value == AnyCtType(t)
  {
    var _ :- Derive(t);
    Ok(AnyCtType(t))
  }

  /**
   * `newBasicCtType`: none when the type has no wrapper class or the wrapper class does
   * not resolve; an enum's wrapper type is the wrapper applied to the enum.
   */
  function NewBasicCtType(ctx: Context, t: TypeMirror): (r: Result<Option<CtType>, AptError>)
    ensures r.Ok?
    ensures r.value.None? <==> WrapperClassOf(t).None? || WrapperClassName(WrapperClassOf(t).value) !in ctx.typeElements
    ensures r.value.Some? ==> r.value.value.BasicCtType? && r.value.value.typeMirror == t
    ensures r.value.Some? ==> r.value.value.wrapperType.Declared?
                              && r.value.value.wrapperType.element == ctx.typeElements[WrapperClassName(WrapperClassOf(t).value)]
    ensures r.value.Some? && WrapperClassOf(t) == Some(EnumWrapper) ==> r.value.value.wrapperType.typeArguments == [t]
  {
    match WrapperClassOf(t)
    case None => Ok(None)
    case Some(w) =>
      var name := WrapperClassName(w);
      if name !in ctx.typeElements then Ok(None)
      else
        var element := ctx.typeElements[name];
        var wrapperType := if w == EnumWrapper then Declared(element, [t], []) else AsType(element);
        Construct(t, BasicCtType(t, wrapperType))
  }

  function NewConfigCtType(t: TypeMirror): (r: Result<Option<CtType>, AptError>)
    ensures r == if IsSameClass(t, "org.seasar.doma.jdbc.Config") then Ok(Some(ConfigCtType(t))) else Ok(None)
  {
    if !IsSameClass(t, "org.seasar.doma.jdbc.Config") then Ok(None) else Construct(t, ConfigCtType(t))
  }

  function NewPreparedSqlCtType(t: TypeMirror): (r: Result<Option<CtType>, AptError>)
    ensures r == if IsSameClass(t, "org.seasar.doma.jdbc.PreparedSql") then Ok(Some(PreparedSqlCtType(t))) else Ok(None)
  {
    if !IsSameClass(t, "org.seasar.doma.jdbc.PreparedSql") then Ok(None) else Construct(t, PreparedSqlCtType(t))
  }

  /** `SelectOptions` and its subclasses. */
  function NewSelectOptionsCtType(t: TypeMirror): (r: Result<Option<CtType>, AptError>)
    ensures r == if IsAssignable(t, "org.seasar.doma.jdbc.SelectOptions") then Ok(Some(SelectOptionsCtType(t))) else Ok(None)
  {
    if !IsAssignable(t, "org.seasar.doma.jdbc.SelectOptions") then Ok(None) else Construct(t, SelectOptionsCtType(t))
  }

  /** A class annotated `@Embeddable`. */
  function NewEmbeddableCtType(ctx: Context, t: TypeMirror): (r: Result<Option<CtType>, AptError>)
    ensures r == Ok(None) <==> ToTypeElement(t).None? || ToTypeElement(t).value.qualifiedName !in ctx.embeddables
    ensures r.Ok? && r.value.Some? ==> r.value.value == EmbeddableCtType(t, ctx.embeddables[ToTypeElement(t).value.qualifiedName])
  {
    match ToTypeElement(t)
    case None => Ok(None)
    case Some(e) =>
      if e.qualifiedName !in ctx.embeddables then Ok(None)
      else Construct(t, EmbeddableCtType(t, ctx.embeddables[e.qualifiedName]))
  }

  /** A class annotated `@Entity`. */
  function NewEntityCtType(ctx: Context, t: TypeMirror): (r: Result<Option<CtType>, AptError>)
    ensures r == Ok(None) <==> ToTypeElement(t).None? || ToTypeElement(t).value.qualifiedName !in ctx.entities
    ensures r.Ok? && r.value.Some? ==> r.value.value == EntityCtType(t, ctx.entities[ToTypeElement(t).value.qualifiedName])
  {
    match ToTypeElement(t)
    case None => Ok(None)
    case Some(e) =>
      if e.qualifiedName !in ctx.entities then Ok(None)
      else Construct(t, EntityCtType(t, ctx.entities[e.qualifiedName]))
  }

  /** `newMapCtType`: only `Map<String, Object>`, with exactly those two arguments. */
  function NewMapCtType(t: TypeMirror): (r: Result<Option<CtType>, AptError>)
    ensures r.Ok?
    ensures r.value.Some? <==> IsSameClass(t, "java.util.Map") && |t.typeArguments| == 2
                               && IsSameClass(t.typeArguments[0], "java.lang.String")
                               && IsSameClass(t.typeArguments[1], "java.lang.Object")
    ensures r.value.Some? ==> r.value.value == MapCtType(t)
  {
    if !IsSameClass(t, "java.util.Map") then Ok(None)
    else
      match ToDeclaredType(t)
      case None => Ok(None)
      case Some(d) =>
        var typeArgs := d.typeArguments;
        if |typeArgs| != 2 then Ok(None)
        else if !IsSameClass(typeArgs[0], "java.lang.String") then Ok(None)
        else if !IsSameClass(typeArgs[1], "java.lang.Object") then Ok(None)
        else Construct(t, MapCtType(t))
  }

  /** `OptionalInt`, `OptionalLong` and `OptionalDouble`: the element is the basic description of the primitive. */
  function NewOptionalIntCtType(ctx: Context, t: TypeMirror): (r: Result<Option<CtType>, AptError>)
    ensures r.Ok? && (r.value.Some? <==> IsSameClass(t, "java.util.OptionalInt"))
    ensures r.value.Some? ==> r.value.value == OptionalIntCtType(t, NewBasicCtType(ctx, Primitive(Int)).value)
  {
    if !IsSameClass(t, "java.util.OptionalInt") then Ok(None)
    else
      var element := NewBasicCtType(ctx, Primitive(Int)).value;
      Construct(t, OptionalIntCtType(t, element))
  }

  function NewOptionalLongCtType(ctx: Context, t: TypeMirror): (r: Result<Option<CtType>, AptError>)
    ensures r.Ok? && (r.value.Some? <==> IsSameClass(t, "java.util.OptionalLong"))
    ensures r.value.Some? ==> r.value.value == OptionalLongCtType(t, NewBasicCtType(ctx, Primitive(Long)).value)
  {
    if !IsSameClass(t, "java.util.OptionalLong") then Ok(None)
    else
      var element := NewBasicCtType(ctx, Primitive(Long)).value;
      Construct(t, OptionalLongCtType(t, element))
  }

  function NewOptionalDoubleCtType(ctx: Context, t: TypeMirror): (r: Result<Option<CtType>, AptError>)
    ensures r.Ok? && (r.value.Some? <==> IsSameClass(t, "java.util.OptionalDouble"))
    ensures r.value.Some? ==> r.value.value == OptionalDoubleCtType(t, NewBasicCtType(ctx, Primitive(Double)).value)
  {
    if !IsSameClass(t, "java.util.OptionalDouble") then Ok(None)
    else
      var element := NewBasicCtType(ctx, Primitive(Double)).value;
      Construct(t, OptionalDoubleCtType(t, element))
  }

  /** What `getHolderInfo` finds: the holder's value type, and whether a converter declared it. */
  datatype HolderInfo = HolderInfo(valueType: TypeMirror, external: bool)

  const HolderConverterClass: string := "org.seasar.doma.jdbc.holder.HolderConverter"

  /**
   * `getConverterArgTypes`: the two type arguments of the first `HolderConverter`
   * reached through the direct supertypes, depth first. A `HolderConverter` supertype
   * without exactly two arguments fails the processor's assertion.
   */
  function ConverterArgTypes(t: TypeMirror): (r: Result<Option<(TypeMirror, TypeMirror)>, AptError>)
    ensures r.Err? ==> r.error == AssertionFailure
    ensures !AnyAssignable(DirectSupertypes(t), HolderConverterClass) ==> r == Ok(None)
    decreases Size(t), 1
  {
    SupertypesConverterArgTypes(DirectSupertypes(t))
  }

  function SupertypesConverterArgTypes(supertypes: seq<TypeMirror>): (r: Result<Option<(TypeMirror, TypeMirror)>, AptError>)
    ensures r.Err? ==> r.error == AssertionFailure
    ensures !AnyAssignable(supertypes, HolderConverterClass) ==> r == Ok(None)
    decreases SizeAll(supertypes), 0
  {
    if supertypes == [] then Ok(None)
    else
      var supertype := supertypes[0];
      if !IsAssignable(supertype, HolderConverterClass) then
        SupertypesConverterArgTypes(supertypes[1..])
      else if IsSameClass(supertype, HolderConverterClass) then
        var args := supertype.typeArguments;
        if |args| != 2 then Err(AssertionFailure) else Ok(Some((args[0], args[1])))
      else
        var argTypes :- ConverterArgTypes(supertype);
        if argTypes.Some? then Ok(argTypes) else SupertypesConverterArgTypes(supertypes[1..])
  }

  /** The pair of type arguments of a `HolderConverter` type, when one is found; the assertion fails without exactly two. */
  function ConverterArguments(found: Option<TypeMirror>): Result<Option<(TypeMirror, TypeMirror)>, AptError>
    requires found.Some? ==> found.value.Declared?
  {
    match found
    case None => Ok(None)
    case Some(d) =>
      if |d.typeArguments| != 2 then Err(AssertionFailure) else Ok(Some((d.typeArguments[0], d.typeArguments[1])))
  }

  /**
   * The converter's arguments are those of the first `HolderConverter` in depth-first
   * preorder of its supertypes: the loop is the hierarchy lookup of `HolderConverter`.
   */
  lemma {:induction false} ConverterArgTypesIsHierarchyLookup(t: TypeMirror)
    ensures ConverterArgTypes(t) == ConverterArguments(DeclaredTypeFromSupertypes(DirectSupertypes(t), HolderConverterClass))
    ensures ConverterArgTypes(t) == ConverterArguments(FirstOfClass(PreorderAll(DirectSupertypes(t)), HolderConverterClass))
    decreases Size(t), 1
  {
    SupertypesConverterArgTypesIsHierarchyLookup(DirectSupertypes(t));
    SupertypesLookupIsPreorderFirst(DirectSupertypes(t), HolderConverterClass);
  }

  lemma {:induction false} SupertypesConverterArgTypesIsHierarchyLookup(supertypes: seq<TypeMirror>)
    ensures SupertypesConverterArgTypes(supertypes)
            == ConverterArguments(DeclaredTypeFromSupertypes(supertypes, HolderConverterClass))
    decreases SizeAll(supertypes), 0
  {
    if supertypes != [] {
      var s := supertypes[0];
      SupertypesConverterArgTypesIsHierarchyLookup(supertypes[1..]);
      HierarchyLookupFindsAssignable(s, HolderConverterClass);
      if !IsSameClass(s, HolderConverterClass) {
        ConverterArgTypesIsHierarchyLookup(s);
      }
    }
  }

  /**
   * The value type of the first converter, in order, whose holder argument is the holder
   * type. A converter type that names no class is skipped, as its reload yields nothing.
   */
  function FirstConverterFor(holderType: TypeMirror, converters: seq<TypeMirror>): (r: Result<Option<TypeMirror>, AptError>)
    ensures r.Err? ==> r.error == AssertionFailure
  {
    if converters == [] then Ok(None)
    else if ToTypeElement(converters[0]).None? then FirstConverterFor(holderType, converters[1..])
    else
      var argTypes :- ConverterArgTypes(converters[0]);
      if argTypes.None? || !IsSameType(holderType, argTypes.value.0) then FirstConverterFor(holderType, converters[1..])
      else Ok(Some(argTypes.value.1))
  }

  /** `converter` names a class whose `HolderConverter` takes the holder type to `valueType`. */
  predicate ConvertsHolder(holderType: TypeMirror, converter: TypeMirror, valueType: TypeMirror)
  {
    && ToTypeElement(converter).Some?
    && ConverterArgTypes(converter).Ok? && ConverterArgTypes(converter).value.Some?
    && IsSameType(holderType, ConverterArgTypes(converter).value.value.0)
    && ConverterArgTypes(converter).value.value.1 == valueType
  }

  /** The loop passes over `converter`: it names no class, is no converter, or converts another type. */
  predicate PassesOver(holderType: TypeMirror, converter: TypeMirror)
  {
    || ToTypeElement(converter).None?
    || (&& ConverterArgTypes(converter).Ok?
        && (ConverterArgTypes(converter).value.None? || !IsSameType(holderType, ConverterArgTypes(converter).value.value.0)))
  }

  /** One turn of the converter loop: a converter passed over leaves the rest to decide, any other decides. */
  lemma FirstConverterForStep(holderType: TypeMirror, converters: seq<TypeMirror>)
    requires converters != []
    ensures PassesOver(holderType, converters[0]) ==>
              FirstConverterFor(holderType, converters) == FirstConverterFor(holderType, converters[1..])
    ensures !PassesOver(holderType, converters[0]) && ConverterArgTypes(converters[0]).Err? ==>
              FirstConverterFor(holderType, converters) == Err(ConverterArgTypes(converters[0]).error)
    ensures !PassesOver(holderType, converters[0]) && ConverterArgTypes(converters[0]).Ok? ==>
              ConvertsHolder(holderType, converters[0], ConverterArgTypes(converters[0]).value.value.1)
              && FirstConverterFor(holderType, converters) == Ok(Some(ConverterArgTypes(converters[0]).value.value.1))
  {
  }

  /** The converter loop yields nothing exactly when it passes over every converter. */
  lemma {:induction false} FirstConverterForNone(holderType: TypeMirror, converters: seq<TypeMirror>)
    ensures FirstConverterFor(holderType, converters) == Ok(None)
            <==> forall i :: 0 <= i < |converters| ==> PassesOver(holderType, converters[i])
  {
    if converters != [] {
      var tail := converters[1..];
      FirstConverterForStep(holderType, converters);
      FirstConverterForNone(holderType, tail);
      assert forall i :: 0 <= i < |tail| ==> tail[i] == converters[i + 1];
    }
  }

  /**
   * Otherwise the first converter it does not pass over decides: its value type when it
   * converts the holder type, its assertion failure when its arguments are malformed.
   */
  lemma {:induction false} FirstConverterForIsFirstMatch(holderType: TypeMirror, converters: seq<TypeMirror>)
    requires FirstConverterFor(holderType, converters) != Ok(None)
    ensures exists i :: 0 <= i < |converters| && !PassesOver(holderType, converters[i])
                        && (forall j :: 0 <= j < i ==> PassesOver(holderType, converters[j]))
                        && FirstConverterFor(holderType, converters)
                           == (match ConverterArgTypes(converters[i])
                               case Err(e) => Err(e)
                               case Ok(p) => Ok(Some(p.value.1)))
                        && (FirstConverterFor(holderType, converters).Ok? ==>
                              ConvertsHolder(holderType, converters[i], FirstConverterFor(holderType, converters).value.value))
  {
    var tail := converters[1..];
    FirstConverterForStep(holderType, converters);
    if PassesOver(holderType, converters[0]) {
      FirstConverterForIsFirstMatch(holderType, tail);
      var i :| 0 <= i < |tail| && !PassesOver(holderType, tail[i])
               && (forall j :: 0 <= j < i ==> PassesOver(holderType, tail[j]))
               && FirstConverterFor(holderType, tail)
                  == (match ConverterArgTypes(tail[i])
                      case Err(e) => Err(e)
                      case Ok(p) => Ok(Some(p.value.1)));
      assert tail[i] == converters[i + 1];
      assert forall j :: 0 < j <= i ==> converters[j] == tail[j - 1];
    } else {
      assert 0 < |converters| && !PassesOver(holderType, converters[0]);
    }
  }

  /**
   * One entry of the option: a blank entry is skipped, a name that does not resolve is
   * DOMA4200, a class without `@HolderConverters` is DOMA4201, and otherwise the entry
   * yields what its converters yield.
   */
  function ProviderEntryInfo(ctx: Context, holderType: TypeMirror, entry: string): (r: Result<Option<HolderInfo>, AptError>)
    ensures r.Ok? && r.value.Some? ==> r.value.value.external
  {
    var className := Trim(entry);
    if className == "" then Ok(None)
    else if className !in ctx.typeElements then Err(Doma4200(className))
    else
      var provider := ctx.typeElements[className];
      if provider.qualifiedName !in ctx.holderConverterProviders then Err(Doma4201(className))
      else
        var valueType :- FirstConverterFor(holderType, ctx.holderConverterProviders[provider.qualifiedName]);
        if valueType.Some? then Ok(Some(HolderInfo(valueType.value, true))) else Ok(None)
  }

  /**
   * The entry's outcomes, both ways: a blank entry yields nothing, DOMA4200 is raised
   * exactly for a name that does not resolve, and DOMA4201 exactly for a resolved class
   * that is no provider, each with the trimmed name.
   */
  lemma ProviderEntryErrors(ctx: Context, holderType: TypeMirror, entry: string)
    ensures Trim(entry) == "" ==> ProviderEntryInfo(ctx, holderType, entry) == Ok(None)
    ensures ProviderEntryInfo(ctx, holderType, entry) == Err(Doma4200(Trim(entry)))
            <==> Trim(entry) != "" && Trim(entry) !in ctx.typeElements
    ensures ProviderEntryInfo(ctx, holderType, entry) == Err(Doma4201(Trim(entry)))
            <==> && Trim(entry) != "" && Trim(entry) in ctx.typeElements
                 && ctx.typeElements[Trim(entry)].qualifiedName !in ctx.holderConverterProviders
  {
  }

  /**
   * An entry naming a provider yields what the provider's converter loop yields: nothing,
   * its assertion failure, or the value type it finds, as external holder information.
   */
  lemma ProviderEntryOfProvider(ctx: Context, holderType: TypeMirror, entry: string)
    requires Trim(entry) != "" && Trim(entry) in ctx.typeElements
    requires ctx.typeElements[Trim(entry)].qualifiedName in ctx.holderConverterProviders
    ensures var found := FirstConverterFor(holderType, ctx.holderConverterProviders[ctx.typeElements[Trim(entry)].qualifiedName]);
            ProviderEntryInfo(ctx, holderType, entry)
            == match found
               case Err(e) => Err(e)
               case Ok(None) => Ok(None)
               case Ok(Some(v)) => Ok(Some(HolderInfo(v, true)))
  {
  }

  /** The providers named in the option, in order: the first entry that yields something or fails decides. */
  function ProvidersHolderInfo(ctx: Context, holderType: TypeMirror, entries: seq<string>): (r: Result<Option<HolderInfo>, AptError>)
    ensures r.Ok? && r.value.Some? ==> r.value.value.external
    ensures r.Err? ==> r.error.Doma4200? || r.error.Doma4201? || r.error.AssertionFailure?
    ensures r.Err? && r.error.Doma4200? ==> r.error.className !in ctx.typeElements
    ensures r.Err? && r.error.Doma4201? ==>
              r.error.className in ctx.typeElements
              && ctx.typeElements[r.error.className].qualifiedName !in ctx.holderConverterProviders
  {
    if entries == [] then Ok(None)
    else
      var info :- ProviderEntryInfo(ctx, holderType, entries[0]);
      if info.Some? then Ok(info) else ProvidersHolderInfo(ctx, holderType, entries[1..])
  }

  /** What an entry-by-entry search yields: the first outcome that is not "nothing", or nothing. */
  function FirstDecided(outcomes: seq<Result<Option<HolderInfo>, AptError>>): Result<Option<HolderInfo>, AptError>
  {
    if outcomes == [] then Ok(None)
    else if outcomes[0] != Ok(None) then outcomes[0]
    else FirstDecided(outcomes[1..])
  }

  /** The search yields nothing exactly when every outcome is nothing. */
  lemma {:induction false} FirstDecidedNone(outcomes: seq<Result<Option<HolderInfo>, AptError>>)
    ensures FirstDecided(outcomes) == Ok(None) <==> forall i :: 0 <= i < |outcomes| ==> outcomes[i] == Ok(None)
  {
    if outcomes != [] {
      FirstDecidedNone(outcomes[1..]);
      assert forall i :: 0 < i < |outcomes| ==> outcomes[i] == outcomes[1..][i - 1];
    }
  }

  /** Otherwise it yields the first outcome that is not nothing. */
  lemma {:induction false} FirstDecidedIsFirst(outcomes: seq<Result<Option<HolderInfo>, AptError>>)
    requires FirstDecided(outcomes) != Ok(None)
    ensures exists i :: 0 <= i < |outcomes| && FirstDecided(outcomes) == outcomes[i]
                        && forall j :: 0 <= j < i ==> outcomes[j] == Ok(None)
  {
    if outcomes[0] == Ok(None) {
      var tail := outcomes[1..];
      FirstDecidedIsFirst(tail);
      var i :| 0 <= i < |tail| && FirstDecided(tail) == tail[i] && forall j :: 0 <= j < i ==> tail[j] == Ok(None);
      assert tail[i] == outcomes[i + 1];
      assert forall j :: 0 < j <= i ==> outcomes[j] == tail[j - 1];
    } else {
      assert FirstDecided(outcomes) == outcomes[0];
    }
  }

  /** Outcomes that are all nothing in front change nothing. */
  lemma {:induction false} FirstDecidedAfterNothing(a: seq<Result<Option<HolderInfo>, AptError>>,
                                                   b: seq<Result<Option<HolderInfo>, AptError>>)
    requires forall i :: 0 <= i < |a| ==> a[i] == Ok(None)
    ensures FirstDecided(a + b) == FirstDecided(b)
  {
    if a != [] {
      assert (a + b)[0] == a[0];
      assert (a + b)[1..] == a[1..] + b;
      FirstDecidedAfterNothing(a[1..], b);
    } else {
      assert a + b == b;
    }
  }

  /** The outcome of every entry, in order. */
  function EntryOutcomes(ctx: Context, holderType: TypeMirror, entries: seq<string>): (r: seq<Result<Option<HolderInfo>, AptError>>)
    ensures |r| == |entries|
  {
    if entries == [] then [] else [ProviderEntryInfo(ctx, holderType, entries[0])] + EntryOutcomes(ctx, holderType, entries[1..])
  }

  lemma {:induction false} EntryOutcomesAt(ctx: Context, holderType: TypeMirror, entries: seq<string>, i: nat)
    requires i < |entries|
    ensures EntryOutcomes(ctx, holderType, entries)[i] == ProviderEntryInfo(ctx, holderType, entries[i])
  {
    if i > 0 {
      EntryOutcomesAt(ctx, holderType, entries[1..], i - 1);
    }
  }

  lemma {:induction false} EntryOutcomesAppend(ctx: Context, holderType: TypeMirror, a: seq<string>, b: seq<string>)
    ensures EntryOutcomes(ctx, holderType, a + b) == EntryOutcomes(ctx, holderType, a) + EntryOutcomes(ctx, holderType, b)
  {
    if a != [] {
      assert (a + b)[0] == a[0];
      assert (a + b)[1..] == a[1..] + b;
      EntryOutcomesAppend(ctx, holderType, a[1..], b);
    } else {
      assert a + b == b;
    }
  }

  /** One turn of the provider loop: an entry that yields nothing leaves the rest to decide, any other decides. */
  lemma ProvidersHolderInfoStep(ctx: Context, holderType: TypeMirror, entries: seq<string>)
    requires entries != []
    ensures ProvidersHolderInfo(ctx, holderType, entries)
            == if ProviderEntryInfo(ctx, holderType, entries[0]) == Ok(None)
               then ProvidersHolderInfo(ctx, holderType, entries[1..])
               else ProviderEntryInfo(ctx, holderType, entries[0])
    ensures EntryOutcomes(ctx, holderType, entries)
            == [ProviderEntryInfo(ctx, holderType, entries[0])] + EntryOutcomes(ctx, holderType, entries[1..])
  {
  }

  lemma FirstDecidedStep(x: Result<Option<HolderInfo>, AptError>, rest: seq<Result<Option<HolderInfo>, AptError>>)
    ensures FirstDecided([x] + rest) == if x == Ok(None) then FirstDecided(rest) else x
  {
    assert ([x] + rest)[1..] == rest;
  }

  /** The provider loop is the entry-by-entry search over the outcomes of the entries. */
  lemma {:induction false} ProvidersHolderInfoIsFirstDecided(ctx: Context, holderType: TypeMirror, entries: seq<string>)
    ensures ProvidersHolderInfo(ctx, holderType, entries) == FirstDecided(EntryOutcomes(ctx, holderType, entries))
  {
    if entries != [] {
      ProvidersHolderInfoIsFirstDecided(ctx, holderType, entries[1..]);
      ProvidersHolderInfoStep(ctx, holderType, entries);
      FirstDecidedStep(ProviderEntryInfo(ctx, holderType, entries[0]), EntryOutcomes(ctx, holderType, entries[1..]));
    }
  }

  /**
   * The provider loop yields nothing exactly when every entry yields nothing; otherwise
   * the first entry that yields something or fails decides.
   */
  lemma ProvidersHolderInfoIsFirstEntry(ctx: Context, holderType: TypeMirror, entries: seq<string>)
    ensures ProvidersHolderInfo(ctx, holderType, entries) == Ok(None)
            <==> forall i :: 0 <= i < |entries| ==> ProviderEntryInfo(ctx, holderType, entries[i]) == Ok(None)
    ensures ProvidersHolderInfo(ctx, holderType, entries) != Ok(None) ==>
              exists i :: 0 <= i < |entries|
                          && ProvidersHolderInfo(ctx, holderType, entries) == ProviderEntryInfo(ctx, holderType, entries[i])
                          && forall j :: 0 <= j < i ==> ProviderEntryInfo(ctx, holderType, entries[j]) == Ok(None)
  {
    var outcomes := EntryOutcomes(ctx, holderType, entries);
    ProvidersHolderInfoIsFirstDecided(ctx, holderType, entries);
    forall i | 0 <= i < |entries| ensures outcomes[i] == ProviderEntryInfo(ctx, holderType, entries[i]) {
      EntryOutcomesAt(ctx, holderType, entries, i);
    }
    FirstDecidedNone(outcomes);
    if FirstDecided(outcomes) != Ok(None) {
      FirstDecidedIsFirst(outcomes);
    }
  }

  /** Entries that yield nothing (blank ones, providers without a converter for the type) change nothing. */
  lemma SkippedEntriesChangeNothing(ctx: Context, holderType: TypeMirror, skipped: seq<string>, rest: seq<string>)
    requires forall i :: 0 <= i < |skipped| ==> ProviderEntryInfo(ctx, holderType, skipped[i]) == Ok(None)
    ensures ProvidersHolderInfo(ctx, holderType, skipped + rest) == ProvidersHolderInfo(ctx, holderType, rest)
  {
    var outcomes := EntryOutcomes(ctx, holderType, skipped);
    forall i | 0 <= i < |skipped| ensures outcomes[i] == Ok(None) {
      EntryOutcomesAt(ctx, holderType, skipped, i);
    }
    EntryOutcomesAppend(ctx, holderType, skipped, rest);
    FirstDecidedAfterNothing(outcomes, EntryOutcomes(ctx, holderType, rest));
    ProvidersHolderInfoIsFirstDecided(ctx, holderType, skipped + rest);
    ProvidersHolderInfoIsFirstDecided(ctx, holderType, rest);
  }

  /** Blank entries of the option are skipped: a run of them changes nothing. */
  lemma BlankEntriesSkipped(ctx: Context, holderType: TypeMirror, blanks: seq<string>, rest: seq<string>)
    requires forall i :: 0 <= i < |blanks| ==> Trim(blanks[i]) == ""
    ensures ProvidersHolderInfo(ctx, holderType, blanks + rest) == ProvidersHolderInfo(ctx, holderType, rest)
  {
    SkippedEntriesChangeNothing(ctx, holderType, blanks, rest);
  }

  /**
   * After entries that yield nothing, the first entry that yields something or fails decides:
   * an unresolved name raises DOMA4200, a class that is no provider DOMA4201, and a provider
   * with a converter for the holder type gives that converter's value type.
   */
  lemma DecidingEntry(ctx: Context, holderType: TypeMirror, skipped: seq<string>, entry: string, rest: seq<string>)
    requires forall i :: 0 <= i < |skipped| ==> ProviderEntryInfo(ctx, holderType, skipped[i]) == Ok(None)
    requires ProviderEntryInfo(ctx, holderType, entry) != Ok(None)
    ensures ProvidersHolderInfo(ctx, holderType, skipped + [entry] + rest) == ProviderEntryInfo(ctx, holderType, entry)
  {
    var tail := [entry] + rest;
    assert skipped + [entry] + rest == skipped + tail;
    SkippedEntriesChangeNothing(ctx, holderType, skipped, tail);
    assert tail[0] == entry;
    ProvidersHolderInfoStep(ctx, holderType, tail);
  }

  /** An unresolved non-blank entry, reached after entries that yield nothing, raises DOMA4200 with its trimmed name. */
  lemma UnresolvedEntryIsDoma4200(ctx: Context, holderType: TypeMirror, skipped: seq<string>, entry: string, rest: seq<string>)
    requires forall i :: 0 <= i < |skipped| ==> ProviderEntryInfo(ctx, holderType, skipped[i]) == Ok(None)
    requires Trim(entry) != "" && Trim(entry) !in ctx.typeElements
    ensures ProvidersHolderInfo(ctx, holderType, skipped + [entry] + rest) == Err(Doma4200(Trim(entry)))
  {
    ProviderEntryErrors(ctx, holderType, entry);
    DecidingEntry(ctx, holderType, skipped, entry, rest);
  }

  /** A resolved class without `@HolderConverters`, reached after entries that yield nothing, raises DOMA4201. */
  lemma NonProviderEntryIsDoma4201(ctx: Context, holderType: TypeMirror, skipped: seq<string>, entry: string, rest: seq<string>)
    requires forall i :: 0 <= i < |skipped| ==> ProviderEntryInfo(ctx, holderType, skipped[i]) == Ok(None)
    requires Trim(entry) != "" && Trim(entry) in ctx.typeElements
    requires ctx.typeElements[Trim(entry)].qualifiedName !in ctx.holderConverterProviders
    ensures ProvidersHolderInfo(ctx, holderType, skipped + [entry] + rest) == Err(Doma4201(Trim(entry)))
  {
    ProviderEntryErrors(ctx, holderType, entry);
    DecidingEntry(ctx, holderType, skipped, entry, rest);
  }

  /**
   * `getExternalHolderInfo`: nothing without the option; otherwise the comma-separated
   * entries of the option are searched, trimmed, for a converter of the class's generic
   * type `asType()`.
   */
  function ExternalHolderInfo(ctx: Context, typeElement: TypeElement): (r: Result<Option<HolderInfo>, AptError>)
    ensures ctx.holderConverters.None? ==> r == Ok(None)
    ensures ctx.holderConverters.Some? ==>
              r == ProvidersHolderInfo(ctx, AsType(typeElement), Split(ctx.holderConverters.value, ','))
    ensures r.Ok? && r.value.Some? ==> r.value.value.external
  {
    match ctx.holderConverters
    case None => Ok(None)
    case Some(csv) => ProvidersHolderInfo(ctx, AsType(typeElement), Split(csv, ','))
  }

  /** `getHolderInfo`: a class annotated `@Holder` first, otherwise the external converters. */
  function HolderInfoOf(ctx: Context, typeElement: TypeElement): (r: Result<Option<HolderInfo>, AptError>)
    ensures typeElement.qualifiedName in ctx.holders ==> r == Ok(Some(HolderInfo(ctx.holders[typeElement.qualifiedName], false)))
    ensures typeElement.qualifiedName !in ctx.holders ==> r == ExternalHolderInfo(ctx, typeElement)
  {
    if typeElement.qualifiedName in ctx.holders then Ok(Some(HolderInfo(ctx.holders[typeElement.qualifiedName], false)))
    else ExternalHolderInfo(ctx, typeElement)
  }

  /**
   * `newHolderCtType`: none without an element, without holder information or when the
   * value type has no basic description; otherwise the holder description holding the
   * basic description of the value type, external as the information says.
   */
  function NewHolderCtType(ctx: Context, t: TypeMirror): (r: Result<Option<CtType>, AptError>)
    ensures ToTypeElement(t).None? ==> r == Ok(None)
    ensures ToTypeElement(t).Some? ==>
              var info := HolderInfoOf(ctx, ToTypeElement(t).value);
              && (info.Err? ==> r == Err(info.error))
              && (info == Ok(None) ==> r == Ok(None))
              && (info.Ok? && info.value.Some? ==>
                    var basic := NewBasicCtType(ctx, info.value.value.valueType).value;
                    && (basic.None? ==> r == Ok(None))
                    && (basic.Some? ==>
                          r == Construct(t, HolderCtType(t, basic.value, info.value.value.external))))
    ensures r.Ok? && r.value.Some? ==> r.value.value.HolderCtType? && r.value.value.typeMirror == t
                                       && r.value.value.basicCtType.BasicCtType?
  {
    match ToTypeElement(t)
    case None => Ok(None)
    case Some(e) =>
      var info :- HolderInfoOf(ctx, e);
      if info.None? then Ok(None)
      else
        var basic := NewBasicCtType(ctx, info.value.valueType).value;
        if basic.None? then Ok(None)
        else Construct(t, HolderCtType(t, basic.value, info.value.external))
  }

  /**
   * `toCtType`: the first description a factory of the list yields, in list order,
   * otherwise `AnyCtType`. An exception of a factory propagates.
   */
  function ToCtType(ctx: Context, t: TypeMirror, factories: seq<Factory>): (r: Result<CtType, AptError>)
    ensures r.Ok? ==> r.value.typeMirror == t
    decreases Size(t), 2, |factories|
  {
    if factories == [] then NewAnyCtType(t)
    else
      var c :- Apply(ctx, factories[0], t);
      if c.Some? then Ok(c.value) else ToCtType(ctx, t, factories[1..])
  }

  /** One factory of a `toCtType` list, applied. */
  function Apply(ctx: Context, f: Factory, t: TypeMirror): (r: Result<Option<CtType>, AptError>)
    ensures r.Ok? && r.value.Some? ==> r.value.value.typeMirror == t
    decreases Size(t), 1, 0
  {
    match f
    case BasicFactory => NewBasicCtType(ctx, t)
    case BiFunctionFactory => NewBiFunctionCtType(ctx, t)
    case CollectorFactory => NewCollectorCtType(ctx, t)
    case ConfigFactory => NewConfigCtType(t)
    case EmbeddableFactory => NewEmbeddableCtType(ctx, t)
    case EntityFactory => NewEntityCtType(ctx, t)
    case FunctionFactory => NewFunctionCtType(ctx, t)
    case HolderFactory => NewHolderCtType(ctx, t)
    case MapFactory => NewMapCtType(t)
    case OptionalFactory => NewOptionalCtType(ctx, t)
    case OptionalDoubleFactory => NewOptionalDoubleCtType(ctx, t)
    case OptionalIntFactory => NewOptionalIntCtType(ctx, t)
    case OptionalLongFactory => NewOptionalLongCtType(ctx, t)
    case PreparedSqlFactory => NewPreparedSqlCtType(t)
    case ReferenceFactory => NewReferenceCtType(ctx, t)
    case SelectOptionsFactory => NewSelectOptionsCtType(t)
    case StreamFactory => NewStreamCtType(ctx, t)
  }

  /** `newOptionalCtType`: an `Optional`, its element classified when it has a type argument. */
  function NewOptionalCtType(ctx: Context, t: TypeMirror): (r: Result<Option<CtType>, AptError>)
    ensures r == Ok(None) <==> !IsSameClass(t, "java.util.Optional")
    ensures r.Ok? && r.value.Some? ==> r.value.value.OptionalCtType? && r.value.value.typeMirror == t
                                       && (r.value.value.element.Some? <==> t.typeArguments != [])
    decreases Size(t), 0, 0
  {
    if !IsSameClass(t, "java.util.Optional") then Ok(None)
    else
      var typeArgs := t.typeArguments;
      if typeArgs == [] then Construct(t, OptionalCtType(t, None))
      else
        SizeOfElement(typeArgs, 0);
        var element :- ToCtType(ctx, typeArgs[0], OptionalElementFactories);
        Construct(t, OptionalCtType(t, Some(element)))
  }

  /** `newStreamCtType`: a `Stream`, its element classified when it has a type argument. */
  function NewStreamCtType(ctx: Context, t: TypeMirror): (r: Result<Option<CtType>, AptError>)
    ensures r == Ok(None) <==> !IsSameClass(t, "java.util.stream.Stream")
    ensures r.Ok? && r.value.Some? ==> r.value.value.StreamCtType? && r.value.value.typeMirror == t
                                       && (r.value.value.element.Some? <==> t.typeArguments != [])
    decreases Size(t), 0, 0
  {
    if !IsSameClass(t, "java.util.stream.Stream") then Ok(None)
    else
      var typeArgs := t.typeArguments;
      if typeArgs == [] then Construct(t, StreamCtType(t, None))
      else
        SizeOfElement(typeArgs, 0);
        var element :- ToCtType(ctx, typeArgs[0], ElementFactories);
        Construct(t, StreamCtType(t, Some(element)))
  }

  /**
   * `newBiFunctionCtType`: a `BiFunction` found in the hierarchy; its parts are
   * classified only when it has exactly three type arguments.
   */
  function NewBiFunctionCtType(ctx: Context, t: TypeMirror): (r: Result<Option<CtType>, AptError>)
    ensures r == Ok(None) <==> DeclaredTypeFromHierarchy(t, "java.util.function.BiFunction").None?
    ensures r.Ok? && r.value.Some? ==>
              var c := r.value.value;
              var arity := |DeclaredTypeFromHierarchy(t, "java.util.function.BiFunction").value.typeArguments|;
              c.BiFunctionCtType? && c.typeMirror == t
              && (c.firstArg.Some? <==> arity == 3) && (c.secondArg.Some? <==> arity == 3) && (c.result.Some? <==> arity == 3)
    decreases Size(t), 0, 0
  {
    match DeclaredTypeFromHierarchy(t, "java.util.function.BiFunction")
    case None => Ok(None)
    case Some(d) =>
      var typeArgs := d.typeArguments;
      if |typeArgs| == 3 then
        SizeOfElement(typeArgs, 0);
        SizeOfElement(typeArgs, 1);
        var firstArg :- ToCtType(ctx, typeArgs[0], [ConfigFactory]);
        var secondArg :- ToCtType(ctx, typeArgs[1], [PreparedSqlFactory]);
        var result :- NewAnyCtType(typeArgs[2]);
        Construct(t, BiFunctionCtType(t, Some(firstArg), Some(secondArg), Some(result)))
      else Construct(t, BiFunctionCtType(t, None, None, None))
  }

  /**
   * `newCollectorCtType`: a `Collector` found in the hierarchy; its target and result
   * are classified only when it has exactly three type arguments.
   */
  function NewCollectorCtType(ctx: Context, t: TypeMirror): (r: Result<Option<CtType>, AptError>)
    ensures r == Ok(None) <==> DeclaredTypeFromHierarchy(t, "java.util.stream.Collector").None?
    ensures r.Ok? && r.value.Some? ==>
              var c := r.value.value;
              var arity := |DeclaredTypeFromHierarchy(t, "java.util.stream.Collector").value.typeArguments|;
              c.CollectorCtType? && c.typeMirror == t
              && (c.target.Some? <==> arity == 3) && (c.returnType.Some? <==> arity == 3)
    decreases Size(t), 0, 0
  {
    match DeclaredTypeFromHierarchy(t, "java.util.stream.Collector")
    case None => Ok(None)
    case Some(d) =>
      var typeArgs := d.typeArguments;
      if |typeArgs| == 3 then
        SizeOfElement(typeArgs, 0);
        var target :- ToCtType(ctx, typeArgs[0], ElementFactories);
        var returnType :- NewAnyCtType(typeArgs[2]);
        Construct(t, CollectorCtType(t, Some(target), Some(returnType)))
      else Construct(t, CollectorCtType(t, None, None))
  }

  /**
   * `newFunctionCtType`: a `Function` found in the hierarchy; its target and result are
   * classified only when it has exactly two type arguments.
   */
  function NewFunctionCtType(ctx: Context, t: TypeMirror): (r: Result<Option<CtType>, AptError>)
    ensures r == Ok(None) <==> DeclaredTypeFromHierarchy(t, "java.util.function.Function").None?
    ensures r.Ok? && r.value.Some? ==>
              var c := r.value.value;
              var arity := |DeclaredTypeFromHierarchy(t, "java.util.function.Function").value.typeArguments|;
              c.FunctionCtType? && c.typeMirror == t
              && (c.target.Some? <==> arity == 2) && (c.returnType.Some? <==> arity == 2)
    decreases Size(t), 0, 0
  {
    match DeclaredTypeFromHierarchy(t, "java.util.function.Function")
    case None => Ok(None)
    case Some(d) =>
      var typeArgs := d.typeArguments;
      if |typeArgs| == 2 then
        SizeOfElement(typeArgs, 0);
        var target :- ToCtType(ctx, typeArgs[0], [StreamFactory, PreparedSqlFactory]);
        var returnType :- NewAnyCtType(typeArgs[1]);
        Construct(t, FunctionCtType(t, Some(target), Some(returnType)))
      else Construct(t, FunctionCtType(t, None, None))
  }

  /** `newReferenceCtType`: a `Reference` found in the hierarchy; its referent is classified only with exactly one argument. */
  function NewReferenceCtType(ctx: Context, t: TypeMirror): (r: Result<Option<CtType>, AptError>)
    ensures r == Ok(None) <==> DeclaredTypeFromHierarchy(t, "org.seasar.doma.jdbc.Reference").None?
    ensures r.Ok? && r.value.Some? ==>
              var c := r.value.value;
              c.ReferenceCtType? && c.typeMirror == t
              && (c.referent.Some? <==> |DeclaredTypeFromHierarchy(t, "org.seasar.doma.jdbc.Reference").value.typeArguments| == 1)
    decreases Size(t), 0, 0
  {
    match DeclaredTypeFromHierarchy(t, "org.seasar.doma.jdbc.Reference")
    case None => Ok(None)
    case Some(d) =>
      var typeArgs := d.typeArguments;
      if |typeArgs| == 1 then
        SizeOfElement(typeArgs, 0);
        var referent :- ToCtType(ctx, typeArgs[0], ReferentFactories);
        Construct(t, ReferenceCtType(t, Some(referent)))
      else Construct(t, ReferenceCtType(t, None))
  }

  /** The first factory that recognises the type decides; the factories before it declined. */
  lemma {:induction false} ToCtTypeFirstMatch(ctx: Context, t: TypeMirror, factories: seq<Factory>, i: nat, c: CtType)
    requires i < |factories| && Apply(ctx, factories[i], t) == Ok(Some(c))
    requires forall j :: 0 <= j < i ==> Apply(ctx, factories[j], t) == Ok(None)
    ensures ToCtType(ctx, t, factories) == Ok(c)
    decreases i
  {
    if i > 0 {
      assert Apply(ctx, factories[0], t) == Ok(None);
      assert ToCtType(ctx, t, factories) == ToCtType(ctx, t, factories[1..]);
      forall j | 0 <= j < i - 1
        ensures Apply(ctx, factories[1..][j], t) == Ok(None)
      {
        assert factories[1..][j] == factories[j + 1];
      }
      ToCtTypeFirstMatch(ctx, t, factories[1..], i - 1, c);
    }
  }

  /** When every factory declines, the type is described as `AnyCtType`. */
  lemma {:induction false} ToCtTypeFallsBackToAny(ctx: Context, t: TypeMirror, factories: seq<Factory>)
    requires forall j :: 0 <= j < |factories| ==> Apply(ctx, factories[j], t) == Ok(None)
    ensures ToCtType(ctx, t, factories) == NewAnyCtType(t)
    decreases |factories|
  {
    if factories != [] {
      assert Apply(ctx, factories[0], t) == Ok(None);
      forall j | 0 <= j < |factories| - 1
        ensures Apply(ctx, factories[1..][j], t) == Ok(None)
      {
        assert factories[1..][j] == factories[j + 1];
      }
      ToCtTypeFallsBackToAny(ctx, t, factories[1..]);
    }
  }

  /** An entity class among the elements of a stream or collector is described as an entity, ahead of any other reading. */
  lemma EntityElementIsEntity(ctx: Context, t: TypeMirror)
    requires t.Declared? && t.element.qualifiedName in ctx.entities
    ensures ToCtType(ctx, t, ElementFactories) == Ok(EntityCtType(t, ctx.entities[t.element.qualifiedName]))
  {
    DeriveFailsOnlyOnUnresolvedGenerics(t);
    ToCtTypeFirstMatch(ctx, t, ElementFactories, 0, EntityCtType(t, ctx.entities[t.element.qualifiedName]));
  }

  /** A `char` has no wrapper and no element factory claims it, so it is described as `AnyCtType`. */
  lemma CharElementIsAny(ctx: Context, t: TypeMirror)
    requires t.Primitive? && t.primitiveKind == Char
    ensures ToCtType(ctx, t, ElementFactories) == Ok(AnyCtType(t))
  {
    ToCtTypeFallsBackToAny(ctx, t, ElementFactories);
  }
}
