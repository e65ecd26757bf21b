/**
 * The part of `javax.lang.model` the annotation processor consults, as values. A type
 * carries its own direct supertypes, so the supertype hierarchy is a finite tree and
 * `Types.directSupertypes` is a field. Against a `Class` constant, `isSameType` compares
 * the declared type's qualified name (erasure) and `isAssignable` asks whether the
 * hierarchy reaches a type of that name.
 */
module TypeModel {
  import opened Wrappers
  import opened Text

  datatype PrimitiveKind = Boolean | Byte | Short | Int | Long | Char | Float | Double

  datatype ElementKind = ClassElement | InterfaceElement | EnumElement | AnnotationTypeElement

  /** A class or interface declaration: its qualified name, kind and declared type parameters. */
  datatype TypeElement = TypeElement(qualifiedName: string, kind: ElementKind, typeParameters: seq<string>)

  /**
   * A type. `ErrorType` is a class the compiler could not resolve: it names an element
   * but is not a declared type. `NoType` stands for `void`, the null type and the like.
   */
  datatype TypeMirror =
    | Primitive(primitiveKind: PrimitiveKind)
    | ArrayType(componentType: TypeMirror)
    | Declared(element: TypeElement, typeArguments: seq<TypeMirror>, supertypes: seq<TypeMirror>)
    | ErrorType(errorElement: TypeElement)
    | Wildcard
    | TypeVar(name: string)
    | NoType(description: string)

  /** `TypeMirror.getKind()`. */
  datatype TypeKind =
    | PrimitiveTypeKind(kind: PrimitiveKind)
    | ArrayKind | DeclaredKind | ErrorKind | WildcardKind | TypeVarKind | NoneKind

  function KindOf(t: TypeMirror): TypeKind
  {
    match t
    case Primitive(k) => PrimitiveTypeKind(k)
    case ArrayType(_) => ArrayKind
    case Declared(_, _, _) => DeclaredKind
    case ErrorType(_) => ErrorKind
    case Wildcard => WildcardKind
    case TypeVar(_) => TypeVarKind
    case NoType(_) => NoneKind
  }

  /** A measure that shrinks from a type to its arguments and supertypes. */
  function Size(t: TypeMirror): nat
  {
    match t
    case ArrayType(c) => 1 + Size(c)
    case Declared(_, args, sups) => 1 + SizeAll(args) + SizeAll(sups)
    case _ => 1
  }

  function SizeAll(ts: seq<TypeMirror>): nat
  {
    if ts == [] then 0 else 1 + Size(ts[0]) + SizeAll(ts[1..])
  }

  lemma {:induction false} SizeOfElement(ts: seq<TypeMirror>, i: nat)
    requires i < |ts|
    ensures Size(ts[i]) < SizeAll(ts)
  {
    if i > 0 {
      SizeOfElement(ts[1..], i - 1);
    }
  }

  /** `Types.toTypeElement`: the element of a declared (or unresolved) type. */
  function ToTypeElement(t: TypeMirror): (r: Option<TypeElement>)
    ensures r.Some? <==> t.Declared? || t.ErrorType?
  {
    match t
    case Declared(e, _, _) => Some(e)
    case ErrorType(e) => Some(e)
    case _ => None
  }

  /** `Types.toDeclaredType`: the type itself when it is a declared type. */
  function ToDeclaredType(t: TypeMirror): (r: Option<TypeMirror>)
    ensures r.Some? <==> t.Declared?
    ensures r.Some? ==> r.value == t
  {
    if t.Declared? then Some(t) else None
  }

  /** `Types.directSupertypes`. */
  function DirectSupertypes(t: TypeMirror): seq<TypeMirror>
  {
    if t.Declared? then t.supertypes else []
  }

  /** `TypeElement.asType()`: the generic declaration, its type parameters as type variables. */
  function AsType(e: TypeElement): (r: TypeMirror)
    ensures r.Declared? && r.element == e && |r.typeArguments| == |e.typeParameters|
  {
    Declared(e, seq(|e.typeParameters|, i requires 0 <= i < |e.typeParameters| => TypeVar(e.typeParameters[i])), [])
  }

  /** `Types.isSameType(t, C.class)`: a declared type whose erasure is the class named `className`. */
  predicate IsSameClass(t: TypeMirror, className: string)
  {
    t.Declared? && t.element.qualifiedName == className
  }

  /** `Types.isAssignable(t, C.class)`: the class named `className` is `t` or one of its supertypes. */
  predicate IsAssignable(t: TypeMirror, className: string)
    decreases Size(t), 1
  {
    IsSameClass(t, className) || AnyAssignable(DirectSupertypes(t), className)
  }

  predicate AnyAssignable(ts: seq<TypeMirror>, className: string)
    decreases SizeAll(ts), 0
  {
    ts != [] && (IsAssignable(ts[0], className) || AnyAssignable(ts[1..], className))
  }

  /**
   * `Types.isSameType` of two types: primitives of the same kind, arrays of the same
   * component, declared types of the same class with the same arguments, type variables
   * of the same name. Wildcards and unresolved types are never the same type.
   */
  predicate IsSameType(a: TypeMirror, b: TypeMirror)
    decreases Size(a), 1
  {
    match a
    case Primitive(k) => b.Primitive? && b.primitiveKind == k
    case ArrayType(c) => b.ArrayType? && IsSameType(c, b.componentType)
    case Declared(e, args, _) =>
      b.Declared? && b.element.qualifiedName == e.qualifiedName && AreSameTypes(args, b.typeArguments)
    case ErrorType(_) => false
    case Wildcard => false
    case TypeVar(n) => b.TypeVar? && b.name == n
    case NoType(d) => b.NoType? && b.description == d
  }

  predicate AreSameTypes(xs: seq<TypeMirror>, ys: seq<TypeMirror>)
    decreases SizeAll(xs), 0
  {
    |xs| == |ys| && (xs == [] || (IsSameType(xs[0], ys[0]) && AreSameTypes(xs[1..], ys[1..])))
  }

  /** `toString` of a type, as javac renders it: arguments in angle brackets, separated by commas. */
  function TypeName(t: TypeMirror): string
    decreases Size(t), 1
  {
    match t
    case Primitive(k) => PrimitiveName(k)
    case ArrayType(c) => TypeName(c) + "[]"
    case Declared(e, args, _) => e.qualifiedName + (if args == [] then "" else "<" + TypeNames(args) + ">")
    case ErrorType(e) => e.qualifiedName
    case Wildcard => "?"
    case TypeVar(n) => n
    case NoType(d) => d
  }

  function TypeNames(ts: seq<TypeMirror>): string
    decreases SizeAll(ts), 0
  {
    if ts == [] then "" else if |ts| == 1 then TypeName(ts[0]) else TypeName(ts[0]) + "," + TypeNames(ts[1..])
  }

  function PrimitiveName(k: PrimitiveKind): string
  {
    match k
    case Boolean => "boolean"
    case Byte => "byte"
    case Short => "short"
    case Int => "int"
    case Long => "long"
    case Char => "char"
    case Float => "float"
    case Double => "double"
  }

  /**
   * `getDeclaredTypeFromHierarchy`: the type itself when it is the class, otherwise the
   * first match of a depth-first search through the direct supertypes in order.
   */
  function DeclaredTypeFromHierarchy(t: TypeMirror, className: string): (r: Option<TypeMirror>)
    ensures r.Some? ==> IsSameClass(r.value, className) && Size(r.value) <= Size(t)
    decreases Size(t), 1
  {
    if IsSameClass(t, className) then ToDeclaredType(t)
    else DeclaredTypeFromSupertypes(DirectSupertypes(t), className)
  }

  /** The loop over the direct supertypes: a supertype that is the class, else a match in its own hierarchy. */
  function DeclaredTypeFromSupertypes(supertypes: seq<TypeMirror>, className: string): (r: Option<TypeMirror>)
    ensures r.Some? ==> IsSameClass(r.value, className) && Size(r.value) < SizeAll(supertypes)
    decreases SizeAll(supertypes), 0
  {
    if supertypes == [] then None
    else if IsSameClass(supertypes[0], className) then ToDeclaredType(supertypes[0])
    else
      match DeclaredTypeFromHierarchy(supertypes[0], className)
      case Some(d) => Some(d)
      case None => DeclaredTypeFromSupertypes(supertypes[1..], className)
  }

  /** The hierarchy in depth-first preorder: the type, then each direct supertype's hierarchy in turn. */
  function Preorder(t: TypeMirror): seq<TypeMirror>
    decreases Size(t), 1
  {
    [t] + PreorderAll(DirectSupertypes(t))
  }

  function PreorderAll(ts: seq<TypeMirror>): seq<TypeMirror>
    decreases SizeAll(ts), 0
  {
    if ts == [] then [] else Preorder(ts[0]) + PreorderAll(ts[1..])
  }

  /** The first type of the class in `ts`. */
  function FirstOfClass(ts: seq<TypeMirror>, className: string): (r: Option<TypeMirror>)
    ensures r.Some? ==> r.value in ts && IsSameClass(r.value, className)
  {
    if ts == [] then None
    else if IsSameClass(ts[0], className) then Some(ts[0])
    else FirstOfClass(ts[1..], className)
  }

  lemma {:induction false} FirstOfClassAppend(a: seq<TypeMirror>, b: seq<TypeMirror>, className: string)
    ensures FirstOfClass(a + b, className)
            == if FirstOfClass(a, className).Some? then FirstOfClass(a, className) else FirstOfClass(b, className)
  {
    if a != [] {
      assert (a + b)[1..] == a[1..] + b;
      FirstOfClassAppend(a[1..], b, className);
    } else {
      assert a + b == b;
    }
  }

  /** The hierarchy lookup is the first type of the class in depth-first preorder. */
  lemma {:induction false} HierarchyLookupIsPreorderFirst(t: TypeMirror, className: string)
    ensures DeclaredTypeFromHierarchy(t, className) == FirstOfClass(Preorder(t), className)
    decreases Size(t), 1
  {
    FirstOfClassAppend([t], PreorderAll(DirectSupertypes(t)), className);
    if !IsSameClass(t, className) {
      SupertypesLookupIsPreorderFirst(DirectSupertypes(t), className);
    }
  }

  lemma {:induction false} SupertypesLookupIsPreorderFirst(supertypes: seq<TypeMirror>, className: string)
    ensures DeclaredTypeFromSupertypes(supertypes, className) == FirstOfClass(PreorderAll(supertypes), className)
    decreases SizeAll(supertypes), 0
  {
    if supertypes != [] {
      var s := supertypes[0];
      HierarchyLookupIsPreorderFirst(s, className);
      SupertypesLookupIsPreorderFirst(supertypes[1..], className);
      FirstOfClassAppend(Preorder(s), PreorderAll(supertypes[1..]), className);
      FirstOfClassAppend([s], PreorderAll(DirectSupertypes(s)), className);
    }
  }

  /** The lookup finds a type exactly when the type is assignable to the class. */
  lemma {:induction false} HierarchyLookupFindsAssignable(t: TypeMirror, className: string)
    ensures DeclaredTypeFromHierarchy(t, className).Some? <==> IsAssignable(t, className)
    decreases Size(t), 1
  {
    if !IsSameClass(t, className) {
      SupertypesLookupFindsAssignable(DirectSupertypes(t), className);
    }
  }

  lemma {:induction false} SupertypesLookupFindsAssignable(supertypes: seq<TypeMirror>, className: string)
    ensures DeclaredTypeFromSupertypes(supertypes, className).Some? <==> AnyAssignable(supertypes, className)
    decreases SizeAll(supertypes), 0
  {
    if supertypes != [] {
      HierarchyLookupFindsAssignable(supertypes[0], className);
      SupertypesLookupFindsAssignable(supertypes[1..], className);
    }
  }
}
