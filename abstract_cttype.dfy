/**
 * `AbstractCtType`: what every compile-time type description computes once, when it is
 * constructed, from the type it describes: its name, its element, its qualified name and
 * three flags about its type arguments.
 */
module AbstractCtTypes {
  import opened Wrappers
  import opened TypeModel

  /** Exceptions of the annotation processor, by message code. */
  datatype AptError =
    | Doma4200(className: string)
    | Doma4201(className: string)
    | IllegalState(message: string)
    | AssertionFailure

  /** The final fields the constructor sets. */
  datatype CtAttributes = CtAttributes(
    typeMirror: TypeMirror,
    typeName: string,
    typeElement: Option<TypeElement>,
    qualifiedName: string,
    isRawType: bool,
    hasWildcardType: bool,
    hasTypevarType: bool)

  /** Whether some type in `ts` has the kind (`anyMatch` over the type arguments). */
  function AnyOfKind(ts: seq<TypeMirror>, kind: TypeKind): (r: bool)
    ensures r <==> exists i :: 0 <= i < |ts| && KindOf(ts[i]) == kind
  {
    if ts == [] then false
    else
      assert forall i :: 0 < i < |ts| ==> ts[i] == ts[1..][i - 1];
      KindOf(ts[0]) == kind || AnyOfKind(ts[1..], kind)
  }

  /** `matchTypeArguments`: false without a declared type, otherwise whether an argument has the kind. */
  function MatchTypeArguments(declaredType: Option<TypeMirror>, kind: TypeKind): (r: bool)
    requires declaredType.Some? ==> declaredType.value.Declared?
    ensures r <==> declaredType.Some? && exists i :: 0 <= i < |declaredType.value.typeArguments|
                                                    && KindOf(declaredType.value.typeArguments[i]) == kind
  {
    declaredType.Some? && AnyOfKind(declaredType.value.typeArguments, kind)
  }

  /**
   * `isRawType`: the element declares type parameters and the declared type has no
   * arguments. A generic element whose type is not a declared type is an illegal state.
   */
  function IsRawType(t: TypeMirror, typeElement: Option<TypeElement>): (r: Result<bool, AptError>)
    ensures r.Err? <==> typeElement.Some? && typeElement.value.typeParameters != [] && !t.Declared?
    ensures r.Err? ==> r.error == IllegalState(TypeName(t))
    ensures r.Ok? ==> (r.value <==> typeElement.Some? && typeElement.value.typeParameters != []
                                     && t.Declared? && t.typeArguments == [])
  {
    if typeElement.Some? && typeElement.value.typeParameters != [] then
      match ToDeclaredType(t)
      case None => Err(IllegalState(TypeName(t)))
      case Some(d) => Ok(d.typeArguments == [])
    else Ok(false)
  }

  /** The constructor's derivation of the final fields. */
  function Derive(t: TypeMirror): (r: Result<CtAttributes, AptError>)
    ensures r.Err? <==> t.ErrorType? && t.errorElement.typeParameters != []
    ensures r.Err? ==> r.error == IllegalState(TypeName(t))
    ensures r.Ok? ==> r.value.typeMirror == t && r.value.typeName == TypeName(t)
                      && r.value.typeElement == ToTypeElement(t)
    ensures r.Ok? && r.value.typeElement.None? ==> r.value.qualifiedName == r.value.typeName
    ensures r.Ok? && r.value.typeElement.Some? ==> r.value.qualifiedName == r.value.typeElement.value.qualifiedName
    ensures r.Ok? ==> (r.value.isRawType <==> t.Declared? && t.element.typeParameters != [] && t.typeArguments == [])
    ensures r.Ok? ==> (r.value.hasWildcardType <==> t.Declared? && exists i :: 0 <= i < |t.typeArguments|
                                                                    && KindOf(t.typeArguments[i]) == WildcardKind)
    ensures r.Ok? ==> (r.value.hasTypevarType <==> t.Declared? && exists i :: 0 <= i < |t.typeArguments|
                                                                   && KindOf(t.typeArguments[i]) == TypeVarKind)
  {
    var typeName := TypeName(t);
    var typeElement := ToTypeElement(t);
    var qualifiedName := if typeElement.None? then typeName else typeElement.value.qualifiedName;
    var isRawType :- IsRawType(t, typeElement);
    if isRawType then
      Ok(CtAttributes(t, typeName, typeElement, qualifiedName, true, false, false))
    else
      var declaredType := ToDeclaredType(t);
      Ok(CtAttributes(t, typeName, typeElement, qualifiedName, false,
                      MatchTypeArguments(declaredType, WildcardKind), MatchTypeArguments(declaredType, TypeVarKind)))
  }

  /** A raw type has neither wildcard nor type-variable arguments. */
  lemma RawTypeHasNoArgumentFlags(t: TypeMirror)
    requires Derive(t).Ok? && Derive(t).value.isRawType
    ensures !Derive(t).value.hasWildcardType && !Derive(t).value.hasTypevarType
  {
  }

  /** Only an unresolved type of a generic class makes the derivation fail; every resolved type is described. */
  lemma DeriveFailsOnlyOnUnresolvedGenerics(t: TypeMirror)
    requires !t.ErrorType?
    ensures Derive(t).Ok?
  {
  }
}
