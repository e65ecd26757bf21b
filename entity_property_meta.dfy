/**
 * `EntityPropertyMeta`: what the annotation processor knows about one persistent field
 * of an entity class: its property name, its compile-time type description, the prefix
 * of the generated field, and whether it is an identifier or a version.
 */
module EntityMeta {
  import opened Wrappers
  import opened TypeModel
  import opened AbstractCtTypes
  import opened CtTypes

  class EntityPropertyMeta {
    const name: string
    const ctType: CtType
    const fieldPrefix: string
    var id: bool
    var version: bool

    /** A property that is neither identifier nor version until told otherwise. */
    constructor (name: string, ctType: CtType, fieldPrefix: string)
      ensures this.name == name && this.ctType == ctType && this.fieldPrefix == fieldPrefix
      ensures !id && !version
    {
      this.name := name;
      this.ctType := ctType;
      this.fieldPrefix := fieldPrefix;
      id := false;
      version := false;
    }

    /** The generated field: the prefix, then the property name. */
    function FieldName(): (r: string)
      ensures |r| == |fieldPrefix| + |name|
      ensures r[..|fieldPrefix|] == fieldPrefix && r[|fieldPrefix|..] == name
    {
      fieldPrefix + name
    }

    /** Marking the identifier leaves the version flag alone. */
    method SetId(id: bool)
      modifies this`id
      ensures this.id == id && version == old(version)
    {
      this.id := id;
    }

    /** Marking the version leaves the identifier flag alone. */
    method SetVersion(version: bool)
      modifies this`version
      ensures this.version == version && id == old(id)
    {
      this.version := version;
    }

    /** Whether the property holds an embeddable value. */
    function IsEmbedded(): (r: bool)
      ensures r <==> ctType.EmbeddableCtType?
    {
      match ctType
      case EmbeddableCtType(_, _) => true
      case _ => false
    }

    /** The description class of the embeddable; any other property is an illegal state. */
    function EmbeddableDescClassName(): (r: Result<string, AptError>)
      ensures r.Ok? <==> IsEmbedded()
      ensures r.Ok? ==> r.value == ctType.descClassName
      ensures r.Err? ==> r.error == IllegalState("getEmbeddableDescClassName")
    {
      match ctType
      case EmbeddableCtType(_, descClassName) => Ok(descClassName)
      case _ => Err(IllegalState("getEmbeddableDescClassName"))
    }
  }

  /** The field name gives back the property name once the prefix is cut off. */
  lemma FieldNameStripsToName(p: EntityPropertyMeta, q: EntityPropertyMeta)
    requires p.fieldPrefix == q.fieldPrefix && p.FieldName() == q.FieldName()
    ensures p.name == q.name
  {
    assert p.name == p.FieldName()[|p.fieldPrefix|..];
  }

  /**
   * A property whose type the embeddable factory recognised is embedded, and its
   * description class is the one the embeddable class declares.
   */
  lemma EmbeddableFactoryMakesEmbeddedProperty(ctx: Context, t: TypeMirror, p: EntityPropertyMeta)
    requires NewEmbeddableCtType(ctx, t).Ok? && NewEmbeddableCtType(ctx, t).value.Some?
    requires p.ctType == NewEmbeddableCtType(ctx, t).value.value
    ensures p.IsEmbedded()
    ensures p.EmbeddableDescClassName() == Ok(ctx.embeddables[ToTypeElement(t).value.qualifiedName])
  {
  }

  /** A property of basic type is not embedded, and asking for its description class is an illegal state. */
  lemma BasicPropertyIsNotEmbedded(ctx: Context, t: TypeMirror, p: EntityPropertyMeta)
    requires NewBasicCtType(ctx, t).value.Some?
    requires p.ctType == NewBasicCtType(ctx, t).value.value
    ensures !p.IsEmbedded()
    ensures p.EmbeddableDescClassName() == Err(IllegalState("getEmbeddableDescClassName"))
  {
  }
}
