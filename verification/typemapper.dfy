/**
 * `FieldGenerator.getFieldType(TypeMirror)`: the client-side type category of
 * a Java type, or `None` (Java: `null`) where it has none.
 */
module TypeMapper {
  import opened Wrappers
  import opened Elements

  /**
   * The category of a native type. A DECLARED type is unboxed and mapped
   * again; the unboxed type is always primitive, so the recursion stops there.
   * The result is determined by the primitive kind the type denotes: boolean
   * for boolean, int for the integral kinds, float for the floating-point
   * kinds, and nothing for a type that denotes no primitive.
   */
  function FieldType(t: TypeKind): (r: Option<string>)
    decreases if t.Declared? then 1 else 0
    ensures r.Some? <==> Unboxed(t).Some?
    ensures r == Some("boolean") <==> Unboxed(t) == Some(Boolean)
    ensures r == Some("int") <==> Unboxed(t).Some? && IsIntegral(Unboxed(t).value)
    ensures r == Some("float") <==> Unboxed(t).Some? && IsFloatingPoint(Unboxed(t).value)
    ensures r.Some? ==> r.value == "boolean" || r.value == "int" || r.value == "float"
  {
    match t
    case Primitive(Boolean) => Some("boolean")
    case Primitive(Byte) => Some("int")
    case Primitive(Short) => Some("int")
    case Primitive(Int) => Some("int")
    case Primitive(Long) => Some("int")
    case Primitive(Char) => Some("int")
    case Primitive(Float) => Some("float")
    case Primitive(Double) => Some("float")
    case Declared(unboxed) =>
      (match unboxed
       case Some(p) => FieldType(Primitive(p))
       case None => None)
    case _ => None
  }

  /** A wrapper class maps exactly as the primitive it unboxes to. */
  lemma BoxedMapsAsPrimitive(p: PrimitiveKind)
    ensures FieldType(Declared(Some(p))) == FieldType(Primitive(p))
    ensures FieldType(Declared(Some(p))).Some?
  {
  }

  /** A declared type that cannot be unboxed has no category. */
  lemma UnboxableMapsToNone(t: TypeKind)
    requires t.Declared? && t.unboxed.None?
    ensures FieldType(t) == None
  {
  }

  /**
   * The category depends only on the primitive a type denotes: two types
   * that unbox to the same primitive (or both to none) map alike.
   */
  lemma MappingFactorsThroughUnboxing(s: TypeKind, t: TypeKind)
    requires Unboxed(s) == Unboxed(t)
    ensures FieldType(s) == FieldType(t)
  {
  }
}
