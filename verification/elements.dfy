/**
 * The facts about the compiled program that the generator reads through
 * `javax.lang.model`, as plain data: the kind of a type, the kind of an
 * element, and the declarations themselves.
 */
module Elements {
  import opened Wrappers
  import opened Annotations

  /** The primitive members of `javax.lang.model.type.TypeKind`. */
  datatype PrimitiveKind = Boolean | Byte | Short | Int | Long | Char | Float | Double

  /**
   * `javax.lang.model.type.TypeKind`. A DECLARED type carries what
   * `Types.unboxedType` yields for it: the primitive kind of a wrapper class
   * such as `Integer`, or `None` where `unboxedType` throws
   * `IllegalArgumentException` (a `String`, a `List`, ...).
   */
  datatype TypeKind =
    | Primitive(primitive: PrimitiveKind)
    | Declared(unboxed: Option<PrimitiveKind>)
    | Void | NoneType | NullType | ArrayType | ErrorType | TypeVar | Wildcard
    | PackageType | Executable | OtherType | Union | Intersection

  /** `TypeKind.isPrimitive()`: true for the eight primitive kinds only. */
  predicate IsPrimitive(t: TypeKind) {
    t.Primitive?
  }

  /** The integral types of the Java language: byte, short, int, long and char. */
  predicate IsIntegral(p: PrimitiveKind) {
    p == Byte || p == Short || p == Int || p == Long || p == Char
  }

  /** The floating-point types of the Java language: float and double. */
  predicate IsFloatingPoint(p: PrimitiveKind) {
    p == Float || p == Double
  }

  /**
   * The primitive kind a type denotes once wrapper classes are unwrapped:
   * a primitive denotes itself, a wrapper its primitive, anything else none.
   */
  function Unboxed(t: TypeKind): Option<PrimitiveKind> {
    match t
    case Primitive(p) => Some(p)
    case Declared(u) => u
    case _ => None
  }

  /** `javax.lang.model.element.ElementKind`. */
  datatype ElementKind =
    | Package | Enum | Class | AnnotationType | Interface
    | EnumConstant | Field | Parameter | LocalVariable | ExceptionParameter
    | Method | Constructor | StaticInit | InstanceInit | TypeParameter
    | OtherElement | ResourceVariable

  /**
   * An element enclosed by a type declaration: its kind, whether it carries
   * the `static` modifier, its simple name, its type (`asType()`), and its
   * `@Field` annotation if any.
   */
  datatype Member = Member(kind: ElementKind, isStatic: bool, simpleName: string,
                           asType: TypeKind, field: Option<FieldMeta>)

  /**
   * A type declaration: its kind, whether it carries the `abstract` modifier,
   * its simple name, and its directly enclosed elements in source order.
   */
  datatype TypeDecl = TypeDecl(kind: ElementKind, isAbstract: bool, simpleName: string,
                               enclosed: seq<Member>)

  /**
   * `ElementFilter.fieldsIn`: the enclosed elements of kind FIELD or
   * ENUM_CONSTANT, in their original order.
   */
  function FieldsIn(elements: seq<Member>): (r: seq<Member>)
    ensures |r| <= |elements|
  {
    if |elements| == 0 then []
    else
      var rest := FieldsIn(elements[1..]);
      if elements[0].kind == Field || elements[0].kind == EnumConstant then [elements[0]] + rest else rest
  }

  /** `fieldsIn` keeps exactly the elements of kind FIELD or ENUM_CONSTANT. */
  lemma {:induction false} FieldsInSelects(elements: seq<Member>)
    ensures forall m :: m in FieldsIn(elements) <==> m in elements && (m.kind == Field || m.kind == EnumConstant)
    decreases |elements|
  {
    if |elements| > 0 {
      FieldsInSelects(elements[1..]);
      assert elements == [elements[0]] + elements[1..];
    }
  }
}
