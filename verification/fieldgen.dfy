/**
 * `FieldGenerator`: one enclosed element plus its optional `@Field`
 * annotation becomes a field descriptor, or nothing.
 */
module FieldGenerator {
  import opened Wrappers
  import opened JavaLang
  import opened Annotations
  import opened Elements
  import TypeMapper

  /** `FieldData`: a render-ready field. `fieldType` is `None` for Java's `null`. */
  datatype FieldData = FieldData(name: string, fieldType: Option<string>, presence: bool)

  /** The element's `@Field` has `exclude = true`. */
  predicate Excluded(m: Member) {
    m.field.Some? && m.field.value.exclude
  }

  /** `isGenerable()`: an instance field that is not excluded. */
  predicate IsGenerable(m: Member) {
    m.kind == Field && !m.isStatic && !Excluded(m)
  }

  /** `getFieldName()`: a non-empty `name` override, else the declared name. */
  function FieldName(m: Member): (name: string) {
    if m.field.Some? && m.field.value.name != "" then m.field.value.name else m.simpleName
  }

  /** `getFieldType()`: a non-empty `type` override verbatim, else the mapped native type. */
  function ResolvedType(m: Member): (category: Option<string>) {
    if m.field.Some? && m.field.value.fieldType != "" then Some(m.field.value.fieldType)
    else TypeMapper.FieldType(m.asType)
  }

  /**
   * `isPresence()`: an explicit `required` is read back through its constant
   * name, lower-cased and parsed as a boolean; DEFAULT or no annotation falls
   * back to whether the native type is primitive.
   */
  function IsPresence(m: Member): (r: bool)
    ensures m.field.Some? && m.field.value.required != Default ==> (r <==> m.field.value.required == True)
  {
    if m.field.Some? && m.field.value.required != Default then
      RequiredParsesBack(m.field.value.required);
      BooleanValueOf(ToLowerCase(RequiredName(m.field.value.required)))
    else
      IsPrimitive(m.asType)
  }

  /** The string round trip of `isPresence()` reads TRUE as true and FALSE as false. */
  lemma RequiredParsesBack(r: Required)
    requires r != Default
    ensures BooleanValueOf(ToLowerCase(RequiredName(r))) <==> r == True
  {
  }

  /**
   * `generate()`: nothing for an element that is not an instance field or is
   * excluded; otherwise a descriptor whose name is the non-empty override or
   * the declared name, whose type is the non-empty override or the category
   * of the native type, and whose presence is the explicit `required` or,
   * failing that, whether the native type is primitive.
   */
  function Generate(m: Member): (r: Option<FieldData>)
    ensures r.None? <==> m.kind != Field || m.isStatic || Excluded(m)
    ensures r.Some? && m.field.Some? && m.field.value.name != "" ==> r.value.name == m.field.value.name
    ensures r.Some? && (m.field.None? || m.field.value.name == "") ==> r.value.name == m.simpleName
    ensures r.Some? && m.field.Some? && m.field.value.fieldType != "" ==> r.value.fieldType == Some(m.field.value.fieldType)
    ensures r.Some? && (m.field.None? || m.field.value.fieldType == "") ==>
              r.value.fieldType == TypeMapper.FieldType(m.asType)
    ensures r.Some? && (m.field.None? || m.field.value.fieldType == "") ==>
              (r.value.fieldType.Some? <==> Unboxed(m.asType).Some?)
    ensures r.Some? && m.field.Some? && m.field.value.required == True ==> r.value.presence
    ensures r.Some? && m.field.Some? && m.field.value.required == False ==> !r.value.presence
    ensures r.Some? && (m.field.None? || m.field.value.required == Default) ==>
              (r.value.presence <==> m.asType.Primitive?)
  {
    if !IsGenerable(m) then None
    else Some(FieldData(FieldName(m), ResolvedType(m), IsPresence(m)))
  }

  /** A field whose `@Field` has `exclude = true` never yields a descriptor. */
  lemma ExcludedYieldsNothing(m: Member)
    requires m.field.Some? && m.field.value.exclude
    ensures Generate(m) == None
  {
  }

  /** `@Field` with every member at its default acts exactly like no annotation. */
  lemma DefaultAnnotationIsNoAnnotation(m: Member)
    ensures Generate(m.(field := Some(DefaultFieldMeta))) == Generate(m.(field := None))
  {
  }

  /**
   * Presence ignores the `type` override: changing only the override leaves
   * presence as it was, while the descriptor's type follows the override.
   */
  lemma PresenceIgnoresTypeOverride(m: Member, f: FieldMeta, t: string)
    requires IsGenerable(m.(field := Some(f)))
    ensures Generate(m.(field := Some(f.(fieldType := t)))).Some?
    ensures Generate(m.(field := Some(f.(fieldType := t)))).value.presence
            == Generate(m.(field := Some(f))).value.presence
  {
  }

  /** An explicit `required` decides presence whatever the native type and type override are. */
  lemma ExplicitRequiredWins(m: Member, f: FieldMeta, t: TypeKind)
    requires f.required != Default && IsGenerable(m.(field := Some(f)))
    ensures Generate(m.(field := Some(f), asType := t)).Some?
    ensures Generate(m.(field := Some(f), asType := t)).value.presence <==> f.required == True
  {
  }

  /** A boxed `Integer` field without annotation is typed "int" yet not required. */
  lemma BoxedIntegerIsOptional(name: string)
    ensures Generate(Member(Field, false, name, Declared(Some(Int)), None))
            == Some(FieldData(name, Some("int"), false))
  {
  }
}
