/**
 * The two annotations a source author writes: `@Field` on a field and
 * `@Model` on a class. An annotation instance is a plain record; where the Java
 * code asks an element for `getAnnotation(...)` and receives `null`, the model
 * carries `None` instead.
 */
module Annotations {

  /** `Field.Required`: whether a field must be present, or DEFAULT to infer it. */
  datatype Required = Default | False | True

  /** `Enum.toString()` of a `Required` constant: its declared name. */
  function RequiredName(r: Required): string {
    match r
    case Default => "DEFAULT"
    case False => "FALSE"
    case True => "TRUE"
  }

  /**
   * The members of `@Field`. An empty `name` means "use the declared name",
   * an empty `fieldType` (Java: `type()`) means "infer from the native type".
   */
  datatype FieldMeta = FieldMeta(name: string, fieldType: string, required: Required, exclude: bool)

  /** `@Field` written with no arguments: every member at its declared default. */
  const DefaultFieldMeta := FieldMeta("", "", Default, false)

  /** The members of `@Model`. */
  datatype ModelMeta = ModelMeta(prefix: string, suffix: string, dir: string, namespace: string)

  /**
   * `@Model(dir = ..., namespace = ...)`: the two members without a default
   * must be given, the other two take their declared defaults.
   */
  function ModelMetaWith(dir: string, namespace: string): (m: ModelMeta) {
    ModelMeta("Abstract", "", dir, namespace)
  }
}
