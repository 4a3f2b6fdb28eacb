# SenchaModelGen metadata normalisation, modelled in Dafny

SenchaModelGen is a Java annotation processor. For every class annotated
with `@Model` it writes a Sencha (Ext JS) model file whose fields are
described by the class's own fields and their optional `@Field`
annotations. This project models the part of the processor that decides
what goes into that file:

- the **type mapper** (`getFieldType(TypeMirror)`), which sorts a Java type into `boolean`, `int`, `float` or `null`;
- the **field descriptor builder** (`FieldGenerator`), which applies the field gate and resolves name, type and presence;
- the **model descriptor builder** (`ModelGenerator`), which applies the class gate, builds the class, file and namespace-qualified names, and collects the field descriptors in declaration order;
- the **driver** (`process`), which runs the builder over every annotated type and isolates per-type failures.

It also models the two annotations, `@Field` (with its `Required` tri-state
DEFAULT / FALSE / TRUE) and `@Model`, together with their defaults.

The compiler's reflection objects are replaced by plain datatypes
(`elements.dfy`). A `TypeKind` is a primitive kind, a DECLARED type, or one
of the other kinds. A DECLARED type carries the result of
`Types.unboxedType`: the primitive of a wrapper class, or `None` where
unboxing throws. A `Member` is an enclosed element with its kind, `static`
flag, simple name, type and optional `@Field`. A `TypeDecl` has a kind, an
`abstract` flag, a simple name and its enclosed elements in source order.
Java's `null` is `Option.None`.

Files: `wrappers.dfy` (Option), `javalang.dfy` (`toLowerCase`,
`Boolean.valueOf`), `annotations.dfy`, `elements.dfy`, `typemapper.dfy`,
`fieldgen.dfy`, `modelgen.dfy`, `processor.dfy`.

Three details of the code are easy to miss:

- The record handed to the template stores the namespace-qualified name in its `className` member (`getAbsoluteName()`, line 194). The file name, however, is built from the bare class name.
- `ElementFilter.fieldsIn` also yields enum constants. The field gate then drops them, because they are not of kind FIELD (and they are static).
- An explicit `required` is turned into presence by lower-casing the constant's name and parsing it with `Boolean.valueOf`. `FieldGenerator.RequiredParsesBack` proves that this string round trip reads TRUE as true and FALSE as false.

## Model

| member | source | states |
|---|---|---|
| TypeMapper.FieldType | src/main/java/localhost/apt/SenchaModelGen.java:269-295 | a type has a category exactly when it denotes a primitive, directly or by unboxing; the category is "boolean" for boolean, "int" exactly for the integral kinds (byte, short, int, long, char) and "float" exactly for float and double; no other string is ever produced |
| TypeMapper.BoxedMapsAsPrimitive | src/main/java/localhost/apt/SenchaModelGen.java:286-291 | a wrapper type maps to the same, non-null, category as the primitive it unboxes to |
| TypeMapper.UnboxableMapsToNone | src/main/java/localhost/apt/SenchaModelGen.java:286-291 | a declared type that cannot be unboxed maps to null |
| TypeMapper.MappingFactorsThroughUnboxing | src/main/java/localhost/apt/SenchaModelGen.java:269-295 | two types that unbox to the same primitive, or to none, always get the same category |
| Elements.FieldsIn | src/main/java/localhost/apt/SenchaModelGen.java:198-199 | `fieldsIn` never returns more elements than it was given |
| Elements.FieldsInSelects | src/main/java/localhost/apt/SenchaModelGen.java:198-199 | an element is in the result of `fieldsIn` exactly when it was among the enclosed elements and is of kind FIELD or ENUM_CONSTANT |
| JavaLang.ToLowerCase | src/main/java/localhost/apt/SenchaModelGen.java:307 | `toLowerCase` keeps the length and lowers each character on its own (ASCII letters only, see below) |
| FieldGenerator.RequiredParsesBack | src/main/java/localhost/apt/SenchaModelGen.java:306-307 | for TRUE and FALSE, lower-casing the constant's name and parsing it as a boolean gives true exactly for TRUE |
| FieldGenerator.IsPresence | src/main/java/localhost/apt/SenchaModelGen.java:305-310 | an explicit `required` other than DEFAULT decides presence: true exactly for TRUE |
| FieldGenerator.Generate | src/main/java/localhost/apt/SenchaModelGen.java:251-323 | no descriptor exactly when the element is not a FIELD, is static or is excluded. Otherwise: the name is the non-empty override, else the declared name; the type is the non-empty override verbatim, else exactly the mapper's category for the native type (so present exactly when the native type denotes a primitive); TRUE/FALSE force presence; with DEFAULT or no annotation, presence holds exactly for primitive native types |
| FieldGenerator.ExcludedYieldsNothing | src/main/java/localhost/apt/SenchaModelGen.java:319-321 | a field whose `@Field` has `exclude = true` yields no descriptor |
| FieldGenerator.DefaultAnnotationIsNoAnnotation | src/main/java/localhost/annotation/Field.java:17-23 | a field annotated `@Field` with all defaults gets the same result as the same field without the annotation |
| FieldGenerator.PresenceIgnoresTypeOverride | src/main/java/localhost/apt/SenchaModelGen.java:305-310 | changing only the `type` override of an accepted field leaves its presence unchanged |
| FieldGenerator.ExplicitRequiredWins | src/main/java/localhost/apt/SenchaModelGen.java:305-308 | with `required` TRUE or FALSE, presence is that value whatever the native type |
| FieldGenerator.BoxedIntegerIsOptional | src/main/java/localhost/apt/SenchaModelGen.java:286-310 | an unannotated `Integer` field gets type "int" and presence false |
| ModelGenerator.Descriptors | src/main/java/localhost/apt/SenchaModelGen.java:197-210 | the field list never has more entries than the fields it was built from |
| ModelGenerator.DescriptorsStemFromAcceptedFields | src/main/java/localhost/apt/SenchaModelGen.java:201-207 | every descriptor in the list was produced by a field that is a FIELD, not static and not excluded |
| ModelGenerator.DescriptorsAppend | src/main/java/localhost/apt/SenchaModelGen.java:201-207 | the list for two runs of fields is the first run's list followed by the second's, so declaration order is kept |
| ModelGenerator.DescriptorsSnoc | src/main/java/localhost/apt/SenchaModelGen.java:203-206 | one more field appends its descriptor at the end of the list when the gate accepts it, and leaves the list unchanged otherwise |
| ModelGenerator.RejectedFieldLeavesNoTrace | src/main/java/localhost/apt/SenchaModelGen.java:201-207 | inserting a field that fails the gate (static, excluded, not a field) anywhere leaves the list unchanged |
| ModelGenerator.AcceptedFieldKeepsItsPlace | src/main/java/localhost/apt/SenchaModelGen.java:201-207 | a field that passes the gate contributes exactly its descriptor, between the lists of the fields before and after it |
| ModelGenerator.AllAcceptedMapsOneForOne | src/main/java/localhost/apt/SenchaModelGen.java:197-210 | when every field passes the gate, the list has one descriptor per field, position by position |
| ModelGenerator.FieldsInChangesNothing | src/main/java/localhost/apt/SenchaModelGen.java:198-203 | filtering with `fieldsIn` first yields the same list as running the field builder over all enclosed elements |
| ModelGenerator.CollectFields | src/main/java/localhost/apt/SenchaModelGen.java:197-210 | the Java loop over `fieldsIn`, appending each non-null descriptor, builds the declaration-ordered list of the enclosed elements, no longer than the element list |
| ModelGenerator.Generate | src/main/java/localhost/apt/SenchaModelGen.java:178-195 | no model exactly for a non-CLASS or abstract declaration; a model copies `dir` from the metadata and carries the given moment as its date |
| ModelGenerator.GenerateBuildsDescriptor | src/main/java/localhost/apt/SenchaModelGen.java:188-232 | for a concrete class: the file name is prefix + simple name + suffix + ".js"; the class-name member is namespace + "." + that class name, or the bare class name when the namespace is empty; the fields are the descriptors of all enclosed elements, in order |
| ModelGenerator.FileNameStripsToClassName | src/main/java/localhost/apt/SenchaModelGen.java:222-224 | the file name is the class name followed by ".js", and dropping those three characters gives the class name back |
| ModelGenerator.AbsoluteNameSplits | src/main/java/localhost/apt/SenchaModelGen.java:212-216 | the absolute name ends with the class name, preceded by the namespace and a dot, or by nothing when the namespace is empty |
| ModelGenerator.DefaultAffixes | src/main/java/localhost/annotation/Model.java:13-15 | with the default prefix and suffix, the class name is "Abstract" followed by the simple name |
| ModelGenerator.DefaultNamesForUser | src/main/java/localhost/apt/SenchaModelGen.java:212-232 | with the defaults, `User` becomes `AbstractUser`, and namespace "app.models" gives `app.models.AbstractUser` |
| ModelGenerator.UserExample | src/main/java/localhost/apt/SenchaModelGen.java:188-210 | class `User` with `int age` and `@Field(required = TRUE) String name`, prefix "", suffix "Model", namespace "app", gives `app.UserModel` in `UserModel.js`, with fields age:"int":true and name:null:true |
| ModelGenerator.DuplicateNamesKept | src/main/java/localhost/apt/SenchaModelGen.java:197-210 | two accepted fields overriding their names to the same string both stay in the list; no uniqueness is enforced |
| Processor.ProcessType | src/main/java/localhost/apt/SenchaModelGen.java:51-60 | a type is skipped exactly when the class gate rejects it, and a failure is always reported against the type being handled |
| Processor.ProcessTypeOutcome | src/main/java/localhost/apt/SenchaModelGen.java:51-60 | a type is skipped exactly when the class gate rejects it; otherwise its model goes to the writer, and the outcome is the path written or a failure reported against that type with the writer's message |
| Processor.Diagnostics | src/main/java/localhost/apt/SenchaModelGen.java:55-60 | a run of types sends at most one message per type |
| Processor.DiagnosticsSnoc | src/main/java/localhost/apt/SenchaModelGen.java:46-62 | handling one more type appends exactly that type's messages to those already sent |
| Processor.DiagnosticsAreAttributed | src/main/java/localhost/apt/SenchaModelGen.java:55-60 | every error sent carries the message of some failed type and names that very type; every note names the path written for some generated type |
| Processor.DiagnosticsCount | src/main/java/localhost/apt/SenchaModelGen.java:55-60 | the number of messages equals the number of types that were not skipped: one per type that reached the writer, none for a skipped type |
| Processor.ProcessTypes | src/main/java/localhost/apt/SenchaModelGen.java:46-62 | every type gets, in order, exactly the outcome the per-type step gives it for the writer's answer on that type; a failure never stops the loop, and the messages are those outcomes' messages in order |
| Processor.Process | src/main/java/localhost/apt/SenchaModelGen.java:42-65 | if setup fails, its error is the only message and no type is handled; otherwise every type is handled as in `ProcessTypes`. The round always returns true |

## Left out

- Template loading and compilation (`setup`, lines 67-78) is a third-party library call. Its result enters `Processor.Process` as the `Setup` parameter.
- Writing the file (`write`, lines 80-93) is filesystem I/O: creating the directory, opening the file and applying the template. It enters as the `write` parameter, a function from the model record to either the path written or the exception's message.
- `Messager` output (lines 96-106) is modelled only as the sequence of `Diagnostic` values. `e.toString()` is whatever message the failing collaborator supplies.
- `new Date()` (line 194) reads the clock. The driver takes a `clock` parameter that gives the timestamp for the type at each position.
- The `javax.lang.model` reflection API (`RoundEnvironment`, `getAnnotation`, `ElementFilter`, `Types.unboxedType`) is replaced by the datatypes in `elements.dfy`. The only library behaviour kept is `fieldsIn`'s filter.
- File-system state carried from one type to the next is not modelled. The writer is a stateless function of the model record. In Java, two types with the same `dir` and class name (say `p1.User` and `p2.User`) write the same file, and the second silently overwrites the first though both send a note. A file written for one type can also make a later type's `mkdirs` or open fail. The model covers such cases only through whatever answer the `write` parameter gives for each record.
- The outer loop over `annotations` (line 46) is flattened into one sequence of annotated types, because the processor declares a single supported annotation type.
- `assert element instanceof TypeElement` (line 48) is left out: `@Model` can only be placed on types.
- An `@Model`-discovered type whose `getAnnotation` returned null is left out, and so is any other exception raised before `write`. The type is assumed to carry its annotation, since discovery found it by that annotation, so the only per-type failures modelled are the writer's.
- The `@Retention`, `@Target` and `@Inherited` meta-annotations are compiler configuration.
- JavaLang.ToLowerCase: covers ASCII letters only, not Java's locale-sensitive Unicode lowering. It is applied only to the constant names DEFAULT, FALSE and TRUE.
