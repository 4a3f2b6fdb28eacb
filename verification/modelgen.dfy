/**
 * `ModelGenerator`: one `@Model` class becomes a model descriptor holding its
 * output location, its names and the descriptors of its fields.
 */
module ModelGenerator {
  import opened Wrappers
  import opened Annotations
  import opened Elements
  import FG = FieldGenerator

  /** The `java.util.Date` a descriptor is stamped with; the clock itself is outside the model. */
  datatype Timestamp = Timestamp(millis: int)

  /**
   * `ModelData`. As in the Java code, `className` holds the namespace-qualified
   * name (`getAbsoluteName()`), while `fileName` is built from the bare class name.
   */
  datatype ModelData = ModelData(dir: string, fileName: string, className: string,
                                 fields: seq<FG.FieldData>, date: Timestamp)

  /** `isGenerable()`: a plain class without the `abstract` modifier. */
  predicate IsGenerable(d: TypeDecl) {
    d.kind == Class && !d.isAbstract
  }

  /** `getClassName()`: prefix, simple name and suffix joined. */
  function ClassName(meta: ModelMeta, d: TypeDecl): (name: string) {
    meta.prefix + d.simpleName + meta.suffix
  }

  /** `getFileName()`: the class name with the `.js` extension. */
  function FileName(meta: ModelMeta, d: TypeDecl): (name: string) {
    ClassName(meta, d) + ".js"
  }

  /** `getAbsoluteName()`: the class name behind the namespace and a dot, or alone when the namespace is empty. */
  function AbsoluteName(meta: ModelMeta, d: TypeDecl): (name: string) {
    meta.namespace + (if meta.namespace == "" then "" else ".") + ClassName(meta, d)
  }

  /**
   * The non-null results of `FieldGenerator.generate()` over `fields`, in
   * order; never more descriptors than fields.
   */
  function Descriptors(fields: seq<Member>): (r: seq<FG.FieldData>)
    ensures |r| <= |fields|
  {
    if |fields| == 0 then []
    else
      var rest := Descriptors(fields[1..]);
      match FG.Generate(fields[0])
      case Some(d) => [d] + rest
      case None => rest
  }

  /**
   * Every descriptor in the list was produced by a field that passes the
   * gate: a FIELD, not static, not excluded.
   */
  lemma {:induction false} DescriptorsStemFromAcceptedFields(fields: seq<Member>)
    ensures forall d :: d in Descriptors(fields) ==>
              exists i :: 0 <= i < |fields| && FG.IsGenerable(fields[i]) && FG.Generate(fields[i]) == Some(d)
    decreases |fields|
  {
    if |fields| > 0 {
      DescriptorsStemFromAcceptedFields(fields[1..]);
      forall d | d in Descriptors(fields)
        ensures exists i :: 0 <= i < |fields| && FG.IsGenerable(fields[i]) && FG.Generate(fields[i]) == Some(d)
      {
        if d in Descriptors(fields[1..]) {
          var j :| 0 <= j < |fields[1..]| && FG.IsGenerable(fields[1..][j]) && FG.Generate(fields[1..][j]) == Some(d);
          assert fields[1..][j] == fields[j + 1];
        } else {
          assert FG.Generate(fields[0]) == Some(d);
        }
      }
    }
  }

  /** `getFields()`: descriptors of the fields `ElementFilter.fieldsIn` selects. */
  function GetFields(d: TypeDecl): (fields: seq<FG.FieldData>) {
    Descriptors(FieldsIn(d.enclosed))
  }

  /**
   * `generate()`: nothing for an interface, enum, annotation type or abstract
   * class; otherwise a descriptor built from the metadata and the
   * declaration, stamped with the moment `now` it is finished at
   * (see `GenerateBuildsDescriptor` for its contents).
   */
  function Generate(meta: ModelMeta, d: TypeDecl, now: Timestamp): (r: Option<ModelData>)
    ensures r.None? <==> d.kind != Class || d.isAbstract
    ensures r.Some? ==> r.value.dir == meta.dir && r.value.date == now
  {
    if !IsGenerable(d) then None
    else Some(ModelData(meta.dir, FileName(meta, d), AbsoluteName(meta, d), GetFields(d), now))
  }

  /**
   * The descriptor of a concrete class: the file name is prefix, simple name,
   * suffix and ".js"; the class-name member is the namespace, a dot and the
   * class name, or the class name alone when the namespace is empty; the
   * fields are the descriptors of all enclosed elements, in order.
   */
  lemma GenerateBuildsDescriptor(meta: ModelMeta, d: TypeDecl, now: Timestamp)
    requires d.kind == Class && !d.isAbstract
    ensures Generate(meta, d, now).Some?
    ensures Generate(meta, d, now).value.fileName == meta.prefix + d.simpleName + meta.suffix + ".js"
    ensures meta.namespace == "" ==> Generate(meta, d, now).value.className == meta.prefix + d.simpleName + meta.suffix
    ensures meta.namespace != "" ==>
              Generate(meta, d, now).value.className == meta.namespace + "." + meta.prefix + d.simpleName + meta.suffix
    ensures Generate(meta, d, now).value.fields == Descriptors(d.enclosed)
  {
    FieldsInChangesNothing(d.enclosed);
  }

  /** Descriptors of a concatenation are the concatenated descriptors: order is kept. */
  lemma {:induction false} DescriptorsAppend(a: seq<Member>, b: seq<Member>)
    ensures Descriptors(a + b) == Descriptors(a) + Descriptors(b)
    decreases |a|
  {
    if |a| == 0 {
      assert a + b == b;
    } else {
      assert (a + b)[1..] == a[1..] + b;
      DescriptorsAppend(a[1..], b);
    }
  }

  /** One more field adds its descriptor at the end, or nothing. */
  lemma DescriptorsSnoc(fields: seq<Member>, m: Member)
    ensures FG.Generate(m).Some? ==> Descriptors(fields + [m]) == Descriptors(fields) + [FG.Generate(m).value]
    ensures FG.Generate(m).None? ==> Descriptors(fields + [m]) == Descriptors(fields)
  {
    DescriptorsAppend(fields, [m]);
    assert [m][1..] == [];
  }

  /** A field the gate rejects (static, excluded, not a field) leaves no trace in the list. */
  lemma RejectedFieldLeavesNoTrace(a: seq<Member>, m: Member, b: seq<Member>)
    requires !FG.IsGenerable(m)
    ensures Descriptors(a + [m] + b) == Descriptors(a + b)
  {
    assert Descriptors([m]) == [] by {
      assert [m][1..] == [];
    }
    calc {
      Descriptors(a + [m] + b);
      { DescriptorsAppend(a + [m], b); }
      Descriptors(a + [m]) + Descriptors(b);
      { DescriptorsAppend(a, [m]); }
      Descriptors(a) + Descriptors([m]) + Descriptors(b);
      Descriptors(a) + Descriptors(b);
      { DescriptorsAppend(a, b); }
      Descriptors(a + b);
    }
  }

  /** A field the gate accepts contributes its descriptor exactly at its place in the list. */
  lemma AcceptedFieldKeepsItsPlace(a: seq<Member>, m: Member, b: seq<Member>)
    requires FG.IsGenerable(m)
    ensures Descriptors(a + [m] + b) == Descriptors(a) + [FG.Generate(m).value] + Descriptors(b)
  {
    assert Descriptors([m]) == [FG.Generate(m).value] by {
      assert [m][1..] == [];
    }
    calc {
      Descriptors(a + [m] + b);
      { DescriptorsAppend(a + [m], b); }
      Descriptors(a + [m]) + Descriptors(b);
      { DescriptorsAppend(a, [m]); }
      Descriptors(a) + Descriptors([m]) + Descriptors(b);
    }
  }

  /** When every field passes the gate, the list is the fields' descriptors one for one. */
  lemma {:induction false} AllAcceptedMapsOneForOne(fields: seq<Member>)
    requires forall i :: 0 <= i < |fields| ==> FG.IsGenerable(fields[i])
    ensures |Descriptors(fields)| == |fields|
    ensures forall i :: 0 <= i < |fields| ==> Descriptors(fields)[i] == FG.Generate(fields[i]).value
    decreases |fields|
  {
    if |fields| > 0 {
      AllAcceptedMapsOneForOne(fields[1..]);
    }
  }

  /** The `fieldsIn` filter drops nothing the field gate would have kept. */
  lemma {:induction false} FieldsInChangesNothing(elements: seq<Member>)
    ensures Descriptors(FieldsIn(elements)) == Descriptors(elements)
    decreases |elements|
  {
    if |elements| > 0 {
      FieldsInChangesNothing(elements[1..]);
      var e := elements[0];
      if e.kind == Field || e.kind == EnumConstant {
        assert FieldsIn(elements) == [e] + FieldsIn(elements[1..]);
        assert ([e] + FieldsIn(elements[1..]))[1..] == FieldsIn(elements[1..]);
      }
    }
  }

  /**
   * The file name is the class name with ".js" appended, and the class name
   * is recovered from it by dropping the extension.
   */
  lemma FileNameStripsToClassName(meta: ModelMeta, d: TypeDecl)
    ensures |FileName(meta, d)| == |ClassName(meta, d)| + 3
    ensures FileName(meta, d)[..|ClassName(meta, d)|] == ClassName(meta, d)
    ensures FileName(meta, d)[|ClassName(meta, d)|..] == ".js"
  {
  }

  /**
   * The absolute name ends with the class name; what precedes it is the
   * namespace followed by a dot, or nothing when the namespace is empty.
   */
  lemma AbsoluteNameSplits(meta: ModelMeta, d: TypeDecl)
    ensures var n := AbsoluteName(meta, d); var c := ClassName(meta, d);
      |n| >= |c| && n[|n| - |c|..] == c &&
      (meta.namespace == "" ==> n == c) &&
      (meta.namespace != "" ==> n[..|n| - |c|] == meta.namespace + ".")
  {
  }

  /** With the default prefix and suffix the class name is "Abstract" and the simple name. */
  lemma DefaultAffixes(dir: string, namespace: string, d: TypeDecl)
    ensures ClassName(ModelMetaWith(dir, namespace), d) == "Abstract" + d.simpleName
  {
  }

  /** The defaults turn `User` into `AbstractUser`, and namespace "app.models" into `app.models.AbstractUser`. */
  lemma DefaultNamesForUser(dir: string, enclosed: seq<Member>)
    ensures var d := TypeDecl(Class, false, "User", enclosed);
      ClassName(ModelMetaWith(dir, "app.models"), d) == "AbstractUser" &&
      AbsoluteName(ModelMetaWith(dir, "app.models"), d) == "app.models.AbstractUser"
  {
  }

  /**
   * `getFields()` as the Java loop runs it: walk the elements `fieldsIn`
   * selects and append each non-null descriptor. The list it builds is the
   * declaration-ordered descriptor list of the enclosed elements.
   */
  method CollectFields(d: TypeDecl) returns (fields: seq<FG.FieldData>)
    ensures fields == Descriptors(d.enclosed)
    ensures |fields| <= |d.enclosed|
  {
    var fieldElements := FieldsIn(d.enclosed);
    fields := [];
    var i := 0;
    while i < |fieldElements|
      invariant 0 <= i <= |fieldElements|
      invariant fields == Descriptors(fieldElements[..i])
    {
      var field := FG.Generate(fieldElements[i]);
      assert fieldElements[..i + 1] == fieldElements[..i] + [fieldElements[i]];
      DescriptorsSnoc(fieldElements[..i], fieldElements[i]);
      if field.Some? {
        fields := fields + [field.value];
      }
      i := i + 1;
    }
    assert fieldElements[..i] == fieldElements;
    FieldsInChangesNothing(d.enclosed);
  }

  /** The field list of the `User` example below. */
  lemma UserExampleFields(age: Member, name: Member)
    requires age == Member(Field, false, "age", Primitive(Int), None)
    requires name == Member(Field, false, "name", Declared(None), Some(FieldMeta("", "", True, false)))
    ensures Descriptors([age, name]) == [FG.FieldData("age", Some("int"), true), FG.FieldData("name", None, true)]
  {
    assert FG.Generate(age) == Some(FG.FieldData("age", Some("int"), true));
    assert FG.Generate(name) == Some(FG.FieldData("name", None, true));
    AllAcceptedMapsOneForOne([age, name]);
  }

  /** The names of the `User` example below. */
  lemma UserExampleNames(meta: ModelMeta, user: TypeDecl)
    requires meta == ModelMeta("", "Model", "out", "app") && user.simpleName == "User"
    ensures FileName(meta, user) == "UserModel.js"
    ensures AbsoluteName(meta, user) == "app.UserModel"
  {
    assert ClassName(meta, user) == "UserModel" by {
      assert "" + "User" == "User";
      assert "User" + "Model" == "UserModel";
    }
    assert "app" + "." == "app.";
    assert "app." + "UserModel" == "app.UserModel";
    assert "UserModel" + ".js" == "UserModel.js";
  }

  /**
   * A concrete class `User` with `int age` (no annotation) and `String name`
   * (`required = TRUE`) under `{prefix "", suffix "Model", dir "out",
   * namespace "app"}` becomes `app.UserModel` with fields age:int:required
   * and name:null:required.
   */
  lemma UserExample(now: Timestamp)
    ensures var age := Member(Field, false, "age", Primitive(Int), None);
      var name := Member(Field, false, "name", Declared(None), Some(FieldMeta("", "", True, false)));
      Generate(ModelMeta("", "Model", "out", "app"), TypeDecl(Class, false, "User", [age, name]), now)
      == Some(ModelData("out", "UserModel.js", "app.UserModel",
                        [FG.FieldData("age", Some("int"), true), FG.FieldData("name", None, true)], now))
  {
    var age := Member(Field, false, "age", Primitive(Int), None);
    var name := Member(Field, false, "name", Declared(None), Some(FieldMeta("", "", True, false)));
    var meta := ModelMeta("", "Model", "out", "app");
    var user := TypeDecl(Class, false, "User", [age, name]);
    UserExampleFields(age, name);
    UserExampleNames(meta, user);
    FieldsInChangesNothing([age, name]);
    assert GetFields(user) == Descriptors([age, name]);
  }

  /**
   * Nothing enforces unique names: two accepted fields that override their
   * names to the same string both stay in the list, one after the other.
   */
  lemma DuplicateNamesKept(a: Member, b: Member, name: string)
    requires FG.IsGenerable(a) && FG.IsGenerable(b)
    requires a.field.Some? && a.field.value.name == name
    requires b.field.Some? && b.field.value.name == name && name != ""
    ensures |Descriptors([a, b])| == 2
    ensures Descriptors([a, b])[0].name == name && Descriptors([a, b])[1].name == name
  {
    AllAcceptedMapsOneForOne([a, b]);
  }
}
