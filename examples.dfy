/** Concrete inputs and the declarations the macros make of them: the two
    structs of the test module (src/lib.rs:138-158) and the edge cases of
    the comma and `id` rules. */
module Examples {
  import opened Tokens
  import opened Item
  import opened Fields
  import opened DieselNew
  import opened NewInsertable

  const I32Id: Field := Field([], Inherited, "id", "i32")
  const PubName: Field := Field([], Explicit("pub"), "name", "String")
  const UserAttrs: seq<Meta> := ["derive(Debug, Clone, Queryable, AsChangeset)", "diesel(table_name = users)"]

  /** `pub struct User { id: i32, pub name: String }` (src/lib.rs:138-145),
      written without a trailing comma. */
  const User: StructItem :=
    StructItem(UserAttrs, Explicit("pub"), "User", [FieldTok(I32Id), Comma, FieldTok(PubName)])

  /** The struct the tests at src/lib.rs:161-165 and src/lib.rs:175-185 build. */
  const NewUser: StructItem :=
    StructItem(UserAttrs + [InsertableDerive], Explicit("pub"), "NewUser", [FieldTok(PubName), Comma])

  /** A struct with `id` and one more field, with or without a trailing
      comma, becomes `New` + name with that one field. The second field's
      name is unconstrained, so a second `id` is kept like any other. */
  lemma TwoFieldStruct(attrs: seq<Meta>, vis: Vis, name: string, idField: Field, field: Field, trailing: bool)
    requires idField.name == IdName
    ensures DieselNew.DieselNew(Render(StructItem(attrs, vis, name, [FieldTok(idField), Comma, FieldTok(field)] + OptComma(trailing))))
            == Ok(Render(StructItem(attrs + [InsertableDerive], vis, NamePrefix + name, [FieldTok(field), Comma])))
  {
    var d := Decomposed(attrs, vis, name, idField, [field]);
    assert Joined([field]) == [FieldTok(field)] + Separated([]);
    assert [FieldTok(idField), Comma, FieldTok(field)] + OptComma(trailing)
        == [FieldTok(idField), Comma] + Joined([field]) + OptComma(trailing);
    var body := [FieldTok(idField), Comma, FieldTok(field)] + OptComma(trailing);
    assert Render(StructItem(attrs, vis, name, body)) == Spell(d, trailing);
    IdFieldNotTranscribed(d, idField, trailing);
    assert Terminated([field]) == [FieldTok(field), Comma] + Terminated([]);
    assert Derive(d) == StructItem(attrs + [InsertableDerive], vis, NamePrefix + name, [FieldTok(field), Comma]);
  }

  lemma UserBecomesNewUser()
    ensures DieselNew.DieselNew(Render(User)) == Ok(Render(NewUser))
  {
    assert User == StructItem(UserAttrs, Explicit("pub"), "User", [FieldTok(I32Id), Comma, FieldTok(PubName)] + OptComma(false)) by {
      assert OptComma(false) == [];
    }
    assert NewUser == StructItem(UserAttrs + [InsertableDerive], Explicit("pub"), NamePrefix + "User", [FieldTok(PubName), Comma]) by {
      assert NamePrefix + "User" == "NewUser";
    }
    TwoFieldStruct(UserAttrs, Explicit("pub"), "User", I32Id, PubName, false);
  }

  /** `#[apply(NewInsertable!)]` on `SuperUser` (src/lib.rs:150-158): the
      `id` field carries its own attribute and the list ends in a comma.
      The original is kept and `NewSuperUser` follows it. */
  const SuperUserAttrs: seq<Meta> := ["derive(Queryable, AsChangeset)", "diesel(table_name = users)"]
  const SuperUser: StructItem :=
    StructItem(SuperUserAttrs, Explicit("pub"), "SuperUser",
      [FieldTok(Field(["allow(dead_code)"], Inherited, "id", "i32")), Comma, FieldTok(PubName), Comma])
  const NewSuperUser: StructItem :=
    StructItem(SuperUserAttrs + [InsertableDerive], Explicit("pub"), "NewSuperUser", [FieldTok(PubName), Comma])

  lemma SuperUserBecomesNewSuperUser()
    ensures DieselNew.DieselNew(Render(SuperUser)) == Ok(Render(NewSuperUser))
  {
    var idField := Field(["allow(dead_code)"], Inherited, "id", "i32");
    assert SuperUser == StructItem(SuperUserAttrs, Explicit("pub"), "SuperUser", [FieldTok(idField), Comma, FieldTok(PubName)] + OptComma(true)) by {
      assert OptComma(true) == [Comma];
    }
    assert NewSuperUser == StructItem(SuperUserAttrs + [InsertableDerive], Explicit("pub"), NamePrefix + "SuperUser", [FieldTok(PubName), Comma]) by {
      assert NamePrefix + "SuperUser" == "NewSuperUser";
    }
    TwoFieldStruct(SuperUserAttrs, Explicit("pub"), "SuperUser", idField, PubName, true);
  }

  lemma SuperUserKeptAndDerived()
    ensures AttributeMode(Render(SuperUser)) == Ok(Render(SuperUser) + Render(NewSuperUser))
  {
    SuperUserBecomesNewSuperUser();
  }

  /** `struct Empty { name: Text }`: no `id` field first, so nothing is emitted. */
  lemma NoIdFieldRejected()
    ensures DieselNew.DieselNew(Render(StructItem([], Inherited, "Empty",
              [FieldTok(Field([], Inherited, "name", "Text"))]))) == Err(ExpectedIdField)
  {
    Rejection(StructItem([], Inherited, "Empty", [FieldTok(Field([], Inherited, "name", "Text"))]));
  }

  /** `struct X { id: i32 }`: the comma after `id` is part of the rule. */
  lemma IdWithoutCommaRejected()
    ensures DieselNew.DieselNew(Render(StructItem([], Inherited, "X", [FieldTok(I32Id)]))) == Err(ExpectedCommaAfterId)
  {
    Rejection(StructItem([], Inherited, "X", [FieldTok(I32Id)]));
  }

  /** `struct X { id: i32, }`: a struct whose only field is `id`, with
      its comma, becomes a struct with no fields. */
  lemma OnlyIdYieldsEmptyStruct(attrs: seq<Meta>, vis: Vis, name: string, idField: Field)
    requires idField.name == IdName
    ensures DieselNew.DieselNew(Render(StructItem(attrs, vis, name, [FieldTok(idField), Comma])))
            == Ok(Render(StructItem(attrs + [InsertableDerive], vis, NamePrefix + name, [])))
  {
    var d := Decomposed(attrs, vis, name, idField, []);
    assert [FieldTok(idField), Comma] == [FieldTok(idField), Comma] + Joined([]) + OptComma(false);
    IdFieldNotTranscribed(d, idField, false);
  }

  /** `struct X { id: i32, , }` is refused: the second comma could be the
      optional trailing comma or the start of a field with an empty
      visibility, and the matcher reports the ambiguity. */
  lemma LoneCommaAfterIdRejected(attrs: seq<Meta>, vis: Vis, name: string, idField: Field)
    requires idField.name == IdName
    ensures DieselNew.DieselNew(Render(StructItem(attrs, vis, name, [FieldTok(idField), Comma, Comma])))
            == Err(AmbiguousComma)
  {
    Rejection(StructItem(attrs, vis, name, [FieldTok(idField), Comma, Comma]));
  }

  /** Two commas after a field are refused. */
  lemma DoubleCommaRejected()
    ensures DieselNew.DieselNew(Render(StructItem([], Inherited, "X",
              [FieldTok(I32Id), Comma, FieldTok(PubName), Comma, Comma]))) == Err(ExpectedFieldOrEnd)
  {
    var s := StructItem([], Inherited, "X", [FieldTok(I32Id), Comma, FieldTok(PubName), Comma, Comma]);
    ParseRender(s);
    var rest := [FieldTok(PubName), Comma, Comma];
    assert s.body[2..] == rest;
    assert rest[1..] == [Comma, Comma];
    assert ParseSeparated([Comma, Comma]) == Err(ExpectedFieldOrEnd);
    assert ParseFields(rest) == Err(ExpectedFieldOrEnd);
    assert ParseBody(s.body) == Err(ExpectedFieldOrEnd);
  }

  /** Only the first position is special: a later field named `id` is an
      ordinary field and is kept. */
  lemma LaterIdKept()
    ensures DieselNew.DieselNew(Render(StructItem([], Inherited, "X", [FieldTok(I32Id), Comma, FieldTok(I32Id)])))
            == Ok(Render(StructItem([InsertableDerive], Inherited, "NewX", [FieldTok(I32Id), Comma])))
  {
    assert [FieldTok(I32Id), Comma, FieldTok(I32Id)] == [FieldTok(I32Id), Comma, FieldTok(I32Id)] + OptComma(false);
    assert NamePrefix + "X" == "NewX";
    TwoFieldStruct([], Inherited, "X", I32Id, I32Id, false);
  }

  /** The documented `User` (src/lib.rs:75-96, the same struct as
      src/lib.rs:31-51, there in attribute mode): the doc comments are
      attributes. The struct-level ones are kept in order and the derive is
      added after all of them, after `diesel(table_name = users)` too
      (src/lib.rs:114-115), not between them as the comments at
      src/lib.rs:88-91 and src/lib.rs:44-47 show. The doc comment of `id` is dropped with it;
      that of `name` stays on `name`. */
  const DocUserAttrs: seq<Meta> :=
    ["doc = \" This is a user\"", "derive(Debug, Clone, Queryable, AsChangeset)", "diesel(table_name = users)"]
  const DocIdField: Field := Field(["doc = \" This is the ID of the user\""], Inherited, "id", "i32")
  const DocNameField: Field := Field(["doc = \" This is the name of the user\""], Inherited, "name", "String")

  lemma DocumentedUser()
    ensures DieselNew.DieselNew(Render(StructItem(DocUserAttrs, Explicit("pub"), "User",
              [FieldTok(DocIdField), Comma, FieldTok(DocNameField)])))
            == Ok(Render(StructItem(
                 ["doc = \" This is a user\"", "derive(Debug, Clone, Queryable, AsChangeset)",
                  "diesel(table_name = users)", "derive(diesel::Insertable)"],
                 Explicit("pub"), "NewUser", [FieldTok(DocNameField), Comma])))
  {
    assert [FieldTok(DocIdField), Comma, FieldTok(DocNameField)]
        == [FieldTok(DocIdField), Comma, FieldTok(DocNameField)] + OptComma(false);
    assert NamePrefix + "User" == "NewUser";
    assert DocUserAttrs + [InsertableDerive] ==
      ["doc = \" This is a user\"", "derive(Debug, Clone, Queryable, AsChangeset)",
       "diesel(table_name = users)", "derive(diesel::Insertable)"];
    TwoFieldStruct(DocUserAttrs, Explicit("pub"), "User", DocIdField, DocNameField, false);
  }
}
