/** The `diesel_new!` macro (src/lib.rs:99-124): one matcher rule and its
    transcriber.

    The matcher takes the struct-level attributes, the visibility and the
    name, then requires the first field to be named `id` and to be
    followed by a comma, then takes the remaining fields. The transcriber
    writes a struct named `New` + name with the same attributes plus
    `#[derive(diesel::Insertable)]`, the same visibility, and the remaining
    fields only. The `id` field's attributes, visibility and type are
    captured and never written.
 */
module DieselNew {
  import opened Tokens
  import opened Item
  import opened Fields

  /** The literal field name the matcher requires first (src/lib.rs:105). */
  const IdName: string := "id"

  /** The one attribute the transcriber adds (src/lib.rs:115). */
  const InsertableDerive: Meta := "derive(diesel::Insertable)"

  /** The prefix pasted in front of the struct name (src/lib.rs:116). */
  const NamePrefix: string := "New"

  /** Everything the matcher captures. */
  datatype Decomposed = Decomposed(
    attrs: seq<Meta>,
    vis: Vis,
    name: string,
    idField: Field,
    fields: seq<Field>)

  /** The contents of the brace group: the `id` field, a comma, then the
      repetition of the remaining fields (src/lib.rs:104-110). */
  function ParseBody(body: seq<BodyTok>): (r: Result<(Field, seq<Field>)>)
    ensures r.Ok? ==> r.value.0.name == IdName && FieldsOf(body) == [r.value.0] + r.value.1
  {
    if body == [] then Err(EmptyFieldList)
    else if !body[0].FieldTok? || body[0].field.name != IdName then Err(ExpectedIdField)
    else if |body| < 2 || body[1] != Comma then Err(ExpectedCommaAfterId)
    else
      var fields :- ParseFields(body[2..]);
      FieldsOfIdAndComma(body);
      Ok((body[0].field, fields))
  }

  /** Behind a field and a comma, the fields are that field and those after the comma. */
  lemma FieldsOfIdAndComma(body: seq<BodyTok>)
    requires |body| >= 2 && body[0].FieldTok? && body[1] == Comma
    ensures FieldsOf(body) == [body[0].field] + FieldsOf(body[2..])
  {
    assert FieldsOf(body) == [body[0].field] + FieldsOf(body[1..]);
    assert body[1..][1..] == body[2..];
  }

  /** The whole matcher rule (src/lib.rs:100-111). A match keeps the
      declaration's attributes, visibility and name, and splits its fields
      into the `id` field and the rest, in order. */
  function Parse(toks: seq<ItemTok>): (r: Result<Decomposed>)
    ensures r.Ok? ==> ParseStruct(toks).Ok?
    ensures r.Ok? ==>
              var s := ParseStruct(toks).value;
              && r.value.attrs == s.attrs && r.value.vis == s.vis && r.value.name == s.name
              && r.value.idField.name == IdName
              && [r.value.idField] + r.value.fields == FieldsOf(s.body)
  {
    var s :- ParseStruct(toks);
    var split :- ParseBody(s.body);
    Ok(Decomposed(s.attrs, s.vis, s.name, split.0, split.1))
  }

  /** The transcriber (src/lib.rs:113-122): the attributes followed by the
      added derive, the visibility, the pasted name, and every remaining
      field followed by a comma. */
  function Derive(d: Decomposed): (r: StructItem)
    ensures ParseFields(r.body) == Ok(d.fields)
  {
    ParseTerminated(d.fields);
    StructItem(d.attrs + [InsertableDerive], d.vis, NamePrefix + d.name, Terminated(d.fields))
  }

  /** One invocation `diesel_new! { ... }`: only the derived struct is
      emitted; the input declaration is consumed. */
  function DieselNew(toks: seq<ItemTok>): (r: Result<seq<ItemTok>>)
    ensures r.Ok? <==> Parse(toks).Ok?
    ensures r.Err? ==> r.error == Parse(toks).error
    ensures r.Ok? ==> ParseStruct(r.value) == Ok(Derive(Parse(toks).value))
  {
    var d :- Parse(toks);
    ParseRender(Derive(d));
    Ok(Render(Derive(d)))
  }

  /** The token sequences that decompose into `d`: the `id` field and its
      comma, the remaining fields separated by commas, and optionally one
      trailing comma, which the matcher accepts only after at least one
      remaining field. */
  function Spell(d: Decomposed, trailing: bool): seq<ItemTok>
  {
    Render(StructItem(d.attrs, d.vis, d.name,
      [FieldTok(d.idField), Comma] + Joined(d.fields) + OptComma(trailing)))
  }

  // ---------------------------------------------------------------------
  // What the matcher accepts
  // ---------------------------------------------------------------------

  /** The body rule accepts exactly `id-field , f1 , ... , fn`, and for
      n >= 1 also with one trailing comma, and nothing else. */
  lemma ParseBodyIff(body: seq<BodyTok>, idField: Field, fields: seq<Field>)
    ensures ParseBody(body) == Ok((idField, fields)) <==>
            idField.name == IdName &&
            (body == [FieldTok(idField), Comma] + Joined(fields) ||
             (fields != [] && body == [FieldTok(idField), Comma] + Joined(fields) + [Comma]))
  {
    var head := [FieldTok(idField), Comma];
    if |body| >= 2 {
      ParseFieldsIff(body[2..], fields);
      assert body == body[..2] + body[2..];
    }
    if body == head + Joined(fields) || (fields != [] && body == head + Joined(fields) + [Comma]) {
      assert body[..2] == head;
      assert body[2..] == Joined(fields) || (fields != [] && body[2..] == Joined(fields) + [Comma]);
    }
  }

  /** The matcher accepts exactly the spellings of a decomposition whose
      first field is named `id`, the trailing-comma spelling only when a
      field follows `id`, and yields that decomposition. */
  lemma ParseIff(toks: seq<ItemTok>, d: Decomposed)
    ensures Parse(toks) == Ok(d) <==>
            d.idField.name == IdName &&
            (toks == Spell(d, false) || (d.fields != [] && toks == Spell(d, true)))
  {
    var s := StructItem(d.attrs, d.vis, d.name,
      [FieldTok(d.idField), Comma] + Joined(d.fields) + OptComma(false));
    var t := StructItem(d.attrs, d.vis, d.name,
      [FieldTok(d.idField), Comma] + Joined(d.fields) + OptComma(true));
    ParseBodyIff(s.body, d.idField, d.fields);
    ParseBodyIff(t.body, d.idField, d.fields);
    assert s.body == [FieldTok(d.idField), Comma] + Joined(d.fields);
    ParseStructIff(toks, s);
    ParseStructIff(toks, t);
    if Parse(toks) == Ok(d) {
      var p := ParseStruct(toks).value;
      ParseBodyIff(p.body, d.idField, d.fields);
      assert p == s || p == t;
    }
  }

  /** The ways a struct declaration fails the body rule at its start
      (src/lib.rs:104-110): no fields, a first field not named `id`, an
      `id` field without the comma after it, and a second comma straight
      after that one. */
  lemma Rejection(s: StructItem)
    ensures s.body == [] ==> DieselNew(Render(s)) == Err(EmptyFieldList)
    ensures s.body != [] && (!s.body[0].FieldTok? || s.body[0].field.name != IdName) ==>
            DieselNew(Render(s)) == Err(ExpectedIdField)
    ensures s.body != [] && s.body[0].FieldTok? && s.body[0].field.name == IdName &&
            (|s.body| == 1 || s.body[1] != Comma) ==>
            DieselNew(Render(s)) == Err(ExpectedCommaAfterId)
    ensures |s.body| >= 3 && s.body[0].FieldTok? && s.body[0].field.name == IdName &&
            s.body[1] == Comma && s.body[2] == Comma ==>
            DieselNew(Render(s)) == Err(AmbiguousComma)
  {
    ParseRender(s);
  }

  /** Anything that is not a struct declaration of the outer shape is
      refused with the reason the outer rule gives. */
  lemma NotAStruct(toks: seq<ItemTok>)
    requires ParseStruct(toks).Err?
    ensures DieselNew(toks) == Err(ParseStruct(toks).error)
  {
  }

  // ---------------------------------------------------------------------
  // What the transcriber writes
  // ---------------------------------------------------------------------

  /** On success the output is one struct declaration whose attributes are
      the input's followed by the added derive, whose visibility is the
      input's, whose name is `New` + the input's name, and whose fields are
      the input's fields without the first, in order, each followed by a
      comma. */
  lemma DerivedDeclaration(toks: seq<ItemTok>, out: seq<ItemTok>)
    requires DieselNew(toks) == Ok(out)
    ensures ParseStruct(toks).Ok?
    ensures var s := ParseStruct(toks).value;
            |FieldsOf(s.body)| >= 1 &&
            ParseStruct(out) == Ok(StructItem(s.attrs + [InsertableDerive], s.vis, NamePrefix + s.name,
                                              Terminated(FieldsOf(s.body)[1..])))
  {
    var d := Parse(toks).value;
    var s := ParseStruct(toks).value;
    assert [d.idField] + d.fields == FieldsOf(s.body);
    assert FieldsOf(s.body)[1..] == d.fields;
    ParseRender(Derive(d));
  }

  /** The fields of the output, read back with the same field repetition,
      are the input's fields from the second on; each keeps its attributes,
      visibility, name and type. */
  lemma RetainedFields(toks: seq<ItemTok>, out: seq<ItemTok>)
    requires DieselNew(toks) == Ok(out)
    ensures ParseStruct(toks).Ok? && ParseStruct(out).Ok?
    ensures var ins := FieldsOf(ParseStruct(toks).value.body);
            var outs := ParseFields(ParseStruct(out).value.body);
            outs.Ok? && |outs.value| + 1 == |ins| &&
            forall i :: 0 <= i < |outs.value| ==>
              && outs.value[i].attrs == ins[i + 1].attrs
              && outs.value[i].vis == ins[i + 1].vis
              && outs.value[i].name == ins[i + 1].name
              && outs.value[i].ty == ins[i + 1].ty
  {
    DerivedDeclaration(toks, out);
    var ins := FieldsOf(ParseStruct(toks).value.body);
    ParseTerminated(ins[1..]);
  }

  /** The struct-level attributes are kept in order and exactly one
      `derive(diesel::Insertable)` is added after them; no user attribute
      is removed or replaced. */
  lemma InsertableAppendedOnce(toks: seq<ItemTok>, out: seq<ItemTok>)
    requires DieselNew(toks) == Ok(out)
    ensures ParseStruct(toks).Ok? && ParseStruct(out).Ok?
    ensures var a := ParseStruct(toks).value.attrs;
            var b := ParseStruct(out).value.attrs;
            |b| == |a| + 1 && b[..|a|] == a && b[|a|] == InsertableDerive &&
            multiset(b) == multiset(a) + multiset{InsertableDerive}
  {
    DerivedDeclaration(toks, out);
    var a := ParseStruct(toks).value.attrs;
    assert (a + [InsertableDerive])[..|a|] == a;
  }

  /** Nothing of the `id` field reaches the output: replacing its
      attributes, visibility and type by anything else leaves the output
      unchanged (src/lib.rs:104-105 capture them; src/lib.rs:113-122 never
      use them). */
  lemma IdFieldNotTranscribed(d: Decomposed, other: Field, trailing: bool)
    requires d.idField.name == IdName && other.name == IdName
    requires trailing ==> d.fields != []
    ensures DieselNew(Spell(d, trailing)) == Ok(Render(Derive(d)))
    ensures DieselNew(Spell(d.(idField := other), trailing)) == DieselNew(Spell(d, trailing))
  {
    ParseIff(Spell(d, trailing), d);
    ParseIff(Spell(d.(idField := other), trailing), d.(idField := other));
  }

  /** The macro run on its own output succeeds exactly when the input's
      second field is also named `id`; for an input with no second `id`
      (for example `NewUser`) it fails. */
  lemma ReapplyBoundary(toks: seq<ItemTok>, out: seq<ItemTok>)
    requires DieselNew(toks) == Ok(out)
    ensures var fs := FieldsOf(ParseStruct(toks).value.body);
            DieselNew(out).Ok? <==> |fs| >= 2 && fs[1].name == IdName
  {
    DerivedDeclaration(toks, out);
    var fs := FieldsOf(ParseStruct(toks).value.body);
    var rest := fs[1..];
    var body := Terminated(rest);
    if |rest| >= 1 {
      assert body[0] == FieldTok(rest[0]) && body[1] == Comma;
      if rest[0].name == IdName {
        assert body[2..] == Terminated(rest[1..]);
        ParseTerminated(rest[1..]);
      }
    }
  }
}
