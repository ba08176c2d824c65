/** The `NewInsertable!` macro (src/lib.rs:53-56), meant to be used as
    `#[apply(NewInsertable!)]` on a struct.

    It re-emits the item it is given behind the attribute
    `#[$crate::derive($crate::diesel_new!)]`. That attribute belongs to
    `macro_rules_attribute`, which is not part of this model; its
    observable contract is used instead: the item it is attached to is
    passed through unchanged and the output of the named macro on that
    item follows it.
 */
module NewInsertable {
  import opened Tokens
  import opened Item
  import opened DieselNew

  /** The attribute `NewInsertable!` puts in front of the item (src/lib.rs:54). */
  const DeriveDieselNew: Meta := "$crate::derive($crate::diesel_new!)"

  /** The transcriber of `NewInsertable!` (src/lib.rs:53-56). */
  function NewInsertable(item: seq<ItemTok>): seq<ItemTok>
  {
    [OuterAttr(DeriveDieselNew)] + item
  }

  /** Expanding the leading derive attribute: the item behind it is kept
      and the derived struct is appended; an item without that attribute
      is left alone. */
  function ExpandDerive(toks: seq<ItemTok>): Result<seq<ItemTok>>
  {
    if toks != [] && toks[0] == OuterAttr(DeriveDieselNew) then
      var item := toks[1..];
      var derived :- DieselNew.DieselNew(item);
      Ok(item + derived)
    else
      Ok(toks)
  }

  /** Attribute mode: the original item unchanged, then exactly what
      `diesel_new!` yields on that item; when `diesel_new!` refuses the
      item, attribute mode refuses it for the same reason. */
  function AttributeMode(item: seq<ItemTok>): (r: Result<seq<ItemTok>>)
    ensures r.Ok? <==> DieselNew.DieselNew(item).Ok?
    ensures r.Ok? ==> r.value == item + DieselNew.DieselNew(item).value
    ensures r.Err? ==> r.error == DieselNew.DieselNew(item).error
  {
    var tagged := NewInsertable(item);
    assert tagged[1..] == item;
    ExpandDerive(tagged)
  }

  /** The item that attribute mode passes through is the user's struct as
      written, and the part after it is one struct declaration named
      `New` + the struct's name that carries the added derive. */
  lemma AttributeModeOutput(s: StructItem, out: seq<ItemTok>)
    requires AttributeMode(Render(s)) == Ok(out)
    ensures |out| > |Render(s)| && out[..|Render(s)|] == Render(s)
    ensures var derived := ParseStruct(out[|Render(s)|..]);
            derived.Ok? && derived.value.name == NamePrefix + s.name &&
            derived.value.attrs == s.attrs + [InsertableDerive] && derived.value.vis == s.vis
  {
    var item := Render(s);
    var derived := DieselNew.DieselNew(item).value;
    assert out == item + derived;
    assert out[..|item|] == item;
    assert out[|item|..] == derived;
    ParseRender(s);
    DerivedDeclaration(item, derived);
    ParseRender(ParseStruct(derived).value);
  }
}
