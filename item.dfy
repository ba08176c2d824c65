/** The outer rule of `diesel_new!` (src/lib.rs:101-102):

        $(#[$struct_meta:meta])*
        $struct_vis:vis struct $StructName:ident { ... }

    The same shape is what its transcriber writes out (src/lib.rs:114-116),
    so one renderer and one parser serve both sides, and they are inverse
    to each other.
 */
module Item {
  import opened Tokens

  /** A struct declaration split into its struct-level attributes, its
      visibility, its name and the contents of its brace group. */
  datatype StructItem = StructItem(attrs: seq<Meta>, vis: Vis, name: string, body: seq<BodyTok>)

  /** The attributes `#[m1] #[m2] ...`, one token each, in order. */
  function AttrToks(attrs: seq<Meta>): (r: seq<ItemTok>)
    ensures |r| == |attrs|
    ensures forall i :: 0 <= i < |r| ==> r[i] == OuterAttr(attrs[i])
  {
    if attrs == [] then [] else [OuterAttr(attrs[0])] + AttrToks(attrs[1..])
  }

  /** An inherited visibility is written as nothing at all. */
  function VisToks(v: Vis): seq<ItemTok>
  {
    match v
    case Inherited => []
    case Explicit(text) => [VisTok(text)]
  }

  /** The tokens of a struct declaration. */
  function Render(s: StructItem): seq<ItemTok>
  {
    AttrToks(s.attrs) + VisToks(s.vis) + [StructKw, Ident(s.name), Brace(s.body)]
  }

  /** The repetition `$(#[$struct_meta:meta])*`: it takes every leading
      outer attribute and stops at the first token that is not one. */
  function SplitAttrs(toks: seq<ItemTok>): (r: (seq<Meta>, seq<ItemTok>))
    ensures toks == AttrToks(r.0) + r.1
    ensures r.1 == [] || !r.1[0].OuterAttr?
  {
    if toks != [] && toks[0].OuterAttr? then
      var (attrs, rest) := SplitAttrs(toks[1..]);
      ([toks[0].meta] + attrs, rest)
    else
      ([], toks)
  }

  /** Matches attributes, an optional visibility, `struct`, a name and one
      brace group, and nothing after it. */
  function ParseStruct(toks: seq<ItemTok>): (r: Result<StructItem>)
    ensures r.Ok? ==> Render(r.value) == toks
  {
    var (attrs, afterAttrs) := SplitAttrs(toks);
    var (vis, rest) :=
      if afterAttrs != [] && afterAttrs[0].VisTok? then (Explicit(afterAttrs[0].text), afterAttrs[1..])
      else (Inherited, afterAttrs);
    if rest == [] || rest[0] != StructKw then Err(ExpectedStructKeyword)
    else if |rest| < 2 || !rest[1].Ident? then Err(ExpectedStructName)
    else if |rest| < 3 || !rest[2].Brace? then Err(ExpectedFieldBlock)
    else if |rest| > 3 then Err(UnexpectedTokenAfterBlock)
    else Ok(StructItem(attrs, vis, rest[1].name, rest[2].body))
  }

  /** The attribute run of `AttrToks(attrs) + rest` is exactly `attrs`
      when `rest` does not begin with another attribute. */
  lemma {:induction false} SplitAttrsOfRendered(attrs: seq<Meta>, rest: seq<ItemTok>)
    requires rest == [] || !rest[0].OuterAttr?
    ensures SplitAttrs(AttrToks(attrs) + rest) == (attrs, rest)
  {
    if attrs != [] {
      var toks := AttrToks(attrs) + rest;
      assert toks[0] == OuterAttr(attrs[0]);
      assert toks[1..] == AttrToks(attrs[1..]) + rest;
      SplitAttrsOfRendered(attrs[1..], rest);
      assert [attrs[0]] + attrs[1..] == attrs;
    } else {
      assert AttrToks(attrs) + rest == rest;
    }
  }

  /** Every struct declaration is read back as itself. */
  lemma ParseRender(s: StructItem)
    ensures ParseStruct(Render(s)) == Ok(s)
  {
    var tail := VisToks(s.vis) + [StructKw, Ident(s.name), Brace(s.body)];
    assert Render(s) == AttrToks(s.attrs) + tail;
    SplitAttrsOfRendered(s.attrs, tail);
  }

  /** The parser accepts exactly the rendered declarations, and each of
      them as the declaration it renders. */
  lemma ParseStructIff(toks: seq<ItemTok>, s: StructItem)
    ensures ParseStruct(toks) == Ok(s) <==> toks == Render(s)
  {
    ParseRender(s);
  }
}
