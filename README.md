# diesel_new! and NewInsertable! as a verified model

`diesel-autoincrement-new-struct` is a Rust crate with one declarative macro,
`diesel_new!`. It takes a struct whose first field is the auto-incremented
primary key `id` and writes a second struct, `New` + name, for Diesel
inserts. The second struct has the same struct attributes plus
`#[derive(diesel::Insertable)]`, the same visibility, and every field after
`id` with its own attributes, visibility, name and type. A wrapper,
`NewInsertable!`, used as `#[apply(NewInsertable!)]`, keeps the original
struct and puts the derived one after it.

The model works on tokens, as the macro does:

- `tokens.dfy` (module `Tokens`): item-level tokens (`OuterAttr`, `VisTok`,
  `StructKw`, `Ident`, `Brace`, `Other`), the tokens inside the brace group
  (`FieldTok(Field)`, `Comma`), and the `MalformedInput` reasons. The
  `meta`, `vis` and `ty` fragments are opaque strings. A `vis` that matches
  nothing is `Inherited`.
- `item.dfy` (module `Item`): the outer shape `$(#[meta])* vis struct Name { … }`.
  `Render` writes a declaration and `ParseStruct` reads one back. The two
  are proved inverse. Generics, a `where` clause, a tuple or unit struct,
  or anything after the brace group is an `Other` token where the rule
  expects something else, so it is refused.
- `fields.dfy` (module `Fields`): the field repetition `$( field ),* $(,)?`
  and the transcribed list `$( field, )*`. It is characterised by the
  reference spellings `Joined` (commas between fields) and `Terminated`
  (a comma after every field).
- `diesel_new.dfy` (module `DieselNew`): the full matcher `Parse`, the
  transcriber `Derive` and the macro `DieselNew`, with the theorems about
  them.
- `new_insertable.dfy` (module `NewInsertable`): `NewInsertable` adds the
  `derive(diesel_new!)` attribute. `ExpandDerive` models that attribute's
  observable contract: the item passes through and the macro's output on
  the item is appended. `AttributeMode` composes the two.
- `examples.dfy` (module `Examples`): the test structs `User` and
  `SuperUser`, the documented `User` from the doc comment, and the edge
  cases of the comma and `id` rules.

Where the code and the prose around it disagree, the model follows the code:

- The doc comments (src/lib.rs:44-47 and src/lib.rs:88-91) show `#[derive(Insertable)]` between
  the user's attributes. The transcriber (src/lib.rs:114-115) puts it after
  all of them. `Examples.DocumentedUser` proves the code's order.
- A direct `diesel_new! { … }` emits only the derived struct
  (src/lib.rs:113-122). The input struct is consumed. Only attribute mode
  keeps the original.
- The matcher refuses more than an empty field list or a first field not
  named `id`. It also refuses an `id` field with no comma after it, so
  `struct X { id: i32 }` is refused (`Examples.IdWithoutCommaRejected`).
  `{ id: i32, }` gives a struct with no fields
  (`Examples.OnlyIdYieldsEmptyStruct`). `{ id: i32, , }` is refused with
  the matcher's local-ambiguity error: the second comma could be the
  optional trailing comma, or it could begin a field whose `vis` fragment
  matches nothing, and the matcher will not choose between a literal
  token and a fragment (`Examples.LoneCommaAfterIdRejected`). A trailing
  comma is accepted only after at least one field that follows `id`.
- The derive is appended unconditionally. If the user already wrote
  `derive(diesel::Insertable)`, the output has it twice.
  `DieselNew.InsertableAppendedOnce` states the count as the input's
  count plus one.

`Spell`, `Render`, `NewInsertable.NewInsertable` and `ExpandDerive` are
definitions with no contract of their own. The lemmas named in their rows
state what they do.

## Model

| member | source | states |
|---|---|---|
| `Item.AttrToks` | src/lib.rs:114 | each struct attribute is written as one `#[…]` token, in order, none added or dropped |
| `Item.SplitAttrs` | src/lib.rs:101 | `$(#[meta])*` takes the whole leading run of attributes: the input is those attributes followed by a rest that does not start with another attribute |
| `Item.ParseStruct` | src/lib.rs:101-102 | a match of the outer shape gives a declaration that renders back to exactly the input tokens |
| `Item.ParseRender` | src/lib.rs:114-116 | every declaration the transcriber can write matches the outer shape again as itself |
| `Item.Render` | src/lib.rs:114-116 | writes attributes, visibility, `struct`, the name and the brace group; no contract of its own, `Item.ParseRender` and `Item.ParseStructIff` state that it is the inverse of the outer matcher |
| `Item.ParseStructIff` | src/lib.rs:101-102 | the outer shape accepts a token sequence as declaration `s` if and only if the sequence is `s` rendered |
| `Fields.Terminated` | src/lib.rs:117-120 | the emitted field list has two tokens per field: the field, then a comma |
| `Fields.ParseSeparated` | src/lib.rs:110 | after the first field, a match of `$(, field)* $(,)?` yields exactly the field tokens of the input, in order |
| `Fields.ParseFields` | src/lib.rs:107-110 | a match of the repetition after `id ,` yields exactly the input's field tokens, in order, with the commas dropped; a comma in first place is refused as ambiguous |
| `Fields.ParseSeparatedSound` | src/lib.rs:110 | a matched tail is the comma-prefixed fields, with at most one trailing comma |
| `Fields.ParseSeparatedComplete` | src/lib.rs:110 | every comma-prefixed field list, with or without a trailing comma, is matched and yields its fields |
| `Fields.ParseFieldsIff` | src/lib.rs:107-110 | the repetition accepts a token sequence with fields `fs` if and only if it is `fs` separated by commas, or, for non-empty `fs`, that followed by one trailing comma |
| `Fields.TerminatedIsJoinedWithComma` | src/lib.rs:117-120 | a non-empty transcribed list is the comma-separated list plus one trailing comma |
| `Fields.ParseTerminated` | src/lib.rs:107-120 | the transcribed field list is accepted by the field repetition and read back as the same fields |
| `DieselNew.ParseBody` | src/lib.rs:104-110 | a matched body has a first field named `id`, and its fields are that field followed by the remaining fields |
| `DieselNew.ParseBodyIff` | src/lib.rs:104-110 | the body rule accepts exactly `id-field , f1 , … , fn`, for n >= 1 also with one trailing comma, and yields the `id` field and `f1 … fn` |
| `DieselNew.Parse` | src/lib.rs:100-111 | a match keeps the declaration's attributes, visibility and name, and its fields are the `id` field followed by the captured remaining fields |
| `DieselNew.ParseIff` | src/lib.rs:100-111 | the matcher accepts exactly the spellings of a decomposition whose first field is named `id` (the trailing-comma spelling only when a field follows `id`), and returns that decomposition |
| `DieselNew.Rejection` | src/lib.rs:104-110 | an empty field list, a first field not named `id`, an `id` field without a following comma, and a second comma right after `id ,` are each refused, each with its own reason |
| `DieselNew.NotAStruct` | src/lib.rs:101-102 | input that does not have the outer struct shape is refused with the outer rule's reason |
| `DieselNew.Derive` | src/lib.rs:113-122 | the transcribed field list is read back by the field repetition as exactly the remaining fields; `DieselNew.DerivedDeclaration` and `DieselNew.InsertableAppendedOnce` state the attributes, visibility and name |
| `DieselNew.DieselNew` | src/lib.rs:99-124 | the macro succeeds exactly when the matcher does and fails with the matcher's reason; on success its output is one struct declaration, read back as the derived declaration |
| `DieselNew.DerivedDeclaration` | src/lib.rs:113-122 | on success: the output is one struct with the input attributes plus the Insertable derive, the same visibility, the name `New` + name, and the input fields minus the first, in order, each followed by a comma |
| `DieselNew.RetainedFields` | src/lib.rs:117-120 | output field `i` is input field `i + 1`, with the same attributes, visibility, name and type; there is one field fewer |
| `DieselNew.InsertableAppendedOnce` | src/lib.rs:114-115 | the output attributes are the input attributes in order followed by one `derive(diesel::Insertable)`; as a multiset, exactly that one attribute is added |
| `DieselNew.IdFieldNotTranscribed` | src/lib.rs:104-122 | every accepted spelling gives the derived declaration, and replacing the `id` field's attributes, visibility and type leaves the output unchanged |
| `DieselNew.ReapplyBoundary` | src/lib.rs:104-122 | running the macro on its own output succeeds if and only if the input's second field is also named `id` |
| `NewInsertable.NewInsertable` | src/lib.rs:53-56 | puts `#[$crate::derive($crate::diesel_new!)]` in front of the item; no contract of its own, `NewInsertable.AttributeMode` states the result of expanding it |
| `NewInsertable.ExpandDerive` | src/lib.rs:54 | the derive attribute's contract: the item behind it passes through and `diesel_new!`'s output on it follows; no contract of its own, `NewInsertable.AttributeMode` states it |
| `NewInsertable.AttributeMode` | src/lib.rs:53-56 | attribute mode succeeds exactly when `diesel_new!` succeeds on the item; its output is the item unchanged followed by that output; on failure the reason is the same |
| `NewInsertable.AttributeModeOutput` | src/lib.rs:53-56 | attribute mode on a struct starts with that struct's own tokens, followed by a struct named `New` + name with the added derive and the same visibility |
| `Examples.TwoFieldStruct` | src/lib.rs:104-120 | `{ id, f }`, with or without a trailing comma, becomes `New` + name with field `f` only, whatever `f` is named |
| `Examples.UserBecomesNewUser` | src/lib.rs:138-145 | the test struct `User { id: i32, pub name: String }` becomes `NewUser { pub name: String, }` |
| `Examples.SuperUserBecomesNewSuperUser` | src/lib.rs:150-158 | `SuperUser`, whose `id` has its own attribute and whose list ends with a comma, becomes `NewSuperUser { pub name: String, }` |
| `Examples.SuperUserKeptAndDerived` | src/lib.rs:150-172 | in attribute mode `SuperUser` is kept as written and `NewSuperUser` follows it |
| `Examples.NoIdFieldRejected` | src/lib.rs:104-105 | `struct Empty { name: Text }` is refused because its first field is not `id` |
| `Examples.IdWithoutCommaRejected` | src/lib.rs:105 | `struct X { id: i32 }` is refused because no comma follows `id` |
| `Examples.OnlyIdYieldsEmptyStruct` | src/lib.rs:105-110 | `{ id: T, }` becomes a struct with no fields |
| `Examples.LoneCommaAfterIdRejected` | src/lib.rs:105-110 | `{ id: T, , }` is refused as ambiguous |
| `Examples.DoubleCommaRejected` | src/lib.rs:110 | two commas after a later field are refused |
| `Examples.LaterIdKept` | src/lib.rs:105-109 | a second field named `id` is an ordinary field and is kept |
| `Examples.DocumentedUser` | src/lib.rs:75-96 | the doc comments are attributes: the struct's attributes stay in order with the derive after all of them, the `id` doc comment is dropped, and the `name` doc comment stays on `name` |

## Left out

- The re-exports and the `prelude` module (src/lib.rs:1-9) have no behaviour.
- `paste!` appears only through its contract: `[< New $StructName >]` is
  the plain concatenation `"New" + name`. `paste!` also rewrites any
  `[< … >]` group inside the copied attributes and types, and it joins the
  segments of a `doc` attribute. The model treats those tokens as opaque
  and copies them verbatim.
- `macro_rules_attribute::derive` and `apply` appear only through their
  contract: the item passes through and the named macro's output follows
  it. Which of a struct's attributes the compiler hands to `#[apply]` is
  the compiler's business. The model takes the item `NewInsertable!`
  receives as given.
- Rust's grammar for the `meta`, `vis`, `ident` and `ty` fragments is not
  modelled. Each fragment is one opaque token, so a comma inside a generic
  type is not modelled. Raw identifiers (`r#id`) and macro hygiene are not
  modelled either.
- The compiler's diagnostic text is not modelled. `MalformedInput` names
  which part of the shape failed, in the order the model checks the
  shape.
- Diesel's `Insertable` derive and the SQL it generates (test at
  src/lib.rs:175-185) are external code.
- Name collisions and invalid field types are raised later by the compiler
  or by Diesel, not by this code.
