/** The token-level shape of what `diesel_new!` receives and emits.

    A macro sees a struct declaration as a stream of token trees. The
    fragments it captures without looking inside (`meta`, `vis`, `ty`) are
    kept here as opaque strings, and the brace group that holds the fields
    is one token whose contents are the field tokens and the commas
    between them.
 */
module Tokens {

  /** The text inside one outer attribute `#[...]` (a `meta` fragment).
      A doc comment `/// text` reaches a macro as the attribute `doc = "text"`. */
  type Meta = string

  /** A `vis` fragment: it may match nothing (`Inherited`) or one opaque
      visibility such as `pub` or `pub(crate)`. */
  datatype Vis = Inherited | Explicit(text: string)

  /** One named field: `$(#[meta])* vis name : ty`. */
  datatype Field = Field(attrs: seq<Meta>, vis: Vis, name: string, ty: string)

  /** A token inside the brace group of a struct. */
  datatype BodyTok = FieldTok(field: Field) | Comma

  /** A token tree at item level. `Other` stands for any token the matcher
      does not expect there (`enum`, `<`, `;`, a parenthesised group, ...). */
  datatype ItemTok =
    | OuterAttr(meta: Meta)
    | VisTok(text: string)
    | StructKw
    | Ident(name: string)
    | Brace(body: seq<BodyTok>)
    | Other(text: string)

  /** Why an input did not match the shape `diesel_new!` accepts. The
      compiler reports most of these as "no rules expected this token" (or
      an unexpected end of the invocation) at the offending position.
      `AmbiguousComma` is its "local ambiguity" error instead: right after
      `id : ty ,` a second comma could be the optional trailing comma or
      the start of a field whose `vis` fragment matches nothing, and the
      matcher refuses to choose. */
  datatype MalformedInput =
    | ExpectedStructKeyword
    | ExpectedStructName
    | ExpectedFieldBlock
    | UnexpectedTokenAfterBlock
    | EmptyFieldList
    | ExpectedIdField
    | ExpectedCommaAfterId
    | AmbiguousComma
    | ExpectedFieldOrEnd

  /** The outcome of matching: a value, or the reason the match failed. */
  datatype Result<+T> = Ok(value: T) | Err(error: MalformedInput) {
    predicate IsFailure() {
      Err?
    }

    function PropagateFailure<U>(): Result<U>
      requires Err?
    {
      Err(error)
    }

    function Extract(): T
      requires Ok?
    {
      value
    }
  }
}
