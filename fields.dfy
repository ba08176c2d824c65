/** The field list after the `id` field (src/lib.rs:107-110) and the field
    list the transcriber writes (src/lib.rs:117-120).

    Matched:  $( $(#[$field_meta:meta])* $field_vis:vis $field_name:ident : $field_ty:ty ),* $(,)?
    Written:  $( $(#[$field_meta])* $field_vis $field_name: $field_ty, )*

    A field token stands for one whole field; the grammar here is about
    where the commas may go.
 */
module Fields {
  import opened Tokens

  /** `f1 , f2 , ... , fn`: commas between fields, none after the last. */
  function Joined(fs: seq<Field>): seq<BodyTok>
  {
    if fs == [] then [] else [FieldTok(fs[0])] + Separated(fs[1..])
  }

  /** `, f1 , f2 ... , fn`: a comma before every field. */
  function Separated(fs: seq<Field>): seq<BodyTok>
  {
    if fs == [] then [] else [Comma, FieldTok(fs[0])] + Separated(fs[1..])
  }

  /** `f1, f2, ... fn,`: a comma after every field, as the transcriber writes. */
  function Terminated(fs: seq<Field>): (r: seq<BodyTok>)
    ensures |r| == 2 * |fs|
    ensures forall i :: 0 <= i < |fs| ==> r[2 * i] == FieldTok(fs[i]) && r[2 * i + 1] == Comma
  {
    if fs == [] then [] else [FieldTok(fs[0]), Comma] + Terminated(fs[1..])
  }

  /** The optional trailing comma `$(,)?`. */
  function OptComma(trailing: bool): seq<BodyTok>
  {
    if trailing then [Comma] else []
  }

  /** The fields of a token sequence, in order, with the commas dropped. */
  function FieldsOf(toks: seq<BodyTok>): seq<Field>
  {
    if toks == [] then []
    else (if toks[0].FieldTok? then [toks[0].field] else []) + FieldsOf(toks[1..])
  }

  /** The rest of the repetition once a first field has been taken:
      `$( , field )*` followed by `$(,)?`. */
  function ParseSeparated(toks: seq<BodyTok>): (r: Result<seq<Field>>)
    ensures r.Ok? ==> r.value == FieldsOf(toks)
    decreases |toks|
  {
    if toks == [] || toks == [Comma] then Ok([])
    else if |toks| >= 2 && toks[0] == Comma && toks[1].FieldTok? then
      var more :- ParseSeparated(toks[2..]);
      assert toks[1..][1..] == toks[2..];
      Ok([toks[1].field] + more)
    else Err(ExpectedFieldOrEnd)
  }

  /** The whole repetition `$( field ),* $(,)?`, possibly empty, as it
      stands right after `id : ty ,`. A comma in first place is refused as
      ambiguous: it could close the empty repetition as the optional comma,
      or it could follow an empty `$field_vis:vis` at the start of a field
      (a `vis` fragment may begin with a comma), and the matcher does not
      choose between a literal token and a fragment. A trailing comma is
      therefore only accepted after at least one field. */
  function ParseFields(toks: seq<BodyTok>): (r: Result<seq<Field>>)
    ensures r.Ok? ==> r.value == FieldsOf(toks)
    ensures toks != [] && toks[0] == Comma ==> r == Err(AmbiguousComma)
  {
    if toks == [] then Ok([])
    else if toks[0] == Comma then Err(AmbiguousComma)
    else
      var more :- ParseSeparated(toks[1..]);
      Ok([toks[0].field] + more)
  }

  lemma {:induction false} ParseSeparatedSound(toks: seq<BodyTok>, fs: seq<Field>)
    requires ParseSeparated(toks) == Ok(fs)
    ensures toks == Separated(fs) + OptComma(false) || toks == Separated(fs) + OptComma(true)
    decreases |toks|
  {
    if toks == [] || toks == [Comma] {
    } else {
      var more := ParseSeparated(toks[2..]).value;
      ParseSeparatedSound(toks[2..], more);
      assert fs == [toks[1].field] + more;
      assert fs[1..] == more;
      assert toks == [Comma, FieldTok(fs[0])] + toks[2..];
    }
  }

  lemma {:induction false} ParseSeparatedComplete(fs: seq<Field>, trailing: bool)
    ensures ParseSeparated(Separated(fs) + OptComma(trailing)) == Ok(fs)
  {
    var toks := Separated(fs) + OptComma(trailing);
    if fs != [] {
      assert toks == [Comma, FieldTok(fs[0])] + (Separated(fs[1..]) + OptComma(trailing));
      assert toks[2..] == Separated(fs[1..]) + OptComma(trailing);
      ParseSeparatedComplete(fs[1..], trailing);
      assert [fs[0]] + fs[1..] == fs;
    } else {
      assert toks == OptComma(trailing);
    }
  }

  /** The repetition accepts exactly the comma-separated field lists, and
      those of at least one field also with one trailing comma, and yields
      their fields in order. */
  lemma ParseFieldsIff(toks: seq<BodyTok>, fs: seq<Field>)
    ensures ParseFields(toks) == Ok(fs) <==> (toks == Joined(fs) || (fs != [] && toks == Joined(fs) + [Comma]))
  {
    if ParseFields(toks) == Ok(fs) {
      if toks == [] {
        assert fs == [];
        assert Joined(fs) == [];
      } else {
        ParseSeparatedSound(toks[1..], fs[1..]);
        assert toks == [toks[0]] + toks[1..];
        assert Joined(fs) == [FieldTok(fs[0])] + Separated(fs[1..]);
      }
    }
    if toks == Joined(fs) || (fs != [] && toks == Joined(fs) + [Comma]) {
      var trailing := toks != Joined(fs);
      if fs == [] {
        assert toks == OptComma(trailing);
      } else {
        assert toks == [FieldTok(fs[0])] + (Separated(fs[1..]) + OptComma(trailing));
        assert toks[1..] == Separated(fs[1..]) + OptComma(trailing);
        ParseSeparatedComplete(fs[1..], trailing);
        assert [fs[0]] + fs[1..] == fs;
      }
    }
  }

  /** A comma after every field is the joined form plus one trailing comma. */
  lemma {:induction false} TerminatedIsJoinedWithComma(fs: seq<Field>)
    requires fs != []
    ensures Terminated(fs) == Joined(fs) + [Comma]
  {
    if |fs| == 1 {
      assert fs[1..] == [];
    } else {
      TerminatedIsJoinedWithComma(fs[1..]);
      SeparatedIsCommaJoined(fs[1..]);
    }
  }

  lemma SeparatedIsCommaJoined(fs: seq<Field>)
    requires fs != []
    ensures Separated(fs) == [Comma] + Joined(fs)
  {
  }

  /** What the transcriber writes is accepted again by the repetition and
      read back as the same fields. */
  lemma ParseTerminated(fs: seq<Field>)
    ensures ParseFields(Terminated(fs)) == Ok(fs)
  {
    if fs != [] {
      TerminatedIsJoinedWithComma(fs);
      ParseFieldsIff(Terminated(fs), fs);
    }
  }
}
