/** JSON values, and JSON text as an abstract printer and partial parser. */
module JsonCodec {
  import opened Text

  datatype Json =
    | Null
    | Bool(truth: bool)
    | Num(number: int)
    | Str(text: string)
    | Arr(items: seq<Json>)
    | Obj(fields: map<string, Json>)

  /** `JSON.stringify` and `JSON.parse`; `None` stands for the parser's SyntaxError. */
  datatype Codec = Codec(parse: string -> Option<Json>, stringify: Json -> string)

  /**
   * What the streams rely on: printing is undone by parsing, and printed text is one nonblank line without white space
   * at its ends (section 7 of RFC 8259 has every control character inside a string escaped).
   */
  ghost predicate Lawful(codec: Codec)
  {
    && (forall j :: codec.parse(codec.stringify(j)) == Some(j))
    && (forall j :: '\n' !in codec.stringify(j))
    && (forall j :: codec.stringify(j) != "" && Trim(codec.stringify(j)) == codec.stringify(j))
  }

  /** `m[key]` on an object, `None` when the value is no object or lacks the key. */
  function Field(j: Json, key: string): Option<Json>
  {
    if j.Obj? && key in j.fields then Some(j.fields[key]) else None
  }

  /** The field is there and is that text. */
  predicate IsText(j: Json, key: string, text: string)
  {
    Field(j, key) == Some(Str(text))
  }

  predicate HasType(j: Json, name: string)
  {
    IsText(j, "type", name)
  }
}
