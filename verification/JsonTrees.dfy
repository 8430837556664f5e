/** JSON as a tree. Numbers keep their text. */
module JsonTrees {
  datatype Json =
    | Null
    | Bool(value: bool)
    | Number(digits: string)
    | Str(text: string)
    | Arr(items: seq<Json>)
    | Obj(fields: map<string, Json>)

  /** payloadString: a field that is a string, else the empty string. */
  function StringField(fields: map<string, Json>, key: string): string {
    if key in fields && fields[key].Str? then fields[key].text else ""
  }

  /** cmp.Or on strings. */
  function Or(a: string, b: string): string {
    if a != "" then a else b
  }
}
