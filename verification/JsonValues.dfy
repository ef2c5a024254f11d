/** JSON values as the validators see them. */
module JsonValues {
  import opened Identities

  datatype Json =
    | Null
    | Bool(value: bool)
    | Number(number: int)
    | Text(text: string)
    | List(items: seq<Json>)
    | Object(fields: map<string, Json>)

  /** `dict.get`: a missing key reads as null. */
  function Get(j: Json, key: string): Json {
    if j.Object? && key in j.fields then j.fields[key] else Null
  }

  predicate IsOneOf(j: Json, allowed: set<string>) {
    j.Text? && j.text in allowed
  }

  predicate SafeText(j: Json) {
    j.Text? && j.text != "" && '\0' !in j.text && SEPARATOR !in j.text && '\r' !in j.text && '\n' !in j.text
  }

  function Items(j: Json): seq<Json> {
    if j.List? then j.items else []
  }
}
