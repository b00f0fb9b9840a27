/** JSON values as the protocol layers see them. */
module Json {

  datatype JsonValue =
    | JNull
    | JBool(b: bool)
    | JNumber(n: real)
    | JString(s: string)
    | JArray(items: seq<JsonValue>)
    | JObject(fields: map<string, JsonValue>)

  /** The three outcomes of `JsonElement.GetString()` in System.Text.Json: the string of a
      string element, null for a null element, and an InvalidOperationException for any
      other kind. */
  datatype StringRead = Str(s: string) | NullString | WrongKind

  function GetString(v: JsonValue): (r: StringRead)
    ensures r.Str? <==> v.JString?
    ensures r.NullString? <==> v.JNull?
    ensures r.Str? ==> r.s == v.s
  {
    match v
    case JString(s) => Str(s)
    case JNull => NullString
    case _ => WrongKind
  }

  /** The members of a JSON array that are strings, in order. */
  function Strings(items: seq<JsonValue>): (r: seq<string>)
    ensures |r| <= |items|
    ensures forall x :: x in r <==> JString(x) in items
  {
    if items == [] then []
    else
      var rest := Strings(items[1..]);
      assert forall v :: v in items <==> v == items[0] || v in items[1..];
      if items[0].JString? then [items[0].s] + rest else rest
  }
}
