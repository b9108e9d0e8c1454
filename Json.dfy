/** An already-parsed JSON document, as the Foundation parsers hand it to the
    view: the byte-level parsing itself is a foreign library and is not modelled. */
module Json {

  import opened Wrappers

  /** A JSON value. Numbers are kept as exact reals; an object is a map from
      its keys to its values (a later duplicate key has already replaced an
      earlier one). */
  datatype JVal =
    | JNull
    | JBool(b: bool)
    | JNum(n: real)
    | JStr(s: string)
    | JArr(items: seq<JVal>)
    | JObj(fields: map<string, JVal>)

  /** `dict[key]` on a decoded object: `nil` when the key is absent. */
  function Lookup(fields: map<string, JVal>, key: string): (r: Option<JVal>)
    ensures r.Some? <==> key in fields
    ensures r.Some? ==> r.value == fields[key]
  {
    if key in fields then Some(fields[key]) else None
  }

  /** `dict[key] as? String`: the text of a string value, `nil` for an absent
      key and for a value of any other JSON type (number, bool, null, array,
      object). */
  function StringAt(fields: map<string, JVal>, key: string): (r: Option<string>)
    ensures r.Some? <==> key in fields && fields[key].JStr?
    ensures r.Some? ==> fields[key] == JStr(r.value)
  {
    match Lookup(fields, key)
    case Some(JStr(s)) => Some(s)
    case _ => None
  }
}
