/** Decoded JSON values as the webhook payload delivers them. An object keeps
    its members in the order they were decoded, as a Python dict does. */
module Json {
  import opened Wrappers
  import opened Dicts

  datatype Json =
    | JNull
    | JBool(b: bool)
    | JNumber(n: int)
    | JString(s: string)
    | JArray(elements: seq<Json>)
    | JObject(members: seq<(string, Json)>)

  /** `j[key]` for a string key: an object yields the member's value or raises
      KeyError; every other kind of value raises TypeError (a list or a string
      wants an integer index, the rest are not subscriptable). */
  function Subscript(j: Json, key: string): (r: Result<Json>)
    ensures r.Ok? <==> j.JObject? && HasKey(j.members, key)
    ensures r.Ok? ==> Find(j.members, key) == Some(r.value)
    ensures j.JObject? && !HasKey(j.members, key) ==> r == Err(KeyError(key))
    ensures !j.JObject? ==> r == Err(NotSubscriptable)
  {
    match j
    case JObject(members) =>
      (match Find(members, key)
       case Some(v) => Ok(v)
       case None => Err(KeyError(key)))
    case _ => Err(NotSubscriptable)
  }
}
