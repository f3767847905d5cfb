/** JSON values as the API receives and returns them. */
module Json {

  datatype Option<+T> = None | Some(value: T)

  /** A JSON value. Numbers are kept as integers: the views never inspect them. */
  datatype Value =
    | Null
    | Bool(b: bool)
    | Num(n: int)
    | Str(s: string)
    | Arr(elems: seq<Value>)
    | Obj(fields: map<string, Value>)

  /** The attributes of one stored object, as its dictionary form presents them. */
  type Record = map<string, Value>

  /** The request body is rejected as "Not a JSON" when there is no JSON object at
      all or the object is empty: both are falsy in the handlers' truth test. */
  predicate NotJson(body: Option<Record>)
    ensures body.None? ==> NotJson(body)
    ensures !NotJson(body) ==> body.Some? && exists k :: k in body.value
  {
    body.None? || body.value == map[]
  }
}
