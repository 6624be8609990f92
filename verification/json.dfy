/** The already-decoded JSON payloads the layer receives, and the few pieces of
    Python behaviour the decoders rely on: truthiness, `dict.get`, and iterating
    a value to decode each element. */
module JsonValues {
  import opened Results

  /** A decoded JSON value. Non-integral numbers are not modelled. */
  datatype Json =
    | JNull
    | JBool(b: bool)
    | JInt(n: int)
    | JStr(s: string)
    | JArr(items: seq<Json>)
    | JObj(fields: map<string, Json>)

  /** A Python dict with string keys, as handed over by the transport layer. */
  type Object = map<string, Json>

  /** Python truthiness: null, false, 0, "", [] and {} are falsy. */
  predicate Truthy(j: Json) {
    match j
    case JNull => false
    case JBool(b) => b
    case JInt(n) => n != 0
    case JStr(s) => s != ""
    case JArr(xs) => xs != []
    case JObj(m) => m != map[]
  }

  /** `data.get(key, default)`: the stored value, even when it is null. */
  function Get(data: Object, key: string, default: Json): Json {
    if key in data then data[key] else default
  }

  /** The payload cut down to the given keys. */
  function Restrict(data: Object, keys: set<string>): Object {
    map k | k in data && k in keys :: data[k]
  }

  /** The dict a value stands for when a decoder calls `.get` on it; only a
      JSON object has that method. */
  function AsObject(j: Json): Result<Object, Error> {
    if j.JObj? then Ok(j.fields) else Err(WrongKind)
  }

  /** Decoding one element of a list: the element must be a dict. */
  function DecodeObject<T>(decode: Object -> Result<T, Error>, j: Json): Result<T, Error> {
    match AsObject(j)
    case Ok(o) => decode(o)
    case Err(e) => Err(e)
  }

  /** `[decode(x) for x in xs]`: the list comprehension stops at the first
      element whose decoding raises. */
  function DecodeEach<T(==)>(decode: Object -> Result<T, Error>, xs: seq<Json>): (r: Result<seq<T>, Error>)
    ensures r.Ok? <==> forall i :: 0 <= i < |xs| ==> DecodeObject(decode, xs[i]).Ok?
    ensures r.Ok? ==> |r.value| == |xs|
    ensures r.Ok? ==> forall i :: 0 <= i < |xs| ==> DecodeObject(decode, xs[i]) == Ok(r.value[i])
    ensures r.Err? ==>
              exists i :: 0 <= i < |xs| && DecodeObject(decode, xs[i]) == Err(r.error)
                          && forall k :: 0 <= k < i ==> DecodeObject(decode, xs[k]).Ok?
    decreases |xs|
  {
    if xs == [] then Ok([])
    else
      match DecodeObject(decode, xs[0])
      case Err(e) => Err(e)
      case Ok(x) =>
        match DecodeEach(decode, xs[1..])
        case Err(e) =>
          ghost var i :| 0 <= i < |xs[1..]| && DecodeObject(decode, xs[1..][i]) == Err(e)
                         && forall k :: 0 <= k < i ==> DecodeObject(decode, xs[1..][k]).Ok?;
          assert DecodeObject(decode, xs[i + 1]) == Err(e);
          assert forall k :: 0 <= k < i + 1 ==> DecodeObject(decode, xs[k]).Ok? by {
            forall k | 0 <= k < i + 1
              ensures DecodeObject(decode, xs[k]).Ok?
            {
              if k > 0 {
                assert xs[k] == xs[1..][k - 1];
              }
            }
          }
          Err(e)
        case Ok(rest) =>
          assert forall i :: 0 < i < |xs| ==> xs[i] == xs[1..][i - 1];
          Ok([x] + rest)
  }

  /** `[decode(x) for x in j]` for any JSON value `j`. A list yields its
      elements; "" and {} yield nothing; a non-empty string or dict yields
      strings, the first of which the element decoder rejects; null, booleans
      and numbers are not iterable. */
  function DecodeList<T(==)>(decode: Object -> Result<T, Error>, j: Json): (r: Result<seq<T>, Error>)
    ensures j.JArr? ==> r == DecodeEach(decode, j.items)
    ensures j == JStr("") || j == JObj(map[]) ==> r == Ok([])
    ensures !j.JArr? && Truthy(j) ==> r == Err(WrongKind)
    ensures j.JNull? || j.JBool? || j.JInt? ==> r == Err(WrongKind)
  {
    match j
    case JArr(xs) => DecodeEach(decode, xs)
    case JStr(s) => if s == "" then Ok([]) else Err(WrongKind)
    case JObj(m) => if m == map[] then Ok([]) else Err(WrongKind)
    case _ => Err(WrongKind)
  }
}
