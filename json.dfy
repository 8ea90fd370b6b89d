/**
  Decoded JSON values, as `json.loads` hands them to the handler, and the
  Python exceptions that handling one decoded message can raise.
 */
module Json {

  /** A decoded JSON value. JSON `null`, and Python's `None`, is `Null`. */
  datatype Value =
    | Null
    | Bool(b: bool)
    | Int(i: int)
    | Float(x: real)
    | Str(s: string)
    | Array(items: seq<Value>)
    | Object(fields: map<string, Value>)

  /** A decoded JSON object: a Python `dict` with string keys. */
  type JsonObject = map<string, Value>

  /** `obj.get(key, default)` */
  function GetOr(obj: JsonObject, key: string, default: Value): Value {
    if key in obj then obj[key] else default
  }

  /** `obj.get(key)`: `None` when the key is absent. */
  function Get(obj: JsonObject, key: string): Value {
    GetOr(obj, key, Null)
  }

  /** The exceptions raised while one inbound message is handled. */
  datatype Error =
    | Undecodable               // json.loads rejects the bytes
    | NotAnObject               // `.get` on something that is not a dict (AttributeError)
    | MissingKey(key: string)   // `obj[key]` on an absent key (KeyError)
    | BadFloat(field: string)   // `float(...)` rejects the value of this field
    | BadSenderFormat           // the format code 'x' rejects the value of `from`
}
