/**
 * The values `json.loads` produces, and the exceptions the platform's Python
 * code can meet while decoding and converting them.
 */
module Json {
  import opened Common

  /** A decoded JSON value; an object is a map from key to value (later duplicates win). */
  datatype Json =
    | JNull
    | JBool(b: bool)
    | JNumber(n: real)
    | JString(s: string)
    | JArray(items: seq<Json>)
    | JObject(fields: map<string, Json>)

  /** The exception classes that decide which `except` clause (if any) catches a failure. */
  datatype PyError =
    | JsonDecodeError    // json.JSONDecodeError, a subclass of ValueError
    | ValueError         // float() of a non-numeric string
    | ValidationError    // pydantic's ValidationError, also a subclass of ValueError
    | TypeError          // float() of None, a list or a dict
    | AttributeError     // `.get` called on a decoded value that is not a dict
    | IndexError         // a list index outside [-len, len)
    | NameError          // a local variable read before any assignment (UnboundLocalError)

  /**
   * The library calls the model does not re-implement: `json.loads` (None when it
   * raises JSONDecodeError), `float()` on a string (None when it raises ValueError)
   * and `str(e)`, the message of a raised exception.
   */
  datatype Lib = Lib(
    loads: string -> Option<Json>,
    parseFloat: string -> Option<real>,
    describe: PyError -> string)

  /** Python's `float(v)` applied to a decoded JSON value. */
  function ToFloat(v: Json, lib: Lib): (r: Result<real, PyError>)
    ensures v.JNumber? ==> r == Ok(v.n)
    ensures r.Err? ==> (r.error == ValueError <==> v.JString?)
    ensures r.Err? ==> r.error == ValueError || r.error == TypeError
  {
    match v
    case JNumber(n) => Ok(n)
    case JBool(b) => Ok(if b then 1.0 else 0.0)
    case JString(s) =>
      (match lib.parseFloat(s)
       case Some(x) => Ok(x)
       case None => Err(ValueError))
    case _ => Err(TypeError)
  }

  /** `dict.get(key, default)` on a decoded object. */
  function Get(fields: map<string, Json>, key: string, default: Json): Json
  {
    if key in fields then fields[key] else default
  }
}
