/** The few pieces of Python's runtime the core relies on: exceptions, JSON-shaped values,
    the `in` operator on them, truthiness of optional strings and `str(None)`. */
module Py {
  import opened Wrappers
  import opened Strings

  /** A raised exception: `type(e).__name__` and `str(e)`. */
  datatype Exception = Exception(kind: string, message: string)

  /** The text `f"{type(e).__name__}: {e}"`. */
  function Described(e: Exception): string {
    e.kind + ": " + e.message
  }

  /** A decoded JSON value as Python holds it (numbers are integers here). */
  datatype Json =
    | JNull
    | JBool(b: bool)
    | JNum(n: int)
    | JStr(s: string)
    | JArr(items: seq<Json>)
    | JObj(fields: map<string, Json>)

  function TypeName(v: Json): string {
    match v
    case JNull => "NoneType"
    case JBool(_) => "bool"
    case JNum(_) => "int"
    case JStr(_) => "str"
    case JArr(_) => "list"
    case JObj(_) => "dict"
  }

  /** Python's `key in v`: a key test on a dict, a substring test on a str, an element test on a
      list, and a TypeError on anything else. */
  function In(key: string, v: Json): (r: Result<bool, Exception>)
    ensures r.Failure? <==> (v.JNull? || v.JBool? || v.JNum?)
    ensures v.JObj? ==> r == Success(key in v.fields)
    ensures v.JStr? ==> r == Success(Contains(v.s, key))
    ensures v.JArr? ==> r == Success(JStr(key) in v.items)
    ensures r.Failure? ==> r.error.kind == "TypeError"
  {
    match v
    case JObj(fields) => Success(key in fields)
    case JStr(s) => Success(Contains(s, key))
    case JArr(items) => Success(JStr(key) in items)
    case _ => Failure(Exception("TypeError", "argument of type '" + TypeName(v) + "' is not iterable"))
  }

  /** Python's `m.get(key, default)`. */
  function Get(m: map<string, Json>, key: string, default: Json): Json {
    if key in m then m[key] else default
  }

  /** Python's truth value of an optional string: neither None nor empty. */
  predicate Truthy(o: Option<string>) {
    o.Some? && o.value != ""
  }

  /** Python's `str(o)` for an optional string: `None` prints as "None". */
  function Str(o: Option<string>): string {
    if o.Some? then o.value else "None"
  }

  /** `os.getenv(name)` over an environment. */
  function GetEnv(env: map<string, string>, name: string): Option<string> {
    if name in env then Some(env[name]) else None
  }
}
