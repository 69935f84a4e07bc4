/** Values shared by every wrapper: optional values, JSON-like dictionaries,
    and the outcome of the one external call each wrapper makes. */
module Base {

  datatype Option<+T> = None | Some(value: T)

  /** The shape of a Python dict/list/scalar as the wrappers build and receive them
      (request bodies, SDK items, parsed responses). */
  datatype Json =
    | JNull
    | JBool(b: bool)
    | JInt(i: int)
    | JStr(s: string)
    | JList(items: seq<Json>)
    | JObject(fields: map<string, Json>)

  /** What a `requests` call ended with: it raised, or a response arrived whose
      body is `Some(json)` when it parses as JSON and `None` otherwise. */
  datatype Reply =
    | Raised
    | Replied(status: int, body: Option<Json>)

  /** How a Python method ends: it returns a value, or an exception propagates to the caller. */
  datatype Exit<+T> = Return(value: T) | Raise(error: string)

  /** `Response.ok` of the requests library: false exactly for 4xx and 5xx status codes. */
  predicate StatusOk(status: int)
  {
    !(400 <= status < 600)
  }

  /** True when the call completed and its response is ok; every wrapper's pass/fail flag. */
  predicate Succeeded(reply: Reply)
  {
    reply.Replied? && StatusOk(reply.status)
  }

  predicate StartsWith(s: string, prefix: string)
  {
    |prefix| <= |s| && s[..|prefix|] == prefix
  }

  predicate EndsWith(s: string, suffix: string)
  {
    |suffix| <= |s| && s[|s| - |suffix|..] == suffix
  }

  /** Python's `str()` of a value that is either a string or None, as an f-string interpolates it. */
  function PyStr(v: Option<string>): string
  {
    match v
    case Some(s) => s
    case None => "None"
  }
}
