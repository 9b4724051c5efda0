/** A request's query string as gin's `c.Query` reads it. */
module QueryString {
  /** The query parameters by name. */
  type Params = map<string, string>

  /** `c.Query(key)`: the parameter's value, "" when it is absent. */
  function Param(params: Params, key: string): (v: string)
    ensures key !in params ==> v == ""
    ensures key in params ==> v == params[key]
  {
    if key in params then params[key] else ""
  }
}
