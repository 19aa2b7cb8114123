/** Values exchanged between the services, the store and the CRM backend. */
module Types {

  /** The JSON values a request body may carry for a property. */
  datatype Json = JNull | JNum(n: int) | JStr(s: string) | JList(items: seq<Json>)

  /**
   * A CRM object returned by a list query: its properties (what `x.get(name)`
   * reads; a number, a string, null or a list) and `text`, the object's
   * printed form (what `str(x)` yields).
   */
  datatype Record = Record(fields: map<string, Json>, text: string)

  /** An error answer of the CRM backend (the SDK's ApiException). */
  datatype ApiError = ApiError(status: int, body: string)

  /** The Python exceptions the core can raise. */
  datatype Error =
    | ValueError(reason: string)        // includes json.JSONDecodeError
    | TypeError(reason: string)
    | KeyError(key: string)
    | EvalError                         // eval() of a cached token entry that is not a token dict
    | RefreshError(text: string)        // Exception("Failed to refresh token: ...")
    | ApiException(status: int, body: string)

  /** `properties.get(name)`: the property, or JSON null when it is missing. */
  function PropOrNull(props: map<string, Json>, name: string): Json {
    if name in props then props[name] else JNull
  }
}
