/** Value types shared by every part of the model: optional values (JavaScript
    `undefined` is `None`), results of operations that can fail, and the
    schema-free JSON values carried by `surveyData`. */
module Values {

  /** A value that may be absent; `None` stands for JavaScript `undefined`. */
  datatype Option<+T> = None | Some(value: T) {

    /** The value, or `default` when absent (the `x || d` and schema-default idioms). */
    function GetOr(default: T): T {
      match this
      case Some(v) => v
      case None => default
    }
  }

  /** Either the value an operation produced or the error it reported. */
  datatype Result<+R, +E> = Ok(value: R) | Err(error: E)

  /** A dynamically typed JSON value, as a Mongoose `Mixed` path stores it. */
  datatype Json =
    | JNull
    | JBool(b: bool)
    | JNum(n: real)
    | JStr(s: string)
    | JArr(items: seq<Json>)
    | JObj(members: seq<(string, Json)>)

  /** JavaScript truthiness of a request field that may be missing:
      `undefined`, `null`, `false`, `0` and `""` are falsy; arrays and
      objects, even empty ones, are truthy. */
  predicate Truthy(v: Option<Json>) {
    match v
    case None => false
    case Some(JNull) => false
    case Some(JBool(b)) => b
    case Some(JNum(n)) => n != 0.0
    case Some(JStr(s)) => s != ""
    case Some(JArr(_)) => true
    case Some(JObj(_)) => true
  }

  /** Truthiness of an optional string field (`!sessionId`). */
  predicate TruthyString(v: Option<string>) {
    v.Some? && v.value != ""
  }
}
