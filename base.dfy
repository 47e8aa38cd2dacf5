/** Values shared by every layer of the request pipeline: optional values,
    results, the errors that travel to Express's `next`, and what a handler
    finally does with a request. */
module Base {

  datatype Option<+T> = None | Some(value: T) {
    /** The value, or `default` when absent. */
    function GetOr(default: T): T {
      if Some? then value else default
    }
  }

  /** An error raised while handling a request: either an `HTTPError` that the
      code itself throws (status, status message, detail), or an error thrown by
      a library or by the JavaScript runtime, identified by its class name. */
  datatype Error =
    | HttpError(status: int, statusMessage: string, message: string)
    | Thrown(name: string, message: string)

  datatype Result<+T> = Ok(value: T) | Err(error: Error)

  /** The result of a store call that may write, and the collection after it. */
  datatype Written<+T, +S> = Written(result: Result<T>, state: S)

  /** The one call an interceptor makes to `next`: bare, or with an error. */
  datatype NextCall = Next | NextError(error: Error)

  /** What a controller method does with a request: it answers through
      `resp.json` (with the status it set, 200 when it set none), or it hands
      an error to `next` and writes no body. */
  datatype Outcome<+T> = Respond(status: int, results: T) | Fail(error: Error)

  /** A field value of a stored document as a query or a JSON transform sees it. */
  datatype Value = Str(s: string) | Num(n: real) | Undefined

  const StatusOk := 200
  const StatusCreated := 201
  const StatusAccepted := 202
  const StatusUnauthorized := 401
  const StatusNotFound := 404
  const StatusInvalidToken := 498

  /** JavaScript falsiness of an optional string field: `undefined` or `""`. */
  predicate Falsy(s: Option<string>) {
    s.None? || s.value == ""
  }

  /** The error MongoDB raises when an insert or update would break a unique index. */
  const DuplicateKey := Thrown("MongoServerError", "E11000 duplicate key error")
}
