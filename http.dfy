/** HTTP replies as the bot sees them, and the status rules of the `requests` library. */
module Http {
  import opened Json

  const OK := 200
  const CREATED := 201
  const NOT_FOUND := 404
  /** 409 Conflict, section 15.5.10 of RFC 9110. */
  const CONFLICT := 409
  /** 429 Too Many Requests, section 4 of RFC 6585. */
  const TOO_MANY_REQUESTS := 429

  /**
   * What a request produced: a status with the decoded JSON object and the raw
   * text of the body, or the `RequestException` raised before any status.
   */
  datatype Reply =
    | Reply(status: int, body: Obj, text: string)
    | NetworkError(message: string)

  datatype Verb = GET | POST | DELETE | HEAD

  /** A request the bot sends: verb, path below the API base URL, JSON body, query parameters. */
  datatype Request = Request(verb: Verb, path: string, body: Obj, params: Obj)

  /** `response.raise_for_status()` raises for client (4xx) and server (5xx) errors. */
  predicate RaisesForStatus(status: int) { 400 <= status < 600 }

  predicate IsSuccess(status: int) { 200 <= status < 300 }
}
