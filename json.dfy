/** JSON values as the messaging API sends them, the two wrappers every
    layer uses, and the reasons the exporter exits with status 1. */
module Json {

  datatype Option<+T> = None | Some(value: T)

  /** The outcome of a step that may end the process. */
  datatype Result<+T> = Success(value: T) | Failure(why: Fatal)

  /** A decoded JSON value. JSON numbers are modelled as integers. */
  datatype Json =
    | JNull
    | JBool(b: bool)
    | JNum(n: int)
    | JStr(s: string)
    | JArr(items: seq<Json>)
    | JObj(fields: map<string, Json>)

  /** A JSON object: a page body, a channel, a message, a parameter map. */
  type Record = map<string, Json>

  /** Every way the exporter gives up: each one prints (or posts) a message
      and calls sys.exit(1), or is an uncaught Python exception. */
  datatype Fatal =
    | MissingToken                 // SLACK_USER_TOKEN is not in the environment
    | HttpError(status: int)       // a status other than 200 and 429
    | BadRetryAfter                // a 429 whose Retry-After is missing, not an integer, or negative
    | BodyNotObject                // d["ok"] on a body that is not a JSON object
    | NotOk(body: Record)          // the body's "ok" is false
    | MalformedMetadata            // "next_cursor" in / [] on a response_metadata that is no object
    | Unindexable(key: string)     // the KeyError fallback's [] indexed by the combine key
    | MissingKey(key: string)      // the page body has no combine key
    | NotAList(key: string)        // the combine key holds something other than a list
    | BadChannel(channel: Json)    // a channel without id, name or integer created
    | Unredactable(message: Record) // the --skipfiles pass cannot rewrite this message
}
