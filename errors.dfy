/** `HttpError`, `badRequest`, and the `timings` payload that both crawl strategies
    attach to what they return and to what they throw (src/utils/errors.js,
    src/services/staticCrawler.js, src/services/dynamicCrawler.js). */
module Errors {
  import opened Wrappers

  /** The `timings.meta` record: the static strategy's head-read diagnostics, or the
      dynamic strategy's browser-reuse diagnostics. */
  datatype Meta =
    | StaticMeta(headOnly: bool, headComplete: bool, headBytes: nat, headTruncated: bool, headFallback: bool)
    | DynamicMeta(launchReused: bool, browserAgeMs: int)

  /** The `timings` object; a field that was never assigned is `None`. */
  datatype Timings = Timings(
    fetchMs: Option<int>,
    launchMs: Option<int>,
    navigationMs: Option<int>,
    extractMs: Option<int>,
    totalMs: Option<int>,
    meta: Option<Meta>)

  const NoTimings: Timings := Timings(None, None, None, None, None, None)

  /** A thrown value: its `name` ("Error" for an HttpError, "TimeoutError" for a
      browser timeout, ...), the `status` an HttpError carries, its message, and the
      `timings` a crawler attached before rethrowing it. */
  datatype JsError = JsError(name: string, status: Option<int>, message: string, timings: Option<Timings>)

  /** `new HttpError(status, message)`: a plain Error with a status. */
  function HttpError(status: int, message: string): JsError {
    JsError("Error", Some(status), message, None)
  }

  /** `badRequest(message)`. */
  function BadRequest(message: string): JsError {
    HttpError(400, message)
  }

  /** What `new URL(...)` throws on input it cannot parse. */
  const InvalidUrl: JsError := JsError("TypeError", None, "Invalid URL", None)

  /** `error.timings = timings`. */
  function WithTimings(e: JsError, t: Timings): JsError {
    e.(timings := Some(t))
  }
}
