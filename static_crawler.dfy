/** The head-first static strategy (src/services/staticCrawler.js). The two
    fetches of src/utils/http.js are inputs: what the head fetch and the full
    fetch would resolve with or throw. The clock readings are inputs too. */
module StaticCrawler {
  import opened Wrappers
  import opened Errors
  import opened Env
  import opened Urls
  import opened OgExtractor
  import opened Crawled

  /** What `fetchHeadHtml` resolves with: the document up to the end of its head,
      the URL after redirects, whether `</head>` was seen, and the bytes read. */
  datatype HeadFetch = HeadFetch(html: Document, finalUrl: string, headComplete: bool, bytesRead: nat, truncated: bool)

  /** What `fetchHtml` resolves with. */
  datatype FullFetch = FullFetch(html: Document, finalUrl: string)

  /** A fetch the crawler issues, with the options it passes. */
  datatype FetchCall =
    | HeadCall(url: string, timeoutMs: int, maxBytes: int)
    | FullCall(url: string, timeoutMs: int)

  /** `Number(process.env.STATIC_TIMEOUT_MS)` and
      `Number(process.env.STATIC_HEAD_MAX_BYTES)`. */
  datatype StaticEnv = StaticEnv(timeoutMs: JsNumber, headMaxBytes: JsNumber)

  /** The successive `Date.now()` readings: at the start, around the fetches, around
      extraction, and the one `totalMs` is taken from. */
  datatype StaticClock = StaticClock(
    startedAt: int, fetchStartedAt: int, fetchEndedAt: int,
    extractStartedAt: int, extractEndedAt: int, endedAt: int)

  const DefaultTimeoutMs := 8000
  const DefaultHeadMaxBytes := 128 * 1024

  /** The timeout: the env value unless it is missing, 0 or not a number. */
  function TimeoutMs(env: StaticEnv): (t: int)
    ensures env.timeoutMs.NaN? || env.timeoutMs == Num(0) ==> t == 8000
    ensures env.timeoutMs.Num? && env.timeoutMs.value != 0 ==> t == env.timeoutMs.value
  {
    TruthyOr(env.timeoutMs, DefaultTimeoutMs)
  }

  /** The head byte budget: the env value unless it is missing, 0 or not a number. */
  function HeadMaxBytes(env: StaticEnv): (b: int)
    ensures env.headMaxBytes.NaN? || env.headMaxBytes == Num(0) ==> b == 131072
    ensures env.headMaxBytes.Num? && env.headMaxBytes.value != 0 ==> b == env.headMaxBytes.value
  {
    TruthyOr(env.headMaxBytes, DefaultHeadMaxBytes)
  }

  /** `crawlStatic(targetUrl)`: returns the result or the error it throws, and the
      fetches it issues in order. */
  method CrawlStatic(p: UrlParser, env: StaticEnv, clock: StaticClock, targetUrl: string,
                     head: Result<HeadFetch, JsError>, full: Result<FullFetch, JsError>)
    returns (r: Result<Crawled, JsError>, calls: seq<FetchCall>)
    // The head fetch always comes first; the full fetch follows iff the head
    // fetch succeeded without reaching the end of the head.
    ensures 1 <= |calls| <= 2
    ensures calls[0] == HeadCall(targetUrl, TimeoutMs(env), HeadMaxBytes(env))
    ensures |calls| == 2 <==> head.Ok? && !head.value.headComplete
    ensures |calls| == 2 ==> calls[1] == FullCall(targetUrl, TimeoutMs(env))
    // A failed fetch is rethrown as is, carrying only the total time.
    ensures head.Err? ==>
              r == Err(WithTimings(head.error, NoTimings.(totalMs := Some(clock.endedAt - clock.startedAt))))
    ensures head.Ok? && !head.value.headComplete && full.Err? ==>
              r == Err(WithTimings(full.error, NoTimings.(totalMs := Some(clock.endedAt - clock.startedAt))))
    // Once the fetches are done, extraction runs on the chosen document against
    // `finalUrl || targetUrl`.
    ensures head.Ok? && (head.value.headComplete || full.Ok?) ==>
              var h := head.value;
              var html := if h.headComplete then h.html else full.value.html;
              var finalUrl := if !h.headComplete && full.value.finalUrl != "" then full.value.finalUrl else h.finalUrl;
              var meta := StaticMeta(headOnly := true, headComplete := h.headComplete, headBytes := h.bytesRead,
                                     headTruncated := h.truncated, headFallback := !h.headComplete);
              var fetched := NoTimings.(fetchMs := Some(clock.fetchEndedAt - clock.fetchStartedAt), meta := Some(meta));
              var extracted := ExtractOgData(p, html, Some(if finalUrl != "" then finalUrl else targetUrl));
              && (extracted.Ok? ==>
                    r == Ok(Crawled(extracted.value,
                                    fetched.(extractMs := Some(clock.extractEndedAt - clock.extractStartedAt),
                                             totalMs := Some(clock.endedAt - clock.startedAt)))))
              && (extracted.Err? ==>
                    r == Err(WithTimings(extracted.error, fetched.(totalMs := Some(clock.endedAt - clock.startedAt)))))
  {
    var timings := NoTimings;
    var timeoutMs := TruthyOr(env.timeoutMs, DefaultTimeoutMs);
    var headMaxBytes := TruthyOr(env.headMaxBytes, DefaultHeadMaxBytes);
    calls := [HeadCall(targetUrl, timeoutMs, headMaxBytes)];
    if head.Err? {
      timings := timings.(totalMs := Some(clock.endedAt - clock.startedAt));
      return Err(WithTimings(head.error, timings)), calls;
    }
    var headResult := head.value;
    var html := headResult.html;
    var finalUrl := headResult.finalUrl;
    var headFallback := false;
    if !headResult.headComplete {
      headFallback := true;
      calls := calls + [FullCall(targetUrl, timeoutMs)];
      if full.Err? {
        timings := timings.(totalMs := Some(clock.endedAt - clock.startedAt));
        return Err(WithTimings(full.error, timings)), calls;
      }
      html := full.value.html;
      finalUrl := if full.value.finalUrl != "" then full.value.finalUrl else finalUrl;
    }
    assert html == if headResult.headComplete then headResult.html else full.value.html;
    assert finalUrl == if !headResult.headComplete && full.value.finalUrl != "" then full.value.finalUrl else headResult.finalUrl;
    timings := timings.(fetchMs := Some(clock.fetchEndedAt - clock.fetchStartedAt));
    timings := timings.(meta := Some(StaticMeta(
      headOnly := true,
      headComplete := headResult.headComplete,
      headBytes := headResult.bytesRead,
      headTruncated := headResult.truncated,
      headFallback := headFallback)));
    r := ExtractStage(p, clock, html, if finalUrl != "" then finalUrl else targetUrl, timings);
  }

  /** The end of `crawlStatic` once a document is in hand: extraction against the
      base URL, and the timings it adds to `fetched`. */
  method ExtractStage(p: UrlParser, clock: StaticClock, html: Document, baseUrl: string, fetched: Timings)
    returns (r: Result<Crawled, JsError>)
    ensures var extracted := ExtractOgData(p, html, Some(baseUrl));
            && (extracted.Ok? ==>
                  r == Ok(Crawled(extracted.value,
                                  fetched.(extractMs := Some(clock.extractEndedAt - clock.extractStartedAt),
                                           totalMs := Some(clock.endedAt - clock.startedAt)))))
            && (extracted.Err? ==>
                  r == Err(WithTimings(extracted.error, fetched.(totalMs := Some(clock.endedAt - clock.startedAt)))))
  {
    var timings := fetched;
    var extracted := ExtractOgData(p, html, Some(baseUrl));
    if extracted.Err? {
      timings := timings.(totalMs := Some(clock.endedAt - clock.startedAt));
      return Err(WithTimings(extracted.error, timings));
    }
    timings := timings.(extractMs := Some(clock.extractEndedAt - clock.extractStartedAt));
    timings := timings.(totalMs := Some(clock.endedAt - clock.startedAt));
    r := Ok(Crawled(extracted.value, timings));
  }
}
