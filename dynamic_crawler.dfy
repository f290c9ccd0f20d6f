/** The error and cleanup skeleton of `crawlDynamic` (src/services/dynamicCrawler.js):
    the early abort, the acquisition of a browser from the pool, the page work, the
    classification of what it throws, and the release in its `finally`. What the
    browser does (contexts, pages, navigation, the network-idle wait, the rendered
    document) is an input. */
module DynamicCrawler {
  import opened Wrappers
  import opened Errors
  import opened Urls
  import opened OgExtractor
  import opened Crawled
  import opened BrowserPool

  /** When the caller's abort signal fires: never, before the crawl starts, while
      the browser is being acquired, or during the page work before the check that
      precedes reading the content. */
  datatype AbortPoint = NotAborted | AbortedBeforeStart | AbortedDuringAcquire | AbortedDuringPageWork

  /** How the page work goes: `newContext`, `newPage` or `goto` throws; or the page
      loads (the network-idle wait never fails the crawl) and then reading its
      content throws or yields the rendered document and `page.url()`. */
  datatype PageOutcome =
    | NavigationFailed(error: JsError)
    | ContentFailed(error: JsError)
    | Rendered(html: Document, finalUrl: string)

  /** The `Date.now()` readings the crawl takes. */
  datatype DynamicClock = DynamicClock(
    startedAt: int, acquireNowMs: int, launchedAt: int, checkedOutAt: int,
    navigationStartedAt: int, navigationEndedAt: int,
    extractStartedAt: int, extractEndedAt: int, endedAt: int)

  const Aborted := HttpError(499, "Dynamic crawl aborted")
  const TimedOut := HttpError(504, "Dynamic crawl timed out")

  /** The `catch` of `crawlDynamic`: a Playwright `TimeoutError` becomes a 504, any
      other error is rethrown as it is; either way it carries the timings. */
  function Classify(e: JsError, t: Timings): (r: JsError)
    ensures r.timings == Some(t)
    ensures e.name == "TimeoutError" ==> r.status == Some(504) && r.message == "Dynamic crawl timed out"
    ensures e.name != "TimeoutError" ==> r.(timings := e.timings) == e
  {
    if e.name == "TimeoutError" then WithTimings(TimedOut, t) else WithTimings(e, t)
  }

  /** The `timings` after a successful acquisition: the reuse diagnostics, and the
      launch time when one is reported. */
  function AcquiredTimings(a: Acquired): (t: Timings)
    ensures t.meta == Some(DynamicMeta(a.reused, a.browserAgeMs))
    ensures t.launchMs == a.launchMs
    ensures t.fetchMs.None? && t.navigationMs.None? && t.extractMs.None? && t.totalMs.None?
  {
    var t := NoTimings.(meta := Some(DynamicMeta(a.reused, a.browserAgeMs)));
    if a.launchMs.Some? then t.(launchMs := a.launchMs) else t
  }

  /** `extractOgData(html, finalUrl || targetUrl)` on the rendered page. */
  function ExtractRendered(p: UrlParser, html: Document, finalUrl: string, targetUrl: string): Result<OgData, JsError> {
    ExtractOgData(p, html, Some(if finalUrl != "" then finalUrl else targetUrl))
  }

  /** What the `try` block of `crawlDynamic` does once a browser is acquired: the
      timings it has filled in, and the crawl result or the error it throws. */
  function PageWork(p: UrlParser, clock: DynamicClock, targetUrl: string, abort: AbortPoint,
                    page: PageOutcome, t: Timings): (r: (Timings, Result<OgData, JsError>))
    ensures abort == AbortedDuringAcquire ==> r == (t, Err(Aborted))
    ensures abort != AbortedDuringAcquire && page.NavigationFailed? ==> r == (t, Err(page.error))
    ensures abort == AbortedDuringPageWork && !page.NavigationFailed? ==> r.1 == Err(Aborted)
    ensures abort != AbortedDuringAcquire && !page.NavigationFailed? ==>
              r.0.navigationMs == Some(clock.navigationEndedAt - clock.navigationStartedAt)
    ensures r.1.Ok? ==>
              abort != AbortedDuringAcquire && abort != AbortedDuringPageWork && page.Rendered?
              && r.1 == ExtractRendered(p, page.html, page.finalUrl, targetUrl)
  {
    if abort == AbortedDuringAcquire then (t, Err(Aborted))
    else if page.NavigationFailed? then (t, Err(page.error))
    else
      var t1 := t.(navigationMs := Some(clock.navigationEndedAt - clock.navigationStartedAt));
      if abort == AbortedDuringPageWork then (t1, Err(Aborted))
      else if page.ContentFailed? then (t1, Err(page.error))
      else
        var extracted := ExtractRendered(p, page.html, page.finalUrl, targetUrl);
        if extracted.Err? then (t1, extracted)
        else (t1.(extractMs := Some(clock.extractEndedAt - clock.extractStartedAt)), extracted)
  }

  /** `crawlDynamic(targetUrl, { signal })` against `pool`; `launch` is how the
      launch it may await settles. Returns the result or the error it throws, and
      whether it called `release`. */
  method CrawlDynamic(pool: Pool, env: DynamicEnv, p: UrlParser, clock: DynamicClock, targetUrl: string,
                      abort: AbortPoint, launch: LaunchAttempt, page: PageOutcome)
    returns (r: Result<Crawled, JsError>, released: bool)
    modifies pool
    // An already aborted signal fails the crawl at once, before anything is acquired.
    ensures abort == AbortedBeforeStart ==>
              r == Err(Aborted) && !released && pool.State() == old(pool.State())
    ensures abort != AbortedBeforeStart ==>
              var (acquiredState, acquired) :=
                AcquireOutcome(old(pool.State()), env, clock.acquireNowMs, clock.launchedAt, clock.checkedOutAt, launch);
              var total := Some(clock.endedAt - clock.startedAt);
              // `release` is called exactly when a browser was acquired.
              && (released <==> acquired.Ok?)
              // A failed acquisition is classified and carries the total time only.
              && (acquired.Err? ==>
                    pool.State() == acquiredState && r == Err(Classify(acquired.error, NoTimings.(totalMs := total))))
              && (acquired.Ok? ==>
                    var (t, outcome) := PageWork(p, clock, targetUrl, abort, page, AcquiredTimings(acquired.value));
                    // The pooled slot is released once; an own browser is closed.
                    && pool.State() == (if acquired.value.handle == PooledHandle then Released(acquiredState).0 else acquiredState)
                    && (outcome.Ok? ==> r == Ok(Crawled(outcome.value, t.(totalMs := total))))
                    && (outcome.Err? ==> r == Err(Classify(outcome.error, t.(totalMs := total)))))
  {
    if abort == AbortedBeforeStart {
      return Err(Aborted), false;
    }
    released := false;
    var timings := NoTimings;
    var acquired := pool.AcquireBrowser(env, clock.acquireNowMs, clock.launchedAt, clock.checkedOutAt, launch);
    if acquired.Err? {
      timings := timings.(totalMs := Some(clock.endedAt - clock.startedAt));
      return Err(Classify(acquired.error, timings)), false;
    }
    var a := acquired.value;
    timings := timings.(meta := Some(DynamicMeta(a.reused, a.browserAgeMs)));
    if a.launchMs.Some? {
      timings := timings.(launchMs := a.launchMs);
    }
    var work := PageWork(p, clock, targetUrl, abort, page, timings);
    timings := work.0;
    timings := timings.(totalMs := Some(clock.endedAt - clock.startedAt));
    match work.1 {
      case Ok(data) =>
        r := Ok(Crawled(data, timings));
      case Err(e) =>
        r := Err(Classify(e, timings));
    }
    // finally: the context is closed best-effort, then `release()`.
    if a.handle == PooledHandle {
      var _ := pool.Release();
    }
    released := true;
  }
}
