/** The process-wide browser pool of src/services/dynamicCrawler.js: its
    configuration getters, the launch-error mapping, the pool record as a state
    machine of pure transitions, and a class `Pool` whose methods update the
    record's fields step by step and are tied to those transitions.

    The single-flight launch (`launchPromise`) is split into the step that starts
    it and the step that settles it; in between, other acquirers may run and join
    the pending launch. Browsers are opaque ids and `Date.now()` readings are
    parameters. */
module BrowserPool {
  import opened Wrappers
  import opened Errors
  import opened Env

  /** An opaque Playwright browser handle. */
  type BrowserId = nat

  const DefaultBrowserTtlMs := 2 * 60 * 1000
  const DefaultBrowserMaxUses := 50
  const DefaultNetworkIdleTimeoutMs := 1500

  /** The environment the pool reads: `DYNAMIC_BROWSER_REUSE`, the `Number(...)` of
      the TTL, max-uses and network-idle variables, `PLAYWRIGHT_CHROMIUM_PATH` (or
      the serverless executable path), and whether `VERCEL` or
      `AWS_LAMBDA_FUNCTION_NAME` is set. */
  datatype DynamicEnv = DynamicEnv(
    reuse: Option<string>,
    browserTtlMs: JsNumber,
    browserMaxUses: JsNumber,
    networkIdleTimeoutMs: JsNumber,
    executablePath: Option<string>,
    serverless: bool)

  // ---------------------------------------------------------------- configuration

  /** `getReuseEnabled()`: an explicit boolean setting wins; otherwise reuse is on
      except on serverless platforms. */
  function ReuseEnabled(env: DynamicEnv): (r: bool)
    ensures ParseBoolean(env.reuse).Some? ==> r == ParseBoolean(env.reuse).value
    ensures ParseBoolean(env.reuse).None? ==> r == !env.serverless
  {
    match ParseBoolean(env.reuse)
    case Some(explicit) => explicit
    case None => !env.serverless
  }

  /** `getBrowserTtlMs()`: always positive; two minutes unless set to a positive
      number. */
  function BrowserTtlMs(env: DynamicEnv): (r: int)
    ensures r > 0
    ensures env.browserTtlMs.Num? && env.browserTtlMs.value > 0 ==> r == env.browserTtlMs.value
    ensures !(env.browserTtlMs.Num? && env.browserTtlMs.value > 0) ==> r == 120000
  {
    PositiveOr(env.browserTtlMs, DefaultBrowserTtlMs)
  }

  /** `getBrowserMaxUses()`: always positive; 50 unless set to a positive number. */
  function BrowserMaxUses(env: DynamicEnv): (r: int)
    ensures r > 0
    ensures env.browserMaxUses.Num? && env.browserMaxUses.value > 0 ==> r == env.browserMaxUses.value
    ensures !(env.browserMaxUses.Num? && env.browserMaxUses.value > 0) ==> r == 50
  {
    PositiveOr(env.browserMaxUses, DefaultBrowserMaxUses)
  }

  /** `getNetworkIdleTimeoutMs()`: 1500 when not a number, otherwise the value
      clamped at 0 (0 disables the network-idle wait). */
  function NetworkIdleTimeoutMs(env: DynamicEnv): (r: int)
    ensures r >= 0
    ensures env.networkIdleTimeoutMs.NaN? ==> r == 1500
    ensures env.networkIdleTimeoutMs.Num? && env.networkIdleTimeoutMs.value >= 0 ==> r == env.networkIdleTimeoutMs.value
    ensures env.networkIdleTimeoutMs.Num? && env.networkIdleTimeoutMs.value < 0 ==> r == 0
  {
    match env.networkIdleTimeoutMs
    case NaN => DefaultNetworkIdleTimeoutMs
    case Num(t) => if t >= 0 then t else 0
  }

  const ChromiumNotFound := "Playwright Chromium not found. Set PLAYWRIGHT_CHROMIUM_PATH for local runs."

  /** What `launchBrowser` throws when `chromium.launch` throws `e`: a 500 when no
      executable path is configured outside serverless platforms, `e` itself
      otherwise. */
  function LaunchError(env: DynamicEnv, e: JsError): (r: JsError)
    ensures (env.executablePath.None? || env.executablePath == Some("")) && !env.serverless ==>
              r == HttpError(500, ChromiumNotFound)
    ensures (env.executablePath.Some? && env.executablePath.value != "") || env.serverless ==> r == e
  {
    if (env.executablePath.None? || env.executablePath.value == "") && !env.serverless then
      HttpError(500, ChromiumNotFound)
    else e
  }

  /** What `chromium.launch` did: a browser and the time launching took, or the
      error it threw. */
  datatype LaunchAttempt = Launched(browser: BrowserId, launchMs: int) | LaunchThrew(error: JsError)

  // ---------------------------------------------------------------- pool record

  /** The `browserPool` record; `launchPending` is `launchPromise !== null`. */
  datatype PoolState = PoolState(
    browser: Option<BrowserId>,
    createdAt: int,
    uses: nat,
    inFlight: nat,
    retiring: bool,
    launchPending: bool,
    lastLaunchMs: Option<int>)

  const InitialPool := PoolState(None, 0, 0, 0, false, false, None)

  /** How `release()` lets go of an acquisition: by releasing the pool slot, or, with
      reuse disabled, by closing the acquirer's own browser. */
  datatype Handle = PooledHandle | OwnBrowser(browser: BrowserId)

  /** What `acquireBrowser()` resolves with. */
  datatype Acquired = Acquired(
    browser: Option<BrowserId>,
    reused: bool,
    launchMs: Option<int>,
    browserAgeMs: int,
    handle: Handle)

  /** `shouldRetireBrowser(nowMs, ttlMs, maxUses)`. */
  function ShouldRetire(s: PoolState, nowMs: int, ttlMs: int, maxUses: int): (r: bool)
    ensures s.browser.None? ==> !r
    ensures s.browser.Some? ==>
              (r <==> (ttlMs > 0 && nowMs - s.createdAt >= ttlMs) || (maxUses > 0 && s.uses >= maxUses))
  {
    if s.browser.None? then false
    else if ttlMs > 0 && nowMs - s.createdAt >= ttlMs then true
    else if maxUses > 0 && s.uses >= maxUses then true
    else false
  }

  /** The pool after `closePooledBrowser()`: everything back to its initial value
      except the pending launch, which it leaves alone. */
  function Closed(s: PoolState): (r: PoolState)
    ensures r.browser.None? && r.createdAt == 0 && r.uses == 0 && r.inFlight == 0
    ensures !r.retiring && r.lastLaunchMs.None?
    ensures r.launchPending == s.launchPending
  {
    PoolState(None, 0, 0, 0, false, s.launchPending, None)
  }

  /** `acquireBrowser` closes a browser due for retirement only when no one is
      using it. */
  predicate RetireCloses(s: PoolState, nowMs: int, ttlMs: int, maxUses: int) {
    ShouldRetire(s, nowMs, ttlMs, maxUses) && s.inFlight == 0
  }

  /** Lines 183-189 of `acquireBrowser`: a browser due for retirement is closed when
      idle, and otherwise only marked as retiring, staying pooled. */
  function RetireStep(s: PoolState, nowMs: int, ttlMs: int, maxUses: int): (r: PoolState)
    ensures !ShouldRetire(s, nowMs, ttlMs, maxUses) ==> r == s
    ensures RetireCloses(s, nowMs, ttlMs, maxUses) ==> r == Closed(s)
    ensures ShouldRetire(s, nowMs, ttlMs, maxUses) && s.inFlight > 0 ==>
              r.retiring && r.browser == s.browser && r.uses == s.uses && r.createdAt == s.createdAt
    ensures r.inFlight == s.inFlight
  {
    if RetireCloses(s, nowMs, ttlMs, maxUses) then Closed(s)
    else if ShouldRetire(s, nowMs, ttlMs, maxUses) then s.(retiring := true)
    else s
  }

  /** `ensurePooledBrowser()` when it starts a launch: the pending slot is taken. It
      starts one only when none is pending; otherwise nothing changes. */
  function LaunchBegun(s: PoolState): (r: PoolState)
    ensures r.launchPending
    ensures s.launchPending ==> r == s
    ensures r.(launchPending := s.launchPending) == s
  {
    s.(launchPending := true)
  }

  /** The pooled part of `acquireBrowser` up to its `await ensurePooledBrowser()`:
      the retirement check, then a launch (started or joined) when no browser is
      pooled. */
  function AcquireBegun(s: PoolState, nowMs: int, ttlMs: int, maxUses: int): (r: PoolState)
    ensures r.inFlight == s.inFlight
    ensures RetireStep(s, nowMs, ttlMs, maxUses).browser.Some? ==> r == RetireStep(s, nowMs, ttlMs, maxUses)
    ensures RetireStep(s, nowMs, ttlMs, maxUses).browser.None? ==> r.launchPending && r.browser.None?
  {
    var t := RetireStep(s, nowMs, ttlMs, maxUses);
    if t.browser.None? then LaunchBegun(t) else t
  }

  /** The launch promise's `then` and `finally`: the new browser is installed, fresh
      and not retiring, and the pending slot is cleared. */
  function LaunchSucceeded(s: PoolState, b: BrowserId, nowMs: int, launchMs: int): (r: PoolState)
    ensures r.browser == Some(b) && r.createdAt == nowMs && r.uses == 0 && !r.retiring
    ensures r.lastLaunchMs == Some(launchMs) && !r.launchPending
    ensures r.inFlight == s.inFlight
  {
    s.(browser := Some(b), createdAt := nowMs, uses := 0, retiring := false,
       lastLaunchMs := Some(launchMs), launchPending := false)
  }

  /** The launch promise's `catch` and `finally`: the last launch time is forgotten,
      the pending slot is cleared, and nothing else changes. */
  function LaunchFailed(s: PoolState): (r: PoolState)
    ensures r.lastLaunchMs.None? && !r.launchPending
    ensures r.(lastLaunchMs := s.lastLaunchMs, launchPending := s.launchPending) == s
  {
    s.(lastLaunchMs := None, launchPending := false)
  }

  /** Lines 195-217 of `acquireBrowser`: the handed-out browser is the pooled one,
      retiring or not; it counts as reused iff it was used before; its launch time
      is reported only when it was not; both counters go up by one. */
  function CheckedOut(s: PoolState, nowMs: int): (r: (PoolState, Acquired))
    ensures r.1.browser == s.browser && r.1.handle == PooledHandle
    ensures r.1.reused <==> s.uses > 0
    ensures r.1.reused ==> r.1.launchMs.None?
    ensures !r.1.reused ==> r.1.launchMs == s.lastLaunchMs
    ensures r.1.browserAgeMs == if s.createdAt != 0 then nowMs - s.createdAt else 0
    ensures r.0.inFlight == s.inFlight + 1 && r.0.uses == s.uses + 1
    ensures r.0.(inFlight := s.inFlight, uses := s.uses) == s
  {
    var reused := s.uses > 0;
    var browserAgeMs := if s.createdAt != 0 then nowMs - s.createdAt else 0;
    var launchMs := if reused then None else s.lastLaunchMs;
    (s.(inFlight := s.inFlight + 1, uses := s.uses + 1),
     Acquired(s.browser, reused, launchMs, browserAgeMs, PooledHandle))
  }

  /** In-flight count after one `release()`: one less, never below 0. */
  function Decremented(n: nat): (r: nat)
    ensures n > 0 ==> r == n - 1
    ensures n == 0 ==> r == 0
  {
    if n > 0 then n - 1 else 0
  }

  /** The pooled `release()`: the in-flight count drops by one, floored at 0, and the
      pool is closed and reset iff it is retiring and no one is left; the flag says
      whether it closed. It acts on the pool, not on a particular acquisition, so it
      is not idempotent. */
  function Released(s: PoolState): (r: (PoolState, bool))
    ensures r.1 <==> s.retiring && Decremented(s.inFlight) == 0
    ensures r.1 ==> r.0 == Closed(s)
    ensures !r.1 ==> r.0 == s.(inFlight := Decremented(s.inFlight))
    ensures r.0.inFlight == Decremented(s.inFlight)
  {
    var t := s.(inFlight := Decremented(s.inFlight));
    if t.retiring && t.inFlight == 0 then (Closed(t), true) else (t, false)
  }

  // ---------------------------------------------------------------- acquisition

  /** The pool and the result after `acquireBrowser()` runs to completion with no
      other caller in between. With reuse disabled it launches a browser of its own
      and leaves the pool alone. Otherwise it retires the pooled browser if due, and
      when none is left it awaits a launch, which settles with `attempt`. A
      successful pooled acquisition adds exactly one use and one in-flight holder; a
      failed one adds neither. */
  function AcquireOutcome(s: PoolState, env: DynamicEnv, nowMs: int, launchedAt: int, checkedOutAt: int,
                          attempt: LaunchAttempt): (r: (PoolState, Result<Acquired, JsError>))
    ensures !ReuseEnabled(env) ==> r.0 == s
    ensures !ReuseEnabled(env) && attempt.Launched? ==>
              r.1 == Ok(Acquired(Some(attempt.browser), false, Some(attempt.launchMs), 0, OwnBrowser(attempt.browser)))
    ensures r.1.Err? ==> attempt.LaunchThrew? && r.1.error == LaunchError(env, attempt.error)
    ensures ReuseEnabled(env) && r.1.Ok? ==>
              r.1.value.handle == PooledHandle && r.0.inFlight == s.inFlight + 1 && r.0.browser == r.1.value.browser
    ensures ReuseEnabled(env) && r.1.Err? ==> r.0.inFlight == s.inFlight && r.0.browser.None? && !r.0.launchPending
    ensures var begun := AcquireBegun(s, nowMs, BrowserTtlMs(env), BrowserMaxUses(env));
            ReuseEnabled(env) && begun.browser.Some? ==> r == (CheckedOut(begun, checkedOutAt).0, Ok(CheckedOut(begun, checkedOutAt).1))
  {
    if !ReuseEnabled(env) then
      match attempt
      case Launched(b, launchMs) => (s, Ok(Acquired(Some(b), false, Some(launchMs), 0, OwnBrowser(b))))
      case LaunchThrew(e) => (s, Err(LaunchError(env, e)))
    else
      var begun := AcquireBegun(s, nowMs, BrowserTtlMs(env), BrowserMaxUses(env));
      if begun.browser.Some? then
        var (t, a) := CheckedOut(begun, checkedOutAt);
        (t, Ok(a))
      else
        match attempt
        case Launched(b, launchMs) =>
          var (t, a) := CheckedOut(LaunchSucceeded(begun, b, launchedAt, launchMs), checkedOutAt);
          (t, Ok(a))
        case LaunchThrew(e) => (LaunchFailed(begun), Err(LaunchError(env, e)))
  }

  // ---------------------------------------------------------------- traces

  /** The steps that drive the pool: the start of a pooled acquisition, the
      settling of a pending launch, the check-out that completes an acquisition,
      and a `release()` called by the holder of acquisition `holder` (the index of
      its check-out step). */
  datatype PoolEvent =
    | Begin(nowMs: int, ttlMs: int, maxUses: int)
    | LaunchOk(browser: BrowserId, nowMs: int, launchMs: int)
    | LaunchErr
    | CheckOut(nowMs: int)
    | Release(holder: nat)

  function Step(s: PoolState, e: PoolEvent): PoolState {
    match e
    case Begin(n, t, m) => AcquireBegun(s, n, t, m)
    case LaunchOk(b, n, l) => LaunchSucceeded(s, b, n, l)
    case LaunchErr => LaunchFailed(s)
    case CheckOut(n) => CheckedOut(s, n).0
    case Release(_) => Released(s).0
  }

  /** The step runs `closePooledBrowser()`. */
  predicate StepCloses(s: PoolState, e: PoolEvent) {
    match e
    case Begin(n, t, m) => RetireCloses(s, n, t, m)
    case Release(_) => Released(s).1
    case _ => false
  }

  function Run(s: PoolState, es: seq<PoolEvent>): PoolState {
    if es == [] then s else Step(Run(s, es[..|es| - 1]), es[|es| - 1])
  }

  /** The acquisitions checked out and not yet released. */
  function Held(es: seq<PoolEvent>): (h: set<nat>)
    ensures forall x :: x in h ==> x < |es|
  {
    if es == [] then {}
    else
      var init := Held(es[..|es| - 1]);
      match es[|es| - 1]
      case CheckOut(_) => init + {|es| - 1}
      case Release(holder) => init - {holder}
      case _ => init
  }

  /** Every `release()` is called by a current holder, once: the discipline
      `crawlDynamic` keeps by releasing in its `finally`. */
  predicate Disciplined(es: seq<PoolEvent>) {
    forall i :: 0 <= i < |es| && es[i].Release? ==> es[i].holder in Held(es[..i])
  }

  lemma DisciplinedPrefix(es: seq<PoolEvent>, n: nat)
    requires n <= |es| && Disciplined(es)
    ensures Disciplined(es[..n])
  {
    forall i | 0 <= i < n && es[..n][i].Release?
      ensures es[..n][i].holder in Held(es[..n][..i])
    {
      assert es[..n][..i] == es[..i];
    }
  }

  /** One step keeps `inFlight == |Held|` and closes the browser only when no
      acquisition is held after it. */
  lemma StepKeepsCount(s: PoolState, init: seq<PoolEvent>, e: PoolEvent)
    requires s.inFlight == |Held(init)|
    requires e.Release? ==> e.holder in Held(init)
    ensures Step(s, e).inFlight == |Held(init + [e])|
    ensures StepCloses(s, e) ==> Held(init + [e]) == {}
  {
    var es := init + [e];
    assert es[..|es| - 1] == init;
    match e {
      case CheckOut(_) =>
        assert |init| !in Held(init);
      case Release(holder) =>
        assert Held(es) == Held(init) - {holder};
      case Begin(n, t, m) =>
        if StepCloses(s, e) {
          assert |Held(init)| == 0;
        }
      case _ =>
    }
  }

  /** Under the release discipline, `inFlight` counts exactly the acquisitions being
      held, and the pooled browser is never closed while one of them is held. */
  lemma {:induction false} DisciplinedPool(s: PoolState, es: seq<PoolEvent>)
    requires s.inFlight == 0
    requires Disciplined(es)
    ensures Run(s, es).inFlight == |Held(es)|
    ensures forall i :: 0 <= i < |es| && StepCloses(Run(s, es[..i]), es[i]) ==> Held(es[..i + 1]) == {}
  {
    if es != [] {
      var n := |es| - 1;
      var init := es[..n];
      DisciplinedPrefix(es, n);
      DisciplinedPool(s, init);
      assert init + [es[n]] == es;
      StepKeepsCount(Run(s, init), init, es[n]);
      forall i | 0 <= i < |es| && StepCloses(Run(s, es[..i]), es[i])
        ensures Held(es[..i + 1]) == {}
      {
        if i < n {
          assert init[..i] == es[..i] && init[i] == es[i] && init[..i + 1] == es[..i + 1];
        } else {
          assert es[..i] == init && es[..i + 1] == es;
        }
      }
    }
  }

  /** Without the discipline the pool can close a browser still in use: A checks out
      (step 2), the browser becomes due for retirement while A holds it, B checks out
      the retiring browser (step 4), and A releases twice. */
  lemma DoubleReleaseClosesInUse()
    ensures var es := [Begin(0, 100, 50), LaunchOk(7, 1, 5), CheckOut(1), Begin(200, 100, 50),
                       CheckOut(200), Release(2), Release(2)];
            && !Disciplined(es)
            && StepCloses(Run(InitialPool, es[..6]), es[6])
            && 4 in Held(es)
  {
    var es := [Begin(0, 100, 50), LaunchOk(7, 1, 5), CheckOut(1), Begin(200, 100, 50),
               CheckOut(200), Release(2), Release(2)];
    var s1 := AcquireBegun(InitialPool, 0, 100, 50);
    var s2 := LaunchSucceeded(s1, 7, 1, 5);
    var s3 := CheckedOut(s2, 1).0;
    var s4 := AcquireBegun(s3, 200, 100, 50);
    assert s4.retiring && s4.inFlight == 1;
    var s5 := CheckedOut(s4, 200).0;
    var s6 := Released(s5).0;
    assert s6.inFlight == 1 && s6.retiring;
    assert es[..1] == [es[0]] && es[..2] == es[..1] + [es[1]] && es[..3] == es[..2] + [es[2]];
    assert es[..4] == es[..3] + [es[3]] && es[..5] == es[..4] + [es[4]] && es[..6] == es[..5] + [es[5]];
    assert es[..2][..1] == es[..1] && es[..1][..0] == [] && es[..3][..2] == es[..2];
    assert es[..4][..3] == es[..3] && es[..5][..4] == es[..4] && es[..6][..5] == es[..5];
    assert Run(InitialPool, es[..1]) == s1;
    assert Run(InitialPool, es[..2]) == s2;
    assert Run(InitialPool, es[..3]) == s3;
    assert Run(InitialPool, es[..4]) == s4;
    assert Run(InitialPool, es[..5]) == s5;
    assert Run(InitialPool, es[..6]) == s6;
    assert Held(es[..2]) == {};
    assert Held(es[..3]) == {2};
    assert Held(es[..4]) == {2};
    assert Held(es[..5]) == {2, 4};
    assert Held(es[..6]) == {4};
    assert es[..7] == es;
    assert !(es[6].holder in Held(es[..6]));
  }

  // ---------------------------------------------------------------- the pool object

  /** The `browserPool` object and the functions of dynamicCrawler.js that update it. */
  class Pool {
    var browser: Option<BrowserId>
    var createdAt: int
    var uses: nat
    var inFlight: nat
    var retiring: bool
    var launchPending: bool
    var lastLaunchMs: Option<int>

    function State(): PoolState
      reads this
    {
      PoolState(browser, createdAt, uses, inFlight, retiring, launchPending, lastLaunchMs)
    }

    constructor()
      ensures State() == InitialPool
    {
      browser := None;
      createdAt := 0;
      uses := 0;
      inFlight := 0;
      retiring := false;
      launchPending := false;
      lastLaunchMs := None;
    }

    /** `closePooledBrowser()`; returns the browser it closes, if any. */
    method ClosePooledBrowser() returns (closed: Option<BrowserId>)
      modifies this
      ensures closed == old(browser)
      ensures State() == Closed(old(State()))
    {
      var current := browser;
      browser := None;
      createdAt := 0;
      uses := 0;
      inFlight := 0;
      retiring := false;
      lastLaunchMs := None;
      closed := current;
    }

    /** `ensurePooledBrowser()`: starts a launch iff none is pending; otherwise the
        caller joins the pending one. */
    method EnsurePooledBrowser() returns (started: bool)
      modifies this
      ensures started <==> !old(launchPending)
      ensures State() == LaunchBegun(old(State()))
    {
      started := !launchPending;
      if started {
        launchPending := true;
      }
    }

    /** Settling the pending launch: installs the browser, or clears the launch time
        and rethrows. */
    method SettleLaunch(env: DynamicEnv, attempt: LaunchAttempt, nowMs: int) returns (r: Result<BrowserId, JsError>)
      modifies this
      ensures attempt.Launched? ==> r == Ok(attempt.browser) && State() == LaunchSucceeded(old(State()), attempt.browser, nowMs, attempt.launchMs)
      ensures attempt.LaunchThrew? ==> r == Err(LaunchError(env, attempt.error)) && State() == LaunchFailed(old(State()))
    {
      match attempt {
        case Launched(b, launchMs) =>
          browser := Some(b);
          createdAt := nowMs;
          uses := 0;
          retiring := false;
          lastLaunchMs := Some(launchMs);
          r := Ok(b);
        case LaunchThrew(e) =>
          lastLaunchMs := None;
          r := Err(LaunchError(env, e));
      }
      launchPending := false;
    }

    /** Lines 179-193 of `acquireBrowser`, up to the launch it may await. */
    method BeginAcquire(nowMs: int, ttlMs: int, maxUses: int) returns (closed: Option<BrowserId>, awaitsLaunch: bool)
      modifies this
      ensures State() == AcquireBegun(old(State()), nowMs, ttlMs, maxUses)
      ensures awaitsLaunch <==> RetireStep(old(State()), nowMs, ttlMs, maxUses).browser.None?
      ensures closed.Some? ==> RetireCloses(old(State()), nowMs, ttlMs, maxUses) && closed == old(browser)
    {
      closed := None;
      if ShouldRetire(State(), nowMs, ttlMs, maxUses) {
        if inFlight == 0 {
          closed := ClosePooledBrowser();
        } else {
          retiring := true;
        }
      }
      awaitsLaunch := browser.None?;
      if awaitsLaunch {
        var _ := EnsurePooledBrowser();
      }
    }

    /** Lines 195-217 of `acquireBrowser`. */
    method CheckOut(nowMs: int) returns (a: Acquired)
      modifies this
      ensures (State(), a) == CheckedOut(old(State()), nowMs)
    {
      var reused := uses > 0;
      var browserAgeMs := if createdAt != 0 then nowMs - createdAt else 0;
      var launchMs := if reused then None else lastLaunchMs;
      inFlight := inFlight + 1;
      uses := uses + 1;
      a := Acquired(browser, reused, launchMs, browserAgeMs, PooledHandle);
    }

    /** The `release` closure of a pooled acquisition; returns the browser it closes,
        if any. */
    method Release() returns (closed: Option<BrowserId>)
      modifies this
      ensures State() == Released(old(State())).0
      ensures closed.Some? ==> Released(old(State())).1 && closed == old(browser)
      ensures !Released(old(State())).1 ==> closed.None?
    {
      inFlight := if inFlight > 0 then inFlight - 1 else 0;
      closed := None;
      if retiring && inFlight == 0 {
        closed := ClosePooledBrowser();
      }
    }

    /** `acquireBrowser()` run to completion with no other caller in between: `now`
        is the reading for the retirement check, `launchedAt` the one taken when a
        launch settles, `checkedOutAt` the one for the browser's age. The pending
        launch it awaits, started by it or joined, settles with `attempt`. */
    method AcquireBrowser(env: DynamicEnv, nowMs: int, launchedAt: int, checkedOutAt: int, attempt: LaunchAttempt)
      returns (r: Result<Acquired, JsError>)
      modifies this
      ensures (State(), r) == AcquireOutcome(old(State()), env, nowMs, launchedAt, checkedOutAt, attempt)
    {
      if !ReuseEnabled(env) {
        match attempt {
          case Launched(b, launchMs) =>
            return Ok(Acquired(Some(b), false, Some(launchMs), 0, OwnBrowser(b)));
          case LaunchThrew(e) =>
            return Err(LaunchError(env, e));
        }
      }
      var ttlMs := BrowserTtlMs(env);
      var maxUses := BrowserMaxUses(env);
      var _, awaitsLaunch := BeginAcquire(nowMs, ttlMs, maxUses);
      if awaitsLaunch {
        var launched := SettleLaunch(env, attempt, launchedAt);
        if launched.Err? {
          return Err(launched.error);
        }
      }
      var a := CheckOut(checkedOutAt);
      r := Ok(a);
    }
  }
}
