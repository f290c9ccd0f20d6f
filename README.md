# og-crawler-server, modelled in Dafny

og-crawler-server is an HTTP service. Given a page URL, it returns link-preview metadata: title, description, canonical URL, site name, image and favicon. It has two crawl strategies:

- a **static** strategy that fetches the document's head over HTTP, falling back to the full document;
- a **dynamic** strategy that renders the page in a pooled headless Chromium.

In `auto` mode the static crawl runs first. The code is meant to move on to the dynamic crawl only when the static crawl fails or scores under 2; as written, auto mode always moves on to the dynamic crawl (see Findings). Results can be kept in a process-wide cache, a TTL cache keyed by normalised URLs.

This project models the decision logic and state of those parts:

| module | file | models |
|---|---|---|
| `Wrappers` | wrappers.dfy | `Option`/`Result`: `null`/`undefined` and thrown errors |
| `JsText` | js_text.dfy | `trim`, `toLowerCase` (ASCII), splitting on `\s+`, digit runs |
| `Errors` | errors.dfy | `HttpError`, `badRequest`, the `timings` payload |
| `Env` | env.dfy | `parseBoolean` and the `Number(process.env.X)` fallbacks |
| `Urls` | urls.dfy | URL records; `resolveUrl` over an abstract parser |
| `Validators` | validators.dfy | `parseTargetUrl`, `parseCrawlMode` |
| `OgExtractor` | og_extractor.dfy | `pickFirstContent`, `parseSizes`, `inferSizeFromHref`, rel priorities, the icon ranking, `extractOgData` |
| `Crawled` | crawled.dfy | the `{ data, timings }` object both strategies resolve with |
| `StaticCrawler` | static_crawler.dfy | `crawlStatic`: head fetch, full-fetch fallback, meta record, error rethrow |
| `BrowserPool` | browser_pool.dfy | the `browserPool` state machine: retirement, single-flight launch, check-out, `release` |
| `DynamicCrawler` | dynamic_crawler.dfy | `crawlDynamic`: abort, acquisition, error classification, release in `finally` |
| `CrawlService` | crawl_service.dfy | `scoreOgData`, the static/dynamic/auto branches of `crawlOgData` |
| `CacheKey` | cache_key.dfy | `normalizePathname`, `normalizeCacheKey` |
| `Cache` | cache.dfy | the TTL cache: `getCacheEntry`, `setCacheEntry`, `pruneCache` |

## How the model is built

**Abstracted pieces.**
- Foreign code becomes an input: the WHATWG URL parser, cheerio, Playwright and the HTTP fetches.
  - The URL parser is a `UrlParser` of two total functions. One parses a string; the other resolves a target against a base.
  - A document is the list of its meta elements, its link elements and its title texts.
  - A fetch, a launch or a page load is passed in as its outcome.
- Every `Date.now()` reading is a parameter.
- Environment variables become records: `CacheEnv`, `DynamicEnv`, `StaticEnv`.

**Where the source mutates state, the model does too.**
- The pool is the class `BrowserPool.Pool`. Its methods update its fields in place, and each method is proved equal to a pure transition on `PoolState`.
- The cache is the class `Cache.ContentCache`, whose `entries` field is the `Map` as an oldest-first sequence of pairs.
- The loops of the source are methods with loops, proved against recursive definitions:
  - `pruneCache`;
  - the key collection and write loops of `setCacheEntry`;
  - the parameter deletion of `normalizeCacheKey`;
  - the scans of `parseSizes` and `inferSizeFromHref`;
  - the candidate loop of `pickBestIconHref`.

**How the pool is checked over time.** Pool interleavings are stated over event traces: `PoolEvent`, `Run` and `Held`. The main results:
- Under the release discipline, `inFlight` counts the acquisitions still held (`DisciplinedPool`).
- A double release can close a browser that is still in use (`DoubleReleaseClosesInUse`).

**Where code and design disagree.** The model follows the code in each case:

- `crawlOgData` scores the `{ data, timings }` wrapper, not the extracted data, so auto mode always escalates (see Findings).
- `release` is not idempotent.
- A browser marked as retiring is still handed to new acquirers until the last holder releases it.
- `normalizePathname` strips only one trailing slash.
- `Map.set` keeps an existing key's position, so one `setCacheEntry` can rewrite a key and then evict it straight away (`RewrittenKeyEvicted`).

## Model

| member | source | states |
|---|---|---|
| Env.ParseBoolean | src/services/dynamicCrawler.js:24-38 | undefined stays undefined; true exactly for trimmed, lower-cased "true"/"1"/"yes"; false exactly for "false"/"0"/"no"; the same function as src/utils/cache.js:17-31 |
| Env.ParseBooleanNormalized | src/utils/cache.js:17-31 | trimming and lower-casing beforehand never changes the answer |
| Env.PositiveOr | src/utils/cache.js:42-58 | a positive number is kept; NaN or a non-positive value gives the fallback; the result is always positive |
| Env.TruthyOr | src/services/staticCrawler.js:7-8 | the `Number(x) or fallback` rule: only NaN and 0 are replaced; any other number, negatives included, is kept |
| JsText.TrimStart | src/services/ogExtractor.js:8 | the result is a suffix of the input; everything removed is white space; the result does not start with white space |
| JsText.TrimEnd | src/services/ogExtractor.js:8 | the result is a prefix of the input; everything removed is white space; the result does not end with white space |
| JsText.Lower | src/utils/validators.js:27 | same length; each character is lower-cased |
| JsText.Words | src/services/ogExtractor.js:30 | `split(/\s+/)`: every word is non-empty and contains no white space |
| JsText.DigitsValue | src/services/ogExtractor.js:36-37 | the value of a digit string of length n is below 10^n |
| Urls.ResolveUrl | src/utils/urls.js:1-15 | null iff the target is missing or empty; a `data:` target is returned as it is; otherwise the resolved URL, or the target unchanged when resolution fails |
| Urls.Serialize | src/utils/cache.js:101-102 | the serialisation starts with the protocol, "//" and the host name, so a normalised key is never "" (what `pruneCache`'s falsy-key stop depends on) |
| Validators.ParseTargetUrl | src/utils/validators.js:3-20 | 400 "Missing" for a missing, empty or non-string value; 400 "Invalid" when it does not parse; success iff the protocol is http: or https:, with the serialised URL; every error is a 400 |
| Validators.ParsedTargetIsHttp | src/utils/validators.js:15-19 | every accepted URL is the serialisation of an http(s) URL |
| Validators.ParseCrawlMode | src/utils/validators.js:22-35 | a missing or empty value is "auto"; otherwise success iff the lower-cased value is auto, static or dynamic, and then it is that value; otherwise 400 "Invalid mode parameter" (src/utils/errors.js:8) |
| OgExtractor.FirstFilled | src/services/ogExtractor.js:5-10 | the index of the first selector with non-empty content: all earlier ones are empty |
| OgExtractor.PickFirstContent | src/services/ogExtractor.js:4-13 | the trimmed content of the first selector, in list order, whose content is non-empty; None if there is none |
| OgExtractor.PickFirstContentStep | src/services/ogExtractor.js:5-10 | the first selector's filled value wins, else the rest of the list decides |
| OgExtractor.IndexOfX | src/services/ogExtractor.js:31 | the position of the first 'x', or the length when there is none |
| OgExtractor.SizeToken | src/services/ogExtractor.js:31-37 | a match is 1-4 digits, 'x', 1-4 digits; both sides are at most 9999 |
| OgExtractor.SizeTokenMatches | src/services/ogExtractor.js:31-37 | conversely, every token of 1-4 digits, 'x', 1-4 digits matches, with the two digit runs' values |
| OgExtractor.DigitsAtMostFour | src/services/ogExtractor.js:31 | at most four digits are worth at most 9999 |
| OgExtractor.MaxTokenSizeIsMax | src/services/ogExtractor.js:29-42 | the scan's maximum bounds every token's size and is attained or 0 |
| OgExtractor.MaxTokenSizeZero | src/services/ogExtractor.js:44 | the maximum is 0 iff no token matched with a nonzero size |
| OgExtractor.TokensSizes | src/services/ogExtractor.js:29-44 | null iff no token has a nonzero size; otherwise the largest max(w, h), which is attained and is at most 9999 |
| OgExtractor.SizesOf | src/services/ogExtractor.js:15-45 | null for missing or blank input; the `any` marker for "any"; otherwise the token scan of the trimmed, lower-cased value |
| OgExtractor.ParseSizes | src/services/ogExtractor.js:15-45 | the method equals `SizesOf` |
| OgExtractor.ScanSizeTokens | src/services/ogExtractor.js:29-44 | the `for` loop over tokens equals `TokensSizes` |
| OgExtractor.DigitRun | src/services/ogExtractor.js:53 | a maximal run of digits starting at a position |
| OgExtractor.PairAt | src/services/ogExtractor.js:53 | a `WxH` match at a position ends after it, with both sides at most 9999 |
| OgExtractor.MaxPair | src/services/ogExtractor.js:52-61 | the largest side over the pair matches: it bounds every pair and is attained or 0 |
| OgExtractor.MaxSingle | src/services/ogExtractor.js:67-73 | the largest lone run: it bounds every run and is attained or 0 |
| OgExtractor.InferSizeFromHref | src/services/ogExtractor.js:47-76 | 0 for an empty href; at most 9999; the largest max(w, h) over the 2-4-digit pairs; only when that is 0 does it fall back to the largest 2-4-digit run |
| OgExtractor.GetRelPriority | src/services/ogExtractor.js:78-93 | the highest token rank present (apple-touch-icon 4, apple-touch-icon-precomposed 3, icon 2, shortcut 1); at most 4, and 0 when no token ranks |
| OgExtractor.IsIconRel | src/services/ogExtractor.js:95-99 | an icon rel exactly when its priority is positive |
| OgExtractor.CandidateOf | src/services/ogExtractor.js:105-131 | a link contributes a candidate iff it has an icon rel and a non-empty href |
| OgExtractor.CandidatesEmpty | src/services/ogExtractor.js:134-136 | there are no candidates iff no link is eligible |
| OgExtractor.NotOutranksTransitive | src/services/ogExtractor.js:138-151 | the comparator is a strict weak order: "not outranked" is transitive and outranking is asymmetric |
| OgExtractor.Insert | src/services/ogExtractor.js:138-151 | insertion adds the candidate once and nothing else |
| OgExtractor.StableSort | src/services/ogExtractor.js:138-151 | the sort is a permutation of the candidates |
| OgExtractor.FirstBest | src/services/ogExtractor.js:138-153 | the earliest candidate that no other outranks: it outranks every candidate before it |
| OgExtractor.SortedHeadIsFirstBest | src/services/ogExtractor.js:138-153 | the head of the stable sort is the earliest maximal candidate |
| OgExtractor.BestIconHref | src/services/ogExtractor.js:101-154 | null iff no link is eligible; otherwise the href of a candidate that nothing outranks (SVG or sizes="any" count as unbounded, then rel priority) and that outranks every earlier one |
| OgExtractor.LinkCandidate | src/services/ogExtractor.js:104-132 | the `each` callback's work for one link equals `CandidateOf` |
| OgExtractor.PickBestIconHref | src/services/ogExtractor.js:101-154 | the push loop, sort and pick-first equal `BestIconHref` |
| OgExtractor.ResolvedBase | src/services/ogExtractor.js:158 | the base, with "" read as null, is never "" |
| OgExtractor.BuildOgData | src/services/ogExtractor.js:156-198 | fails (Invalid URL) iff the base does not parse, or the favicon fallback cannot resolve; the meta title wins over the document title; text fields are never "" but null; `url` defaults to the base; `site_name` falls back to the base's hostname; the favicon is the best icon resolved, else `/favicon.ico` against the base, else null; a base always yields a favicon; the description is the selected one exactly when that is non-empty, else null |
| OgExtractor.Select | src/services/ogExtractor.js:160-181 | the meta title is og:title, then twitter:title; the description og:description, then name=description, then twitter:description; the image og:image, then og:image:secure_url, then twitter:image; url is og:url and site name og:site_name; the document title is the first `<title>` trimmed, "" without one; no icon is chosen iff no link is an eligible icon |
| OgExtractor.ExtractOgData | src/services/ogExtractor.js:156-198 | without a base URL extraction never fails; it can fail only with Invalid URL, exactly when the base does not parse or no usable icon exists and `/favicon.ico` cannot resolve against the base; with a base, success always carries a favicon |
| StaticCrawler.TimeoutMs | src/services/staticCrawler.js:7 | 8000 when the value is missing, 0 or NaN; otherwise the value |
| StaticCrawler.HeadMaxBytes | src/services/staticCrawler.js:8 | 131072 when the value is missing, 0 or NaN; otherwise the value |
| StaticCrawler.CrawlStatic | src/services/staticCrawler.js:4-49 | the head fetch comes first; a full fetch follows iff the head fetch succeeded with `headComplete` false; `finalUrl` is the fallback's when truthy; meta copies the head result with `head_only` true and `head_fallback` = not headComplete; extraction runs on the chosen html against `finalUrl`, or `targetUrl` when that is empty; a fetch or extraction error is rethrown with the timings so far and `totalMs` |
| StaticCrawler.ExtractStage | src/services/staticCrawler.js:38-48 | extraction's result with `extractMs` and `totalMs` added, or its error rethrown with `totalMs` |
| BrowserPool.ReuseEnabled | src/services/dynamicCrawler.js:40-47 | an explicit boolean wins; otherwise reuse is on unless serverless |
| BrowserPool.BrowserTtlMs | src/services/dynamicCrawler.js:49-56 | a positive value, else 120000 |
| BrowserPool.BrowserMaxUses | src/services/dynamicCrawler.js:58-65 | a positive value, else 50 |
| BrowserPool.NetworkIdleTimeoutMs | src/services/dynamicCrawler.js:67-74 | 1500 only for NaN; otherwise the value floored at 0 |
| BrowserPool.LaunchError | src/services/dynamicCrawler.js:88-103 | a 500 "Chromium not found" when there is no executable path and the host is not serverless; otherwise the launch error unchanged |
| BrowserPool.ShouldRetire | src/services/dynamicCrawler.js:105-119 | false with no pooled browser; otherwise true iff (ttl > 0 and the age reaches ttl) or (maxUses > 0 and uses reach maxUses) |
| BrowserPool.Closed | src/services/dynamicCrawler.js:121-133 | browser, createdAt, uses, inFlight, retiring and lastLaunchMs back to their initial values; the pending launch untouched |
| BrowserPool.RetireStep | src/services/dynamicCrawler.js:183-189 | no change unless retirement is due; when due, the pool is closed with no one in flight, or marked retiring and keeps its browser otherwise; inFlight never changes |
| BrowserPool.LaunchBegun | src/services/dynamicCrawler.js:142-144 | a launch is pending afterwards; when one already was, nothing changes |
| BrowserPool.AcquireBegun | src/services/dynamicCrawler.js:179-193 | after retirement, a pool that still has a browser is left as is; otherwise a launch is pending |
| BrowserPool.LaunchSucceeded | src/services/dynamicCrawler.js:145-159 | installs the browser with createdAt now, 0 uses, not retiring, the launch time recorded, nothing pending; inFlight kept |
| BrowserPool.LaunchFailed | src/services/dynamicCrawler.js:153-159 | forgets the launch time and clears the pending slot; nothing else changes |
| BrowserPool.CheckedOut | src/services/dynamicCrawler.js:195-217 | hands out the pooled browser; `reused` iff uses > 0; `launchMs` only when not reused; the age is 0 when createdAt is 0; inFlight and uses rise by exactly 1 and nothing else changes |
| BrowserPool.Decremented | src/services/dynamicCrawler.js:205 | one less, floored at 0 |
| BrowserPool.Released | src/services/dynamicCrawler.js:204-209 | inFlight lowered by one, floored at 0; the pool is closed iff it is retiring and inFlight reaches 0 |
| BrowserPool.AcquireOutcome | src/services/dynamicCrawler.js:165-218 | without reuse the pool is untouched and an own browser is launched; a failure is always a launch error; a pooled success adds one holder and hands out the pool's browser; a pooled failure adds none and leaves no browser and nothing pending |
| BrowserPool.DisciplinedPrefix | src/services/dynamicCrawler.js:204-209 | every prefix of a disciplined trace is disciplined |
| BrowserPool.StepKeepsCount | src/services/dynamicCrawler.js:183-209 | one step keeps inFlight equal to the number of holders, and closes the browser only when no one holds it |
| BrowserPool.DisciplinedPool | src/services/dynamicCrawler.js:165-218 | when each holder releases once, inFlight always equals the number of holders and the pool is never closed under a holder |
| BrowserPool.DoubleReleaseClosesInUse | src/services/dynamicCrawler.js:204-209 | a concrete trace where one holder releases twice and the pool closes the browser that another acquirer still holds |
| BrowserPool.Pool.constructor | src/services/dynamicCrawler.js:14-22 | the initial pool record |
| BrowserPool.Pool.ClosePooledBrowser | src/services/dynamicCrawler.js:121-133 | the new state is `Closed` of the old one; returns the browser it closes |
| BrowserPool.Pool.EnsurePooledBrowser | src/services/dynamicCrawler.js:142-163 | starts a launch iff none is pending; the new state is `LaunchBegun` |
| BrowserPool.Pool.SettleLaunch | src/services/dynamicCrawler.js:144-163 | success installs the browser (`LaunchSucceeded`); failure propagates the launch error (`LaunchFailed`) |
| BrowserPool.Pool.BeginAcquire | src/services/dynamicCrawler.js:179-193 | the new state is `AcquireBegun`; it awaits a launch iff no browser is left after retirement; it closes only with no one in flight |
| BrowserPool.Pool.CheckOut | src/services/dynamicCrawler.js:195-217 | state and result are `CheckedOut` |
| BrowserPool.Pool.Release | src/services/dynamicCrawler.js:204-209 | the new state is `Released`; it returns the closed browser only when it closes the pool |
| BrowserPool.Pool.AcquireBrowser | src/services/dynamicCrawler.js:165-218 | state and result are `AcquireOutcome` |
| DynamicCrawler.Classify | src/services/dynamicCrawler.js:302-312 | a `TimeoutError` becomes 504 "Dynamic crawl timed out"; any other error is kept; both carry the timings |
| DynamicCrawler.AcquiredTimings | src/services/dynamicCrawler.js:246-255 | timings carry the reuse meta and the launch time, when reported, and nothing else |
| DynamicCrawler.PageWork | src/services/dynamicCrawler.js:257-300 | an abort during acquisition is a 499; a navigation failure is rethrown; navigationMs is set once the page has loaded; success only without an abort on a rendered page, with the extraction of its html against `finalUrl`, or `targetUrl` when that is empty |
| DynamicCrawler.CrawlDynamic | src/services/dynamicCrawler.js:220-322 | an already aborted signal is a 499 before anything is acquired; `release` is called iff a browser was acquired; a pooled slot is released exactly once; an acquisition error is classified with `totalMs`; otherwise success carries the page's timings and a failure is classified (504 for `TimeoutError`) |
| CrawlService.CountTruthy | src/services/crawlService.js:6 | at most the number of keys |
| CrawlService.ScoreOgData | src/services/crawlService.js:4-7 | the number of truthy title, description and image; at most 3 |
| CrawlService.CountTruthyMonotone | src/services/crawlService.js:6 | adding a field that was missing or falsy never lowers the count |
| CrawlService.ScoreMonotone | src/services/crawlService.js:4-7 | adding a missing field never lowers the score |
| CrawlService.ScoreOfOgData | src/services/crawlService.js:4-7 | the extracted data scores one point per non-empty title, description and image |
| CrawlService.WrapperAlwaysEscalates | src/services/crawlService.js:22-23 | scoring the `{ data, timings }` wrapper gives 0, so auto mode escalates on every static outcome |
| CrawlService.CrawlOgData | src/services/crawlService.js:9-38 | static and dynamic modes run only their own strategy, with `fallback` false, and propagate its error; auto runs static first; it stops there iff the static result does not escalate; otherwise it runs dynamic exactly once and returns it with `fallback` true and the static error or null; a dynamic failure propagates; static errors are never rethrown |
| CrawlService.DataScoreKeepsRichStatic | src/services/crawlService.js:22-23 | when the data is scored, a static crawl is kept iff at least two of title, description and image are non-empty |
| CrawlService.CrawlOgDataScoringData | src/services/crawlService.js:9-38 | as `CrawlOgData`, with auto mode scoring the extracted data |
| CacheKey.NormalizePathname | src/utils/cache.js:60-66 | exactly one trailing '/' is removed unless the path is "/"; other paths unchanged |
| CacheKey.NormalizedPort | src/utils/cache.js:78-83 | port 80 on http: and 443 on https: are dropped; any other port is kept |
| CacheKey.UntrackedCount | src/utils/cache.js:85-90 | every tracking parameter is removed; every other one survives as often as it occurred |
| CacheKey.WithoutTwice | src/utils/cache.js:85-90 | deleting one more name is filtering by the larger set |
| CacheKey.WithoutTrackingNames | src/utils/cache.js:85-90 | deleting the tracking names that occur removes exactly the tracking parameters |
| CacheKey.TrackingAmongSnoc | src/utils/cache.js:86-90 | the loop's deleted names grow by each tracking name |
| CacheKey.RemoveTracking | src/utils/cache.js:85-90 | the deletion loop leaves exactly the non-tracking parameters, in order |
| CacheKey.WithoutNothing | src/utils/cache.js:85-90 | deleting no name keeps every parameter |
| CacheKey.StrLessOrder | src/utils/cache.js:94-97 | the name comparison is a strict total order |
| CacheKey.ParamLessOrder | src/utils/cache.js:92-99 | by name, then by value, is a strict total order |
| CacheKey.InsertParam | src/utils/cache.js:92-99 | insertion adds one parameter and nothing else |
| CacheKey.InsertParamSorted | src/utils/cache.js:92-99 | insertion into a sorted list keeps it sorted |
| CacheKey.SortParams | src/utils/cache.js:92-99 | the sort is a permutation |
| CacheKey.SortParamsSorted | src/utils/cache.js:92-99 | the sort orders by name, then value |
| CacheKey.SortedUnique | src/utils/cache.js:92-99 | two sorted arrangements of the same parameters are equal |
| CacheKey.NormalizeUrl | src/utils/cache.js:75-102 | no fragment; a lower-cased hostname; the default port dropped; the path normalised |
| CacheKey.NormalizeUrlQuery | src/utils/cache.js:85-99 | the normalised query is the non-tracking parameters, sorted |
| CacheKey.SameNormalFormIff | src/utils/cache.js:68-108 | two URLs share a normal form iff they agree on scheme, host up to case, port up to the default, path up to one trailing slash, and non-tracking parameters up to order |
| CacheKey.NormalizedKey | src/utils/cache.js:68-108 | null iff the input is missing or empty; the input unchanged when it does not parse; otherwise the serialised normal form; never "" |
| CacheKey.NormalizeCacheKey | src/utils/cache.js:68-108 | the field-by-field edits of the parsed URL equal `NormalizedKey` |
| Cache.CacheEnabled | src/utils/cache.js:33-40 | on unless `CACHE_ENABLED` reads as false; on when unset |
| Cache.CacheTtlMs | src/utils/cache.js:42-49 | a positive value, else 300000 |
| Cache.CacheMaxSize | src/utils/cache.js:51-58 | a positive value, else 1000 |
| Cache.LookupNone | src/utils/cache.js:135 | a key is absent iff no entry carries it |
| Cache.LookupValidKey | src/utils/cache.js:117-120 | a valid store never holds "" |
| Cache.LookupStored | src/utils/cache.js:187-189 | after `set`, the key holds the new entry and every other key its old one |
| Cache.StoredShape | src/utils/cache.js:187-189 | `set` keeps every existing key in place; only a new key is appended |
| Cache.StoredAppends | src/utils/cache.js:153-154 | setting an absent key appends it at the newest end |
| Cache.StoredValid | src/utils/cache.js:187-189 | setting a non-empty key keeps the store valid |
| Cache.LookupDeleted | src/utils/cache.js:144-154 | after `delete`, the key is absent and every other key keeps its entry |
| Cache.DeletedAbsent | src/utils/cache.js:144-154 | deleting an absent key changes nothing |
| Cache.PrunedSuffix | src/utils/cache.js:110-123 | pruning drops a prefix, oldest first: nothing when there is room, otherwise never below maxSize |
| Cache.PrunedBound | src/utils/cache.js:110-123 | a pruned valid store holds at most maxSize keys |
| Cache.SuffixLookup | src/utils/cache.js:116-121 | dropping the oldest entries keeps a valid store; a key left keeps its entry |
| Cache.GetRead | src/utils/cache.js:125-163 | null iff caching is disabled or there is no key; otherwise a report on the normalised key |
| Cache.GetStore | src/utils/cache.js:126-133 | a disabled cache or a missing key leaves the store unchanged |
| Cache.GetReadReport | src/utils/cache.js:135-162 | a hit iff the key holds a live entry (expiresAt > now); a hit reports that entry's value, its TTL and its age; a miss reports the configured TTL |
| Cache.GetStoreEffect | src/utils/cache.js:135-162 | a hit moves only that key to the newest position; an expired entry is deleted, and a miss leaves the key absent; other keys unchanged; the store stays valid |
| Cache.GetServesLiveEntry | src/utils/cache.js:153-162 | a key holding a live entry reads as a hit on it |
| Cache.AliasKeys | src/utils/cache.js:180-181 | the normalised key of each URL, in order |
| Cache.DedupeDistinct | src/utils/cache.js:179-185 | the collected keys are distinct, non-null, at most one per URL |
| Cache.DedupeMembers | src/utils/cache.js:179-185 | a key is collected iff it is one of the non-null keys |
| Cache.SetKeysDistinct | src/utils/cache.js:179-185 | the keys of `setCacheEntry` are distinct and non-empty |
| Cache.SetKeysCover | src/utils/cache.js:179-185 | a key is written iff one of the URLs normalises to it |
| Cache.StoredAllSnoc | src/utils/cache.js:187-189 | the write loop one key at a time |
| Cache.StoredAllValid | src/utils/cache.js:187-189 | the write loop keeps the store valid and the old keys in front |
| Cache.StoredAllLookup | src/utils/cache.js:187-189 | after the loop every written key holds the entry and every other key its old one |
| Cache.SetOutcome | src/utils/cache.js:165-193 | disabled: null and the store unchanged; enabled: returns the configured TTL |
| Cache.PrunedStore | src/utils/cache.js:110-123 | pruning a valid store keeps it valid and within maxSize; a key that survives keeps its entry, and a key outside the oldest |u| - maxSize is kept |
| Cache.SetOutcomeStore | src/utils/cache.js:165-193 | after a set the store is valid and holds at most maxSize keys; a key still present holds the new entry (expiresAt = storedAt + ttl) if written, else its old entry |
| Cache.FreshKeySurvives | src/utils/cache.js:179-191 | when the keys fit, a key that was absent before holds the new entry afterwards |
| Cache.SetThenGetHits | src/utils/cache.js:153-192 | a get before expiry of a key the set wrote, if the key is still present, is a hit on the stored value |
| Cache.AliasRoundTrip | src/utils/cache.js:68-192 | any URL with the same normalised key as one of the set's URLs hits the stored value before expiry, if its key was not pruned |
| Cache.RewrittenKeyEvicted | src/utils/cache.js:187-191 | overwriting keeps position, so with room for one key, setting "b" then the stored "a" leaves only "b" |
| Cache.CollectKeys | src/utils/cache.js:179-185 | the key-collection loop equals `SetKeys` |
| Cache.ContentCache.constructor | src/utils/cache.js:15 | an empty store |
| Cache.ContentCache.Get | src/utils/cache.js:125-163 | result and new store are `GetRead`/`GetStore` on the normalised key of the URL |
| Cache.ContentCache.Prune | src/utils/cache.js:110-123 | the `while` loop leaves `Pruned` of the old store |
| Cache.ContentCache.StoreAll | src/utils/cache.js:187-189 | the `for` loop leaves `StoredAll` |
| Cache.ContentCache.Set | src/utils/cache.js:165-193 | store and result are `SetOutcome` over the keys `SetKeys` collects from the URLs |

## Left out

- src/utils/http.js (`fetchHeadHtml`, `fetchHtml`): network I/O, streaming, timeouts and abort controllers. A fetch enters the model as its outcome record or its error.
- Playwright and `@sparticuz/chromium`:
  - launching, contexts, pages, `goto` and `waitForLoadState` are foreign calls;
  - a browser is an opaque id, and a page load is a `PageOutcome`;
  - the best-effort `page.close()`/`context.close()` in `finally` and the abort listener that closes them are not modelled.
  - a failure of the `context.close()` that follows a successful extraction (src/services/dynamicCrawler.js:297) is not modelled; the model treats that close as succeeding.
- BrowserPool.Pool.ClosePooledBrowser, BrowserPool.Pool.Release, BrowserPool.Pool.BeginAcquire, DynamicCrawler.CrawlDynamic: every `browser.close()` (src/services/dynamicCrawler.js:131, src/services/dynamicCrawler.js:174) is treated as succeeding. A rejected close is not modelled in three places:
  - the retirement close in `acquireBrowser` (src/services/dynamicCrawler.js:185-186): a rejection would make acquisition throw after the pool fields were reset, while the model always goes on to launch or join;
  - the close inside `release()` in the `finally` of `crawlDynamic` (src/services/dynamicCrawler.js:318-320), whose rejection would replace the crawl's result or error;
  - the close of a browser the caller owns outright.
- cheerio: a document is the list of its meta elements, its link elements and its title texts.
- WHATWG `new URL` parsing and serialisation:
  - parsing and resolution are the `UrlParser` parameter, and `Serialize` stands in for `toString()`;
  - percent-encoding and `URLSearchParams`' form encoding are not modelled.
- `Date.now()` readings are parameters.
  - `getCacheEntry`'s age uses a second reading (`ageNowMs`), independent of the expiry reading.
  - `isServerless`, `process.env` and `serverlessChromium.executablePath()` are fields of the env records.
- Concurrency:
  - the pool's single-flight launch is a begin step and a settle step, with other callers interleaving through event traces;
  - `AcquireBrowser` runs to completion without interleaving;
  - the JavaScript event loop is not modelled;
  - callers that wait on one shared `launchPromise` that rejects all receive the same error object, and each assigns `timings` to it (src/services/dynamicCrawler.js:303-311); that aliasing is not modelled, and each caller's error carries its own timings.
- `Number()`: fractions and ±Infinity are not modelled (`JsNumber` is NaN or an integer), so a fractional TTL or size is outside the model.
- OgExtractor.SizesOf: the `any` marker stands for `{ any: true, max: Infinity }`, as the datatype `AnySize`, and the candidate's unbounded score is the datatype `Unbounded`, not a float.
- JsText.Lower: only ASCII letters are lower-cased. Unicode case mapping is not modelled, and the crawler compares only against ASCII strings.
- CacheKey.StrLess: `localeCompare` is modelled as code-unit order. The proofs use only that it is a strict total order, not which locale order it is.
- OgExtractor.StableSort: the in-place `Array.prototype.sort` is modelled on values, as a stable insertion sort, so in-place mutation of the candidates array is not modelled.
- Cache.ContentCache.Get and Cache.ContentCache.Set are stated over the normalised key or keys. Cache.GetRead, Cache.GetStore and Cache.SetOutcome take the keys as parameters; the methods tie them to `NormalizedKey` and `SetKeys`.
- CrawlService.CrawlOgData: `staticError` is `None` both where the code leaves it out and where it is `null`; the controller that serialises it is not modelled.
- src/utils/timingLogger.js (logging, `Math.random` sampling), src/controllers, src/routes, src/app.js, src/server.js and src/config: request plumbing, not decision logic.
- `getLaunchOptions`' argument and headless choice: only whether an executable path is set is modelled, because only that changes behaviour (src/services/dynamicCrawler.js:94).

## Findings

| source | as written | input that shows it | evidently intended | confidence | as-written member | corrected member |
|---|---|---|---|---|---|---|
| src/services/crawlService.js:22-23 | `scoreOgData(staticResult)` scores the `{ data, timings }` object that `crawlStatic` resolves with (src/services/staticCrawler.js:43); it has no `title`, `description` or `image` key, so the score is always 0 and auto mode always runs the dynamic crawl | any static result, e.g. one whose data has a title, a description and an image | score `staticResult.data`, so a static crawl with at least two of the three fields is returned without a browser | not executed | CrawlService.WrapperAlwaysEscalates | CrawlService.DataScoreKeepsRichStatic |
