/** Strategy selection (src/services/crawlService.js): static, dynamic, or auto,
    which tries the static crawl first and falls back to the dynamic one. The two
    strategies are inputs: what `crawlStatic(url)` and `crawlDynamic(url)` resolve
    with or throw. */
module CrawlService {
  import opened Wrappers
  import opened Errors
  import opened OgExtractor
  import opened Crawled

  /** The JavaScript values `scoreOgData` can be handed, as far as it can tell them
      apart. */
  datatype JsValue = Null | Bool(b: bool) | Num(n: int) | Str(s: string) | Obj(fields: map<string, JsValue>)

  predicate Truthy(v: JsValue) {
    match v
    case Null => false
    case Bool(b) => b
    case Num(n) => n != 0
    case Str(s) => s != ""
    case Obj(_) => true
  }

  /** `v?.[key]`, with `undefined` as `Null`. */
  function Get(v: JsValue, key: string): JsValue {
    if v.Obj? && key in v.fields then v.fields[key] else Null
  }

  function OptionalString(o: Option<string>): JsValue {
    match o
    case Some(s) => Str(s)
    case None => Null
  }

  function OptionalNumber(o: Option<int>): JsValue {
    match o
    case Some(n) => Num(n)
    case None => Null
  }

  /** The object `extractOgData` returns. */
  function OgDataObject(d: OgData): JsValue {
    Obj(map["title" := OptionalString(d.title), "description" := OptionalString(d.description),
            "url" := OptionalString(d.url), "site_name" := OptionalString(d.siteName),
            "image" := OptionalString(d.image), "favicon" := OptionalString(d.favicon)])
  }

  function TimingsObject(t: Timings): JsValue {
    var meta :=
      match t.meta
      case None => Null
      case Some(StaticMeta(headOnly, headComplete, headBytes, headTruncated, headFallback)) =>
        Obj(map["head_only" := Bool(headOnly), "head_complete" := Bool(headComplete),
                "head_bytes" := Num(headBytes), "head_truncated" := Bool(headTruncated),
                "head_fallback" := Bool(headFallback)])
      case Some(DynamicMeta(reused, age)) =>
        Obj(map["launch_reused" := Bool(reused), "browser_age_ms" := Num(age)]);
    Obj(map["fetchMs" := OptionalNumber(t.fetchMs), "launchMs" := OptionalNumber(t.launchMs),
            "navigationMs" := OptionalNumber(t.navigationMs), "extractMs" := OptionalNumber(t.extractMs),
            "totalMs" := OptionalNumber(t.totalMs), "meta" := meta])
  }

  /** The `{ data, timings }` object a crawl strategy resolves with. */
  function CrawledObject(c: Crawled): JsValue {
    Obj(map["data" := OgDataObject(c.data), "timings" := TimingsObject(c.timings)])
  }

  const ScoreKeys := ["title", "description", "image"]

  /** The `reduce` of `scoreOgData` over `keys`: how many of them are truthy on `v`. */
  function CountTruthy(v: JsValue, keys: seq<string>): (n: nat)
    ensures n <= |keys|
  {
    if keys == [] then 0
    else CountTruthy(v, keys[..|keys| - 1]) + (if Truthy(Get(v, keys[|keys| - 1])) then 1 else 0)
  }

  /** `scoreOgData(data)`: the number of `title`, `description` and `image` that
      are truthy on `data`, between 0 and 3. */
  function ScoreOgData(v: JsValue): (n: nat)
    ensures n <= 3
    ensures n == (if Truthy(Get(v, "title")) then 1 else 0) + (if Truthy(Get(v, "description")) then 1 else 0)
                 + (if Truthy(Get(v, "image")) then 1 else 0)
  {
    var keys := ScoreKeys;
    assert keys[..2] == ["title", "description"] && keys[2] == "image";
    assert keys[..2][..1] == ["title"] && ["title"][..0] == [];
    assert CountTruthy(v, ["title"]) == if Truthy(Get(v, "title")) then 1 else 0;
    assert CountTruthy(v, keys[..2]) == CountTruthy(v, ["title"]) + if Truthy(Get(v, "description")) then 1 else 0;
    CountTruthy(v, keys)
  }

  /** Adding a field to an object never lowers its score. */
  lemma {:induction false} CountTruthyMonotone(fields: map<string, JsValue>, key: string, x: JsValue, keys: seq<string>)
    requires key !in fields || !Truthy(fields[key])
    ensures CountTruthy(Obj(fields), keys) <= CountTruthy(Obj(fields[key := x]), keys)
  {
    if keys != [] {
      CountTruthyMonotone(fields, key, x, keys[..|keys| - 1]);
    }
  }

  lemma ScoreMonotone(fields: map<string, JsValue>, key: string, x: JsValue)
    requires key !in fields || !Truthy(fields[key])
    ensures ScoreOgData(Obj(fields)) <= ScoreOgData(Obj(fields[key := x]))
  {
    CountTruthyMonotone(fields, key, x, ScoreKeys);
  }

  /** The extracted data scores one point per non-empty title, description and
      image. */
  lemma ScoreOfOgData(d: OgData)
    ensures ScoreOgData(OgDataObject(d)) ==
              (if NonEmpty(d.title) then 1 else 0) + (if NonEmpty(d.description) then 1 else 0)
              + (if NonEmpty(d.image) then 1 else 0)
  {
  }

  datatype Strategy = Static | Dynamic

  /** What `crawlOgData` resolves with. `data` is the crawl strategy's whole result;
      `staticError` is `None` for `null` and for a missing key alike. */
  datatype CrawlResponse = CrawlResponse(data: Crawled, modeUsed: string, fallback: bool, staticError: Option<JsError>)

  /** The auto branch moves on to the dynamic crawl: the static crawl threw, or the
      object it resolved with scores below 2. */
  predicate Escalates(staticOutcome: Result<Crawled, JsError>) {
    staticOutcome.Err? || ScoreOgData(CrawledObject(staticOutcome.value)) < 2
  }

  /** As written, the score is taken of the `{ data, timings }` wrapper, which has no
      `title`, `description` or `image` key: it is always 0, so a successful static
      crawl is always followed by a dynamic one. */
  lemma WrapperAlwaysEscalates(staticOutcome: Result<Crawled, JsError>)
    ensures Escalates(staticOutcome)
  {
    if staticOutcome.Ok? {
      var v := CrawledObject(staticOutcome.value);
      assert Get(v, "title") == Null && Get(v, "description") == Null && Get(v, "image") == Null;
    }
  }

  /** `crawlOgData({ url, mode })`: returns the response or the error it throws, and
      the strategies it runs in order. Any mode other than "static" and "dynamic"
      is auto. */
  method CrawlOgData(mode: string, staticOutcome: Result<Crawled, JsError>, dynamicOutcome: Result<Crawled, JsError>)
    returns (r: Result<CrawlResponse, JsError>, calls: seq<Strategy>)
    ensures mode == "static" ==>
              calls == [Static]
              && r == (match staticOutcome
                       case Ok(c) => Ok(CrawlResponse(c, "static", false, None))
                       case Err(e) => Err(e))
    ensures mode == "dynamic" ==>
              calls == [Dynamic]
              && r == (match dynamicOutcome
                       case Ok(c) => Ok(CrawlResponse(c, "dynamic", false, None))
                       case Err(e) => Err(e))
    ensures mode != "static" && mode != "dynamic" ==>
              // The static crawl always runs first and never fails the request.
              && |calls| >= 1 && calls[0] == Static
              && (calls == [Static] <==> !Escalates(staticOutcome))
              && (!Escalates(staticOutcome) ==> r == Ok(CrawlResponse(staticOutcome.value, "static", false, None)))
              && (Escalates(staticOutcome) ==>
                    calls == [Static, Dynamic]
                    && (dynamicOutcome.Err? ==> r == Err(dynamicOutcome.error))
                    && (dynamicOutcome.Ok? ==>
                          r == Ok(CrawlResponse(dynamicOutcome.value, "dynamic", true,
                                                if staticOutcome.Err? then Some(staticOutcome.error) else None))))
  {
    if mode == "static" {
      calls := [Static];
      match staticOutcome {
        case Ok(c) => return Ok(CrawlResponse(c, "static", false, None)), calls;
        case Err(e) => return Err(e), calls;
      }
    }
    if mode == "dynamic" {
      calls := [Dynamic];
      match dynamicOutcome {
        case Ok(c) => return Ok(CrawlResponse(c, "dynamic", false, None)), calls;
        case Err(e) => return Err(e), calls;
      }
    }
    var staticResult: Option<Crawled> := None;
    var staticError: Option<JsError> := None;
    calls := [Static];
    match staticOutcome {
      case Ok(c) =>
        staticResult := Some(c);
        if ScoreOgData(CrawledObject(c)) >= 2 {
          return Ok(CrawlResponse(c, "static", false, None)), calls;
        }
      case Err(e) =>
        staticError := Some(e);
    }
    calls := calls + [Dynamic];
    match dynamicOutcome {
      case Ok(c) => r := Ok(CrawlResponse(c, "dynamic", true, staticError));
      case Err(e) => r := Err(e);
    }
  }

  /** The evident intent of the auto branch: score the extracted data. */
  predicate EscalatesOnData(staticOutcome: Result<Crawled, JsError>) {
    staticOutcome.Err? || ScoreOgData(OgDataObject(staticOutcome.value.data)) < 2
  }

  /** Scoring the data, a static crawl that found at least two of title,
      description and image is kept. */
  lemma DataScoreKeepsRichStatic(c: Crawled)
    ensures !EscalatesOnData(Ok(c)) <==>
              (if NonEmpty(c.data.title) then 1 else 0) + (if NonEmpty(c.data.description) then 1 else 0)
              + (if NonEmpty(c.data.image) then 1 else 0) >= 2
  {
    ScoreOfOgData(c.data);
  }

  /** `crawlOgData` with the auto branch scoring the extracted data rather than the
      wrapper around it. */
  method CrawlOgDataScoringData(mode: string, staticOutcome: Result<Crawled, JsError>, dynamicOutcome: Result<Crawled, JsError>)
    returns (r: Result<CrawlResponse, JsError>, calls: seq<Strategy>)
    ensures mode == "static" ==>
              calls == [Static]
              && r == (match staticOutcome
                       case Ok(c) => Ok(CrawlResponse(c, "static", false, None))
                       case Err(e) => Err(e))
    ensures mode == "dynamic" ==>
              calls == [Dynamic]
              && r == (match dynamicOutcome
                       case Ok(c) => Ok(CrawlResponse(c, "dynamic", false, None))
                       case Err(e) => Err(e))
    ensures mode != "static" && mode != "dynamic" ==>
              && |calls| >= 1 && calls[0] == Static
              && (calls == [Static] <==> !EscalatesOnData(staticOutcome))
              && (!EscalatesOnData(staticOutcome) ==> r == Ok(CrawlResponse(staticOutcome.value, "static", false, None)))
              && (EscalatesOnData(staticOutcome) ==>
                    calls == [Static, Dynamic]
                    && (dynamicOutcome.Err? ==> r == Err(dynamicOutcome.error))
                    && (dynamicOutcome.Ok? ==>
                          r == Ok(CrawlResponse(dynamicOutcome.value, "dynamic", true,
                                                if staticOutcome.Err? then Some(staticOutcome.error) else None))))
  {
    if mode == "static" {
      calls := [Static];
      match staticOutcome {
        case Ok(c) => return Ok(CrawlResponse(c, "static", false, None)), calls;
        case Err(e) => return Err(e), calls;
      }
    }
    if mode == "dynamic" {
      calls := [Dynamic];
      match dynamicOutcome {
        case Ok(c) => return Ok(CrawlResponse(c, "dynamic", false, None)), calls;
        case Err(e) => return Err(e), calls;
      }
    }
    var staticError: Option<JsError> := None;
    calls := [Static];
    match staticOutcome {
      case Ok(c) =>
        if ScoreOgData(OgDataObject(c.data)) >= 2 {
          return Ok(CrawlResponse(c, "static", false, None)), calls;
        }
      case Err(e) =>
        staticError := Some(e);
    }
    calls := calls + [Dynamic];
    match dynamicOutcome {
      case Ok(c) => r := Ok(CrawlResponse(c, "dynamic", true, staticError));
      case Err(e) => r := Err(e);
    }
  }
}
