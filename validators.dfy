/** Request parameter checks (src/utils/validators.js). */
module Validators {
  import opened Wrappers
  import opened JsText
  import opened Errors
  import opened Urls

  /** A query-string parameter as Express hands it over: missing, a string, or
      something else (an array or an object), given with what `String(value)` makes
      of it. */
  datatype QueryParam = Absent | Text(s: string) | NonString(asString: string)

  /** JavaScript truthiness of a parameter: objects are truthy, "" is not. */
  predicate Truthy(v: QueryParam) {
    match v
    case Absent => false
    case Text(s) => s != ""
    case NonString(_) => true
  }

  /** `parseTargetUrl`: a missing or non-string value, a value `new URL` rejects,
      and a protocol other than http: or https: are each a 400. */
  function ParseTargetUrl(p: UrlParser, value: QueryParam): (r: Result<string, JsError>)
    ensures !(value.Text? && value.s != "") ==> r == Err(BadRequest("Missing url parameter"))
    ensures value.Text? && value.s != "" && p.parse(value.s).None? ==>
              r == Err(BadRequest("Invalid url parameter"))
    ensures value.Text? && value.s != "" && p.parse(value.s).Some? ==>
              var u := p.parse(value.s).value;
              (r.Ok? <==> u.protocol in {"http:", "https:"})
              && (r.Ok? ==> r.value == Serialize(u))
              && (r.Err? ==> r.error == BadRequest("Only http and https urls are allowed"))
    ensures r.Err? ==> r.error.status == Some(400)
  {
    if !Truthy(value) || !value.Text? then Err(BadRequest("Missing url parameter"))
    else match p.parse(value.s)
      case None => Err(BadRequest("Invalid url parameter"))
      case Some(u) =>
        if !(u.protocol in ["http:", "https:"]) then Err(BadRequest("Only http and https urls are allowed"))
        else Ok(Serialize(u))
  }

  /** A successful `parseTargetUrl` is the serialisation of an http(s) URL. */
  lemma ParsedTargetIsHttp(p: UrlParser, value: QueryParam)
    requires ParseTargetUrl(p, value).Ok?
    ensures exists u: Url :: u.protocol in {"http:", "https:"} && ParseTargetUrl(p, value).value == Serialize(u)
  {
    var u := p.parse(value.s).value;
    assert u.protocol in {"http:", "https:"} && ParseTargetUrl(p, value).value == Serialize(u);
  }

  const AllowedModes: set<string> := {"auto", "static", "dynamic"}

  /** `parseCrawlMode`: a missing or empty value is "auto"; anything else is
      lower-cased and must be one of the three modes, or the request is a 400. */
  function ParseCrawlMode(value: QueryParam): (r: Result<string, JsError>)
    ensures !Truthy(value) ==> r == Ok("auto")
    ensures r.Ok? ==> r.value in AllowedModes
    ensures Truthy(value) ==>
              var mode := Lower(if value.Text? then value.s else value.asString);
              (r.Ok? <==> mode in AllowedModes) && (r.Ok? ==> r.value == mode)
    ensures r.Err? ==> r.error == BadRequest("Invalid mode parameter")
  {
    if !Truthy(value) then Ok("auto")
    else
      var mode := Lower(match value case Text(s) => s case NonString(s) => s case Absent => "");
      if mode !in AllowedModes then Err(BadRequest("Invalid mode parameter"))
      else Ok(mode)
  }
}
