/** URLs as records, and `resolveUrl` (src/utils/urls.js). The WHATWG parser and
    serialiser are foreign: parsing and resolution are handed in as a `UrlParser`. */
module Urls {
  import opened Wrappers
  import opened JsText

  /** A parsed URL: `protocol` with its colon ("https:"), host name, port ("" for
      none), path, the query as URLSearchParams pairs, and the fragment without '#'.
      Credentials are not modelled. */
  datatype Url = Url(
    protocol: string,
    hostname: string,
    port: string,
    pathname: string,
    query: seq<(string, string)>,
    hash: string)

  /** The two uses of the `URL` constructor: `new URL(s)` and
      `new URL(target, base).toString()`; `None` is a thrown TypeError. */
  datatype UrlParser = UrlParser(
    parse: string -> Option<Url>,
    resolve: (string, Option<string>) -> Option<string>)

  /** `URLSearchParams.prototype.toString` (percent-encoding not modelled). */
  function QueryString(ps: seq<(string, string)>): string {
    if ps == [] then ""
    else if |ps| == 1 then ps[0].0 + "=" + ps[0].1
    else ps[0].0 + "=" + ps[0].1 + "&" + QueryString(ps[1..])
  }

  /** `url.toString()`: the scheme, "//" and the host always lead, so the result is
      never "" (the cache relies on this: a normalised key is never falsy). */
  function Serialize(u: Url): (s: string)
    ensures StartsWith(s, u.protocol + "//" + u.hostname)
    ensures |s| >= 2
  {
    u.protocol + "//" + u.hostname
    + (if u.port == "" then "" else ":" + u.port)
    + u.pathname
    + (if u.query == [] then "" else "?" + QueryString(u.query))
    + (if u.hash == "" then "" else "#" + u.hash)
  }

  /** `resolveUrl(baseUrl, target)`. */
  function ResolveUrl(p: UrlParser, base: Option<string>, target: Option<string>): (r: Option<string>)
    ensures (target.None? || target == Some("")) <==> r.None?
    ensures target.Some? && StartsWith(target.value, "data:") ==> r == target
    ensures target.Some? && target.value != "" && !StartsWith(target.value, "data:") ==>
              r == Some(p.resolve(target.value, base).GetOr(target.value))
  {
    match target
    case None => None
    case Some(t) =>
      if t == "" then None
      else if StartsWith(t, "data:") then Some(t)
      else match p.resolve(t, base)
        case Some(resolved) => Some(resolved)
        case None => Some(t)
  }
}
