/** Cache-key normalisation (src/utils/cache.js, `normalizePathname` and
    `normalizeCacheKey`), over the URL record of module Urls. `localeCompare` is
    modelled by code-unit lexicographic order; the proofs use only that it is a
    strict total order. */
module CacheKey {
  import opened Wrappers
  import opened JsText
  import opened Urls

  type Param = (string, string)

  const TrackingParams: set<string> := {"fbclid", "gclid", "igshid", "mc_cid", "mc_eid", "ref", "ref_src", "yclid"}

  /** A query parameter the key ignores: any `utm_` name and the listed click ids. */
  predicate IsTracking(name: string) {
    StartsWith(name, "utm_") || name in TrackingParams
  }

  /** `normalizePathname(pathname)`: one trailing '/' is removed, except from "/"
      itself; any other path is left alone. */
  function NormalizePathname(pathname: string): (r: string)
    ensures |pathname| > 1 && pathname[|pathname| - 1] == '/' ==> r + "/" == pathname
    ensures !(|pathname| > 1 && pathname[|pathname| - 1] == '/') ==> r == pathname
    ensures |r| >= |pathname| - 1
  {
    if |pathname| > 1 && EndsWith(pathname, "/") then pathname[..|pathname| - 1] else pathname
  }

  /** The port after normalisation: the scheme's default port is dropped. */
  function NormalizedPort(protocol: string, port: string): (r: string)
    ensures (protocol == "http:" && port == "80") || (protocol == "https:" && port == "443") ==> r == ""
    ensures !((protocol == "http:" && port == "80") || (protocol == "https:" && port == "443")) ==> r == port
  {
    if (protocol == "http:" && port == "80") || (protocol == "https:" && port == "443") then "" else port
  }

  // ---------------------------------------------------------------- parameter filtering

  /** The parameters whose name is not in `names`, in order. */
  function Without(ps: seq<Param>, names: set<string>): seq<Param> {
    if ps == [] then []
    else (if ps[0].0 in names then [] else [ps[0]]) + Without(ps[1..], names)
  }

  /** The non-tracking parameters, in order. */
  function Untracked(ps: seq<Param>): seq<Param> {
    if ps == [] then [] else (if IsTracking(ps[0].0) then [] else [ps[0]]) + Untracked(ps[1..])
  }

  /** Every tracking parameter is gone and every other one is kept, as often as it
      occurs. */
  lemma {:induction false} UntrackedCount(ps: seq<Param>, q: Param)
    ensures multiset(Untracked(ps))[q] == if IsTracking(q.0) then 0 else multiset(ps)[q]
  {
    if ps != [] {
      UntrackedCount(ps[1..], q);
      assert ps == [ps[0]] + ps[1..];
    }
  }

  /** `params.delete(name)`: removes every entry with that name. */
  function DeleteName(ps: seq<Param>, name: string): seq<Param> {
    Without(ps, {name})
  }

  lemma {:induction false} WithoutTwice(ps: seq<Param>, names: set<string>, name: string)
    ensures DeleteName(Without(ps, names), name) == Without(ps, names + {name})
  {
    if ps != [] {
      WithoutTwice(ps[1..], names, name);
      var rest := Without(ps[1..], names);
      if ps[0].0 in names {
        assert Without(ps, names) == rest;
        assert Without(ps, names + {name}) == Without(ps[1..], names + {name});
      } else {
        var w := [ps[0]] + rest;
        assert Without(ps, names) == w;
        assert w[0] == ps[0] && w[1..] == rest;
        if ps[0].0 == name {
          assert Without(w, {name}) == Without(rest, {name});
          assert Without(ps, names + {name}) == Without(ps[1..], names + {name});
        } else {
          assert Without(w, {name}) == [ps[0]] + Without(rest, {name});
          assert Without(ps, names + {name}) == [ps[0]] + Without(ps[1..], names + {name});
        }
      }
    }
  }

  /** Removing the tracking names that occur is removing every tracking parameter. */
  lemma {:induction false} WithoutTrackingNames(ps: seq<Param>, names: set<string>)
    requires forall q :: q in ps ==> (q.0 in names <==> IsTracking(q.0))
    ensures Without(ps, names) == Untracked(ps)
  {
    if ps != [] {
      WithoutTrackingNames(ps[1..], names);
    }
  }

  function Names(ps: seq<Param>): (r: seq<string>)
    ensures |r| == |ps| && forall i :: 0 <= i < |ps| ==> r[i] == ps[i].0
  {
    seq(|ps|, i requires 0 <= i < |ps| => ps[i].0)
  }

  /** The tracking names among `ks`. */
  function TrackingAmong(ks: seq<string>): set<string> {
    set k | k in ks && IsTracking(k)
  }

  lemma TrackingAmongSnoc(ks: seq<string>, i: nat)
    requires i < |ks|
    ensures TrackingAmong(ks[..i + 1]) == TrackingAmong(ks[..i]) + (if IsTracking(ks[i]) then {ks[i]} else {})
  {
    assert ks[..i + 1] == ks[..i] + [ks[i]];
  }

  /** The deletion loop of `normalizeCacheKey`, over a snapshot of the names. */
  method RemoveTracking(params: seq<Param>) returns (r: seq<Param>)
    ensures r == Untracked(params)
  {
    var keys := Names(params);
    r := params;
    assert TrackingAmong(keys[..0]) == {};
    WithoutNothing(params);
    for i := 0 to |keys|
      invariant r == Without(params, TrackingAmong(keys[..i]))
    {
      TrackingAmongSnoc(keys, i);
      if StartsWith(keys[i], "utm_") || keys[i] in TrackingParams {
        WithoutTwice(params, TrackingAmong(keys[..i]), keys[i]);
        assert TrackingAmong(keys[..i + 1]) == TrackingAmong(keys[..i]) + {keys[i]};
        r := DeleteName(r, keys[i]);
      } else {
        assert TrackingAmong(keys[..i + 1]) == TrackingAmong(keys[..i]);
      }
    }
    assert keys[..|keys|] == keys;
    forall q | q in params
      ensures q.0 in TrackingAmong(keys) <==> IsTracking(q.0)
    {
      var j :| 0 <= j < |params| && params[j] == q;
      assert keys[j] == q.0;
    }
    WithoutTrackingNames(params, TrackingAmong(keys));
  }

  lemma {:induction false} WithoutNothing(ps: seq<Param>)
    ensures Without(ps, {}) == ps
  {
    if ps != [] {
      WithoutNothing(ps[1..]);
    }
  }

  // ---------------------------------------------------------------- ordering

  /** `a.localeCompare(b) < 0`, modelled as code-unit lexicographic order. */
  predicate StrLess(a: string, b: string) {
    if a == [] then b != []
    else if b == [] then false
    else if a[0] != b[0] then a[0] < b[0]
    else StrLess(a[1..], b[1..])
  }

  /** `StrLess` is a strict total order. */
  lemma {:induction false} StrLessOrder(a: string, b: string, c: string)
    ensures !StrLess(a, a)
    ensures a != b ==> StrLess(a, b) || StrLess(b, a)
    ensures StrLess(a, b) ==> !StrLess(b, a)
    ensures StrLess(a, b) && StrLess(b, c) ==> StrLess(a, c)
  {
    if a != [] && b != [] && c != [] {
      StrLessOrder(a[1..], b[1..], c[1..]);
      if a[0] == b[0] && a != b {
        assert a == [a[0]] + a[1..] && b == [b[0]] + b[1..];
      }
    } else if a != [] && b != [] {
      StrLessOrder(a[1..], b[1..], a[1..]);
      if a[0] == b[0] && a != b {
        assert a == [a[0]] + a[1..] && b == [b[0]] + b[1..];
      }
    } else if a != [] {
      StrLessOrder(a[1..], a[1..], a[1..]);
    }
  }

  /** The comparator of the sort: by name, then by value. */
  predicate ParamLess(a: Param, b: Param) {
    if a.0 == b.0 then StrLess(a.1, b.1) else StrLess(a.0, b.0)
  }

  /** `ParamLess` is a strict total order on parameters. */
  lemma ParamLessOrder(a: Param, b: Param, c: Param)
    ensures !ParamLess(a, a)
    ensures a != b ==> ParamLess(a, b) || ParamLess(b, a)
    ensures ParamLess(a, b) ==> !ParamLess(b, a)
    ensures ParamLess(a, b) && ParamLess(b, c) ==> ParamLess(a, c)
  {
    StrLessOrder(a.0, b.0, c.0);
    StrLessOrder(a.1, b.1, c.1);
    StrLessOrder(a.0, a.0, a.0);
    StrLessOrder(a.1, a.1, a.1);
  }

  /** No element of `s` sorts before `x`. */
  predicate AtLeast(x: Param, s: seq<Param>) {
    forall y :: y in s ==> !ParamLess(y, x)
  }

  predicate SortedParams(ps: seq<Param>) {
    ps == [] || (AtLeast(ps[0], ps[1..]) && SortedParams(ps[1..]))
  }

  function InsertParam(q: Param, sorted: seq<Param>): (r: seq<Param>)
    ensures multiset(r) == multiset(sorted) + multiset{q}
  {
    if sorted == [] || !ParamLess(sorted[0], q) then [q] + sorted
    else
      assert sorted == [sorted[0]] + sorted[1..];
      [sorted[0]] + InsertParam(q, sorted[1..])
  }

  lemma InsertParamAtLeast(x: Param, q: Param, s: seq<Param>)
    requires AtLeast(x, s) && !ParamLess(q, x)
    ensures AtLeast(x, InsertParam(q, s))
  {
    forall y | y in InsertParam(q, s)
      ensures !ParamLess(y, x)
    {
      assert y in multiset(InsertParam(q, s));
    }
  }

  lemma {:induction false} InsertParamSorted(q: Param, sorted: seq<Param>)
    requires SortedParams(sorted)
    ensures SortedParams(InsertParam(q, sorted))
  {
    if sorted == [] {
      assert InsertParam(q, sorted) == [q];
    } else if !ParamLess(sorted[0], q) {
      forall y | y in sorted
        ensures !ParamLess(y, q)
      {
        if y != sorted[0] {
          assert y in sorted[1..];
          ParamLessOrder(y, sorted[0], q);
          ParamLessOrder(sorted[0], y, q);
        }
      }
      assert InsertParam(q, sorted)[1..] == sorted;
    } else {
      InsertParamSorted(q, sorted[1..]);
      ParamLessOrder(sorted[0], q, sorted[0]);
      InsertParamAtLeast(sorted[0], q, sorted[1..]);
      assert InsertParam(q, sorted)[1..] == InsertParam(q, sorted[1..]);
    }
  }

  /** `Array.from(params.entries()).sort(comparator)`: a stable insertion sort; the
      result is a permutation of the input. */
  function SortParams(ps: seq<Param>): (r: seq<Param>)
    ensures multiset(r) == multiset(ps)
    ensures |r| == |ps|
  {
    if ps == [] then []
    else
      assert ps == [ps[0]] + ps[1..];
      InsertParam(ps[0], SortParams(ps[1..]))
  }

  /** ... and it is sorted. */
  lemma {:induction false} SortParamsSorted(ps: seq<Param>)
    ensures SortedParams(SortParams(ps))
  {
    if ps != [] {
      SortParamsSorted(ps[1..]);
      InsertParamSorted(ps[0], SortParams(ps[1..]));
    }
  }

  /** Two sorted arrangements of the same parameters are the same: the sorted order
      does not depend on the order the parameters came in. */
  lemma {:induction false} SortedUnique(a: seq<Param>, b: seq<Param>)
    requires SortedParams(a) && SortedParams(b)
    requires multiset(a) == multiset(b)
    ensures a == b
  {
    if a != [] {
      assert a == [a[0]] + a[1..];
      assert multiset(a) == multiset{a[0]} + multiset(a[1..]);
      assert a[0] in multiset(b);
      assert b == [b[0]] + b[1..];
      assert multiset(b) == multiset{b[0]} + multiset(b[1..]);
      assert b[0] in multiset(a);
      if a[0] != b[0] {
        assert b[0] in a[1..];
        assert a[0] in b[1..];
        ParamLessOrder(a[0], b[0], a[0]);
        assert false;
      }
      assert multiset(a[1..]) == multiset(a) - multiset{a[0]};
      assert multiset(b[1..]) == multiset(b) - multiset{b[0]};
      SortedUnique(a[1..], b[1..]);
    }
  }

  // ---------------------------------------------------------------- the key

  /** The URL `normalizeCacheKey` serialises: no fragment, a lower-cased host, no
      default port, only the non-tracking parameters in sorted order, and at most one
      trailing slash removed from the path. */
  function NormalizeUrl(u: Url): (r: Url)
    ensures r.protocol == u.protocol && r.hash == "" && r.hostname == Lower(u.hostname)
    ensures r.port == NormalizedPort(u.protocol, u.port)
    ensures r.pathname == NormalizePathname(u.pathname)
  {
    Url(u.protocol, Lower(u.hostname), NormalizedPort(u.protocol, u.port),
        NormalizePathname(u.pathname), SortParams(Untracked(u.query)), "")
  }

  /** The normalised query holds the non-tracking parameters, sorted. */
  lemma NormalizeUrlQuery(u: Url)
    ensures SortedParams(NormalizeUrl(u).query) && multiset(NormalizeUrl(u).query) == multiset(Untracked(u.query))
  {
    SortParamsSorted(Untracked(u.query));
  }

  /** Two URLs normalise to the same record exactly when they agree on the scheme,
      the host up to case, the port up to the scheme's default, the path up to one
      trailing slash, and the non-tracking parameters up to order. */
  lemma SameNormalFormIff(u: Url, v: Url)
    ensures NormalizeUrl(u) == NormalizeUrl(v) <==>
              && u.protocol == v.protocol
              && Lower(u.hostname) == Lower(v.hostname)
              && NormalizedPort(u.protocol, u.port) == NormalizedPort(v.protocol, v.port)
              && NormalizePathname(u.pathname) == NormalizePathname(v.pathname)
              && multiset(Untracked(u.query)) == multiset(Untracked(v.query))
  {
    var nu, nv := NormalizeUrl(u), NormalizeUrl(v);
    NormalizeUrlQuery(u);
    NormalizeUrlQuery(v);
    if multiset(Untracked(u.query)) == multiset(Untracked(v.query)) {
      SortedUnique(nu.query, nv.query);
    }
  }

  /** `normalizeCacheKey(rawUrl)`, as a definition: `None` for a missing or empty
      input, the input itself when it does not parse, and otherwise the serialised
      normal form. A key is never empty. */
  function NormalizedKey(p: UrlParser, rawUrl: Option<string>): (r: Option<string>)
    ensures r.None? <==> rawUrl.None? || rawUrl == Some("")
    ensures rawUrl.Some? && rawUrl.value != "" && p.parse(rawUrl.value).None? ==> r == rawUrl
    ensures rawUrl.Some? && rawUrl.value != "" && p.parse(rawUrl.value).Some? ==>
              r == Some(Serialize(NormalizeUrl(p.parse(rawUrl.value).value)))
    ensures r.Some? ==> r.value != ""
  {
    if rawUrl.None? || rawUrl.value == "" then None
    else match p.parse(rawUrl.value)
      case None => rawUrl
      case Some(u) => Some(Serialize(NormalizeUrl(u)))
  }

  /** `normalizeCacheKey(rawUrl)`: edits the parsed URL field by field. */
  method NormalizeCacheKey(p: UrlParser, rawUrl: Option<string>) returns (r: Option<string>)
    ensures r == NormalizedKey(p, rawUrl)
  {
    if rawUrl.None? || rawUrl.value == "" {
      return None;
    }
    var parsed := p.parse(rawUrl.value);
    if parsed.None? {
      return rawUrl;
    }
    var url := parsed.value;
    url := url.(hash := "");
    url := url.(hostname := Lower(url.hostname));
    if (url.protocol == "http:" && url.port == "80") || (url.protocol == "https:" && url.port == "443") {
      url := url.(port := "");
    }
    var params := RemoveTracking(url.query);
    url := url.(query := SortParams(params));
    url := url.(pathname := NormalizePathname(url.pathname));
    r := Some(Serialize(url));
  }
}
