/** Reading configuration out of environment strings: `parseBoolean` (written out
    identically in src/services/dynamicCrawler.js and src/utils/cache.js) and the
    results of `Number(process.env.X)`. */
module Env {
  import opened Wrappers
  import opened JsText

  /** `parseBoolean`: `None` stands for `undefined`, both as the missing value and as
      the "no opinion" answer. */
  function ParseBoolean(value: Option<string>): (r: Option<bool>)
    ensures value.None? ==> r.None?
    ensures value.Some? ==> (r == Some(true) <==> Lower(Trim(value.value)) in {"true", "1", "yes"})
    ensures value.Some? ==> (r == Some(false) <==> Lower(Trim(value.value)) in {"false", "0", "no"})
  {
    match value
    case None => None
    case Some(v) =>
      var normalized := Lower(Trim(v));
      if normalized == "true" || normalized == "1" || normalized == "yes" then Some(true)
      else if normalized == "false" || normalized == "0" || normalized == "no" then Some(false)
      else None
  }

  lemma LowerKeepsSpaces(s: string)
    ensures forall k :: 0 <= k < |s| ==> (IsSpace(Lower(s)[k]) <==> IsSpace(s[k]))
  {
  }

  lemma LowerIdempotent(s: string)
    ensures Lower(Lower(s)) == Lower(s)
  {
  }

  /** A value that has already been trimmed and lower-cased reads the same:
      surrounding white space and letter case never change the answer. */
  lemma ParseBooleanNormalized(s: string)
    ensures ParseBoolean(Some(Lower(Trim(s)))) == ParseBoolean(Some(s))
  {
    var t := Trim(s);
    var l := Lower(t);
    LowerKeepsSpaces(t);
    assert l == [] || !IsSpace(l[0]);
    assert l == [] || !IsSpace(l[|l| - 1]);
    assert TrimStart(l) == l;
    assert Trim(l) == l;
    LowerIdempotent(t);
  }

  /** What `Number(process.env.X)` yields: NaN (also for a missing variable), or a
      number. Fractional and infinite values are not modelled. */
  datatype JsNumber = NaN | Num(value: int)

  /** `Number.isNaN(n) || n <= 0 ? fallback : n`, the rule of the TTL, size and
      use-limit getters. */
  function PositiveOr(n: JsNumber, fallback: int): (r: int)
    requires fallback > 0
    ensures r > 0
    ensures n.Num? && n.value > 0 ==> r == n.value
    ensures !(n.Num? && n.value > 0) ==> r == fallback
  {
    if n.NaN? || n.value <= 0 then fallback else n.value
  }

  /** `Number(x) || fallback`: only NaN and 0 are replaced; a negative number is kept. */
  function TruthyOr(n: JsNumber, fallback: int): (r: int)
    ensures n.NaN? || n == Num(0) ==> r == fallback
    ensures n.Num? && n.value != 0 ==> r == n.value
  {
    if n.NaN? || n.value == 0 then fallback else n.value
  }
}
