/** Link-preview metadata extraction (src/services/ogExtractor.js). The cheerio
    document is modelled by what the extractor queries: its meta elements, its link
    elements and the texts of its title elements, each in document order. */
module OgExtractor {
  import opened Wrappers
  import opened JsText
  import opened Errors
  import opened Urls

  datatype MetaTag = MetaTag(property: Option<string>, name: Option<string>, content: Option<string>)

  /** A link element's `rel`, `href`, `sizes` and `type` attributes. */
  datatype LinkTag = LinkTag(rel: Option<string>, href: Option<string>, sizes: Option<string>, mediaType: Option<string>)

  datatype Document = Document(metas: seq<MetaTag>, links: seq<LinkTag>, titles: seq<string>)

  /** `meta[property="v"]` or `meta[name="v"]`. */
  datatype Selector = Property(value: string) | Name(value: string)

  /** The extracted fields; `None` is `null`. */
  datatype OgData = OgData(
    title: Option<string>,
    description: Option<string>,
    url: Option<string>,
    siteName: Option<string>,
    image: Option<string>,
    favicon: Option<string>)

  function Max(a: nat, b: nat): nat {
    if a >= b then a else b
  }

  /** JavaScript truthiness of an optional string. */
  predicate NonEmpty(v: Option<string>) {
    v.Some? && v.value != ""
  }

  /** `a || b` on optional strings. */
  function Or(a: Option<string>, b: Option<string>): Option<string> {
    if NonEmpty(a) then a else b
  }

  // ---------------------------------------------------------------- meta content

  predicate Matches(m: MetaTag, sel: Selector) {
    match sel
    case Property(v) => m.property == Some(v)
    case Name(v) => m.name == Some(v)
  }

  /** `$(selector).attr('content')`: the content attribute of the first element the
      selector matches. */
  function SelectContent(metas: seq<MetaTag>, sel: Selector): Option<string> {
    if metas == [] then None
    else if Matches(metas[0], sel) then metas[0].content
    else SelectContent(metas[1..], sel)
  }

  /** Index of the first selector, in list order, whose content is non-empty;
      `|selectors|` if there is none. */
  function FirstFilled(metas: seq<MetaTag>, selectors: seq<Selector>): (i: nat)
    ensures i <= |selectors|
    ensures forall j :: 0 <= j < i ==> !NonEmpty(SelectContent(metas, selectors[j]))
    ensures i < |selectors| ==> NonEmpty(SelectContent(metas, selectors[i]))
  {
    if selectors == [] then 0
    else if NonEmpty(SelectContent(metas, selectors[0])) then 0
    else 1 + FirstFilled(metas, selectors[1..])
  }

  /** `pickFirstContent($, selectors)`: the trimmed content of the first selector,
      in list order, whose content is non-empty before trimming; `None` if there is
      none. A selector whose content is white space alone still wins, with "". */
  function PickFirstContent(doc: Document, selectors: seq<Selector>): (r: Option<string>)
    ensures var i := FirstFilled(doc.metas, selectors);
            r == if i < |selectors| then Some(Trim(SelectContent(doc.metas, selectors[i]).value)) else None
  {
    if selectors == [] then None
    else
      var v := SelectContent(doc.metas, selectors[0]);
      if NonEmpty(v) then Some(Trim(v.value))
      else PickFirstContent(doc, selectors[1..])
  }

  // ---------------------------------------------------------------- sizes="..."

  datatype SizesInfo = AnySize | MaxSize(max: nat)

  lemma DigitsAtMostFour(s: string)
    requires AllDigits(s) && |s| <= 4
    ensures DigitsValue(s) <= 9999
  {
    assert Pow10(4) == 10000;
    if |s| < 4 {
      assert Pow10(|s|) <= 1000;
    }
  }

  /** Index of the first 'x' in `s`, or `|s|`. */
  function IndexOfX(s: string): (i: nat)
    ensures i <= |s|
    ensures i < |s| ==> s[i] == 'x'
    ensures forall k :: 0 <= k < i ==> s[k] != 'x'
  {
    if s == [] || s[0] == 'x' then 0 else 1 + IndexOfX(s[1..])
  }

  /** `token.match(/^(\d{1,4})x(\d{1,4})$/)`: the two captured numbers. */
  function SizeToken(tok: string): (r: Option<(nat, nat)>)
    ensures r.Some? ==> r.value.0 <= 9999 && r.value.1 <= 9999
    ensures r.Some? ==> exists i :: 1 <= i <= 4 && i + 1 < |tok| <= i + 5 && tok[i] == 'x'
                          && AllDigits(tok[..i]) && AllDigits(tok[i + 1..])
                          && r.value == (DigitsValue(tok[..i]), DigitsValue(tok[i + 1..]))
  {
    var i := IndexOfX(tok);
    if i < |tok| && 1 <= i <= 4 && 1 <= |tok| - i - 1 <= 4 && AllDigits(tok[..i]) && AllDigits(tok[i + 1..]) then
      DigitsAtMostFour(tok[..i]);
      DigitsAtMostFour(tok[i + 1..]);
      Some((DigitsValue(tok[..i]), DigitsValue(tok[i + 1..])))
    else None
  }

  /** Every token of the shape 1-4 digits, 'x', 1-4 digits matches, with its two
      numbers. */
  lemma SizeTokenMatches(tok: string, i: nat)
    requires 1 <= i <= 4 && i + 1 < |tok| <= i + 5 && tok[i] == 'x'
    requires AllDigits(tok[..i]) && AllDigits(tok[i + 1..])
    ensures SizeToken(tok) == Some((DigitsValue(tok[..i]), DigitsValue(tok[i + 1..])))
  {
    forall k | 0 <= k < i
      ensures tok[k] != 'x'
    {
      assert tok[..i][k] == tok[k];
    }
    assert IndexOfX(tok) == i;
  }

  /** The size one token contributes: max(width, height) when it matches. */
  function TokenSize(tok: string): (n: nat)
    ensures n <= 9999
  {
    match SizeToken(tok)
    case Some((w, h)) => Max(w, h)
    case None => 0
  }

  /** The largest max(width, height) over the matching tokens, 0 if none match. */
  function MaxTokenSize(tokens: seq<string>): (m: nat)
    ensures m <= 9999
  {
    if tokens == [] then 0 else Max(MaxTokenSize(tokens[..|tokens| - 1]), TokenSize(tokens[|tokens| - 1]))
  }

  /** The size is an upper bound of every token's size and is attained by a
      matching token unless it is 0. */
  lemma {:induction false} MaxTokenSizeIsMax(tokens: seq<string>)
    ensures forall i :: 0 <= i < |tokens| ==> TokenSize(tokens[i]) <= MaxTokenSize(tokens)
    ensures MaxTokenSize(tokens) == 0 ||
            exists i :: 0 <= i < |tokens| && SizeToken(tokens[i]).Some? && TokenSize(tokens[i]) == MaxTokenSize(tokens)
  {
    if tokens != [] {
      var n := |tokens| - 1;
      var init := tokens[..n];
      MaxTokenSizeIsMax(init);
      assert forall i :: 0 <= i < n ==> init[i] == tokens[i];
      var m := MaxTokenSize(tokens);
      if m != 0 {
        if m == TokenSize(tokens[n]) {
          assert SizeToken(tokens[n]).Some?;
        } else {
          var i :| 0 <= i < n && SizeToken(init[i]).Some? && TokenSize(init[i]) == m;
          assert tokens[i] == init[i];
        }
      }
    }
  }

  lemma MaxTokenSizeSnoc(tokens: seq<string>, i: nat)
    requires i < |tokens|
    ensures MaxTokenSize(tokens[..i + 1]) == Max(MaxTokenSize(tokens[..i]), TokenSize(tokens[i]))
  {
    assert tokens[..i + 1][..i] == tokens[..i];
  }

  lemma MaxTokenSizeZero(tokens: seq<string>)
    ensures MaxTokenSize(tokens) == 0 <==> forall i :: 0 <= i < |tokens| ==> TokenSize(tokens[i]) == 0
  {
    MaxTokenSizeIsMax(tokens);
  }

  /** `sizes.trim().toLowerCase()`. */
  function NormalizedSizes(sizes: string): string {
    Lower(Trim(sizes))
  }

  /** The answer `parseSizes` gives for the tokens of a value other than "any":
      the largest matching size, or `None` when no token gives a nonzero size. */
  function TokensSizes(tokens: seq<string>): (r: Option<SizesInfo>)
    ensures r.None? <==> forall i :: 0 <= i < |tokens| ==> TokenSize(tokens[i]) == 0
    ensures r.Some? ==> r.value.MaxSize? && 0 < r.value.max <= 9999
    ensures r.Some? ==> forall i :: 0 <= i < |tokens| ==> TokenSize(tokens[i]) <= r.value.max
    ensures r.Some? ==> exists i :: 0 <= i < |tokens| && TokenSize(tokens[i]) == r.value.max
  {
    MaxTokenSizeZero(tokens);
    MaxTokenSizeIsMax(tokens);
    var m := MaxTokenSize(tokens);
    if m != 0 then Some(MaxSize(m)) else None
  }

  /** What `parseSizes` returns, as a definition. */
  function SizesOf(sizes: Option<string>): (r: Option<SizesInfo>)
    ensures sizes.None? || NormalizedSizes(sizes.value) == "" ==> r.None?
    ensures sizes.Some? && NormalizedSizes(sizes.value) == "any" ==> r == Some(AnySize)
    ensures sizes.Some? && NormalizedSizes(sizes.value) != "" && NormalizedSizes(sizes.value) != "any" ==>
              r == TokensSizes(Words(NormalizedSizes(sizes.value)))
  {
    if sizes.None? || sizes.value == "" then None
    else
      var normalized := NormalizedSizes(sizes.value);
      if normalized == "" then None
      else if normalized == "any" then Some(AnySize)
      else TokensSizes(Words(normalized))
  }

  /** `parseSizes(sizes)`: the guards, then the scan of the tokens. */
  method ParseSizes(sizes: Option<string>) returns (r: Option<SizesInfo>)
    ensures r == SizesOf(sizes)
  {
    if sizes.None? || sizes.value == "" {
      return None;
    }
    var normalized := NormalizedSizes(sizes.value);
    if normalized == "" {
      return None;
    }
    if normalized == "any" {
      return Some(AnySize);
    }
    r := ScanSizeTokens(Words(normalized));
  }

  /** The `for (const token of normalized.split(/\s+/))` loop of `parseSizes` and
      its final `maxSize ? ... : null`. */
  method ScanSizeTokens(tokens: seq<string>) returns (r: Option<SizesInfo>)
    ensures r == TokensSizes(tokens)
  {
    var maxSize := 0;
    for i := 0 to |tokens|
      invariant maxSize == MaxTokenSize(tokens[..i])
    {
      MaxTokenSizeSnoc(tokens, i);
      var m := SizeToken(tokens[i]);
      if m.None? {
        continue;
      }
      // Four digits at most: the candidate is always finite.
      var candidate := Max(m.value.0, m.value.1);
      maxSize := Max(maxSize, candidate);
    }
    assert tokens[..|tokens|] == tokens;
    r := if maxSize != 0 then Some(MaxSize(maxSize)) else None;
  }

  // ---------------------------------------------------------------- sizes in the href

  /** Length of the run of ASCII digits that starts at position `p`. */
  function DigitRun(s: string, p: nat): (n: nat)
    requires p <= |s|
    ensures p + n <= |s|
    ensures forall k :: p <= k < p + n ==> IsDigit(s[k])
    ensures p + n == |s| || !IsDigit(s[p + n])
    decreases |s| - p
  {
    if p == |s| || !IsDigit(s[p]) then 0 else 1 + DigitRun(s, p + 1)
  }

  function Min(a: nat, b: nat): nat {
    if a <= b then a else b
  }

  /** The value of the digits `s[p..p+n]`. */
  function ValueAt(s: string, p: nat, n: nat): (v: nat)
    requires p + n <= |s| && n <= 4
    requires forall k :: p <= k < p + n ==> IsDigit(s[k])
    ensures v <= 9999
  {
    var t := s[p..p + n];
    assert AllDigits(t);
    DigitsAtMostFour(t);
    DigitsValue(t)
  }

  /** The match of `/(\d{2,4})x(\d{2,4})/i` that starts exactly at `p`, as
      (width, height, end of match). Greedy repetition with backtracking means the
      first group is the whole digit run at `p` (which must be followed by 'x' or
      'X'), and the second group is up to four digits of the run after it. */
  function PairAt(s: string, p: nat): (r: Option<(nat, nat, nat)>)
    requires p <= |s|
    ensures r.Some? ==> p < r.value.2 <= |s| && r.value.0 <= 9999 && r.value.1 <= 9999
  {
    var l := DigitRun(s, p);
    if 2 <= l <= 4 && p + l < |s| && (s[p + l] == 'x' || s[p + l] == 'X') then
      var q := p + l + 1;
      var m := Min(DigitRun(s, q), 4);
      if m >= 2 then Some((ValueAt(s, p, l), ValueAt(s, q, m), q + m)) else None
    else None
  }

  /** `s.matchAll(/(\d{2,4})x(\d{2,4})/gi)` from position `p`: leftmost,
      non-overlapping matches, as (width, height). */
  function PairMatches(s: string, p: nat): (ms: seq<(nat, nat)>)
    requires p <= |s|
    ensures forall i :: 0 <= i < |ms| ==> ms[i].0 <= 9999 && ms[i].1 <= 9999
    decreases |s| - p
  {
    if p == |s| then []
    else match PairAt(s, p)
      case Some((w, h, e)) => [(w, h)] + PairMatches(s, e)
      case None => PairMatches(s, p + 1)
  }

  /** `s.matchAll(/(\d{2,4})/g)` from position `p`: runs of two to four digits, a
      longer run being cut into four-digit pieces. */
  function SingleMatches(s: string, p: nat): (ms: seq<nat>)
    requires p <= |s|
    ensures forall i :: 0 <= i < |ms| ==> ms[i] <= 9999
    decreases |s| - p
  {
    if p == |s| then []
    else
      var l := DigitRun(s, p);
      if l >= 2 then
        var n := Min(l, 4);
        [ValueAt(s, p, n)] + SingleMatches(s, p + n)
      else SingleMatches(s, p + 1)
  }

  /** The largest max(width, height) over a list of pair matches, 0 for none. */
  function MaxPair(ms: seq<(nat, nat)>): (m: nat)
    requires forall i :: 0 <= i < |ms| ==> ms[i].0 <= 9999 && ms[i].1 <= 9999
    ensures m <= 9999
    ensures forall i :: 0 <= i < |ms| ==> ms[i].0 <= m && ms[i].1 <= m
    ensures m == 0 || exists i :: 0 <= i < |ms| && Max(ms[i].0, ms[i].1) == m
  {
    if ms == [] then 0
    else
      var init := ms[..|ms| - 1];
      assert forall i :: 0 <= i < |init| ==> init[i] == ms[i];
      Max(MaxPair(init), Max(ms[|ms| - 1].0, ms[|ms| - 1].1))
  }

  /** The largest of a list of single matches, 0 for none. */
  function MaxSingle(ms: seq<nat>): (m: nat)
    requires forall i :: 0 <= i < |ms| ==> ms[i] <= 9999
    ensures m <= 9999
    ensures forall i :: 0 <= i < |ms| ==> ms[i] <= m
    ensures m == 0 || exists i :: 0 <= i < |ms| && ms[i] == m
  {
    if ms == [] then 0
    else
      var init := ms[..|ms| - 1];
      assert forall i :: 0 <= i < |init| ==> init[i] == ms[i];
      Max(MaxSingle(init), ms[|ms| - 1])
  }

  lemma MaxPairSnoc(ms: seq<(nat, nat)>, i: nat)
    requires i < |ms|
    requires forall k :: 0 <= k < |ms| ==> ms[k].0 <= 9999 && ms[k].1 <= 9999
    ensures MaxPair(ms[..i + 1]) == Max(MaxPair(ms[..i]), Max(ms[i].0, ms[i].1))
  {
    assert ms[..i + 1][..i] == ms[..i];
  }

  lemma MaxSingleSnoc(ms: seq<nat>, i: nat)
    requires i < |ms|
    requires forall k :: 0 <= k < |ms| ==> ms[k] <= 9999
    ensures MaxSingle(ms[..i + 1]) == Max(MaxSingle(ms[..i]), ms[i])
  {
    assert ms[..i + 1][..i] == ms[..i];
  }

  /** What `inferSizeFromHref` returns, as a definition: the largest dimension of a
      `WxH` pair in the href, and only when no pair gives a nonzero size, the largest
      lone run of two to four digits. */
  function InferredSize(href: string): nat {
    if href == "" then 0
    else
      var fromPairs := MaxPair(PairMatches(href, 0));
      if fromPairs != 0 then fromPairs else MaxSingle(SingleMatches(href, 0))
  }

  /** `inferSizeFromHref(href)`. */
  method InferSizeFromHref(href: string) returns (r: nat)
    ensures r == InferredSize(href)
    ensures r <= 9999
    ensures href == "" ==> r == 0
    ensures var pairs := PairMatches(href, 0);
            (forall i :: 0 <= i < |pairs| ==> pairs[i].0 <= r && pairs[i].1 <= r)
            && (MaxPair(pairs) != 0 ==> exists i :: 0 <= i < |pairs| && Max(pairs[i].0, pairs[i].1) == r)
    ensures MaxPair(PairMatches(href, 0)) == 0 ==>
              var singles := SingleMatches(href, 0);
              (forall i :: 0 <= i < |singles| ==> singles[i] <= r)
              && (r == 0 || exists i :: 0 <= i < |singles| && singles[i] == r)
  {
    if href == "" {
      return 0;
    }
    var maxSize := 0;
    var sizePairs := PairMatches(href, 0);
    for i := 0 to |sizePairs|
      invariant maxSize == MaxPair(sizePairs[..i])
    {
      MaxPairSnoc(sizePairs, i);
      var candidate := Max(sizePairs[i].0, sizePairs[i].1);
      maxSize := Max(maxSize, candidate);
    }
    assert sizePairs[..|sizePairs|] == sizePairs;
    if maxSize != 0 {
      return maxSize;
    }
    var sizeSingles := SingleMatches(href, 0);
    for i := 0 to |sizeSingles|
      invariant maxSize == MaxSingle(sizeSingles[..i])
    {
      MaxSingleSnoc(sizeSingles, i);
      maxSize := Max(maxSize, sizeSingles[i]);
    }
    assert sizeSingles[..|sizeSingles|] == sizeSingles;
    r := maxSize;
  }

  // ---------------------------------------------------------------- rel tokens

  /** How specific one rel token is as an icon relation. */
  function TokenRank(t: string): nat {
    if t == "apple-touch-icon" then 4
    else if t == "apple-touch-icon-precomposed" then 3
    else if t == "icon" then 2
    else if t == "shortcut" then 1
    else 0
  }

  /** `getRelPriority(relTokens)`: the rank of the most specific icon relation
      among the tokens, 0 if none is one. */
  function GetRelPriority(relTokens: seq<string>): (r: nat)
    ensures r <= 4
    ensures forall i :: 0 <= i < |relTokens| ==> TokenRank(relTokens[i]) <= r
    ensures r == 0 || exists i :: 0 <= i < |relTokens| && TokenRank(relTokens[i]) == r
  {
    if "apple-touch-icon" in relTokens then 4
    else if "apple-touch-icon-precomposed" in relTokens then 3
    else if "icon" in relTokens then 2
    else if "shortcut" in relTokens then 1
    else 0
  }

  /** `isIconRel(relTokens)`: holds exactly when the relation has a positive
      priority. */
  function IsIconRel(relTokens: seq<string>): (r: bool)
    ensures r <==> GetRelPriority(relTokens) > 0
  {
    "icon" in relTokens || "apple-touch-icon" in relTokens
    || "apple-touch-icon-precomposed" in relTokens || "shortcut" in relTokens
  }

  /** `(rel || '').toLowerCase().split(/\s+/).filter(Boolean)`. */
  function RelTokens(rel: string): seq<string> {
    Words(Lower(rel))
  }

  // ---------------------------------------------------------------- icon ranking

  /** A size score: a declared "any" size or an SVG icon is unbounded
      (`Number.POSITIVE_INFINITY` in the source). */
  datatype Score = Unbounded | Finite(n: nat)

  datatype Candidate = Candidate(href: string, sizeScore: Score, relPriority: nat, isSvg: bool)

  /** A `link[rel]` element is a candidate: its rel names an icon and its href
      is non-empty. */
  predicate Eligible(link: LinkTag) {
    link.rel.Some? && IsIconRel(RelTokens(link.rel.value)) && link.href.Some? && link.href.value != ""
  }

  /** The candidate `pickBestIconHref` pushes for an eligible link. */
  function MakeCandidate(link: LinkTag): Candidate
    requires Eligible(link)
  {
    var href := link.href.value;
    var sizesInfo := SizesOf(link.sizes);
    var inferredSize :=
      match sizesInfo
      case Some(AnySize) => Unbounded
      case Some(MaxSize(m)) => if m != 0 then Finite(m) else Finite(InferredSize(href))
      case None => Finite(InferredSize(href));
    var isSvg := Lower(link.mediaType.GetOr("")) == "image/svg+xml" || EndsWith(Lower(href), ".svg");
    var sizeScore := if sizesInfo == Some(AnySize) then Unbounded else inferredSize;
    Candidate(Trim(href), sizeScore, GetRelPriority(RelTokens(link.rel.value)), isSvg)
  }

  /** What `pickBestIconHref` pushes for one link element, if anything. */
  function CandidateOf(link: LinkTag): (r: Option<Candidate>)
    ensures r.Some? <==> Eligible(link)
  {
    if Eligible(link) then Some(MakeCandidate(link)) else None
  }

  /** The `candidates` array after visiting `links` in document order. */
  function Candidates(links: seq<LinkTag>): seq<Candidate> {
    if links == [] then []
    else
      var init := Candidates(links[..|links| - 1]);
      match CandidateOf(links[|links| - 1])
      case Some(c) => init + [c]
      case None => init
  }

  lemma CandidatesSnoc(links: seq<LinkTag>, i: nat)
    requires i < |links|
    ensures Candidates(links[..i + 1]) ==
              Candidates(links[..i]) + (match CandidateOf(links[i]) case Some(c) => [c] case None => [])
  {
    assert links[..i + 1][..i] == links[..i];
  }

  /** `Candidates` is empty exactly when no link element qualifies. */
  lemma {:induction false} CandidatesEmpty(links: seq<LinkTag>)
    ensures Candidates(links) == [] <==> forall i :: 0 <= i < |links| ==> !Eligible(links[i])
  {
    if links != [] {
      var n := |links| - 1;
      var init := links[..n];
      CandidatesEmpty(init);
      assert forall i :: 0 <= i < n ==> init[i] == links[i];
      if Eligible(links[n]) {
        assert |Candidates(links)| == |Candidates(init)| + 1;
      } else {
        assert Candidates(links) == Candidates(init);
      }
    }
  }

  /** The score the comparator uses: SVG icons count as unbounded. */
  function EffectiveScore(c: Candidate): Score {
    if c.isSvg then Unbounded else c.sizeScore
  }

  predicate ScoreAbove(a: Score, b: Score) {
    match a
    case Unbounded => b.Finite?
    case Finite(x) => b.Finite? && x > b.n
  }

  /** The comparator of `pickBestIconHref` puts `a` strictly before `b`: a higher
      effective score, or an equal one and a higher rel priority. */
  predicate Outranks(a: Candidate, b: Candidate) {
    ScoreAbove(EffectiveScore(a), EffectiveScore(b))
    || (EffectiveScore(a) == EffectiveScore(b) && a.relPriority > b.relPriority)
  }

  /** "Does not outrank" is transitive and total: the comparator is a consistent
      total preorder. */
  lemma NotOutranksTransitive(a: Candidate, b: Candidate, c: Candidate)
    ensures !Outranks(a, b) && !Outranks(b, c) ==> !Outranks(a, c)
    ensures Outranks(a, b) ==> !Outranks(b, a)
  {
  }

  /** Inserting `c` in front of everything it is not outranked by: `c` stays before
      the candidates it ties with. */
  function Insert(c: Candidate, sorted: seq<Candidate>): (r: seq<Candidate>)
    ensures |r| == |sorted| + 1
    ensures multiset(r) == multiset(sorted) + multiset{c}
  {
    if sorted == [] || !Outranks(sorted[0], c) then [c] + sorted
    else
      assert sorted == [sorted[0]] + sorted[1..];
      [sorted[0]] + Insert(c, sorted[1..])
  }

  /** `candidates.sort(comparator)`: Array.prototype.sort is stable, and a stable
      sort under a consistent comparator has one possible result, which this
      insertion sort computes. */
  function StableSort(cs: seq<Candidate>): (r: seq<Candidate>)
    ensures |r| == |cs|
    ensures multiset(r) == multiset(cs)
  {
    if cs == [] then []
    else
      assert cs == [cs[0]] + cs[1..];
      Insert(cs[0], StableSort(cs[1..]))
  }

  /** The earliest candidate that no candidate outranks. */
  function FirstBest(cs: seq<Candidate>): (i: nat)
    requires cs != []
    ensures i < |cs|
    ensures forall j :: 0 <= j < |cs| ==> !Outranks(cs[j], cs[i])
    ensures forall j :: 0 <= j < i ==> Outranks(cs[i], cs[j])
  {
    if |cs| == 1 then 0
    else
      var k := 1 + FirstBest(cs[1..]);
      assert forall j :: 1 <= j < |cs| ==> cs[j] == cs[1..][j - 1];
      if Outranks(cs[k], cs[0]) then
        NotOutranksTransitive(cs[0], cs[k], cs[0]);
        k
      else
        assert forall j :: 1 <= j < |cs| ==> !Outranks(cs[j], cs[k]);
        assert forall j :: 0 <= j < |cs| ==> !Outranks(cs[j], cs[0]) by {
          forall j | 0 <= j < |cs| ensures !Outranks(cs[j], cs[0]) {
            NotOutranksTransitive(cs[j], cs[k], cs[0]);
          }
        }
        0
  }

  /** The head of the stable sort is the earliest best candidate. */
  lemma {:induction false} SortedHeadIsFirstBest(cs: seq<Candidate>)
    requires cs != []
    ensures StableSort(cs)[0] == cs[FirstBest(cs)]
  {
    if |cs| > 1 {
      SortedHeadIsFirstBest(cs[1..]);
    }
  }

  /** The href `pickBestIconHref` returns, as a definition: that of the earliest
      candidate with a maximal (effective score, rel priority). */
  function BestIconHref(links: seq<LinkTag>): (r: Option<string>)
    ensures r.None? <==> forall i :: 0 <= i < |links| ==> !Eligible(links[i])
    ensures r.Some? ==>
              var cs := Candidates(links);
              exists i :: 0 <= i < |cs| && r.value == cs[i].href
                          && (forall j :: 0 <= j < |cs| ==> !Outranks(cs[j], cs[i]))
                          && (forall j :: 0 <= j < i ==> Outranks(cs[i], cs[j]))
  {
    CandidatesEmpty(links);
    var cs := Candidates(links);
    if cs == [] then None else Some(cs[FirstBest(cs)].href)
  }

  /** One iteration of the `each` callback of `pickBestIconHref`: the candidate the
      link contributes, if any. */
  method LinkCandidate(link: LinkTag) returns (c: Option<Candidate>)
    ensures c == CandidateOf(link)
  {
    if link.rel.None? {
      // `link[rel]` selects only the elements that have the attribute.
      return None;
    }
    var relTokens := RelTokens(link.rel.value);
    if !IsIconRel(relTokens) {
      return None;
    }
    if link.href.None? || link.href.value == "" {
      return None;
    }
    var href := link.href.value;
    var sizesInfo := ParseSizes(link.sizes);
    var inferredSize: Score;
    match sizesInfo {
      case Some(AnySize) =>
        inferredSize := Unbounded;
      case Some(MaxSize(m)) =>
        if m != 0 {
          inferredSize := Finite(m);
        } else {
          var n := InferSizeFromHref(href);
          inferredSize := Finite(n);
        }
      case None =>
        var n := InferSizeFromHref(href);
        inferredSize := Finite(n);
    }
    var mediaType := Lower(link.mediaType.GetOr(""));
    var isSvg := mediaType == "image/svg+xml" || EndsWith(Lower(href), ".svg");
    var sizeScore := if sizesInfo == Some(AnySize) then Unbounded else inferredSize;
    c := Some(Candidate(Trim(href), sizeScore, GetRelPriority(relTokens), isSvg));
  }

  /** `pickBestIconHref($)`: collects the candidates in document order, sorts them
      and takes the first. */
  method PickBestIconHref(links: seq<LinkTag>) returns (r: Option<string>)
    ensures r == BestIconHref(links)
  {
    var candidates: seq<Candidate> := [];
    for i := 0 to |links|
      invariant candidates == Candidates(links[..i])
    {
      CandidatesSnoc(links, i);
      var c := LinkCandidate(links[i]);
      if c.Some? {
        candidates := candidates + [c.value];
      }
    }
    assert links[..|links|] == links;
    if candidates == [] {
      return None;
    }
    var sorted := StableSort(candidates);
    SortedHeadIsFirstBest(candidates);
    r := Some(sorted[0].href);
  }

  // ---------------------------------------------------------------- extractOgData

  const TitleSelectors := [Property("og:title"), Name("twitter:title")]
  const DescriptionSelectors := [Property("og:description"), Name("description"), Name("twitter:description")]
  const UrlSelectors := [Property("og:url")]
  const SiteNameSelectors := [Property("og:site_name")]
  const ImageSelectors := [Property("og:image"), Property("og:image:secure_url"), Name("twitter:image")]

  /** `$('title').first().text()`. */
  function FirstTitleText(titles: seq<string>): string {
    if titles == [] then "" else titles[0]
  }

  /** `baseUrl || null`. */
  function ResolvedBase(baseUrl: Option<string>): (r: Option<string>)
    ensures r.None? || r.value != ""
  {
    if NonEmpty(baseUrl) then baseUrl else None
  }

  /** The selections `extractOgData` makes from the document. */
  datatype Selections = Selections(
    metaTitle: Option<string>,
    docTitle: string,
    description: Option<string>,
    url: Option<string>,
    siteName: Option<string>,
    image: Option<string>,
    icon: Option<string>)

  /** The trimmed content of one selector, when it is non-empty before trimming. */
  function Filled(doc: Document, sel: Selector): Option<string> {
    var v := SelectContent(doc.metas, sel);
    if NonEmpty(v) then Some(Trim(v.value)) else None
  }

  /** One step of `pickFirstContent`'s loop. */
  lemma PickFirstContentStep(doc: Document, selectors: seq<Selector>)
    requires selectors != []
    ensures PickFirstContent(doc, selectors) == FirstSome(Filled(doc, selectors[0]), PickFirstContent(doc, selectors[1..]))
  {
  }

  /** The first of two selections that is present. */
  function FirstSome(a: Option<string>, b: Option<string>): Option<string> {
    if a.Some? then a else b
  }

  /** What `extractOgData` selects: each field from its selectors in priority
      order, the first `<title>` text, and the best icon link. */
  function Select(doc: Document): (r: Selections)
    ensures r.metaTitle == FirstSome(Filled(doc, Property("og:title")), Filled(doc, Name("twitter:title")))
    ensures r.description == FirstSome(Filled(doc, Property("og:description")),
                                       FirstSome(Filled(doc, Name("description")), Filled(doc, Name("twitter:description"))))
    ensures r.url == Filled(doc, Property("og:url"))
    ensures r.siteName == Filled(doc, Property("og:site_name"))
    ensures r.image == FirstSome(Filled(doc, Property("og:image")),
                                 FirstSome(Filled(doc, Property("og:image:secure_url")), Filled(doc, Name("twitter:image"))))
    ensures r.docTitle == if doc.titles == [] then "" else Trim(doc.titles[0])
    ensures r.icon.None? <==> forall i :: 0 <= i < |doc.links| ==> !Eligible(doc.links[i])
  {
    PickFirstContentStep(doc, TitleSelectors);
    PickFirstContentStep(doc, TitleSelectors[1..]);
    PickFirstContentStep(doc, DescriptionSelectors);
    PickFirstContentStep(doc, DescriptionSelectors[1..]);
    PickFirstContentStep(doc, DescriptionSelectors[2..]);
    PickFirstContentStep(doc, UrlSelectors);
    PickFirstContentStep(doc, SiteNameSelectors);
    PickFirstContentStep(doc, ImageSelectors);
    PickFirstContentStep(doc, ImageSelectors[1..]);
    PickFirstContentStep(doc, ImageSelectors[2..]);
    assert DescriptionSelectors[1..][1..] == DescriptionSelectors[2..];
    assert ImageSelectors[1..][1..] == ImageSelectors[2..];
    Selections(
      PickFirstContent(doc, TitleSelectors),
      Trim(FirstTitleText(doc.titles)),
      PickFirstContent(doc, DescriptionSelectors),
      PickFirstContent(doc, UrlSelectors),
      PickFirstContent(doc, SiteNameSelectors),
      PickFirstContent(doc, ImageSelectors),
      BestIconHref(doc.links))
  }

  /** The returned object, built from the selections and the resolved base. The
      only failures are the `URL` constructor throwing on a base that does not
      parse, for the hostname or for the `/favicon.ico` fallback. */
  function BuildOgData(p: UrlParser, base: Option<string>, sel: Selections): (r: Result<OgData, JsError>)
    requires base.None? || base.value != ""
    ensures r.Err? <==> base.Some? && (p.parse(base.value).None?
                                      || (!NonEmpty(sel.icon) && p.resolve("/favicon.ico", base).None?))
    ensures r.Err? ==> r.error == InvalidUrl
    ensures r.Ok? ==>
              var d := r.value;
              // The text fields are never "": an empty value becomes null.
              && (d.title.None? || d.title.value != "")
              && (d.description.None? || d.description.value != "")
              && (d.url.None? || d.url.value != "")
              && (d.siteName.None? || d.siteName.value != "")
              // The meta title wins; the document title is the fallback.
              && (NonEmpty(sel.metaTitle) ==> d.title == sel.metaTitle)
              && (!NonEmpty(sel.metaTitle) ==> d.title == if sel.docTitle != "" then Some(sel.docTitle) else None)
              && d.description == (if NonEmpty(sel.description) then sel.description else None)
              // Without an og:url the page URL is the base itself.
              && (!NonEmpty(sel.url) ==> d.url == base)
              && (NonEmpty(sel.url) ==> d.url == Or(ResolveUrl(p, base, sel.url), None))
              // The site name falls back to the base URL's host name.
              && (NonEmpty(sel.siteName) ==> d.siteName == sel.siteName)
              && (!NonEmpty(sel.siteName) && base.None? ==> d.siteName.None?)
              && (!NonEmpty(sel.siteName) && base.Some? && p.parse(base.value).value.hostname != "" ==>
                    d.siteName == Some(p.parse(base.value).value.hostname))
              && d.image == (if NonEmpty(sel.image) then ResolveUrl(p, base, sel.image) else None)
              // A page with a base URL always has a favicon: its best icon or /favicon.ico.
              && (NonEmpty(sel.icon) ==> d.favicon == ResolveUrl(p, base, sel.icon))
              && (!NonEmpty(sel.icon) && base.Some? ==> d.favicon == p.resolve("/favicon.ico", base))
              && (!NonEmpty(sel.icon) && base.None? ==> d.favicon.None?)
              && (base.Some? ==> d.favicon.Some?)
  {
    var rawTitle := Or(sel.metaTitle, Some(sel.docTitle));
    var finalUrl := if NonEmpty(sel.url) then ResolveUrl(p, base, sel.url) else base;
    if base.Some? && p.parse(base.value).None? then Err(InvalidUrl)
    else
      var hostname := if base.Some? then Some(p.parse(base.value).value.hostname) else None;
      var favicon :=
        if NonEmpty(sel.icon) then Ok(ResolveUrl(p, base, sel.icon))
        else if base.Some? then
          match p.resolve("/favicon.ico", base)
          case Some(u) => Ok(Some(u))
          case None => Err(InvalidUrl)
        else Ok(None);
      match favicon
      case Err(e) => Err(e)
      case Ok(icon) =>
        Ok(OgData(
          title := Or(rawTitle, None),
          description := Or(sel.description, None),
          url := Or(finalUrl, None),
          siteName := Or(Or(sel.siteName, hostname), None),
          image := if NonEmpty(sel.image) then ResolveUrl(p, base, sel.image) else None,
          favicon := icon))
  }

  /** `extractOgData(html, baseUrl)`: the base is `baseUrl || null`. Without a base
      it never throws; with one it throws only the `URL` constructor's error, when
      the base does not parse or, with no icon link, `/favicon.ico` cannot be
      resolved against it. The fields follow from `BuildOgData` and `Select`. */
  function ExtractOgData(p: UrlParser, doc: Document, baseUrl: Option<string>): (r: Result<OgData, JsError>)
    ensures !NonEmpty(baseUrl) ==> r.Ok?
    ensures r.Err? ==> r.error == InvalidUrl
    ensures NonEmpty(baseUrl) ==>
              (r.Err? <==> p.parse(baseUrl.value).None?
                           || (!NonEmpty(BestIconHref(doc.links)) && p.resolve("/favicon.ico", baseUrl).None?))
    ensures r.Ok? && NonEmpty(baseUrl) ==> r.value.favicon.Some?
  {
    BuildOgData(p, ResolvedBase(baseUrl), Select(doc))
  }
}
