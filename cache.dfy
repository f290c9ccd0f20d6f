/** The process-wide content cache of src/utils/cache.js: an insertion-ordered `Map`
    from normalised URL keys to entries, with expiry on read, move-to-newest on a
    hit, and eviction of the oldest keys once it holds more than the configured
    maximum. The `Map` is a sequence of (key, entry) pairs, oldest first. */
module Cache {
  import opened Wrappers
  import opened Env
  import opened Urls
  import opened CacheKey

  const DefaultTtlMs := 5 * 60 * 1000
  const DefaultMaxSize := 1000

  /** The environment the cache reads: `CACHE_ENABLED` (the raw string, if set),
      `Number(CACHE_TTL_MS)` and `Number(CACHE_MAX_SIZE)`. */
  datatype CacheEnv = CacheEnv(enabled: Option<string>, ttlMs: JsNumber, maxSize: JsNumber)

  /** `isCacheEnabled()`: on unless `CACHE_ENABLED` reads as false. */
  function CacheEnabled(env: CacheEnv): (r: bool)
    ensures env.enabled.None? ==> r
    ensures !r <==> ParseBoolean(env.enabled) == Some(false)
  {
    match ParseBoolean(env.enabled)
    case Some(b) => b
    case None => true
  }

  /** `getCacheTtlMs()`: a positive configured value, else five minutes. */
  function CacheTtlMs(env: CacheEnv): (r: int)
    ensures r > 0
    ensures env.ttlMs.Num? && env.ttlMs.value > 0 ==> r == env.ttlMs.value
    ensures !(env.ttlMs.Num? && env.ttlMs.value > 0) ==> r == 300000
  {
    PositiveOr(env.ttlMs, DefaultTtlMs)
  }

  /** `getCacheMaxSize()`: a positive configured value, else 1000. */
  function CacheMaxSize(env: CacheEnv): (r: int)
    ensures r > 0
    ensures env.maxSize.Num? && env.maxSize.value > 0 ==> r == env.maxSize.value
    ensures !(env.maxSize.Num? && env.maxSize.value > 0) ==> r == 1000
  {
    PositiveOr(env.maxSize, DefaultMaxSize)
  }

  datatype Entry<V> = Entry(value: V, storedAt: int, ttlMs: int, expiresAt: int)

  /** The `Map`'s entries in insertion order. */
  type Store<V> = seq<(string, Entry<V>)>

  function KeysOf<V>(s: Store<V>): seq<string> {
    if s == [] then [] else [s[0].0] + KeysOf(s[1..])
  }

  /** `cacheStore.get(key)`. */
  function Lookup<V>(s: Store<V>, key: string): Option<Entry<V>> {
    if s == [] then None else if s[0].0 == key then Some(s[0].1) else Lookup(s[1..], key)
  }

  /** What every reachable store satisfies: no key twice, and no empty key (keys
      come from `normalizeCacheKey`, which never yields an empty one). */
  predicate ValidStore<V>(s: Store<V>) {
    s == [] || (s[0].0 != "" && Lookup(s[1..], s[0].0).None? && ValidStore(s[1..]))
  }

  /** `cacheStore.delete(key)`. */
  function Deleted<V>(s: Store<V>, key: string): Store<V> {
    if s == [] then [] else if s[0].0 == key then s[1..] else [s[0]] + Deleted(s[1..], key)
  }

  /** `cacheStore.set(key, e)`: an existing key keeps its position and gets the new
      entry; a new key goes to the newest end. */
  function Stored<V>(s: Store<V>, key: string, e: Entry<V>): Store<V> {
    if s == [] then [(key, e)]
    else if s[0].0 == key then [(key, e)] + s[1..]
    else [s[0]] + Stored(s[1..], key, e)
  }

  /** The loop of `pruneCache`: drop the oldest key while there are more than `max`,
      stopping early at an empty (falsy) oldest key. */
  function Pruned<V>(s: Store<V>, max: int): Store<V>
    requires max > 0
    decreases |s|
  {
    if |s| <= max || s[0].0 == "" then s else Pruned(s[1..], max)
  }

  // ---------------------------------------------------------------- store lemmas

  /** A key is absent exactly when no entry carries it. */
  lemma {:induction false} LookupNone<V>(s: Store<V>, key: string)
    ensures Lookup(s, key).None? <==> forall m :: 0 <= m < |s| ==> s[m].0 != key
  {
    if s != [] {
      LookupNone(s[1..], key);
    }
  }

  /** A valid store holds no entry under the empty key. */
  lemma {:induction false} LookupValidKey<V>(s: Store<V>, key: string)
    requires ValidStore(s) && Lookup(s, key).Some?
    ensures key != ""
  {
    if s[0].0 != key {
      LookupValidKey(s[1..], key);
    }
  }

  /** After a set the key holds the new entry, and every other key its old one. */
  lemma {:induction false} LookupStored<V>(s: Store<V>, key: string, e: Entry<V>, other: string)
    ensures Lookup(Stored(s, key, e), other) == if other == key then Some(e) else Lookup(s, other)
  {
    if s != [] && s[0].0 != key {
      LookupStored(s[1..], key, e, other);
      assert Stored(s, key, e)[1..] == Stored(s[1..], key, e);
    }
  }

  /** Overwriting keeps every key where it was; only a new key is appended. */
  lemma {:induction false} StoredShape<V>(s: Store<V>, key: string, e: Entry<V>)
    ensures |Stored(s, key, e)| == if Lookup(s, key).Some? then |s| else |s| + 1
    ensures forall m :: 0 <= m < |s| ==> Stored(s, key, e)[m].0 == s[m].0
    ensures KeysOf(Stored(s, key, e)) == if Lookup(s, key).Some? then KeysOf(s) else KeysOf(s) + [key]
  {
    if s != [] && s[0].0 != key {
      var t := Stored(s[1..], key, e);
      StoredShape(s[1..], key, e);
      assert Stored(s, key, e) == [s[0]] + t;
      assert KeysOf([s[0]] + t) == [s[0].0] + KeysOf(t);
    } else if s != [] {
      assert KeysOf(Stored(s, key, e)) == [key] + KeysOf(s[1..]);
    }
  }

  /** Setting a key that is absent appends it. */
  lemma {:induction false} StoredAppends<V>(s: Store<V>, key: string, e: Entry<V>)
    requires Lookup(s, key).None?
    ensures Stored(s, key, e) == s + [(key, e)]
  {
    if s != [] {
      StoredAppends(s[1..], key, e);
      assert s == [s[0]] + s[1..];
    }
  }

  lemma {:induction false} StoredValid<V>(s: Store<V>, key: string, e: Entry<V>)
    requires ValidStore(s) && key != ""
    ensures ValidStore(Stored(s, key, e))
  {
    if s != [] && s[0].0 != key {
      StoredValid(s[1..], key, e);
      LookupStored(s[1..], key, e, s[0].0);
      assert Stored(s, key, e)[1..] == Stored(s[1..], key, e);
    }
  }

  /** After a delete the key is absent and every other key keeps its entry. */
  lemma {:induction false} LookupDeleted<V>(s: Store<V>, key: string, other: string)
    requires ValidStore(s)
    ensures Lookup(Deleted(s, key), key).None?
    ensures other != key ==> Lookup(Deleted(s, key), other) == Lookup(s, other)
    ensures ValidStore(Deleted(s, key))
  {
    if s != [] && s[0].0 != key {
      LookupDeleted(s[1..], key, other);
      LookupDeleted(s[1..], key, s[0].0);
      assert Deleted(s, key)[1..] == Deleted(s[1..], key);
    }
  }

  /** Deleting an absent key changes nothing. */
  lemma {:induction false} DeletedAbsent<V>(s: Store<V>, key: string)
    ensures Lookup(s, key).None? ==> Deleted(s, key) == s
  {
    if s != [] && s[0].0 != key {
      DeletedAbsent(s[1..], key);
      assert s == [s[0]] + s[1..];
    }
  }

  /** Pruning drops a prefix: nothing when there is room, otherwise only as many
      of the oldest keys as it must. */
  lemma {:induction false} PrunedSuffix<V>(s: Store<V>, max: int)
    requires max > 0
    ensures |Pruned(s, max)| <= |s| && Pruned(s, max) == s[|s| - |Pruned(s, max)|..]
    ensures |s| <= max ==> Pruned(s, max) == s
    ensures |s| > max ==> |Pruned(s, max)| >= max
    decreases |s|
  {
    if |s| > max && s[0].0 != "" {
      var t := s[1..];
      var r := Pruned(t, max);
      PrunedSuffix(t, max);
      assert t[|t| - |r|..] == s[|s| - |r|..];
    }
  }

  /** ... and enough of them in a valid store, whose keys are never empty. */
  lemma {:induction false} PrunedBound<V>(s: Store<V>, max: int)
    requires max > 0 && ValidStore(s)
    ensures |Pruned(s, max)| <= max
    decreases |s|
  {
    if |s| > max {
      PrunedBound(s[1..], max);
    }
  }

  /** Dropping the oldest `d` entries keeps a valid store; a key left keeps its
      entry, and a key not among the dropped ones is left. */
  lemma {:induction false} SuffixLookup<V>(s: Store<V>, d: nat, key: string)
    requires ValidStore(s) && d <= |s|
    ensures ValidStore(s[d..])
    ensures Lookup(s[d..], key).Some? ==> Lookup(s[d..], key) == Lookup(s, key)
    ensures (forall m :: 0 <= m < d ==> s[m].0 != key) ==> Lookup(s[d..], key) == Lookup(s, key)
  {
    if d > 0 {
      SuffixLookup(s[1..], d - 1, key);
      assert s[1..][d - 1..] == s[d..];
    }
  }

  // ---------------------------------------------------------------- getCacheEntry

  /** What `getCacheEntry` reports: a miss with the configured TTL, or a hit with
      the entry's TTL, its age and its value. */
  datatype CacheRead<V> = Miss(key: string, ttlMs: int) | Hit(key: string, ttlMs: int, ageMs: int, value: V)

  /** What `getCacheEntry` returns once it has `key`, the `normalizeCacheKey` of
      its URL, with `nowMs` and `ageNowMs` the two `Date.now()` readings (the expiry
      test and the age); `None` when it returns null. */
  function GetRead<V>(s: Store<V>, env: CacheEnv, key: Option<string>, nowMs: int, ageNowMs: int)
    : (r: Option<CacheRead<V>>)
    // null exactly when disabled or there is no key
    ensures r.None? <==> !CacheEnabled(env) || key.None?
    ensures r.Some? ==> r.value.key == key.value
  {
    if !CacheEnabled(env) || key.None? then None
    else match Lookup(s, key.value)
      case None => Some(Miss(key.value, CacheTtlMs(env)))
      case Some(e) =>
        if e.expiresAt <= nowMs then Some(Miss(key.value, CacheTtlMs(env)))
        else Some(Hit(key.value, e.ttlMs, ageNowMs - e.storedAt, e.value))
  }

  /** The store after that get at time `nowMs`: an expired entry is deleted, a live
      one is deleted and set again. */
  function GetStore<V>(s: Store<V>, env: CacheEnv, key: Option<string>, nowMs: int): (t: Store<V>)
    // untouched when the cache is off or there is no key
    ensures !CacheEnabled(env) || key.None? ==> t == s
  {
    if !CacheEnabled(env) || key.None? then s
    else match Lookup(s, key.value)
      case None => s
      case Some(e) => if e.expiresAt <= nowMs then Deleted(s, key.value) else Stored(Deleted(s, key.value), key.value, e)
  }

  /** A hit exactly for a live entry, reporting that entry; a miss reports the
      configured TTL. */
  lemma GetReadReport<V>(s: Store<V>, env: CacheEnv, key: Option<string>, nowMs: int, ageNowMs: int)
    ensures var read := GetRead(s, env, key, nowMs, ageNowMs);
            read.Some? ==>
              var e := Lookup(s, key.value);
              && (read.value.Hit? <==> e.Some? && nowMs < e.value.expiresAt)
              && (read.value.Hit? ==>
                    read.value == Hit(key.value, e.value.ttlMs, ageNowMs - e.value.storedAt, e.value.value))
              && (read.value.Miss? ==> read.value.ttlMs == CacheTtlMs(env))
  {
  }

  /** A hit moves just that key to the newest position and keeps its entry; a miss
      removes the key's entry if there was one, and nothing else; every outcome
      keeps the store valid and changes no other key's entry. */
  lemma GetStoreEffect<V>(s: Store<V>, env: CacheEnv, key: Option<string>, nowMs: int, ageNowMs: int,
                          other: string)
    requires ValidStore(s)
    ensures var t := GetStore(s, env, key, nowMs);
            var read := GetRead(s, env, key, nowMs, ageNowMs);
            && ValidStore(t)
            && (read.Some? && read.value.Hit? ==> t == Deleted(s, key.value) + [(key.value, Lookup(s, key.value).value)])
            && (read.Some? && read.value.Miss? ==> t == Deleted(s, key.value) && Lookup(t, key.value).None?)
            && (read.Some? && other != key.value ==> Lookup(t, other) == Lookup(s, other))
  {
    var read := GetRead(s, env, key, nowMs, ageNowMs);
    GetReadReport(s, env, key, nowMs, ageNowMs);
    if read.Some? {
      var k := key.value;
      DeletedAbsent(s, k);
      LookupDeleted(s, k, other);
      if read.value.Hit? {
        LookupValidKey(s, k);
        var d := Deleted(s, k);
        StoredAppends(d, k, Lookup(s, k).value);
        StoredValid(d, k, Lookup(s, k).value);
        LookupStored(d, k, Lookup(s, k).value, other);
      }
    }
  }

  /** A get whose key holds a live entry is a hit on that entry. */
  lemma GetServesLiveEntry<V>(s: Store<V>, env: CacheEnv, key: string, nowMs: int, ageNowMs: int, e: Entry<V>)
    requires CacheEnabled(env) && Lookup(s, key) == Some(e) && nowMs < e.expiresAt
    ensures GetRead(s, env, Some(key), nowMs, ageNowMs) == Some(Hit(key, e.ttlMs, ageNowMs - e.storedAt, e.value))
  {
  }

  // ---------------------------------------------------------------- setCacheEntry

  /** `normalizeCacheKey` of each URL. */
  function AliasKeys(p: UrlParser, rawUrls: seq<Option<string>>): (r: seq<Option<string>>)
    ensures |r| == |rawUrls| && forall i :: 0 <= i < |r| ==> r[i] == NormalizedKey(p, rawUrls[i])
  {
    seq(|rawUrls|, i requires 0 <= i < |rawUrls| => NormalizedKey(p, rawUrls[i]))
  }

  /** The `new Set()` the keys are collected in: the non-null keys, each once, in
      first-seen order. */
  function Dedupe(ks: seq<Option<string>>): seq<string> {
    if ks == [] then []
    else
      var prev := Dedupe(ks[..|ks| - 1]);
      var key := ks[|ks| - 1];
      if key.Some? && key.value !in prev then prev + [key.value] else prev
  }

  lemma DedupeSnoc(ks: seq<Option<string>>, i: nat)
    requires i < |ks|
    ensures Dedupe(ks[..i + 1]) ==
              var prev := Dedupe(ks[..i]);
              if ks[i].Some? && ks[i].value !in prev then prev + [ks[i].value] else prev
  {
    assert ks[..i + 1][..i] == ks[..i];
  }

  /** Each key once, never an empty one, at most one per URL. */
  lemma {:induction false} DedupeDistinct(ks: seq<Option<string>>)
    requires forall i :: 0 <= i < |ks| && ks[i].Some? ==> ks[i].value != ""
    ensures var r := Dedupe(ks);
            && (forall i, j :: 0 <= i < j < |r| ==> r[i] != r[j])
            && (forall i :: 0 <= i < |r| ==> r[i] != "")
            && |r| <= |ks|
  {
    if ks != [] {
      DedupeDistinct(ks[..|ks| - 1]);
    }
  }

  /** The collected keys are exactly the non-null ones. */
  lemma {:induction false} DedupeMembers(ks: seq<Option<string>>, k: string)
    ensures k in Dedupe(ks) <==> Some(k) in ks
  {
    if ks != [] {
      var n := |ks| - 1;
      DedupeMembers(ks[..n], k);
      assert ks == ks[..n] + [ks[n]];
    }
  }

  /** The `keys` set of `setCacheEntry`. */
  function SetKeys(p: UrlParser, rawUrls: seq<Option<string>>): seq<string> {
    Dedupe(AliasKeys(p, rawUrls))
  }

  /** The keys are distinct and non-empty, at most one per URL. */
  lemma SetKeysDistinct(p: UrlParser, rawUrls: seq<Option<string>>)
    ensures var r := SetKeys(p, rawUrls);
            && (forall i, j :: 0 <= i < j < |r| ==> r[i] != r[j])
            && (forall i :: 0 <= i < |r| ==> r[i] != "")
            && |r| <= |rawUrls|
  {
    DedupeDistinct(AliasKeys(p, rawUrls));
  }

  /** A key is written exactly when it is the key of one of the URLs: every alias
      gets the entry, and nothing else does. */
  lemma SetKeysCover(p: UrlParser, rawUrls: seq<Option<string>>, k: string)
    ensures k in SetKeys(p, rawUrls) <==> exists j :: 0 <= j < |rawUrls| && NormalizedKey(p, rawUrls[j]) == Some(k)
  {
    var ks := AliasKeys(p, rawUrls);
    DedupeMembers(ks, k);
    if Some(k) in ks {
      var j :| 0 <= j < |ks| && ks[j] == Some(k);
      assert NormalizedKey(p, rawUrls[j]) == Some(k);
    }
  }

  /** The loop `for (const key of keys) cacheStore.set(key, entry)`. */
  function StoredAll<V>(s: Store<V>, keys: seq<string>, e: Entry<V>): Store<V> {
    if keys == [] then s else Stored(StoredAll(s, keys[..|keys| - 1], e), keys[|keys| - 1], e)
  }

  lemma StoredAllSnoc<V>(s: Store<V>, keys: seq<string>, i: nat, e: Entry<V>)
    requires i < |keys|
    ensures StoredAll(s, keys[..i + 1], e) == Stored(StoredAll(s, keys[..i], e), keys[i], e)
  {
    assert keys[..i + 1][..i] == keys[..i];
  }

  /** The loop keeps the store valid and the old keys at the front, adding at most
      one key per written key. */
  lemma {:induction false} StoredAllValid<V>(s: Store<V>, keys: seq<string>, e: Entry<V>)
    requires ValidStore(s) && forall i :: 0 <= i < |keys| ==> keys[i] != ""
    ensures var t := StoredAll(s, keys, e);
            && ValidStore(t)
            && |s| <= |t| <= |s| + |keys|
            && forall m :: 0 <= m < |s| ==> t[m].0 == s[m].0
  {
    if keys != [] {
      var n := |keys| - 1;
      StoredAllValid(s, keys[..n], e);
      StoredValid(StoredAll(s, keys[..n], e), keys[n], e);
      StoredShape(StoredAll(s, keys[..n], e), keys[n], e);
    }
  }

  /** After the loop every written key holds the new entry and every other key its
      old one. */
  lemma {:induction false} StoredAllLookup<V>(s: Store<V>, keys: seq<string>, e: Entry<V>, other: string)
    ensures Lookup(StoredAll(s, keys, e), other) == if other in keys then Some(e) else Lookup(s, other)
  {
    if keys != [] {
      var n := |keys| - 1;
      var prev := keys[..n];
      StoredAllLookup(s, prev, e, other);
      LookupStored(StoredAll(s, prev, e), keys[n], e, other);
      assert keys == prev + [keys[n]];
      assert other in keys <==> other in prev || other == keys[n];
    }
  }

  /** What `setCacheEntry` does once it has collected `keys`, at time `nowMs`: the
      new store and the returned `{ ttlMs }`, `None` when it returns null. */
  function SetOutcome<V>(s: Store<V>, env: CacheEnv, keys: seq<string>, value: V, nowMs: int)
    : (r: (Store<V>, Option<int>))
    ensures !CacheEnabled(env) <==> r.1.None?
    ensures r.1.None? ==> r.0 == s
    ensures r.1.Some? ==> r.1.value == CacheTtlMs(env)
  {
    if !CacheEnabled(env) then (s, None)
    else
      var ttlMs := CacheTtlMs(env);
      var e := Entry(value, nowMs, ttlMs, nowMs + ttlMs);
      (Pruned(StoredAll(s, keys, e), CacheMaxSize(env)), Some(ttlMs))
  }

  /** Pruning a valid store keeps it valid and within `max`; a key it keeps has
      its entry, and a key among the newest `max` is kept. */
  lemma PrunedStore<V>(u: Store<V>, max: int, key: string)
    requires ValidStore(u) && max > 0
    ensures var t := Pruned(u, max);
            && ValidStore(t)
            && |t| <= max
            && (Lookup(t, key).Some? ==> Lookup(t, key) == Lookup(u, key))
            && ((forall m :: 0 <= m < |u| - max ==> u[m].0 != key) ==> Lookup(t, key) == Lookup(u, key))
  {
    PrunedSuffix(u, max);
    PrunedBound(u, max);
    var d := |u| - |Pruned(u, max)|;
    SuffixLookup(u, d, key);
  }

  /** After a set of keys as `setCacheEntry` collects them (none empty, see
      `SetKeysDistinct`) the store is valid and holds at most `maxSize` keys; a key
      holds either the new entry (written now), its old entry (not written), or
      nothing (evicted, oldest first). */
  lemma SetOutcomeStore<V>(s: Store<V>, env: CacheEnv, keys: seq<string>, value: V, nowMs: int, other: string)
    requires ValidStore(s) && CacheEnabled(env) && forall i :: 0 <= i < |keys| ==> keys[i] != ""
    ensures var t := SetOutcome(s, env, keys, value, nowMs).0;
            var ttlMs := CacheTtlMs(env);
            && ValidStore(t)
            && |t| <= CacheMaxSize(env)
            && (Lookup(t, other).Some? ==>
                  Lookup(t, other) == if other in keys then Some(Entry(value, nowMs, ttlMs, nowMs + ttlMs))
                                      else Lookup(s, other))
  {
    var ttlMs := CacheTtlMs(env);
    var e := Entry(value, nowMs, ttlMs, nowMs + ttlMs);
    var u := StoredAll(s, keys, e);
    StoredAllValid(s, keys, e);
    StoredAllLookup(s, keys, e, other);
    PrunedStore(u, CacheMaxSize(env), other);
  }

  /** A key that was not in the store before a set survives that set's pruning
      whenever the set writes at most `maxSize` keys: the written keys follow every
      old one, so the pruning reaches none of them. */
  lemma FreshKeySurvives<V>(s: Store<V>, env: CacheEnv, keys: seq<string>, value: V, nowMs: int, key: string)
    requires ValidStore(s) && CacheEnabled(env) && forall i :: 0 <= i < |keys| ==> keys[i] != ""
    requires key in keys && Lookup(s, key).None? && |keys| <= CacheMaxSize(env)
    ensures var ttlMs := CacheTtlMs(env);
            Lookup(SetOutcome(s, env, keys, value, nowMs).0, key) == Some(Entry(value, nowMs, ttlMs, nowMs + ttlMs))
  {
    var ttlMs := CacheTtlMs(env);
    var e := Entry(value, nowMs, ttlMs, nowMs + ttlMs);
    var u := StoredAll(s, keys, e);
    StoredAllValid(s, keys, e);
    StoredAllLookup(s, keys, e, key);
    LookupNone(s, key);
    PrunedStore(u, CacheMaxSize(env), key);
  }

  /** After a set, a get before the entry expires of a key the set wrote and did not
      evict is a hit that returns the value just stored, with the TTL it was stored
      with and its age since the set. */
  lemma SetThenGetHits<V>(s: Store<V>, env: CacheEnv, keys: seq<string>, value: V, nowMs: int, t: Store<V>,
                          key: string, laterMs: int, ageNowMs: int)
    requires ValidStore(s) && CacheEnabled(env) && forall i :: 0 <= i < |keys| ==> keys[i] != ""
    requires t == SetOutcome(s, env, keys, value, nowMs).0
    requires key in keys && Lookup(t, key).Some?
    requires laterMs < nowMs + CacheTtlMs(env)
    ensures GetRead(t, env, Some(key), laterMs, ageNowMs) == Some(Hit(key, CacheTtlMs(env), ageNowMs - nowMs, value))
  {
    var ttlMs := CacheTtlMs(env);
    var e := Entry(value, nowMs, ttlMs, nowMs + ttlMs);
    assert Lookup(t, key) == Some(e) by {
      SetOutcomeStore(s, env, keys, value, nowMs, key);
    }
    GetServesLiveEntry(t, env, key, laterMs, ageNowMs, e);
  }

  /** The alias round trip: after `setCacheEntry(rawUrls, value)`, a get of any URL
      with the same key as one of `rawUrls`, before the entry expires and while it
      is not evicted, is a hit on the value just stored. */
  lemma AliasRoundTrip<V>(s: Store<V>, env: CacheEnv, p: UrlParser, rawUrls: seq<Option<string>>, value: V,
                          nowMs: int, t: Store<V>, rawUrl: Option<string>, j: int, laterMs: int, ageNowMs: int)
    requires ValidStore(s) && CacheEnabled(env)
    requires t == SetOutcome(s, env, SetKeys(p, rawUrls), value, nowMs).0
    requires 0 <= j < |rawUrls| && NormalizedKey(p, rawUrl).Some? && NormalizedKey(p, rawUrl) == NormalizedKey(p, rawUrls[j])
    requires Lookup(t, NormalizedKey(p, rawUrl).value).Some?
    requires laterMs < nowMs + CacheTtlMs(env)
    ensures GetRead(t, env, NormalizedKey(p, rawUrl), laterMs, ageNowMs)
              == Some(Hit(NormalizedKey(p, rawUrl).value, CacheTtlMs(env), ageNowMs - nowMs, value))
  {
    var key := NormalizedKey(p, rawUrl).value;
    var keys := SetKeys(p, rawUrls);
    assert key in keys by {
      SetKeysCover(p, rawUrls, key);
    }
    SetKeysDistinct(p, rawUrls);
    SetThenGetHits(s, env, keys, value, nowMs, t, key, laterMs, ageNowMs);
  }

  /** Overwriting keeps a key's position, so a set can evict a key it has just
      written: with room for one key, setting "b" and then the stored "a" leaves
      only "b". */
  lemma RewrittenKeyEvicted(e0: Entry<int>, e: Entry<int>)
    ensures Pruned(StoredAll([("a", e0)], ["b", "a"], e), 1) == [("b", e)]
  {
    var s: Store<int> := [("a", e0)];
    assert ["b", "a"][..1] == ["b"];
    assert StoredAll(s, ["b"], e) == Stored(s, "b", e) == [("a", e0), ("b", e)];
    assert StoredAll(s, ["b", "a"], e) == [("a", e), ("b", e)];
  }

  /** The loop of `setCacheEntry` that collects the distinct keys of the URLs, in
      order of first appearance, skipping those that do not normalize. */
  method CollectKeys(p: UrlParser, rawUrls: seq<Option<string>>) returns (keys: seq<string>)
    ensures keys == SetKeys(p, rawUrls)
  {
    keys := [];
    ghost var aliases := AliasKeys(p, rawUrls);
    assert aliases[..0] == [];
    for i := 0 to |rawUrls|
      invariant keys == Dedupe(aliases[..i])
    {
      DedupeSnoc(aliases, i);
      var key := NormalizeCacheKey(p, rawUrls[i]);
      if key.Some? && key.value !in keys {
        keys := keys + [key.value];
      }
    }
    assert aliases[..|rawUrls|] == aliases;
  }

  // ---------------------------------------------------------------- the store

  /** The module-level `cacheStore`. */
  class ContentCache<V> {
    var entries: Store<V>

    constructor()
      ensures entries == []
    {
      entries := [];
    }

    /** `getCacheEntry(rawUrl)`. */
    method Get(env: CacheEnv, p: UrlParser, rawUrl: Option<string>, nowMs: int, ageNowMs: int)
      returns (r: Option<CacheRead<V>>)
      modifies this
      ensures entries == GetStore(old(entries), env, NormalizedKey(p, rawUrl), nowMs)
      ensures r == GetRead(old(entries), env, NormalizedKey(p, rawUrl), nowMs, ageNowMs)
    {
      if !CacheEnabled(env) {
        return None;
      }
      var key := NormalizeCacheKey(p, rawUrl);
      if key.None? {
        return None;
      }
      var k := key.value;
      var entry := Lookup(entries, k);
      if entry.None? {
        return Some(Miss(k, CacheTtlMs(env)));
      }
      var e := entry.value;
      if e.expiresAt <= nowMs {
        entries := Deleted(entries, k);
        return Some(Miss(k, CacheTtlMs(env)));
      }
      entries := Deleted(entries, k);
      entries := Stored(entries, k, e);
      r := Some(Hit(k, e.ttlMs, ageNowMs - e.storedAt, e.value));
    }

    /** `pruneCache()`. */
    method Prune(maxSize: int)
      requires maxSize > 0
      modifies this
      ensures entries == Pruned(old(entries), maxSize)
    {
      if |entries| <= maxSize {
        return;
      }
      while |entries| > maxSize
        invariant Pruned(entries, maxSize) == Pruned(old(entries), maxSize)
        decreases |entries|
      {
        var oldestKey := entries[0].0;
        if oldestKey == "" {
          break;
        }
        entries := Deleted(entries, oldestKey);
      }
    }

    /** The `for` loop of `setCacheEntry` that writes one entry under every key. */
    method StoreAll(keys: seq<string>, entry: Entry<V>)
      modifies this
      ensures entries == StoredAll(old(entries), keys, entry)
    {
      assert keys[..0] == [];
      for i := 0 to |keys|
        invariant entries == StoredAll(old(entries), keys[..i], entry)
      {
        StoredAllSnoc(old(entries), keys, i, entry);
        entries := Stored(entries, keys[i], entry);
      }
      assert keys[..|keys|] == keys;
    }

    /** `setCacheEntry(rawUrls, value)` at time `nowMs`. */
    method Set(env: CacheEnv, p: UrlParser, rawUrls: seq<Option<string>>, value: V, nowMs: int)
      returns (r: Option<int>)
      modifies this
      ensures (entries, r) == SetOutcome(old(entries), env, SetKeys(p, rawUrls), value, nowMs)
    {
      if !CacheEnabled(env) {
        return None;
      }
      var ttlMs := CacheTtlMs(env);
      var storedAt := nowMs;
      var entry := Entry(value, storedAt, ttlMs, storedAt + ttlMs);
      var keys := CollectKeys(p, rawUrls);
      StoreAll(keys, entry);
      Prune(CacheMaxSize(env));
      r := Some(ttlMs);
    }
  }
}
