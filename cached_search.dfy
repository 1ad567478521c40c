/**
 * The result cache of `database/cached_search.py`: a time-to-live cache in
 * front of the concept-search engine, with bulk eviction of the oldest
 * entries when it grows past its bound.
 *
 * Python's dictionary is a sequence of (key, entry) pairs in insertion
 * order; assigning to a present key overwrites it in place. The clock is
 * the argument `now`. The key is the sorted-keys JSON object of the query
 * and the keyword arguments; its MD5 digest is taken to be injective, so
 * the key is that object itself.
 */
module CachedSearch {
  import opened Wrappers
  import Seqs
  import Sorting
  import ES = EnhancedSearch

  // ---------------------------------------------------------------------
  // Cache keys
  // ---------------------------------------------------------------------

  /** The JSON values a key object holds. */
  datatype Json = JStr(s: string) | JInt(i: int) | JReal(r: real) | JNull | JStrList(items: seq<string>)

  /** A key: the JSON object, whose text `json.dumps(..., sort_keys=True)` is canonical. */
  type Key = map<string, Json>

  /** The parameters `search` puts in the key after the query. */
  datatype Params = Params(limit: int, threshold: real, sourceTypes: Option<seq<string>>)

  /** `params` of `search` as keyword arguments. */
  function ParamArgs(p: Params): seq<(string, Json)>
  {
    [("limit", JInt(p.limit)),
     ("threshold", JReal(p.threshold)),
     ("source_types", if p.sourceTypes.None? then JNull else JStrList(p.sourceTypes.value))]
  }

  /** `dict.update(kwargs)`, one argument after the other. */
  function Update(d: Key, kwargs: seq<(string, Json)>): Key
    decreases |kwargs|
  {
    if kwargs == [] then d else Update(d[kwargs[0].0 := kwargs[0].1], kwargs[1..])
  }

  /** `_generate_cache_key(query, **kwargs)`. */
  function CacheKey(query: string, kwargs: seq<(string, Json)>): Key
  {
    Update(map["query" := JStr(query)], kwargs)
  }

  /** The key of one search. */
  function SearchKey(query: string, p: Params): Key
  {
    CacheKey(query, ParamArgs(p))
  }

  predicate DistinctNames(kwargs: seq<(string, Json)>)
  {
    forall i, j :: 0 <= i < j < |kwargs| ==> kwargs[i].0 != kwargs[j].0
  }

  /** With distinct names, `update` gives each argument's value to its name and keeps every other entry. */
  lemma {:induction false} UpdateLookup(d: Key, kwargs: seq<(string, Json)>, n: string)
    requires DistinctNames(kwargs)
    ensures forall v :: (n, v) in kwargs ==> n in Update(d, kwargs) && Update(d, kwargs)[n] == v
    ensures (forall v :: (n, v) !in kwargs) ==>
      (n in Update(d, kwargs) <==> n in d) && (n in d ==> Update(d, kwargs)[n] == d[n])
    decreases |kwargs|
  {
    if kwargs != [] {
      var rest := kwargs[1..];
      assert DistinctNames(rest) by {
        forall i, j | 0 <= i < j < |rest| ensures rest[i].0 != rest[j].0 {
          assert rest[i] == kwargs[i + 1] && rest[j] == kwargs[j + 1];
        }
      }
      UpdateLookup(d[kwargs[0].0 := kwargs[0].1], rest, n);
      forall v | (n, v) in kwargs ensures n in Update(d, kwargs) && Update(d, kwargs)[n] == v {
        if (n, v) !in rest {
          assert kwargs[0] == (n, v);
        }
      }
      assert kwargs == [kwargs[0]] + rest;
    }
  }

  /**
   * The key does not depend on the order of the keyword arguments: any
   * reordering of distinctly named arguments gives the same key.
   */
  lemma KeyOrderIrrelevant(query: string, a: seq<(string, Json)>, b: seq<(string, Json)>)
    requires DistinctNames(a) && DistinctNames(b) && multiset(a) == multiset(b)
    ensures CacheKey(query, a) == CacheKey(query, b)
  {
    var d := map["query" := JStr(query)];
    var ka, kb := CacheKey(query, a), CacheKey(query, b);
    forall n ensures (n in ka <==> n in kb) && (n in ka ==> ka[n] == kb[n]) {
      UpdateLookup(d, a, n);
      UpdateLookup(d, b, n);
      forall v ensures (n, v) in a <==> (n, v) in b {
        assert (n, v) in a <==> (n, v) in multiset(a);
        assert (n, v) in b <==> (n, v) in multiset(b);
      }
      if exists v :: (n, v) in a {
        var v :| (n, v) in a;
        assert (n, v) in b;
      }
    }
    assert ka == kb;
  }

  /** The key object of one search, written out. */
  lemma SearchKeyShape(q: string, p: Params)
    ensures SearchKey(q, p) == map["query" := JStr(q), "limit" := JInt(p.limit), "threshold" := JReal(p.threshold),
                                   "source_types" := ParamArgs(p)[2].1]
  {
    var args := ParamArgs(p);
    var d0 := map["query" := JStr(q)];
    var d1 := d0["limit" := JInt(p.limit)];
    var d2 := d1["threshold" := JReal(p.threshold)];
    var d3 := d2["source_types" := args[2].1];
    assert args[1..][1..][1..] == [];
    assert Update(d3, []) == d3;
    assert Update(d2, args[1..][1..]) == d3;
    assert Update(d1, args[1..]) == d3;
    assert Update(d0, args) == d3;
  }

  /** Different searches get different keys: the key determines the query and every parameter. */
  lemma SearchKeyInjective(q1: string, p1: Params, q2: string, p2: Params)
    requires SearchKey(q1, p1) == SearchKey(q2, p2)
    ensures q1 == q2 && p1 == p2
  {
    SearchKeyShape(q1, p1);
    SearchKeyShape(q2, p2);
    var k1, k2 := SearchKey(q1, p1), SearchKey(q2, p2);
    assert k1["query"] == JStr(q1) && k2["query"] == JStr(q2);
    assert k1["limit"] == JInt(p1.limit) && k2["limit"] == JInt(p2.limit);
    assert k1["threshold"] == JReal(p1.threshold) && k2["threshold"] == JReal(p2.threshold);
    assert k1["source_types"] == ParamArgs(p1)[2].1 && k2["source_types"] == ParamArgs(p2)[2].1;
    if p1.sourceTypes.Some? || p2.sourceTypes.Some? {
      assert p1.sourceTypes.Some? && p2.sourceTypes.Some?;
    }
  }

  // ---------------------------------------------------------------------
  // Entries and the dictionary
  // ---------------------------------------------------------------------

  /** `CachedSearchResult`. */
  datatype Entry = Entry(results: seq<ES.Hit>, timestamp: real, query: string, params: Params)

  /** `is_expired`: strictly older than the time to live; an entry exactly `ttl` old is still fresh. */
  predicate IsExpired(e: Entry, now: real, ttl: int)
  {
    now - e.timestamp > ttl as real
  }

  /** One dictionary item. */
  type Item = (Key, Entry)

  type Cache = seq<Item>

  function KeyOf(p: (Key, Entry)): Key { p.0 }

  function Stamp(p: (Key, Entry)): real { p.1.timestamp }

  /** The position of `k` in the dictionary: its first occurrence. */
  function IndexOf(c: Cache, k: Key): (r: Option<nat>)
    ensures r.Some? ==> r.value < |c| && c[r.value].0 == k && forall j :: 0 <= j < r.value ==> c[j].0 != k
    ensures r.None? ==> forall i :: 0 <= i < |c| ==> c[i].0 != k
  {
    if c == [] then None
    else if c[0].0 == k then Some(0)
    else match IndexOf(c[1..], k)
      case None => None
      case Some(i) => Some(i + 1)
  }

  /** Two dictionaries with the same keys in the same order find every key at the same place. */
  lemma SameKeysIndexOf(c: Cache, d: Cache, k: Key)
    requires |c| == |d| && forall i :: 0 <= i < |c| ==> c[i].0 == d[i].0
    ensures IndexOf(c, k) == IndexOf(d, k)
  {
    var ic, id := IndexOf(c, k), IndexOf(d, k);
    if ic.Some? && id.Some? {
      assert !(ic.value < id.value) && !(id.value < ic.value);
    }
  }

  /** `self.cache[k]` when `k in self.cache`. */
  function Lookup(c: Cache, k: Key): (r: Option<Entry>)
    ensures r.Some? <==> exists i :: 0 <= i < |c| && c[i].0 == k
    ensures r.Some? ==> (k, r.value) in c
  {
    match IndexOf(c, k)
    case None => None
    case Some(i) => Some(c[i].1)
  }

  /** `self.cache[k] = e`: overwrite in place, or append a new key. */
  function Put(c: Cache, k: Key, e: Entry): (r: Cache)
    ensures |r| == if Lookup(c, k).Some? then |c| else |c| + 1
    ensures forall x :: x in r ==> x == (k, e) || x in c
  {
    match IndexOf(c, k)
    case None => c + [(k, e)]
    case Some(i) => c[i := (k, e)]
  }

  /** After an assignment the key maps to the new entry and every other key is untouched. */
  lemma PutLookup(c: Cache, k: Key, e: Entry, k': Key)
    requires Sorting.DistinctBy(c, KeyOf)
    ensures Lookup(Put(c, k, e), k) == Some(e)
    ensures k' != k ==> Lookup(Put(c, k, e), k') == Lookup(c, k')
    ensures Sorting.DistinctBy(Put(c, k, e), KeyOf)
  {
    var r := Put(c, k, e);
    match IndexOf(c, k)
    case None =>
      assert r == c + [(k, e)];
      PutLookupAppend(c, k, e, k');
    case Some(i) =>
      assert r == c[i := (k, e)];
      SameKeysIndexOf(c, r, k);
      SameKeysIndexOf(c, r, k');
  }

  lemma PutLookupAppend(c: Cache, k: Key, e: Entry, k': Key)
    requires Sorting.DistinctBy(c, KeyOf) && IndexOf(c, k).None?
    ensures IndexOf(c + [(k, e)], k) == Some(|c|)
    ensures k' != k ==> IndexOf(c + [(k, e)], k') == IndexOf(c, k')
    ensures Sorting.DistinctBy(c + [(k, e)], KeyOf)
  {
    AppendIndexOfNew(c, k, e);
    if k' != k {
      AppendIndexOfOld(c, (k, e), k');
    }
    forall y | y in c ensures KeyOf(y) != k {
      var i :| 0 <= i < |c| && c[i] == y;
    }
    Sorting.DistinctSnoc(c, (k, e), KeyOf);
  }

  lemma AppendIndexOfNew(c: Cache, k: Key, e: Entry)
    requires IndexOf(c, k).None?
    ensures IndexOf(c + [(k, e)], k) == Some(|c|)
  {
    var r := c + [(k, e)];
    assert r[|c|].0 == k;
    var ir := IndexOf(r, k);
    assert ir.Some?;
    assert r[ir.value].0 == k;
    assert forall i :: 0 <= i < |c| ==> r[i] == c[i];
  }

  lemma AppendIndexOfOld(c: Cache, x: Item, k': Key)
    requires x.0 != k'
    ensures IndexOf(c + [x], k') == IndexOf(c, k')
  {
    var r := c + [x];
    assert forall i :: 0 <= i < |c| ==> r[i] == c[i];
    var ic, ir := IndexOf(c, k'), IndexOf(r, k');
    if ic.Some? {
      assert r[ic.value].0 == k';
      assert ir.Some? && !(ir.value < ic.value) && !(ic.value < ir.value);
    } else {
      assert forall i :: 0 <= i < |r| ==> r[i].0 != k';
    }
  }

  // ---------------------------------------------------------------------
  // Eviction
  // ---------------------------------------------------------------------

  /**
   * `_cleanup_cache_if_needed`: past the bound, the entries sorted newest
   * first by a stable sort, cut to `max_cache_size // 2` with Python's slice.
   */
  function Cleaned(c: Cache, maxSize: int): Cache
  {
    if |c| > maxSize then Seqs.PyTake(Sorting.SortDesc(c, Stamp), Seqs.FloorDiv(maxSize, 2)) else c
  }

  /** Past the bound, eviction is a prefix of the newest-first order. */
  lemma CleanedPrefix(c: Cache, maxSize: int)
    requires |c| > maxSize >= 0
    ensures maxSize / 2 <= |Sorting.SortDesc(c, Stamp)|
    ensures Cleaned(c, maxSize) == Sorting.SortDesc(c, Stamp)[..maxSize / 2]
  {
    Sorting.SortDescFacts(c, Stamp);
    assert Seqs.FloorDiv(maxSize, 2) == maxSize / 2;
  }

  /** A prefix of a newest-first sequence is no older than anything after it. */
  lemma PrefixNewest(s: Cache, k: nat, x: Item, y: Item)
    requires Sorting.SortedDesc(s, Stamp) && k <= |s|
    requires x in s[..k] && y in s && y !in s[..k]
    ensures Stamp(x) >= Stamp(y)
  {
    var j :| 0 <= j < |s| && s[j] == y;
    var i :| 0 <= i < k && s[..k][i] == x;
    assert s[i] == x;
  }

  /**
   * Bulk eviction keeps `max_cache_size // 2` entries, drawn from the cache,
   * none older than any entry it drops, and among entries of equal age the
   * ones inserted first.
   */
  lemma CleanedFacts(c: Cache, maxSize: int)
    requires |c| > maxSize >= 0
    ensures |Cleaned(c, maxSize)| == maxSize / 2
    ensures multiset(Cleaned(c, maxSize)) <= multiset(c)
    ensures forall x, y :: x in Cleaned(c, maxSize) && y in c && y !in Cleaned(c, maxSize) ==> Stamp(x) >= Stamp(y)
    ensures forall v :: Sorting.WithKey(Cleaned(c, maxSize), Stamp, v) <= Sorting.WithKey(c, Stamp, v)
  {
    var sorted := Sorting.SortDesc(c, Stamp);
    Sorting.SortDescFacts(c, Stamp);
    CleanedPrefix(c, maxSize);
    var keep := maxSize / 2;
    var r := sorted[..keep];
    PrefixMultiset(sorted, keep);
    forall x, y | x in r && y in c && y !in r ensures Stamp(x) >= Stamp(y) {
      assert y in multiset(sorted);
      PrefixNewest(sorted, keep, x, y);
    }
    forall v ensures Sorting.WithKey(r, Stamp, v) <= Sorting.WithKey(c, Stamp, v) {
      WithKeyPrefix(sorted, keep, v);
    }
  }

  lemma PrefixMultiset(s: Cache, k: nat)
    requires k <= |s|
    ensures multiset(s[..k]) <= multiset(s)
  {
    assert s == s[..k] + s[k..];
  }

  lemma {:induction false} WithKeyPrefix(s: Cache, k: nat, v: real)
    requires k <= |s|
    ensures Sorting.WithKey(s[..k], Stamp, v) <= Sorting.WithKey(s, Stamp, v)
  {
    if k > 0 {
      assert s[..k][1..] == s[1..][..k - 1];
      WithKeyPrefix(s[1..], k - 1, v);
    }
  }

  /** Eviction keeps the dictionary's keys distinct. */
  lemma CleanedDistinct(c: Cache, maxSize: int)
    requires Sorting.DistinctBy(c, KeyOf)
    ensures Sorting.DistinctBy(Cleaned(c, maxSize), KeyOf)
    ensures forall x :: x in Cleaned(c, maxSize) ==> x in c
  {
    if |c| > maxSize {
      var sorted := Sorting.SortDesc(c, Stamp);
      Sorting.SortDescDistinct(c, Stamp, KeyOf);
      Sorting.SortDescFacts(c, Stamp);
      var r := Cleaned(c, maxSize);
      assert r == sorted[..|r|];
      forall x | x in r ensures x in c {
        assert x in multiset(sorted);
      }
    }
  }

  /** One insertion past the bound never leaves more than `max_cache_size` entries. */
  lemma CleanedBound(c: Cache, maxSize: int)
    requires 0 <= maxSize && |c| <= maxSize + 1
    ensures |Cleaned(c, maxSize)| <= maxSize
  {
    if |c| > maxSize {
      CleanedFacts(c, maxSize);
    }
  }

  /** With a bound below 2 an overflow keeps nothing, not even the entry just inserted. */
  lemma TinyCacheEvictsAll(c: Cache, maxSize: int)
    requires 0 <= maxSize < 2 && |c| > maxSize
    ensures Cleaned(c, maxSize) == []
  {
    CleanedFacts(c, maxSize);
  }

  // ---------------------------------------------------------------------
  // Statistics
  // ---------------------------------------------------------------------

  /** The dictionary `get_cache_stats` returns. */
  datatype CacheStats = CacheStats(
    total: int, valid: int, expired: int, ttl: int, maxSize: int, oldestAge: int, newestAge: int)

  /** Python's `int()` of a float: truncation toward zero. */
  function Trunc(x: real): (n: int)
    ensures x >= 0.0 ==> n as real <= x < n as real + 1.0
    ensures x < 0.0 ==> n as real - 1.0 < x <= n as real
  {
    if x >= 0.0 then x.Floor else -((-x).Floor)
  }

  function MinStamp(c: Cache): (m: real)
    requires c != []
    ensures exists x :: x in c && Stamp(x) == m
    ensures forall x :: x in c ==> m <= Stamp(x)
  {
    if |c| == 1 then Stamp(c[0])
    else
      var rest := MinStamp(c[1..]);
      assert forall x :: x in c ==> x == c[0] || x in c[1..];
      if Stamp(c[0]) <= rest then Stamp(c[0]) else rest
  }

  function MaxStamp(c: Cache): (m: real)
    requires c != []
    ensures exists x :: x in c && Stamp(x) == m
    ensures forall x :: x in c ==> Stamp(x) <= m
  {
    if |c| == 1 then Stamp(c[0])
    else
      var rest := MaxStamp(c[1..]);
      assert forall x :: x in c ==> x == c[0] || x in c[1..];
      if Stamp(c[0]) >= rest then Stamp(c[0]) else rest
  }

  function Fresh(now: real, ttl: int): Item -> bool
  {
    (p: Item) => !IsExpired(p.1, now, ttl)
  }

  /**
   * `get_cache_stats`. An age is 0 when its timestamp is 0.0, which Python
   * treats as false, as well as for an empty cache.
   */
  function StatsOf(c: Cache, now: real, ttl: int, maxSize: int): CacheStats
  {
    var valid := |Seqs.Filter(Fresh(now, ttl), c)|;
    var oldest := if c == [] then 0.0 else MinStamp(c);
    var newest := if c == [] then 0.0 else MaxStamp(c);
    CacheStats(|c|, valid, |c| - valid, ttl, maxSize,
               if oldest != 0.0 then Trunc(now - oldest) else 0,
               if newest != 0.0 then Trunc(now - newest) else 0)
  }

  /** Valid and expired entries partition the cache; an empty cache reports zero ages. */
  lemma StatsFacts(c: Cache, now: real, ttl: int, maxSize: int)
    ensures StatsOf(c, now, ttl, maxSize).total == |c|
    ensures StatsOf(c, now, ttl, maxSize).valid + StatsOf(c, now, ttl, maxSize).expired == |c|
    ensures 0 <= StatsOf(c, now, ttl, maxSize).valid <= |c|
    ensures 0 <= StatsOf(c, now, ttl, maxSize).expired
    ensures c == [] ==> StatsOf(c, now, ttl, maxSize).oldestAge == 0 && StatsOf(c, now, ttl, maxSize).newestAge == 0
    ensures c == [] ==> StatsOf(c, now, ttl, maxSize).valid == 0
  {
  }

  /** Every fresh entry is counted as valid and every counted entry is fresh. */
  lemma StatsValidMeansFresh(c: Cache, now: real, ttl: int, x: (Key, Entry))
    ensures x in Seqs.Filter(Fresh(now, ttl), c) <==> x in c && now - x.1.timestamp <= ttl as real
  {
    if x in Seqs.Filter(Fresh(now, ttl), c) {
      Seqs.FilterMember(Fresh(now, ttl), c, x);
    }
    if x in c && now - x.1.timestamp <= ttl as real {
      Seqs.FilterHas(Fresh(now, ttl), c, x);
    }
  }

  /** The newest entry is never reported older than the oldest one. */
  lemma StatsAgesOrdered(c: Cache, now: real, ttl: int, maxSize: int)
    requires c != [] && MinStamp(c) != 0.0 && MaxStamp(c) != 0.0
    ensures StatsOf(c, now, ttl, maxSize).newestAge <= StatsOf(c, now, ttl, maxSize).oldestAge
  {
    assert MinStamp(c) <= Stamp(c[0]) <= MaxStamp(c);
    TruncMonotone(now - MaxStamp(c), now - MinStamp(c));
  }

  lemma TruncMonotone(x: real, y: real)
    requires x <= y
    ensures Trunc(x) <= Trunc(y)
  {
  }

  // ---------------------------------------------------------------------
  // The cache object
  // ---------------------------------------------------------------------

  const DefaultTtl: int := 3600
  const DefaultMaxSize: int := 100

  /** What searching for `query` with `p` yields when the cache is bypassed or missed. */
  function EngineResults(engine: ES.Engine, store: ES.Store, query: string, p: Params): seq<ES.Hit>
  {
    ES.SemanticSearch(engine, store, Some(query), p.limit, p.threshold, p.sourceTypes.GetOr([]))
  }

  /** The dictionary after `search`, given what the engine returned. */
  function AfterSearch(c: Cache, query: string, p: Params, useCache: bool, now: real, ttl: int, maxSize: int,
                       results: seq<ES.Hit>): Cache
  {
    if query == "" || !useCache then c
    else
      var k := SearchKey(query, p);
      var found := Lookup(c, k);
      if found.Some? && !IsExpired(found.value, now, ttl) then c
      else Cleaned(Put(c, k, Entry(results, now, query, p)), maxSize)
  }

  /** A cached item sits under its own search's key and holds that search's results. */
  ghost predicate EntryOk(engine: ES.Engine, store: ES.Store, x: Item)
  {
    x.0 == SearchKey(x.1.query, x.1.params) && x.1.results == EngineResults(engine, store, x.1.query, x.1.params)
  }

  /** Distinct keys, every item correct, and the size bound when there is one. */
  ghost predicate CacheOk(engine: ES.Engine, store: ES.Store, maxSize: int, c: Cache)
  {
    Sorting.DistinctBy(c, KeyOf)
    && (forall x :: x in c ==> EntryOk(engine, store, x))
    && (0 <= maxSize ==> |c| <= maxSize)
  }

  /** Storing a correct entry and evicting keeps the cache correct. */
  lemma InsertKeepsOk(engine: ES.Engine, store: ES.Store, maxSize: int, c: Cache, k: Key, e: Entry)
    requires CacheOk(engine, store, maxSize, c) && EntryOk(engine, store, (k, e))
    ensures CacheOk(engine, store, maxSize, Cleaned(Put(c, k, e), maxSize))
  {
    var c' := Put(c, k, e);
    PutLookup(c, k, e, k);
    CleanedDistinct(c', maxSize);
    if 0 <= maxSize {
      CleanedBound(c', maxSize);
    }
  }

  /** A fresh hit holds exactly what the engine answers for this search. */
  lemma HitIsEngineResult(engine: ES.Engine, store: ES.Store, maxSize: int, c: Cache, query: string, p: Params)
    requires CacheOk(engine, store, maxSize, c) && Lookup(c, SearchKey(query, p)).Some?
    ensures Lookup(c, SearchKey(query, p)).value.results == EngineResults(engine, store, query, p)
  {
    var e := Lookup(c, SearchKey(query, p)).value;
    assert EntryOk(engine, store, (SearchKey(query, p), e));
    SearchKeyInjective(query, p, e.query, e.params);
  }

  /** `CachedSearch`. */
  class CachedSearch {
    const engine: ES.Engine
    const store: ES.Store
    const ttl: int
    const maxSize: int
    var cache: Cache

    ghost predicate Valid()
      reads this
    {
      CacheOk(engine, store, maxSize, cache)
    }

    constructor(engine: ES.Engine, store: ES.Store, ttl: int, maxSize: int)
      ensures this.engine == engine && this.store == store && this.ttl == ttl && this.maxSize == maxSize
      ensures cache == []
      ensures Valid()
    {
      this.engine := engine;
      this.store := store;
      this.ttl := ttl;
      this.maxSize := maxSize;
      cache := [];
    }

    /** `_cleanup_cache_if_needed`. */
    method Cleanup()
      modifies this
      ensures cache == Cleaned(old(cache), maxSize)
    {
      if |cache| > maxSize {
        var items := Sorting.SortDesc(cache, Stamp);
        var keepCount := Seqs.FloorDiv(maxSize, 2);
        cache := Seqs.PyTake(items, keepCount);
      }
    }

    /**
     * `search`. The results are always the engine's answer for the query and
     * parameters: a fresh hit returns what an earlier identical search
     * stored. An empty query and a bypassed cache leave the dictionary alone.
     */
    method Search(query: string, limit: int, threshold: real, sourceTypes: Option<seq<string>>, useCache: bool,
                  now: real) returns (results: seq<ES.Hit>)
      requires Valid()
      modifies this
      ensures Valid()
      ensures query == "" ==> results == []
      ensures results == EngineResults(engine, store, query, Params(limit, threshold, sourceTypes))
      ensures cache == AfterSearch(old(cache), query, Params(limit, threshold, sourceTypes), useCache, now, ttl,
                                   maxSize, results)
      ensures query != "" && useCache ==>
        var found := Lookup(old(cache), SearchKey(query, Params(limit, threshold, sourceTypes)));
        found.Some? && !IsExpired(found.value, now, ttl) ==> results == found.value.results
    {
      if query == "" {
        return [];
      }
      var params := Params(limit, threshold, sourceTypes);
      if !useCache {
        results := ES.SemanticSearchWithRanking(engine, store, Some(query), limit, threshold, sourceTypes.GetOr([]));
        return;
      }
      var cacheKey := SearchKey(query, params);
      var found := Lookup(cache, cacheKey);
      if found.Some? {
        var cached := found.value;
        if !IsExpired(cached, now, ttl) {
          HitIsEngineResult(engine, store, maxSize, cache, query, params);
          return cached.results;
        }
      }
      results := ES.SemanticSearchWithRanking(engine, store, Some(query), limit, threshold, sourceTypes.GetOr([]));
      var e := Entry(results, now, query, params);
      InsertKeepsOk(engine, store, maxSize, cache, cacheKey, e);
      cache := Put(cache, cacheKey, e);
      Cleanup();
    }

    /** `clear_cache`. */
    method ClearCache()
      requires Valid()
      modifies this
      ensures cache == [] && Valid()
    {
      cache := [];
    }

    /** `get_cache_stats` at time `now`. */
    method GetCacheStats(now: real) returns (stats: CacheStats)
      ensures stats == StatsOf(cache, now, ttl, maxSize)
    {
      stats := StatsOf(cache, now, ttl, maxSize);
    }
  }

  /** A miss on a full cache whose bound is below 2 leaves the cache empty. */
  lemma TinyCacheMissLeavesNothing(c: Cache, query: string, p: Params, now: real, ttl: int, maxSize: int,
                                   results: seq<ES.Hit>)
    requires 0 <= maxSize < 2 && |c| >= maxSize && query != ""
    requires Lookup(c, SearchKey(query, p)).None?
    ensures AfterSearch(c, query, p, true, now, ttl, maxSize, results) == []
  {
    var c' := Put(c, SearchKey(query, p), Entry(results, now, query, p));
    TinyCacheEvictsAll(c', maxSize);
  }
}
