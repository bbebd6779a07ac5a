/**
  The result cache of the negative-content filter service: entries keyed by
  six fields of the item, each with a last-access time; entries older than
  the TTL are dropped, and when the cache is full the least recently used
  entry is evicted before an insertion. Time is the `now` parameter of each
  operation (seconds as an integer), in place of the wall clock.
*/
module FilterCacheModel {
  import opened Wrappers
  import opened PyJson
  import BuzzCore

  /** The fields the key is computed from, in the order
      title, content, description, topic_name, site_name, type. The md5
      digest of their JSON text is modelled by the tuple itself. */
  type CacheKey = (Json, Json, Json, Json, Json, Json)

  /** `_generate_cache_key`: absent fields read as "". */
  function CacheKeyOf(d: Dict): CacheKey
  {
    (Get(d, "title", JStr("")), Get(d, "content", JStr("")), Get(d, "description", JStr("")),
     Get(d, "topic_name", JStr("")), Get(d, "site_name", JStr("")), Get(d, "type", JStr("")))
  }

  /** The fields the key is computed from. */
  const KeyFields: set<string> := {"title", "content", "description", "topic_name", "site_name", "type"}

  /** Any field outside the six, such as `id` or `is_kol`, plays no part in
      the key. */
  lemma CacheKeyIgnores(d: Dict, k: string, v: Json)
    requires k !in KeyFields
    ensures CacheKeyOf(d[k := v]) == CacheKeyOf(d)
  {
  }

  /** The two dictionaries of the cache, as values. */
  datatype CacheState = CacheState(entries: map<CacheKey, Dict>, times: map<CacheKey, int>)

  /** `cache` and `access_times` have the same keys. */
  predicate Consistent(s: CacheState)
  {
    s.entries.Keys == s.times.Keys
  }

  /** `now - timestamp > ttl`: strictly older than the TTL. */
  predicate IsExpired(timestamp: int, now: int, ttl: int)
  {
    now - timestamp > ttl
  }

  function LiveKeys(s: CacheState, now: int, ttl: int): set<CacheKey>
  {
    set k | k in s.times && !IsExpired(s.times[k], now, ttl)
  }

  /** `_cleanup_expired`: every expired entry is dropped from both maps. */
  function Swept(s: CacheState, now: int, ttl: int): (r: CacheState)
    requires Consistent(s)
    ensures Consistent(r)
    ensures r.entries.Keys <= s.entries.Keys
    ensures forall k :: k in s.times ==> (k in r.times <==> now - s.times[k] <= ttl)
    ensures forall k :: k in r.entries ==> r.entries[k] == s.entries[k] && r.times[k] == s.times[k]
  {
    var live := LiveKeys(s, now, ttl);
    CacheState(map k | k in live :: s.entries[k], map k | k in live :: s.times[k])
  }

  /** Both maps without `k`. */
  function Without(s: CacheState, k: CacheKey): CacheState
  {
    CacheState(s.entries - {k}, s.times - {k})
  }

  /** `k` has the least access time of all entries. */
  predicate IsLru(s: CacheState, k: CacheKey)
  {
    k in s.times && forall j :: j in s.times ==> s.times[k] <= s.times[j]
  }

  /** A non-empty set of keys has one whose time is least. */
  lemma {:induction false} LeastTimeExists(keys: set<CacheKey>, times: map<CacheKey, int>)
    requires keys != {} && keys <= times.Keys
    ensures exists k :: k in keys && forall j :: j in keys ==> times[k] <= times[j]
    decreases keys
  {
    var k0 :| k0 in keys;
    var rest := keys - {k0};
    if rest != {} {
      LeastTimeExists(rest, times);
      var k1 :| k1 in rest && forall j :: j in rest ==> times[k1] <= times[j];
      if times[k0] <= times[k1] {
        assert forall j :: j in keys ==> times[k0] <= times[j];
      } else {
        assert forall j :: j in keys ==> times[k1] <= times[j];
      }
    } else {
      assert keys == {k0};
    }
  }

  /** `get`: an expired entry (strictly older than the TTL) is dropped from
      both maps and missed; a live entry is returned and its access time set
      to `now`; nothing else changes. */
  function Lookup(s: CacheState, key: CacheKey, now: int, ttl: int): (r: (CacheState, Option<Dict>))
    requires Consistent(s)
    ensures Consistent(r.0)
    ensures r.1.Some? <==> key in s.entries && now - s.times[key] <= ttl
    ensures r.1.Some? ==> r.1.value == s.entries[key] && r.0 == CacheState(s.entries, s.times[key := now])
    ensures key in s.entries && r.1.None? ==> r.0 == Without(s, key) && key !in r.0.entries && key !in r.0.times
    ensures key !in s.entries ==> r.0 == s
  {
    if key in s.entries then
      if IsExpired(s.times[key], now, ttl) then (Without(s, key), None)
      else (CacheState(s.entries, s.times[key := now]), Some(s.entries[key]))
    else (s, None)
  }

  /** An entry accessed exactly `ttl` seconds ago is still a hit; one second
      later it is gone. */
  lemma ExpiryBoundary(s: CacheState, key: CacheKey, ttl: int)
    requires Consistent(s) && key in s.entries
    ensures Lookup(s, key, s.times[key] + ttl, ttl).1 == Some(s.entries[key])
    ensures Lookup(s, key, s.times[key] + ttl + 1, ttl).1 == None
    ensures key !in Lookup(s, key, s.times[key] + ttl + 1, ttl).0.entries
  {
  }

  /** Both maps with `key` set to `v`, accessed at `now`. */
  function Insert(s: CacheState, key: CacheKey, v: Dict, now: int): CacheState
  {
    CacheState(s.entries[key := v], s.times[key := now])
  }

  /** The LRU step of `set` fails: the swept cache is full but has no entry
      to evict, so `min` of an empty sequence raises. Only `max_size <= 0`
      allows this. */
  predicate SetFails(s: CacheState, now: int, maxSize: int, ttl: int)
    requires Consistent(s)
  {
    var swept := Swept(s, now, ttl);
    |swept.entries| >= maxSize && swept.times == map[]
  }

  /** The entry `set` evicts, if any: one with the least access time once the
      expired entries are gone, exactly when the swept cache is full. */
  predicate IsVictim(s: CacheState, now: int, maxSize: int, ttl: int, victim: Option<CacheKey>)
    requires Consistent(s)
  {
    var swept := Swept(s, now, ttl);
    && (victim.Some? <==> |swept.entries| >= maxSize)
    && (victim.Some? ==> IsLru(swept, victim.value))
  }

  /** The state after a successful `set`: sweep, evict `victim`, insert. */
  function AfterSet(s: CacheState, key: CacheKey, v: Dict, now: int, ttl: int, victim: Option<CacheKey>): CacheState
    requires Consistent(s)
  {
    var swept := Swept(s, now, ttl);
    Insert(if victim.Some? then Without(swept, victim.value) else swept, key, v, now)
  }

  lemma {:induction false} SubsetCard<T>(a: set<T>, b: set<T>)
    requires a <= b
    ensures |a| <= |b|
    decreases b
  {
    if a != {} {
      var x :| x in a;
      SubsetCard(a - {x}, b - {x});
    }
  }

  /** Sweeping never grows the cache. */
  lemma SweptSmaller(s: CacheState, now: int, ttl: int)
    requires Consistent(s)
    ensures |Swept(s, now, ttl).entries| <= |s.entries|
  {
    SubsetCard(Swept(s, now, ttl).entries.Keys, s.entries.Keys);
  }

  lemma WithoutCard(s: CacheState, k: CacheKey)
    requires Consistent(s) && k in s.entries
    ensures Consistent(Without(s, k)) && |Without(s, k).entries| == |s.entries| - 1
  {
    assert Without(s, k).entries.Keys == s.entries.Keys - {k};
  }

  lemma InsertCard(s: CacheState, key: CacheKey, v: Dict, now: int)
    requires Consistent(s)
    ensures Consistent(Insert(s, key, v, now))
    ensures |Insert(s, key, v, now).entries| == if key in s.entries then |s.entries| else |s.entries| + 1
  {
    if key in s.entries {
      assert s.entries[key := v].Keys == s.entries.Keys;
    } else {
      assert s.entries[key := v].Keys == s.entries.Keys + {key};
    }
  }

  /** With `max_size >= 1`, `set` keeps the cache within its bound, the new
      entry is stored with access time `now`, and the two maps stay in step.
      The eviction happens even when the key is already cached, in which case
      the cache shrinks by one. */
  lemma SetBounded(s: CacheState, key: CacheKey, v: Dict, now: int, maxSize: int, ttl: int, victim: Option<CacheKey>)
    requires Consistent(s) && 1 <= maxSize && |s.entries| <= maxSize
    requires IsVictim(s, now, maxSize, ttl, victim)
    ensures !SetFails(s, now, maxSize, ttl)
    ensures var r := AfterSet(s, key, v, now, ttl, victim);
      && Consistent(r)
      && |r.entries| <= maxSize
      && r.entries[key] == v && r.times[key] == now
      && (victim.Some? && victim.value != key && key in Swept(s, now, ttl).entries ==>
            |r.entries| == |Swept(s, now, ttl).entries| - 1)
  {
    var swept := Swept(s, now, ttl);
    SweptSmaller(s, now, ttl);
    if victim.Some? {
      WithoutCard(swept, victim.value);
      InsertCard(Without(swept, victim.value), key, v, now);
    } else {
      InsertCard(swept, key, v, now);
    }
  }

  /** The failing LRU step of `set` happens only for `max_size <= 0`. */
  lemma SetFailsOnlyWithoutRoom(s: CacheState, now: int, maxSize: int, ttl: int)
    requires Consistent(s)
    ensures SetFails(s, now, maxSize, ttl) <==> maxSize <= 0 && Swept(s, now, ttl).entries == map[]
  {
    var swept := Swept(s, now, ttl);
    if swept.entries == map[] {
      assert swept.times.Keys == {};
    }
    if swept.times == map[] {
      assert swept.entries.Keys == {};
    }
  }

  /** The message of the ValueError that `min` of an empty sequence raises. */
  const EmptyMinError: string := "min() arg is an empty sequence"

  /** What `get_stats` reports, without the float `usage_percent`. */
  datatype CacheStats = CacheStats(cacheSize: nat, maxSize: int, ttl: int)

  class FilterCache {
    var cache: map<CacheKey, Dict>
    var accessTimes: map<CacheKey, int>
    const maxSize: int
    const ttl: int

    ghost predicate Valid()
      reads this
    {
      cache.Keys == accessTimes.Keys
    }

    function State(): CacheState
      reads this
    {
      CacheState(cache, accessTimes)
    }

    constructor(maxSize: int, ttl: int)
      ensures Valid()
      ensures this.maxSize == maxSize && this.ttl == ttl
      ensures cache == map[] && accessTimes == map[]
    {
      this.maxSize := maxSize;
      this.ttl := ttl;
      cache := map[];
      accessTimes := map[];
    }

    /** `_cleanup_expired`: collect the expired keys, then pop each one from
        both maps. */
    method CleanupExpired(now: int)
      requires Valid()
      modifies this
      ensures Valid()
      ensures State() == Swept(old(State()), now, ttl)
    {
      var expired := set k | k in accessTimes && IsExpired(accessTimes[k], now, ttl);
      ghost var all := expired;
      while expired != {}
        invariant expired <= all
        invariant cache == old(cache) - (all - expired)
        invariant accessTimes == old(accessTimes) - (all - expired)
        decreases expired
      {
        var k :| k in expired;
        cache := cache - {k};
        accessTimes := accessTimes - {k};
        expired := expired - {k};
      }
      assert cache.Keys == LiveKeys(old(State()), now, ttl);
    }

    /** `_evict_lru`: when the cache is full, drop an entry whose access time
        is least (Python takes the first such key in insertion order). */
    method EvictLru() returns (err: Option<string>, victim: Option<CacheKey>)
      requires Valid()
      modifies this
      ensures Valid()
      ensures |old(cache)| < maxSize ==> err == None && victim == None && State() == old(State())
      ensures |old(cache)| >= maxSize && old(accessTimes) == map[] ==>
        err == Some(EmptyMinError) && victim == None && State() == old(State())
      ensures |old(cache)| >= maxSize && old(accessTimes) != map[] ==>
        && err == None && victim.Some? && IsLru(old(State()), victim.value)
        && State() == Without(old(State()), victim.value)
    {
      if |cache| >= maxSize {
        if accessTimes == map[] {
          return Some(EmptyMinError), None;
        }
        LeastTimeExists(accessTimes.Keys, accessTimes);
        var oldest :| oldest in accessTimes && forall j :: j in accessTimes ==> accessTimes[oldest] <= accessTimes[j];
        cache := cache - {oldest};
        accessTimes := accessTimes - {oldest};
        return None, Some(oldest);
      }
      return None, None;
    }

    /** `get` */
    method Get(d: Dict, now: int) returns (r: Option<Dict>)
      requires Valid()
      modifies this
      ensures Valid()
      ensures (State(), r) == Lookup(old(State()), CacheKeyOf(d), now, ttl)
    {
      var key := CacheKeyOf(d);
      if key in cache {
        if IsExpired(accessTimes[key], now, ttl) {
          cache := cache - {key};
          accessTimes := accessTimes - {key};
          return None;
        }
        accessTimes := accessTimes[key := now];
        return Some(cache[key]);
      }
      return None;
    }

    /** `set`: sweep, evict when full, then store the result under its key.
        When the LRU step raises, the sweep has already happened and nothing
        is stored. */
    method Set(d: Dict, result: Dict, now: int) returns (err: Option<string>, victim: Option<CacheKey>)
      requires Valid()
      modifies this
      ensures Valid()
      ensures SetFails(old(State()), now, maxSize, ttl) ==>
        err == Some(EmptyMinError) && State() == Swept(old(State()), now, ttl)
      ensures !SetFails(old(State()), now, maxSize, ttl) ==>
        && err == None
        && IsVictim(old(State()), now, maxSize, ttl, victim)
        && State() == AfterSet(old(State()), CacheKeyOf(d), result, now, ttl, victim)
    {
      CleanupExpired(now);
      err, victim := EvictLru();
      if err.Some? {
        return;
      }
      var key := CacheKeyOf(d);
      cache := cache[key := result];
      accessTimes := accessTimes[key := now];
    }

    /** `clear` */
    method Clear()
      modifies this
      ensures Valid()
      ensures cache == map[] && accessTimes == map[]
    {
      cache := map[];
      accessTimes := map[];
    }

    /** `get_stats` */
    method GetStats() returns (stats: CacheStats)
      ensures stats == CacheStats(|cache|, maxSize, ttl)
    {
      stats := CacheStats(|cache|, maxSize, ttl);
    }
  }

  const ErrorPrefix: string := "Error processing item: "

  /** The service's own result before the filter runs. */
  function ServiceBase(d: Dict): Dict
  {
    map[
      "id" := Get(d, "id", JStr("")),
      "topic_name" := Get(d, "topic_name", JStr("")),
      "type" := Get(d, "type", JStr("")),
      "topic_id" := Get(d, "topic_id", JStr("")),
      "site_id" := Get(d, "site_id", JStr("")),
      "site_name" := Get(d, "site_name", JStr("")),
      "contains_topic" := JBool(false),
      "targeting_topic" := JBool(false),
      "crisis_keywords" := JArr([]),
      "log_level" := JInt(2),
      "reason" := JStr("")
    ]
  }

  /** The dictionary the service hands to the filter. */
  const FilterSeed: Dict := map[
    "contains_topic" := JBool(false),
    "targeting_topic" := JBool(false),
    "crisis_keywords" := JArr([]),
    "log_level" := JInt(2),
    "reason" := JStr("")
  ]

  /** A cache hit counts only for a non-empty cached dictionary. */
  predicate IsHit(hit: Option<Dict>)
  {
    hit.Some? && hit.value != map[]
  }

  /** What `filter_negative_content_service` returns from cache state `s`,
      where `filtered` is the outcome of the filter on `d`. */
  function ServiceResult(s: CacheState, d: Dict, now: int, filtered: Result<Dict>, maxSize: int, ttl: int): Dict
    requires Consistent(s)
  {
    var (afterGet, hit) := Lookup(s, CacheKeyOf(d), now, ttl);
    if IsHit(hit) then hit.value
    else
      match filtered
      case Failure(e) => ServiceBase(d)["reason" := JStr(ErrorPrefix + e)]
      case Success(f) =>
        var result := ServiceBase(d) + f;
        if SetFails(afterGet, now, maxSize, ttl) then result["reason" := JStr(ErrorPrefix + EmptyMinError)]
        else result
  }

  /** How one service call moves the cache from `s` to `s2`. */
  ghost predicate ServiceStep(s: CacheState, s2: CacheState, d: Dict, now: int, filtered: Result<Dict>, maxSize: int, ttl: int)
    requires Consistent(s)
  {
    var (afterGet, hit) := Lookup(s, CacheKeyOf(d), now, ttl);
    if IsHit(hit) || filtered.Failure? then s2 == afterGet
    else if SetFails(afterGet, now, maxSize, ttl) then s2 == Swept(afterGet, now, ttl)
    else (exists victim :: IsVictim(afterGet, now, maxSize, ttl, victim)
            && s2 == AfterSet(afterGet, CacheKeyOf(d), ServiceResult(s, d, now, filtered, maxSize, ttl), now, ttl, victim))
  }

  /** The service writes to the cache only after a successful filter: when the
      filter raises, the result carries the error as its reason at tier 2 and
      the cache is as the lookup left it. On success (with room to insert) the
      returned dictionary is what gets cached. A hit returns the cached value. */
  lemma ServiceCachesOnlySuccess(s: CacheState, s2: CacheState, d: Dict, now: int, filtered: Result<Dict>, maxSize: int, ttl: int)
    requires Consistent(s) && ServiceStep(s, s2, d, now, filtered, maxSize, ttl)
    ensures var (afterGet, hit) := Lookup(s, CacheKeyOf(d), now, ttl);
      var r := ServiceResult(s, d, now, filtered, maxSize, ttl);
      && (IsHit(hit) ==> r == s.entries[CacheKeyOf(d)] && s2 == afterGet)
      && (!IsHit(hit) && filtered.Failure? ==>
            && s2 == afterGet
            && r["log_level"] == JInt(2)
            && r["reason"] == JStr(ErrorPrefix + filtered.error))
      && (!IsHit(hit) && filtered.Success? && !SetFails(afterGet, now, maxSize, ttl) ==>
            CacheKeyOf(d) in s2.entries && s2.entries[CacheKeyOf(d)] == r && s2.times[CacheKeyOf(d)] == now)
  {
    var (afterGet, hit) := Lookup(s, CacheKeyOf(d), now, ttl);
    if !IsHit(hit) && filtered.Success? && !SetFails(afterGet, now, maxSize, ttl) {
      var victim :| IsVictim(afterGet, now, maxSize, ttl, victim)
        && s2 == AfterSet(afterGet, CacheKeyOf(d), ServiceResult(s, d, now, filtered, maxSize, ttl), now, ttl, victim);
    }
  }

  /** With `max_size >= 1`, a service call never grows the cache past it. */
  lemma ServiceBounded(s: CacheState, s2: CacheState, d: Dict, now: int, filtered: Result<Dict>, maxSize: int, ttl: int)
    requires Consistent(s) && 1 <= maxSize && |s.entries| <= maxSize
    requires ServiceStep(s, s2, d, now, filtered, maxSize, ttl)
    ensures Consistent(s2) && |s2.entries| <= maxSize
  {
    var (afterGet, hit) := Lookup(s, CacheKeyOf(d), now, ttl);
    SubsetCard(afterGet.entries.Keys, s.entries.Keys);
    if IsHit(hit) || filtered.Failure? {
    } else if SetFails(afterGet, now, maxSize, ttl) {
      SetFailsOnlyWithoutRoom(afterGet, now, maxSize, ttl);
    } else {
      var victim :| IsVictim(afterGet, now, maxSize, ttl, victim)
        && s2 == AfterSet(afterGet, CacheKeyOf(d), ServiceResult(s, d, now, filtered, maxSize, ttl), now, ttl, victim);
      SetBounded(afterGet, CacheKeyOf(d), ServiceResult(s, d, now, filtered, maxSize, ttl), now, maxSize, ttl, victim);
    }
  }

  lemma HitStep(s: CacheState, d: Dict, now: int, filtered: Result<Dict>, maxSize: int, ttl: int)
    requires Consistent(s) && IsHit(Lookup(s, CacheKeyOf(d), now, ttl).1)
    ensures ServiceResult(s, d, now, filtered, maxSize, ttl) == Lookup(s, CacheKeyOf(d), now, ttl).1.value
    ensures ServiceStep(s, Lookup(s, CacheKeyOf(d), now, ttl).0, d, now, filtered, maxSize, ttl)
  {
  }

  lemma FilterFailureStep(s: CacheState, d: Dict, now: int, e: string, maxSize: int, ttl: int)
    requires Consistent(s) && !IsHit(Lookup(s, CacheKeyOf(d), now, ttl).1)
    ensures ServiceResult(s, d, now, Failure(e), maxSize, ttl) == ServiceBase(d)["reason" := JStr(ErrorPrefix + e)]
    ensures ServiceStep(s, Lookup(s, CacheKeyOf(d), now, ttl).0, d, now, Failure(e), maxSize, ttl)
  {
  }

  lemma SetFailureStep(s: CacheState, d: Dict, now: int, f: Dict, maxSize: int, ttl: int)
    requires Consistent(s) && !IsHit(Lookup(s, CacheKeyOf(d), now, ttl).1)
    requires SetFails(Lookup(s, CacheKeyOf(d), now, ttl).0, now, maxSize, ttl)
    ensures ServiceResult(s, d, now, Success(f), maxSize, ttl) == (ServiceBase(d) + f)["reason" := JStr(ErrorPrefix + EmptyMinError)]
    ensures ServiceStep(s, Swept(Lookup(s, CacheKeyOf(d), now, ttl).0, now, ttl), d, now, Success(f), maxSize, ttl)
  {
  }

  lemma StoredStep(s: CacheState, d: Dict, now: int, f: Dict, maxSize: int, ttl: int, victim: Option<CacheKey>)
    requires Consistent(s) && !IsHit(Lookup(s, CacheKeyOf(d), now, ttl).1)
    requires !SetFails(Lookup(s, CacheKeyOf(d), now, ttl).0, now, maxSize, ttl)
    requires IsVictim(Lookup(s, CacheKeyOf(d), now, ttl).0, now, maxSize, ttl, victim)
    ensures ServiceResult(s, d, now, Success(f), maxSize, ttl) == ServiceBase(d) + f
    ensures ServiceStep(s, AfterSet(Lookup(s, CacheKeyOf(d), now, ttl).0, CacheKeyOf(d), ServiceBase(d) + f, now, ttl, victim),
                        d, now, Success(f), maxSize, ttl)
  {
  }

  /** `filter_negative_content_service`: cache lookup, then the filter, then
      `set`; an exception from the filter or from `set` becomes the reason. */
  method FilterService(cache: FilterCache, d: Dict, now: int, oracle: Dict -> Result<Dict>) returns (result: Dict)
    requires cache.Valid()
    modifies cache
    ensures cache.Valid()
    ensures result == ServiceResult(old(cache.State()), d, now, BuzzCore.Filter(d, FilterSeed, oracle), cache.maxSize, cache.ttl)
    ensures ServiceStep(old(cache.State()), cache.State(), d, now, BuzzCore.Filter(d, FilterSeed, oracle), cache.maxSize, cache.ttl)
  {
    ghost var s := cache.State();
    var cached := cache.Get(d, now);
    if cached.Some? && cached.value != map[] {
      HitStep(s, d, now, BuzzCore.Filter(d, FilterSeed, oracle), cache.maxSize, cache.ttl);
      return cached.value;
    }
    result := ServiceBase(d);
    var filtered, _ := BuzzCore.FilterNegativeContent(d, FilterSeed, oracle);
    if filtered.Failure? {
      FilterFailureStep(s, d, now, filtered.error, cache.maxSize, cache.ttl);
      result := result["reason" := JStr(ErrorPrefix + filtered.error)];
      return;
    }
    result := result + filtered.value;
    var err, victim := cache.Set(d, result, now);
    if err.Some? {
      SetFailureStep(s, d, now, filtered.value, cache.maxSize, cache.ttl);
      result := result["reason" := JStr(ErrorPrefix + err.value)];
    } else {
      StoredStep(s, d, now, filtered.value, cache.maxSize, cache.ttl, victim);
    }
  }

  /** An item of the batch request after validation; `None` is a null
      field, whether sent as null or left out. A left-out `is_kol` takes the
      model's default and arrives as `Some(false)`. */
  datatype FilterItem = FilterItem(
    id: Option<string>, topicName: Option<string>, itemType: Option<string>, topicId: Option<string>,
    siteId: Option<string>, siteName: Option<string>, title: Option<string>, content: Option<string>,
    description: Option<string>, isKol: Option<bool>, totalInteractions: Option<int>)

  function StrField(d: Dict, key: string, v: Option<string>): Dict
  {
    if v.Some? then d[key := JStr(Strip(v.value))] else d
  }

  /** `item.dict(exclude_none=True)`, with the surrounding whitespace of every
      string already stripped by validation. */
  function ToDataInput(item: FilterItem): (d: Dict)
    ensures "id" in d <==> item.id.Some?
    ensures "is_kol" in d <==> item.isKol.Some?
    ensures "total_interactions" in d <==> item.totalInteractions.Some?
  {
    var d := StrField(StrField(StrField(map[], "id", item.id), "topic_name", item.topicName), "type", item.itemType);
    var d := StrField(StrField(StrField(d, "topic_id", item.topicId), "site_id", item.siteId), "site_name", item.siteName);
    var d := StrField(StrField(StrField(d, "title", item.title), "content", item.content), "description", item.description);
    var d := if item.isKol.Some? then d["is_kol" := JBool(item.isKol.value)] else d;
    if item.totalInteractions.Some? then d["total_interactions" := JInt(item.totalInteractions.value)] else d
  }

  /** `r` is the service's answer for `item` from state `s`, which the call
      moves to `s2`. */
  ghost predicate Served(s: CacheState, s2: CacheState, r: Dict, item: FilterItem, now: int,
                         oracle: Dict -> Result<Dict>, maxSize: int, ttl: int)
  {
    var d := ToDataInput(item);
    && Consistent(s)
    && r == ServiceResult(s, d, now, BuzzCore.Filter(d, FilterSeed, oracle), maxSize, ttl)
    && ServiceStep(s, s2, d, now, BuzzCore.Filter(d, FilterSeed, oracle), maxSize, ttl)
  }

  /** The first `n` results each answer their item from the state the
      earlier items left. */
  ghost predicate ServedUpTo(results: seq<Dict>, states: seq<CacheState>, items: seq<FilterItem>, n: nat, now: int,
                             oracle: Dict -> Result<Dict>, maxSize: int, ttl: int)
  {
    && n <= |items| && |results| == n && |states| == n + 1
    && forall j :: 0 <= j < n ==> Served(states[j], states[j + 1], results[j], items[j], now, oracle, maxSize, ttl)
  }

  lemma ServedUpToExtend(results: seq<Dict>, states: seq<CacheState>, items: seq<FilterItem>, n: nat, now: int,
                         oracle: Dict -> Result<Dict>, maxSize: int, ttl: int, r: Dict, s2: CacheState)
    requires ServedUpTo(results, states, items, n, now, oracle, maxSize, ttl) && n < |items|
    requires Served(states[n], s2, r, items[n], now, oracle, maxSize, ttl)
    ensures ServedUpTo(results + [r], states + [s2], items, n + 1, now, oracle, maxSize, ttl)
    ensures (states + [s2])[0] == states[0]
  {
    var rs, ss := results + [r], states + [s2];
    forall j | 0 <= j < n + 1
      ensures Served(ss[j], ss[j + 1], rs[j], items[j], now, oracle, maxSize, ttl)
    {
      if j < n {
        assert ss[j] == states[j] && ss[j + 1] == states[j + 1] && rs[j] == results[j];
      }
    }
  }

  /** `batch_filter_negative_content_service`, one item after another: one
      result per item, in input order, each the service's answer for that
      item from the cache state the earlier items left. */
  method BatchFilterService(cache: FilterCache, items: seq<FilterItem>, now: int, oracle: Dict -> Result<Dict>)
    returns (results: seq<Dict>, ghost states: seq<CacheState>)
    requires cache.Valid()
    modifies cache
    ensures cache.Valid()
    ensures |results| == |items| && |states| == |items| + 1
    ensures states[0] == old(cache.State()) && states[|items|] == cache.State()
    ensures forall i :: 0 <= i < |items| ==>
      Served(states[i], states[i + 1], results[i], items[i], now, oracle, cache.maxSize, cache.ttl)
  {
    results := [];
    states := [cache.State()];
    for i := 0 to |items|
      invariant cache.Valid()
      invariant ServedUpTo(results, states, items, i, now, oracle, cache.maxSize, cache.ttl)
      invariant states[0] == old(cache.State()) && states[i] == cache.State()
    {
      var r := FilterService(cache, ToDataInput(items[i]), now, oracle);
      ServedUpToExtend(results, states, items, i, now, oracle, cache.maxSize, cache.ttl, r, cache.State());
      results := results + [r];
      states := states + [cache.State()];
    }
  }
}
