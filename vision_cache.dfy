/**
 * `VisionCache` of `src/vision/template_matcher.py`: templates kept by path with
 * the time of last access, a time-to-live, and eviction of the least recently
 * accessed entry while the cache is full.
 *
 * The two Python dictionaries `cache` and `access_times` always receive and lose
 * the same keys in the same order, so one sequence `order` gives the insertion
 * order both iterate in; `min(...)` scans that order and keeps the first minimum.
 */
module TemplateCache {
  import opened Wrappers

  ghost function Elements(s: seq<string>): set<string> {
    set k | k in s
  }

  ghost predicate Distinct(s: seq<string>) {
    forall i, j :: 0 <= i < j < |s| ==> s[i] != s[j]
  }

  function RemoveAt(s: seq<string>, i: nat): seq<string>
    requires i < |s|
  {
    s[..i] + s[i + 1..]
  }

  /** The entries of `m` whose keys lie in `keys`. */
  ghost function Restrict<V>(m: map<string, V>, keys: set<string>): map<string, V> {
    map k | k in m && k in keys :: m[k]
  }

  /** Every listed key has an access time. */
  predicate Listed(order: seq<string>, times: map<string, real>) {
    forall j :: 0 <= j < |order| ==> order[j] in times
  }

  lemma ListedRemoveAt(order: seq<string>, times: map<string, real>, i: nat)
    requires i < |order| && Listed(order, times)
    ensures Listed(RemoveAt(order, i), times)
  {
    var r := RemoveAt(order, i);
    assert forall j :: 0 <= j < |r| ==> r[j] in order;
  }

  /**
   * Index of the entry `min(access_times, key=...)` picks: the least access time,
   * and among equal times the earliest in insertion order.
   */
  function OldestIndex(order: seq<string>, times: map<string, real>): (i: nat)
    requires |order| > 0 && Listed(order, times)
    ensures i < |order|
    ensures forall j :: 0 <= j < |order| ==> times[order[i]] <= times[order[j]]
    ensures forall j :: 0 <= j < i ==> times[order[i]] < times[order[j]]
  {
    if |order| == 1 then 0
    else
      var n := |order| - 1;
      var b := OldestIndex(order[..n], times);
      if times[order[n]] < times[order[b]] then n else b
  }

  /** Every key of the order is a key of `times`. */
  lemma ElementsListed(order: seq<string>, times: map<string, real>)
    requires Elements(order) <= times.Keys
    ensures Listed(order, times)
  {
    forall k | 0 <= k < |order|
      ensures order[k] in times
    {
      assert order[k] in Elements(order);
    }
  }

  /** The scan of `min(self.access_times.keys(), key=...)`: the first least access time in insertion order. */
  method OldestKey(order: seq<string>, times: map<string, real>) returns (i: nat)
    requires |order| > 0 && Listed(order, times)
    ensures i == OldestIndex(order, times)
  {
    i := 0;
    var j := 1;
    while j < |order|
      invariant 1 <= j <= |order| && i < j
      invariant i == OldestIndex(order[..j], times)
    {
      assert order[..j + 1][..j] == order[..j];
      if times[order[j]] < times[order[i]] {
        i := j;
      }
      j := j + 1;
    }
    assert order[..j] == order;
  }

  /** The keys left, in order, after the `_add_to_cache` loop evicts while the size is at least `maxSize`. */
  ghost function Evicted(order: seq<string>, times: map<string, real>, maxSize: int): (r: seq<string>)
    requires Listed(order, times)
    ensures Listed(r, times)
    decreases |order|
  {
    if |order| < maxSize || order == [] then order
    else
      var i := OldestIndex(order, times);
      ListedRemoveAt(order, times, i);
      Evicted(RemoveAt(order, i), times, maxSize)
  }

  /** The key order after inserting `key`: an existing key keeps its place. */
  function Inserted(order: seq<string>, key: string): seq<string> {
    if key in order then order else order + [key]
  }

  /** Removes every occurrence of `key`. */
  function Without(order: seq<string>, key: string): (r: seq<string>)
    ensures key !in r
    ensures forall k :: k in r <==> k in order && k != key
  {
    if order == [] then []
    else if order[0] == key then Without(order[1..], key)
    else [order[0]] + Without(order[1..], key)
  }

  lemma {:induction false} DistinctCard(s: seq<string>)
    requires Distinct(s)
    ensures |Elements(s)| == |s|
  {
    if s != [] {
      DistinctCard(s[1..]);
      assert Elements(s) == Elements(s[1..]) + {s[0]};
      assert s[0] !in Elements(s[1..]);
    }
  }

  lemma RemoveAtFacts(s: seq<string>, i: nat)
    requires i < |s| && Distinct(s)
    ensures Distinct(RemoveAt(s, i))
    ensures Elements(RemoveAt(s, i)) == Elements(s) - {s[i]}
  {
    var r := RemoveAt(s, i);
    assert forall j :: 0 <= j < |r| ==> r[j] == (if j < i then s[j] else s[j + 1]);
    forall k | k in Elements(s) - {s[i]}
      ensures k in Elements(r)
    {
      var j :| 0 <= j < |s| && s[j] == k;
      if j < i { assert r[j] == k; } else { assert r[j - 1] == k; }
    }
  }

  lemma {:induction false} WithoutFacts(s: seq<string>, key: string)
    requires Distinct(s)
    ensures Distinct(Without(s, key))
    ensures |Without(s, key)| == if key in s then |s| - 1 else |s|
  {
    if s != [] {
      WithoutFacts(s[1..], key);
      assert s[0] !in s[1..];
    }
  }

  lemma {:induction false} EvictedFacts(order: seq<string>, times: map<string, real>, maxSize: int)
    requires Listed(order, times)
    requires Distinct(order)
    ensures Distinct(Evicted(order, times, maxSize))
    ensures Elements(Evicted(order, times, maxSize)) <= Elements(order)
    decreases |order|
  {
    if !(|order| < maxSize || order == []) {
      var i := OldestIndex(order, times);
      RemoveAtFacts(order, i);
      ListedRemoveAt(order, times, i);
      var r := RemoveAt(order, i);
      EvictedFacts(r, times, maxSize);
    }
  }

  /**
   * Size after eviction: below `maxSize` when it is positive (leaving room for the
   * new entry), and nothing at all otherwise.
   */
  lemma {:induction false} EvictedSize(order: seq<string>, times: map<string, real>, maxSize: int)
    requires Listed(order, times)
    ensures maxSize >= 1 ==> |Evicted(order, times, maxSize)| == if |order| < maxSize then |order| else maxSize - 1
    ensures maxSize <= 0 ==> Evicted(order, times, maxSize) == []
    decreases |order|
  {
    if !(|order| < maxSize || order == []) {
      var i := OldestIndex(order, times);
      ListedRemoveAt(order, times, i);
      var r := RemoveAt(order, i);
      EvictedSize(r, times, maxSize);
    }
  }

  /** Eviction removes least recently accessed entries: no kept entry is older than an evicted one. */
  lemma {:induction false} EvictsLeastRecent(order: seq<string>, times: map<string, real>, maxSize: int, gone: string, kept: string)
    requires Listed(order, times)
    requires Distinct(order)
    requires gone in order && gone !in Evicted(order, times, maxSize)
    requires kept in Evicted(order, times, maxSize)
    ensures times[gone] <= times[kept]
    decreases |order|
  {
    var i := OldestIndex(order, times);
    var r := RemoveAt(order, i);
    RemoveAtFacts(order, i);
    ListedRemoveAt(order, times, i);
    EvictedFacts(r, times, maxSize);
    assert kept in Elements(Evicted(r, times, maxSize));
    if gone != order[i] {
      assert gone in Elements(r);
      EvictsLeastRecent(r, times, maxSize, gone, kept);
    } else {
      assert kept in Elements(order);
    }
  }

  /** Only the access times of the listed keys decide which entry is oldest. */
  lemma {:induction false} OldestIndexLocal(order: seq<string>, t1: map<string, real>, t2: map<string, real>)
    requires |order| > 0
    requires Listed(order, t1) && Listed(order, t2)
    requires forall j :: 0 <= j < |order| ==> t1[order[j]] == t2[order[j]]
    ensures OldestIndex(order, t1) == OldestIndex(order, t2)
  {
    if |order| > 1 {
      OldestIndexLocal(order[..|order| - 1], t1, t2);
    }
  }

  lemma RestrictRemove<V>(m: map<string, V>, keys: set<string>, k: string)
    ensures Restrict(m, keys - {k}) == Restrict(m, keys) - {k}
  {
  }

  lemma RestrictWithout<V>(m: map<string, V>, keys: set<string>, k: string)
    requires k !in keys
    ensures Restrict(m - {k}, keys) == Restrict(m, keys)
  {
  }

  lemma ElementsAppend(s: seq<string>, k: string)
    ensures Elements(s + [k]) == Elements(s) + {k}
  {
    assert forall x :: x in s + [k] <==> x in s || x == k;
  }

  datatype CacheError = EmptyMinimum   // `min()` of an empty key view raises ValueError

  class VisionCache<T> {
    var cache: map<string, T>
    var accessTimes: map<string, real>
    /** Insertion order of the keys of both dictionaries. */
    var order: seq<string>
    const maxSize: int
    const ttl: real

    ghost predicate Valid()
      reads this
    {
      && cache.Keys == accessTimes.Keys == Elements(order)
      && Distinct(order)
    }

    constructor(maxSize: int, ttl: real)
      ensures Valid()
      ensures this.maxSize == maxSize && this.ttl == ttl
      ensures cache == map[] && accessTimes == map[] && order == []
    {
      this.maxSize := maxSize;
      this.ttl := ttl;
      cache := map[];
      accessTimes := map[];
      order := [];
    }

    /**
     * `_add_to_cache`: evict the oldest entry while the cache holds at least
     * `maxSize` entries, then store the entry. When `maxSize` is not positive the
     * loop empties the cache and `min()` of the empty key view raises.
     */
    method AddToCache(key: string, value: T, now: real) returns (r: Result<(), CacheError>)
      requires Valid()
      modifies this
      ensures Valid()
      ensures r.Ok? <==> maxSize >= 1
      ensures var kept := Evicted(old(order), old(accessTimes), maxSize);
        r.Ok? ==> && order == Inserted(kept, key)
                  && cache == Restrict(old(cache), Elements(kept))[key := value]
                  && accessTimes == Restrict(old(accessTimes), Elements(kept))[key := now]
      ensures r.Err? ==> order == [] && cache == map[] && accessTimes == map[]
    {
      ghost var c0 := cache;
      ghost var t0 := accessTimes;
      ghost var target := Evicted(order, t0, maxSize);
      DistinctCard(order);
      while |cache| >= maxSize
        invariant Valid()
        invariant Listed(order, t0)
        invariant Evicted(order, t0, maxSize) == target
        invariant cache == Restrict(c0, Elements(order)) && accessTimes == Restrict(t0, Elements(order))
        invariant |cache| == |order|
        decreases |order|
      {
        if order == [] {
          return Err(EmptyMinimum);
        }
        ElementsListed(order, accessTimes);
        var i := OldestKey(order, accessTimes);
        OldestIndexLocal(order, accessTimes, t0);
        RemoveAtFacts(order, i);
        ListedRemoveAt(order, t0, i);
        RestrictRemove(c0, Elements(order), order[i]);
        RestrictRemove(t0, Elements(order), order[i]);
        EvictAt(i);
        DistinctCard(order);
      }
      assert order == target;
      Store(key, value, now);
      r := Ok(());
    }

    /** The two dictionary assignments that end `_add_to_cache`. */
    method Store(key: string, value: T, now: real)
      requires Valid()
      modifies this
      ensures Valid()
      ensures order == Inserted(old(order), key)
      ensures cache == old(cache)[key := value] && accessTimes == old(accessTimes)[key := now]
    {
      cache := cache[key := value];
      accessTimes := accessTimes[key := now];
      if key !in order {
        ElementsAppend(order, key);
        order := order + [key];
      }
    }

    /** One eviction step of the `_add_to_cache` loop. */
    method EvictAt(i: nat)
      requires Valid() && i < |order|
      modifies this
      ensures Valid()
      ensures order == RemoveAt(old(order), i)
      ensures cache == old(cache) - {old(order)[i]} && accessTimes == old(accessTimes) - {old(order)[i]}
    {
      var k := order[i];
      RemoveAtFacts(order, i);
      cache := cache - {k};
      accessTimes := accessTimes - {k};
      order := RemoveAt(order, i);
    }

    /** Size bound kept by `_add_to_cache` when `maxSize` is positive. */
    lemma SizeAfterAdd(key: string)
      requires Valid() && maxSize >= 1
      ensures |Inserted(Evicted(order, accessTimes, maxSize), key)| <= maxSize
    {
      EvictedSize(order, accessTimes, maxSize);
    }

    /**
     * `get_template`: a cached entry younger than the TTL (strictly) is a hit and
     * has its access time refreshed; an expired one is dropped. On a miss
     * `loaded` is what loading the file gave (None: missing or unreadable), and a
     * loaded template is added.
     */
    method GetTemplate(path: string, now: real, loaded: Option<T>) returns (r: Result<Option<T>, CacheError>)
      requires Valid()
      modifies this
      ensures Valid()
      ensures var hit := path in old(cache) && now - old(accessTimes)[path] < ttl;
        && (hit ==> && r == Ok(Some(old(cache)[path]))
                    && cache == old(cache) && order == old(order)
                    && accessTimes == old(accessTimes)[path := now])
        && (!hit && loaded.None? ==> && r == Ok(None)
                                     && order == Without(old(order), path)
                                     && cache == old(cache) - {path}
                                     && accessTimes == old(accessTimes) - {path})
        && (!hit && loaded.Some? ==>
              var kept := Evicted(Without(old(order), path), old(accessTimes), maxSize);
              && r == (if maxSize >= 1 then Ok(loaded) else Err(EmptyMinimum))
              && (maxSize >= 1 ==> && order == kept + [path]
                                   && cache == Restrict(old(cache), Elements(kept))[path := loaded.value]
                                   && accessTimes == Restrict(old(accessTimes), Elements(kept))[path := now])
              && (maxSize < 1 ==> order == [] && cache == map[] && accessTimes == map[]))
    {
      if path in cache && now - accessTimes[path] < ttl {
        accessTimes := accessTimes[path := now];
        return Ok(Some(cache[path]));
      }
      Drop(path);
      if loaded.None? {
        return Ok(None);
      }
      ghost var o1 := order;
      ghost var c1 := cache;
      ghost var t1 := accessTimes;
      EvictedAgree(o1, t1, old(accessTimes), maxSize);
      EvictedFacts(o1, t1, maxSize);
      ghost var kept := Evicted(o1, t1, maxSize);
      assert path !in Elements(kept);
      RestrictWithout(old(cache), Elements(kept), path);
      RestrictWithout(old(accessTimes), Elements(kept), path);
      var added := AddToCache(path, loaded.value, now);
      if added.Err? {
        return Err(EmptyMinimum);
      }
      r := Ok(loaded);
    }

    /** Deletion of an expired entry from both dictionaries. */
    method Drop(path: string)
      requires Valid()
      modifies this
      ensures Valid()
      ensures order == Without(old(order), path)
      ensures cache == old(cache) - {path} && accessTimes == old(accessTimes) - {path}
    {
      WithoutFacts(order, path);
      cache := cache - {path};
      accessTimes := accessTimes - {path};
      order := Without(order, path);
    }

    /** `clear`: both dictionaries emptied. */
    method Clear()
      modifies this
      ensures Valid()
      ensures cache == map[] && accessTimes == map[] && order == []
    {
      cache := map[];
      accessTimes := map[];
      order := [];
    }
  }

  /** Eviction depends only on the access times of the listed keys. */
  lemma {:induction false} EvictedAgree(order: seq<string>, t1: map<string, real>, t2: map<string, real>, maxSize: int)
    requires Listed(order, t1) && Listed(order, t2)
    requires forall j :: 0 <= j < |order| ==> t1[order[j]] == t2[order[j]]
    ensures Evicted(order, t1, maxSize) == Evicted(order, t2, maxSize)
    decreases |order|
  {
    if !(|order| < maxSize || order == []) {
      OldestIndexLocal(order, t1, t2);
      var i := OldestIndex(order, t1);
      ListedRemoveAt(order, t1, i);
      ListedRemoveAt(order, t2, i);
      var r := RemoveAt(order, i);
      EvictedAgree(r, t1, t2, maxSize);
    }
  }
}
