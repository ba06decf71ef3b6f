// The in-memory cache with expiry and least-recently-accessed eviction,
// and the history and bookmark lists kept in storage.

module Storage {
  import opened Text

  // ---------------------------------------------------------------------
  // The memory cache

  /** `CacheItem`: the stored value with its times (milliseconds) and hit count. */
  datatype CacheItem<T> = CacheItem(data: T, timestamp: int, expiry: int, hits: nat, lastAccessed: int)

  /** What `getStats` returns. */
  datatype CacheStats = CacheStats(size: nat, totalHits: nat, oldestItem: int, newestItem: int)

  const DEFAULT_MAX_SIZE := 100
  const DEFAULT_TTL := 300000

  predicate Distinct(keys: seq<string>)
  {
    forall i, j | 0 <= i < j < |keys| :: keys[i] != keys[j]
  }

  /** `ttl || defaultTTL`: an absent or zero `ttl` falls back to the default. */
  function TimeToLive(ttl: Option<int>, defaultTTL: int): int
  {
    if ttl.None? || ttl.value == 0 then defaultTTL else ttl.value
  }

  /** A hit: one more hit, accessed now. */
  function Touched<T>(item: CacheItem<T>, now: int): CacheItem<T>
  {
    item.(hits := item.hits + 1, lastAccessed := now)
  }

  /** The key order after `Map.delete(key)`. */
  function Drop(keys: seq<string>, key: string): (r: seq<string>)
    ensures forall k :: k in r <==> k in keys && k != key
    ensures Distinct(keys) ==> Distinct(r) && |r| == if key in keys then |keys| - 1 else |keys|
  {
    if |keys| == 0 then []
    else
      var rest := Drop(keys[..|keys| - 1], key);
      var k := keys[|keys| - 1];
      assert forall x :: x in keys <==> x in keys[..|keys| - 1] || x == k;
      assert Distinct(keys) ==> Distinct(keys[..|keys| - 1]) && k !in keys[..|keys| - 1];
      if k == key then rest else rest + [k]
  }

  /**
   * The scan of `evictOldest` over the entries in insertion order: starting
   * from the key `""` and the time `now`, an entry replaces the best so far
   * when it was accessed strictly earlier.
   */
  function Oldest<T>(order: seq<string>, items: map<string, CacheItem<T>>, now: int): (string, int)
    requires forall k | k in order :: k in items
  {
    if |order| == 0 then ("", now)
    else
      var best := Oldest(order[..|order| - 1], items, now);
      var k := order[|order| - 1];
      if items[k].lastAccessed < best.1 then (k, items[k].lastAccessed) else best
  }

  /** The cache after `evictOldest`: the key found is deleted, unless it is the empty string. */
  function Evicted<T>(order: seq<string>, items: map<string, CacheItem<T>>, now: int): (seq<string>, map<string, CacheItem<T>>)
    requires forall k | k in order :: k in items
  {
    var victim := Oldest(order, items, now).0;
    if victim != "" then (Drop(order, victim), items - {victim}) else (order, items)
  }

  /** The fold of `getStats` over the entries. */
  function Stats<T>(order: seq<string>, items: map<string, CacheItem<T>>, now: int): CacheStats
    requires forall k | k in order :: k in items
  {
    if |order| == 0 then CacheStats(0, 0, now, 0)
    else
      var s := Stats(order[..|order| - 1], items, now);
      var item := items[order[|order| - 1]];
      CacheStats(s.size + 1, s.totalHits + item.hits, Min(s.oldestItem, item.timestamp), Max(s.newestItem, item.timestamp))
  }

  /**
   * `MemoryCache`: a JavaScript `Map` from keys to items, which iterates in
   * insertion order (`order`); setting a present key keeps its place.
   */
  class MemoryCache<T> {
    var order: seq<string>
    var items: map<string, CacheItem<T>>
    const maxSize: int
    const defaultTTL: int

    ghost predicate Valid()
      reads this
    {
      Distinct(order) && forall k :: k in items <==> k in order
    }

    /** An omitted argument takes its default: 100 entries, five minutes. */
    constructor(maxSize: Option<int>, defaultTTL: Option<int>)
      ensures Valid() && order == [] && items == map[]
      ensures this.maxSize == (if maxSize.Some? then maxSize.value else DEFAULT_MAX_SIZE)
      ensures this.defaultTTL == (if defaultTTL.Some? then defaultTTL.value else DEFAULT_TTL)
    {
      this.maxSize := if maxSize.Some? then maxSize.value else DEFAULT_MAX_SIZE;
      this.defaultTTL := if defaultTTL.Some? then defaultTTL.value else DEFAULT_TTL;
      order := [];
      items := map[];
    }

    /** `size()`: the number of entries. */
    function Size(): (n: nat)
      requires Valid()
      reads this
      ensures n == |order|
    {
      KeyCount(order, items);
      |items|
    }

    /**
     * `set`: when the cache is full, evict first; then store the item with no
     * hits, created and accessed now, expiring after the time to live.
     */
    method Set(key: string, data: T, ttl: Option<int>, now: int)
      requires Valid()
      modifies this
      ensures Valid()
      ensures var (o, m) := if |old(items)| >= maxSize then Evicted(old(order), old(items), now) else (old(order), old(items));
        && items == m[key := CacheItem(data, now, now + TimeToLive(ttl, defaultTTL), 0, now)]
        && order == if key in m then o else o + [key]
    {
      var expiry := now + TimeToLive(ttl, defaultTTL);
      if |items| >= maxSize {
        EvictOldest(now);
      }
      if key !in items {
        order := order + [key];
      }
      items := items[key := CacheItem(data, now, expiry, 0, now)];
    }

    /**
     * `get`: nothing for a missing key; an expired entry is deleted; a hit
     * counts, is stamped `now`, and leaves every other entry alone.
     */
    method Get(key: string, now: int) returns (data: Option<T>)
      requires Valid()
      modifies this
      ensures Valid()
      ensures key !in old(items) ==> data.None? && items == old(items) && order == old(order)
      ensures key in old(items) && now > old(items)[key].expiry ==>
                data.None? && items == old(items) - {key} && order == Drop(old(order), key)
      ensures key in old(items) && now <= old(items)[key].expiry ==>
                data == Some(old(items)[key].data) && order == old(order)
                && items == old(items)[key := Touched(old(items)[key], now)]
    {
      if key !in items {
        return None;
      }
      var item := items[key];
      if now > item.expiry {
        items := items - {key};
        order := Drop(order, key);
        return None;
      }
      items := items[key := Touched(item, now)];
      return Some(item.data);
    }

    /** `has`: like `get` without touching the entry; an expired entry is still deleted. */
    method Has(key: string, now: int) returns (present: bool)
      requires Valid()
      modifies this
      ensures Valid()
      ensures present <==> key in old(items) && now <= old(items)[key].expiry
      ensures key in old(items) && now > old(items)[key].expiry ==>
                items == old(items) - {key} && order == Drop(old(order), key)
      ensures !(key in old(items) && now > old(items)[key].expiry) ==> items == old(items) && order == old(order)
    {
      if key !in items {
        return false;
      }
      if now > items[key].expiry {
        items := items - {key};
        order := Drop(order, key);
        return false;
      }
      return true;
    }

    /** `delete`: whether the key was there; it is gone afterwards. */
    method Delete(key: string) returns (existed: bool)
      requires Valid()
      modifies this
      ensures Valid()
      ensures existed == (key in old(items))
      ensures items == old(items) - {key} && order == Drop(old(order), key)
    {
      existed := key in items;
      items := items - {key};
      order := Drop(order, key);
    }

    method Clear()
      modifies this
      ensures Valid() && items == map[] && order == []
    {
      items := map[];
      order := [];
    }

    /** `getStats`: one pass over the entries. */
    method GetStats(now: int) returns (stats: CacheStats)
      requires Valid()
      ensures stats == Stats(order, items, now)
    {
      var totalHits: nat := 0;
      var oldestTimestamp := now;
      var newestTimestamp := 0;
      for i := 0 to |order|
        invariant Stats(order[..i], items, now) == CacheStats(i, totalHits, oldestTimestamp, newestTimestamp)
      {
        assert order[..i + 1][..i] == order[..i];
        var item := items[order[i]];
        totalHits := totalHits + item.hits;
        if item.timestamp < oldestTimestamp {
          oldestTimestamp := item.timestamp;
        }
        if item.timestamp > newestTimestamp {
          newestTimestamp := item.timestamp;
        }
      }
      assert order[..|order|] == order;
      stats := CacheStats(Size(), totalHits, oldestTimestamp, newestTimestamp);
    }

    /** `evictOldest`: scan for the least recently accessed entry and delete it. */
    method EvictOldest(now: int)
      requires Valid()
      modifies this
      ensures Valid()
      ensures (order, items) == Evicted(old(order), old(items), now)
    {
      var oldestKey := "";
      var oldestAccess := now;
      for i := 0 to |order|
        invariant (oldestKey, oldestAccess) == Oldest(order[..i], items, now)
      {
        assert order[..i + 1][..i] == order[..i];
        var item := items[order[i]];
        if item.lastAccessed < oldestAccess {
          oldestAccess := item.lastAccessed;
          oldestKey := order[i];
        }
      }
      assert order[..|order|] == order;
      if oldestKey != "" {
        items := items - {oldestKey};
        order := Drop(order, oldestKey);
      }
    }
  }

  /** A map whose keys are exactly the distinct `order` has as many entries as `order`. */
  lemma {:induction false} KeyCount<T>(order: seq<string>, items: map<string, CacheItem<T>>)
    requires Distinct(order) && forall k :: k in items <==> k in order
    ensures |items| == |order|
  {
    if |order| == 0 {
      assert items == map[];
    } else {
      var k := order[|order| - 1];
      var rest := order[..|order| - 1];
      assert Distinct(rest);
      assert k !in rest;
      assert forall x :: x in items - {k} <==> x in rest;
      KeyCount(rest, items - {k});
    }
  }

  /**
   * The scan finds the earliest access below `now`, and the key of an entry
   * holding it; when no entry was accessed before `now` it keeps `""`.
   */
  lemma {:induction false} OldestIsMinimal<T>(order: seq<string>, items: map<string, CacheItem<T>>, now: int)
    requires forall k | k in order :: k in items
    ensures var best := Oldest(order, items, now);
      && best.1 <= now
      && (best.1 < now ==> best.0 in order && items[best.0].lastAccessed == best.1)
      && (best.1 == now ==> best.0 == "")
      && forall k | k in order :: best.1 <= items[k].lastAccessed
  {
    if |order| > 0 {
      var rest := order[..|order| - 1];
      assert forall k | k in order :: k in rest || k == order[|order| - 1];
      OldestIsMinimal(rest, items, now);
    }
  }

  /**
   * Eviction removes at most one entry: none, or the one accessed earliest,
   * strictly before `now`. So a full cache can still grow past `maxSize`.
   */
  lemma EvictsAtMostOne<T>(order: seq<string>, items: map<string, CacheItem<T>>, now: int)
    requires Distinct(order) && forall k :: k in items <==> k in order
    ensures var victim := Oldest(order, items, now).0;
      var (o, m) := Evicted(order, items, now);
      && (victim == "" ==> m == items && o == order)
      && (victim != "" ==>
            && victim in items && m == items - {victim} && |o| == |order| - 1
            && items[victim].lastAccessed < now
            && forall k | k in items :: items[victim].lastAccessed <= items[k].lastAccessed)
  {
    OldestIsMinimal(order, items, now);
  }

  /** An entry under the empty key is found as the oldest and then never deleted. */
  lemma EmptyKeySurvives<T>(item: CacheItem<T>, now: int)
    requires item.lastAccessed < now
    ensures Oldest([""], map["" := item], now) == ("", item.lastAccessed)
    ensures Evicted([""], map["" := item], now) == ([""], map["" := item])
  {
    assert [""][..0] == [];
  }

  /**
   * `getStats`: the size; the earliest creation time, or `now` when none is
   * earlier; the latest one, or 0 when none is later; and hits that add up
   * over the entries, zero exactly when no entry was hit.
   */
  lemma {:induction false} StatsMeans<T>(order: seq<string>, items: map<string, CacheItem<T>>, now: int)
    requires forall k | k in order :: k in items
    ensures var s := Stats(order, items, now);
      && s.size == |order|
      && s.oldestItem <= now && 0 <= s.newestItem
      && (forall k | k in order :: s.oldestItem <= items[k].timestamp <= s.newestItem)
      && (s.oldestItem == now || exists k | k in order :: items[k].timestamp == s.oldestItem)
      && (s.newestItem == 0 || exists k | k in order :: items[k].timestamp == s.newestItem)
      && (forall k | k in order :: items[k].hits <= s.totalHits)
      && (s.totalHits == 0 <==> forall k | k in order :: items[k].hits == 0)
  {
    if |order| > 0 {
      var rest := order[..|order| - 1];
      assert forall k | k in order :: k in rest || k == order[|order| - 1];
      assert forall k | k in rest :: k in order;
      StatsMeans(rest, items, now);
    }
  }

  /** The hit total over two runs of entries is the sum of their totals. */
  lemma {:induction false} StatsHitsAppend<T>(o1: seq<string>, o2: seq<string>, items: map<string, CacheItem<T>>, now: int)
    requires forall k | k in o1 + o2 :: k in items
    ensures Stats(o1 + o2, items, now).totalHits == Stats(o1, items, now).totalHits + Stats(o2, items, now).totalHits
  {
    assert forall k | k in o1 :: k in o1 + o2;
    assert forall k | k in o2 :: k in o1 + o2;
    if |o2| == 0 {
      assert o1 + o2 == o1;
    } else {
      var init := o2[..|o2| - 1];
      assert forall k | k in o1 + init :: k in o1 + o2;
      StatsHitsAppend(o1, init, items, now);
      assert (o1 + o2)[..|o1 + o2| - 1] == o1 + init;
      assert (o1 + o2)[|o1 + o2| - 1] == o2[|o2| - 1];
    }
  }

  /** A hit on a key that occurs once raises `totalHits` by exactly one. */
  lemma {:induction false} HitAddsOne<T>(order: seq<string>, items: map<string, CacheItem<T>>, key: string, now: int)
    requires Distinct(order) && forall k | k in order :: k in items
    requires key in order
    ensures Stats(order, items[key := Touched(items[key], now)], now).totalHits == Stats(order, items, now).totalHits + 1
  {
    var rest := order[..|order| - 1];
    var last := order[|order| - 1];
    var touched := items[key := Touched(items[key], now)];
    assert Distinct(rest);
    if last == key {
      assert key !in rest;
      SameHitsElsewhere(rest, items, touched, now);
    } else {
      assert key in rest;
      HitAddsOne(rest, items, key, now);
    }
  }

  /** Entries changed only outside `order` leave the hit total over `order` alone. */
  lemma {:induction false} SameHitsElsewhere<T>(order: seq<string>, a: map<string, CacheItem<T>>,
                                                b: map<string, CacheItem<T>>, now: int)
    requires forall k | k in order :: k in a && k in b && a[k].hits == b[k].hits
    ensures Stats(order, a, now).totalHits == Stats(order, b, now).totalHits
  {
    if |order| > 0 {
      SameHitsElsewhere(order[..|order| - 1], a, b, now);
    }
  }

  // ---------------------------------------------------------------------
  // History and bookmarks

  /** A stored history item (`result`) or bookmark (`title`), with the URL and the time it was saved. */
  datatype Saved<P> = Saved(url: string, payload: P, timestamp: int)

  const MAX_HISTORY := 50

  /** `filter(item => item.url !== url)` */
  function Without<P>(entries: seq<Saved<P>>, url: string): (r: seq<Saved<P>>)
    ensures |r| <= |entries|
  {
    if |entries| == 0 then []
    else
      var rest := Without(entries[..|entries| - 1], url);
      var e := entries[|entries| - 1];
      if e.url != url then rest + [e] else rest
  }

  /** The filter keeps exactly the entries for other URLs, in their order. */
  lemma {:induction false} WithoutMeans<P>(entries: seq<Saved<P>>, url: string)
    ensures var r := Without(entries, url);
      && (forall e :: e in r <==> e in entries && e.url != url)
      && Subsequence(r, entries)
  {
    if |entries| > 0 {
      var init := entries[..|entries| - 1];
      var e := entries[|entries| - 1];
      WithoutMeans(init, url);
      assert forall x :: x in entries <==> x in init || x == e;
      var rest := Without(init, url);
      if e.url != url {
        assert (rest + [e])[..|rest|] == rest;
      } else {
        SubsequenceGrows(rest, init, e);
      }
    }
  }

  /**
   * `addToHistory`: drop earlier items for the URL, put the new one first,
   * keep at most fifty.
   */
  function AddToHistory<R>(history: seq<Saved<R>>, url: string, result: R, now: int): seq<Saved<R>>
  {
    var filtered := [Saved(url, result, now)] + Without(history, url);
    filtered[..Min(MAX_HISTORY, |filtered|)]
  }

  /**
   * The new item comes first and its URL occurs nowhere else; at most fifty
   * items remain; the others are a prefix of the old list without that URL,
   * so they keep their relative order.
   */
  lemma AddToHistoryMeans<R>(history: seq<Saved<R>>, url: string, result: R, now: int)
    ensures var r := AddToHistory(history, url, result, now);
      && 1 <= |r| <= MAX_HISTORY
      && r[0] == Saved(url, result, now)
      && (forall i | 1 <= i < |r| :: r[i].url != url && r[i] in history)
      && r[1..] <= Without(history, url)
      && (|Without(history, url)| < MAX_HISTORY ==> r[1..] == Without(history, url))
  {
    hide Subsequence;
    WithoutMeans(history, url);
    var w := Without(history, url);
    var f := [Saved(url, result, now)] + w;
    var r := f[..Min(MAX_HISTORY, |f|)];
    assert r == AddToHistory(history, url, result, now);
    assert r[1..] == w[..|r| - 1];
    forall i | 1 <= i < |r|
      ensures r[i].url != url && r[i] in history
    {
      assert r[i] == w[i - 1] && w[i - 1] in w;
    }
  }

  /** `bookmarks.some(item => item.url === url)` */
  predicate HasUrl<P>(entries: seq<Saved<P>>, url: string)
  {
    exists i | 0 <= i < |entries| :: entries[i].url == url
  }

  /** `addToBookmarks`: nothing changes when the URL is already saved; an empty title becomes the URL. */
  function AddToBookmarks(bookmarks: seq<Saved<string>>, url: string, title: Option<string>, now: int)
    : seq<Saved<string>>
  {
    if HasUrl(bookmarks, url) then bookmarks
    else bookmarks + [Saved(url, if title.None? || title.value == "" then url else title.value, now)]
  }

  /** `removeFromBookmarks` */
  function RemoveFromBookmarks(bookmarks: seq<Saved<string>>, url: string): seq<Saved<string>>
  {
    Without(bookmarks, url)
  }

  /**
   * Adding a saved URL is a no-op; adding a new one appends it, and removing
   * it again gives back the list before. Removing drops every entry for the
   * URL and keeps the rest in order.
   */
  lemma BookmarksRoundTrip(bookmarks: seq<Saved<string>>, url: string, title: Option<string>, now: int)
    ensures HasUrl(bookmarks, url) ==> AddToBookmarks(bookmarks, url, title, now) == bookmarks
    ensures !HasUrl(bookmarks, url) ==>
              |AddToBookmarks(bookmarks, url, title, now)| == |bookmarks| + 1
              && RemoveFromBookmarks(AddToBookmarks(bookmarks, url, title, now), url) == bookmarks
    ensures !HasUrl(RemoveFromBookmarks(bookmarks, url), url)
    ensures Subsequence(RemoveFromBookmarks(bookmarks, url), bookmarks)
  {
    WithoutMeans(bookmarks, url);
    var removed := RemoveFromBookmarks(bookmarks, url);
    assert forall i | 0 <= i < |removed| :: removed[i] in removed;
    if !HasUrl(bookmarks, url) {
      var added := AddToBookmarks(bookmarks, url, title, now);
      assert added[..|added| - 1] == bookmarks;
      WithoutKeepsAll(bookmarks, url);
    }
  }

  /** Filtering out a URL no entry has changes nothing. */
  lemma {:induction false} WithoutKeepsAll<P>(entries: seq<Saved<P>>, url: string)
    requires !HasUrl(entries, url)
    ensures Without(entries, url) == entries
  {
    if |entries| > 0 {
      var init := entries[..|entries| - 1];
      assert !HasUrl(init, url) by {
        assert forall i | 0 <= i < |init| :: init[i] == entries[i];
      }
      WithoutKeepsAll(init, url);
    }
  }
}
