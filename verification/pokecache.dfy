/**
 * The response cache of internal/pokecache/pokecache.go: a map from string
 * keys to byte payloads, each stamped with the time it was stored, and a
 * reaper that removes the entries older than the cache's interval.
 *
 * Time is an explicit natural number `now` (in the unit of the interval)
 * instead of time.Now/time.Since; the mutex and the ticker goroutine are not
 * modelled, so one call of `Reap` is one tick of the reaper.
 */
module Pokecache {

  type Bytes = seq<bv8>

  /** cacheEntry: the stored payload and its creation time. */
  datatype Entry = Entry(createdAt: nat, val: Bytes)

  /** An entry is reaped at `now` when its age is strictly greater than the interval. */
  predicate Expired(e: Entry, now: nat, interval: int)
  {
    now - e.createdAt > interval
  }

  /** Every entry of `m` is at most `interval` old at `now`. */
  ghost predicate AllFresh(m: map<string, Entry>, now: nat, interval: int)
  {
    forall k :: k in m ==> !Expired(m[k], now, interval)
  }

  /** What Get answers for `key` in a cache whose map is `m`. */
  function Lookup(m: map<string, Entry>, key: string): (Bytes, bool)
  {
    if key in m then (m[key].val, true) else ([], false)
  }

  /** The map left by one reaper pass at `now`: the entries that are not expired. */
  function Reaped(m: map<string, Entry>, now: nat, interval: int): (r: map<string, Entry>)
  {
    map k | k in m && !Expired(m[k], now, interval) :: m[k]
  }

  class Cache {
    /** cacheData */
    var cacheData: map<string, Entry>
    /** The interval the reaper of this cache was started with. */
    const interval: int

    /** NewCache: an empty map; the reaper goroutine is not modelled. */
    constructor (interval: int)
      ensures cacheData == map[]
      ensures this.interval == interval
    {
      cacheData := map[];
      this.interval := interval;
    }

    /** Add: insert or fully replace the entry for `key`, stamped with `now`. */
    method Add(key: string, val: Bytes, now: nat)
      modifies this
      ensures cacheData == old(cacheData)[key := Entry(now, val)]
      ensures cacheData.Keys == old(cacheData).Keys + {key}
      ensures forall k :: k in old(cacheData) && k != key ==> cacheData[k] == old(cacheData)[k]
    {
      cacheData := cacheData[key := Entry(now, val)];
    }

    /** Get: a plain lookup; it never looks at the age of the entry. */
    method Get(key: string) returns (val: Bytes, ok: bool)
      ensures ok <==> key in cacheData
      ensures ok ==> val == cacheData[key].val
      ensures !ok ==> val == []
      ensures (val, ok) == Lookup(cacheData, key)
    {
      if key in cacheData {
        val, ok := cacheData[key].val, true;
      } else {
        val, ok := [], false;
      }
    }

    /**
     * One tick of the reaper: visit every key once and delete the entry when
     * it is expired at `now`.
     */
    method Reap(now: nat)
      modifies this
      ensures cacheData == Reaped(old(cacheData), now, interval)
      ensures AllFresh(cacheData, now, interval)
    {
      ghost var before := cacheData;
      var pending := cacheData.Keys;
      while pending != {}
        invariant pending <= before.Keys
        invariant cacheData == map k | k in before && (k in pending || !Expired(before[k], now, interval)) :: before[k]
        decreases pending
      {
        var key :| key in pending;
        if Expired(cacheData[key], now, interval) {
          cacheData := cacheData - {key};
        }
        pending := pending - {key};
      }
      ReapedAllFresh(before, now, interval);
    }
  }

  /** After Add(k, v) at time t, Get(k) answers (v, true). */
  lemma AddThenLookup(m: map<string, Entry>, key: string, val: Bytes, now: nat)
    ensures Lookup(m[key := Entry(now, val)], key) == (val, true)
  {
  }

  /** Add touches only its own key: the domain grows by at most that key and every other entry stays. */
  lemma AddFrame(m: map<string, Entry>, key: string, e: Entry, other: string)
    ensures m[key := e].Keys == m.Keys + {key}
    ensures |m[key := e]| <= |m| + 1
    ensures other != key ==> Lookup(m[key := e], other) == Lookup(m, other)
  {
    assert |m.Keys + {key}| <= |m.Keys| + |{key}|;
  }

  /** Get on an absent key answers an empty payload and false. */
  lemma LookupMiss(m: map<string, Entry>, key: string)
    requires key !in m
    ensures Lookup(m, key) == ([], false)
  {
  }

  /** A present entry is a hit whatever its age. */
  lemma LookupIgnoresAge(m: map<string, Entry>, key: string, now: nat, interval: int)
    requires key in m && Expired(m[key], now, interval)
    ensures Lookup(m, key) == (m[key].val, true)
  {
  }

  /** A reap pass removes exactly the expired entries and keeps the others as they were. */
  lemma {:induction false} ReapedExactly(m: map<string, Entry>, now: nat, interval: int, key: string)
    ensures key in Reaped(m, now, interval) <==> key in m && now - m[key].createdAt <= interval
    ensures key in Reaped(m, now, interval) ==> Reaped(m, now, interval)[key] == m[key]
  {
  }

  /** An entry whose age equals the interval survives the pass. */
  lemma ReapedKeepsBoundary(m: map<string, Entry>, now: nat, interval: int, key: string)
    requires key in m && now - m[key].createdAt == interval
    ensures Lookup(Reaped(m, now, interval), key) == Lookup(m, key)
  {
  }

  /** After a pass every entry is at most `interval` old, and the domain only shrinks. */
  lemma ReapedAllFresh(m: map<string, Entry>, now: nat, interval: int)
    ensures AllFresh(Reaped(m, now, interval), now, interval)
    ensures Reaped(m, now, interval).Keys <= m.Keys
  {
  }

  /** A second pass at the same time changes nothing. */
  lemma ReapedIdempotent(m: map<string, Entry>, now: nat, interval: int)
    ensures Reaped(Reaped(m, now, interval), now, interval) == Reaped(m, now, interval)
  {
  }

  /** A pass over a map that is already fresh changes nothing. */
  lemma ReapedFreshUnchanged(m: map<string, Entry>, now: nat, interval: int)
    requires AllFresh(m, now, interval)
    ensures Reaped(m, now, interval) == m
  {
  }

  /** Add at `now` keeps the cache fresh at `now` when the interval is not negative. */
  lemma AddKeepsFresh(m: map<string, Entry>, key: string, val: Bytes, now: nat, interval: int)
    requires AllFresh(m, now, interval) && interval >= 0
    ensures AllFresh(m[key := Entry(now, val)], now, interval)
  {
  }

  /**
   * A cache with interval 5: "u1" is added at 0 and replaced at 1; Get at 1
   * sees the new value, a pass at 4 keeps it, a pass at 7 removes it.
   */
  method OverwriteThenExpireScenario() returns (atOne: (Bytes, bool), atFour: (Bytes, bool), atSeven: (Bytes, bool))
    ensures atOne == ([0x42], true)
    ensures atFour == ([0x42], true)
    ensures atSeven == ([], false)
  {
    var cache := new Cache(5);
    cache.Add("u1", [0x41], 0);
    cache.Add("u1", [0x42], 1);
    var atOneVal, atOneOk := cache.Get("u1");
    atOne := (atOneVal, atOneOk);
    cache.Reap(4);
    var atFourVal, atFourOk := cache.Get("u1");
    atFour := (atFourVal, atFourOk);
    cache.Reap(7);
    var atSevenVal, atSevenOk := cache.Get("u1");
    atSeven := (atSevenVal, atSevenOk);
  }
}
