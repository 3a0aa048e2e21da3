/**
  * The in-memory cache with expiry (mtg/utils/memcache.py).
  *
  * Entries are kept in a map from key to `{data, expires}`.  A positive lifetime
  * given to `set` becomes an absolute deadline `now + lifetime`; zero or a
  * negative number is stored unchanged and means "never expires".  The reaper
  * thread repeatedly removes every entry whose deadline is positive and already
  * past.  The clock is a parameter; the lock and the thread are left out.
  */
module Memcache {
  import opened Wrappers

  datatype Entry<V> = Entry(data: V, expires: real)

  // ---------------------------------------------------------------- specification

  /** The entry `set(key, value, expires)` stores at time `now`. */
  function MakeEntry<V>(value: V, expires: real, now: real): (e: Entry<V>)
    ensures e.data == value
    ensures expires > 0.0 ==> e.expires == now + expires
    ensures expires <= 0.0 ==> e.expires == expires
  {
    Entry(value, if expires > 0.0 then now + expires else expires)
  }

  /** The reaper's test: a positive deadline that lies in the past. */
  predicate Expired<V>(e: Entry<V>, now: real) {
    0.0 < e.expires < now
  }

  /** One pass of the reaper over the cache. */
  function Reaped<K(!new), V>(m: map<K, Entry<V>>, now: real): (r: map<K, Entry<V>>)
    ensures forall k :: k in r <==> k in m && !Expired(m[k], now)
    ensures forall k :: k in r ==> r[k] == m[k]
  {
    map k | k in m && !Expired(m[k], now) :: m[k]
  }

  /** `get(key)`: the data of a present entry. */
  function LookupData<K, V>(m: map<K, Entry<V>>, key: K): (r: Option<V>)
    ensures r.Some? <==> key in m
    ensures r.Some? ==> r.value == m[key].data
  {
    if key in m then Some(m[key].data) else None
  }

  // ---------------------------------------------------------------- the cache object

  class Memcache<K(==,!new), V> {
    var cache: map<K, Entry<V>>

    constructor ()
      ensures cache == map[]
    {
      cache := map[];
    }

    /** `get_ex(key)`: the whole entry, or None. */
    method GetEx(key: K) returns (r: Option<Entry<V>>)
      ensures r.Some? <==> key in cache
      ensures r.Some? ==> r.value == cache[key]
    {
      if key in cache {
        r := Some(cache[key]);
      } else {
        r := None;
      }
    }

    /** `get(key)`: the stored data, or None. */
    method Get(key: K) returns (r: Option<V>)
      ensures r == LookupData(cache, key)
    {
      var e := GetEx(key);
      if e.Some? {
        r := Some(e.value.data);
      } else {
        r := None;
      }
    }

    /** `set(key, value, expires)` at clock time `now`. */
    method Set(key: K, value: V, expires: real, now: real)
      modifies this
      ensures cache == old(cache)[key := MakeEntry(value, expires, now)]
    {
      var deadline := expires;
      if expires > 0.0 {
        deadline := now + expires;
      }
      cache := cache[key := Entry(value, deadline)];
    }

    /** `delete(key)`: `KeyError` for a key that is not present. */
    method Delete(key: K) returns (err: Option<Exc>)
      modifies this
      ensures key in old(cache) ==> err == None && cache == old(cache) - {key}
      ensures key !in old(cache) ==> err == Some(KeyError) && cache == old(cache)
    {
      if key !in cache {
        return Some(KeyError);
      }
      cache := cache - {key};
      err := None;
    }

    /** One pass of the reaper loop at clock time `now`, over a snapshot of the keys. */
    method ReapOnce(now: real)
      modifies this
      ensures cache == Reaped(old(cache), now)
    {
      var pending := cache.Keys;
      ghost var start := cache;
      while pending != {}
        invariant pending <= start.Keys
        invariant forall k :: k in cache <==> k in start && (k in pending || !Expired(start[k], now))
        invariant forall k :: k in cache ==> cache[k] == start[k]
        decreases pending
      {
        var key :| key in pending;
        pending := pending - {key};
        var entry := GetEx(key);
        if entry.Some? && Expired(entry.value, now) {
          var _ := Delete(key);
        }
      }
      assert cache == Reaped(start, now);
    }
  }

  // ---------------------------------------------------------------- properties

  /** What `set` stores is what `get` returns. */
  lemma SetThenGet<K, V>(m: map<K, Entry<V>>, key: K, value: V, expires: real, now: real)
    ensures LookupData(m[key := MakeEntry(value, expires, now)], key) == Some(value)
  {
  }

  /** An entry stored with a non-positive lifetime survives every reaper pass. */
  lemma PermanentSurvives<K(!new), V>(m: map<K, Entry<V>>, key: K, value: V, expires: real, now: real, later: real)
    requires expires <= 0.0
    ensures key in Reaped(m[key := MakeEntry(value, expires, now)], later)
  {
  }

  /** An entry stored with a positive lifetime at a non-negative clock time is removed by
      exactly those passes that run after its deadline. */
  lemma {:induction false} ExpiringEntry<K(!new), V>(m: map<K, Entry<V>>, key: K, value: V, expires: real, now: real, later: real)
    requires expires > 0.0 && now >= 0.0
    ensures key in Reaped(m[key := MakeEntry(value, expires, now)], later) <==> later <= now + expires
  {
    var e := MakeEntry(value, expires, now);
    assert e.expires == now + expires > 0.0;
  }

  /** A second pass at the same time removes nothing more. */
  lemma ReapIdempotent<K(!new), V>(m: map<K, Entry<V>>, now: real)
    ensures Reaped(Reaped(m, now), now) == Reaped(m, now)
  {
  }

  /** Reaping never adds keys and only forgets entries. */
  lemma ReapShrinks<K(!new), V>(m: map<K, Entry<V>>, now: real)
    ensures Reaped(m, now).Keys <= m.Keys
    ensures forall k :: k in m && m[k].expires <= 0.0 ==> k in Reaped(m, now)
  {
  }

  /** `get` does not look at the deadline: an entry past its deadline is still
      returned until a reaper pass removes it, and `set` followed by a pass after
      the deadline leaves nothing for `get`. */
  lemma {:induction false} ExpiredVisibleUntilReaped<K(!new), V>(m: map<K, Entry<V>>, key: K, value: V,
                                                                 expires: real, now: real, later: real)
    requires expires > 0.0 && now >= 0.0 && later > now + expires
    ensures LookupData(m[key := MakeEntry(value, expires, now)], key) == Some(value)
    ensures LookupData(Reaped(m[key := MakeEntry(value, expires, now)], later), key) == None
  {
    ExpiringEntry(m, key, value, expires, now, later);
  }
}
