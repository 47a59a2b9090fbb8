/** The `cachetools.TTLCache(maxsize=1, ttl=3600)` objects that hold the
    OpenID metadata and the key set: a value view (`CacheState`) and the
    mutable cache object whose state it describes. */
module Cache {
  import opened Outcome
  import opened Json

  const MaxSize: nat := 1
  /** Seconds an entry stays live after it is stored. */
  const Ttl: int := 60 * 60

  /** What a cache holds: each key's value and the clock reading at which it expires. */
  datatype CacheState = CacheState(values: map<Json, Json>, expires: map<Json, int>)

  const Empty: CacheState := CacheState(map[], map[])

  /** The cache's own invariant: every value has a deadline and at most one entry is held. */
  predicate Bounded(st: CacheState)
  {
    st.values.Keys == st.expires.Keys && |st.values| <= MaxSize
  }

  /** `key in cache` followed by `cache[key]` at clock reading `now`: an
      entry is live strictly before its deadline. */
  function Lookup(st: CacheState, key: Json, now: int): Option<Json>
  {
    if key in st.values && key in st.expires && now < st.expires[key] then Some(st.values[key]) else None
  }

  /** The single entry a cache of capacity one holds after `cache[key] = value` at `now`. */
  function Stored(key: Json, value: Json, now: int): CacheState
  {
    CacheState(map[key := value], map[key := now + Ttl])
  }

  /** `expire()`: the entries still live at `now`. */
  function Unexpired(st: CacheState, now: int): (r: CacheState)
    requires st.values.Keys == st.expires.Keys
    ensures r.values.Keys == r.expires.Keys && r.values.Keys <= st.values.Keys
    ensures forall k :: k in r.values <==> Lookup(st, k, now).Some?
    ensures forall k :: k in r.values ==> r.values[k] == st.values[k] && r.expires[k] == st.expires[k]
  {
    var live := set k | k in st.expires && now < st.expires[k];
    CacheState(map k | k in live :: st.values[k], map k | k in live :: st.expires[k])
  }

  /** Part of a set of at most one element that holds `key`, or nothing, holds nothing else. */
  lemma OnlyKey<K>(s: set<K>, sup: set<K>, key: K)
    requires s <= sup && |sup| <= 1 && (key in s || s == {})
    ensures s <= {key}
  {
    if key in s {
      assert |sup - {key}| == |sup| - 1;
    }
  }

  /** Storing under the only key a map may hold leaves that key alone. */
  lemma StoreOnly<V>(m: map<Json, V>, key: Json, v: V)
    requires m.Keys <= {key}
    ensures m[key := v] == map[key := v]
  {
  }

  /** A stored entry is live for exactly `Ttl` seconds and evicts every other key. */
  lemma StoredLookup(key: Json, value: Json, t: int, other: Json, now: int)
    ensures Bounded(Stored(key, value, t))
    ensures Lookup(Stored(key, value, t), key, now) == (if now < t + Ttl then Some(value) else None)
    ensures other != key ==> Lookup(Stored(key, value, t), other, now) == None
  {
  }

  class TtlCache {
    const maxSize: nat
    const ttl: int
    var values: map<Json, Json>
    var expires: map<Json, int>

    ghost predicate Valid()
      reads this
    {
      maxSize == MaxSize && ttl == Ttl && Bounded(State())
    }

    function State(): CacheState
      reads this
    {
      CacheState(values, expires)
    }

    constructor ()
      ensures Valid() && State() == Empty
    {
      maxSize := MaxSize;
      ttl := Ttl;
      values := map[];
      expires := map[];
    }

    /** `key in cache` */
    predicate Contains(key: Json, now: int)
      reads this
      requires Valid()
      ensures Contains(key, now) <==> Lookup(State(), key, now).Some?
    {
      key in expires && now < expires[key]
    }

    /** `cache[key]` for a live key */
    function Get(key: Json, now: int): (v: Json)
      reads this
      requires Valid() && Contains(key, now)
      ensures Lookup(State(), key, now) == Some(v)
    {
      values[key]
    }

    /** `cache[key] = value`: drop expired entries, evict while full and the
        key is new, then store the value with deadline `now + ttl`. */
    method Set(key: Json, value: Json, now: int)
      requires Valid()
      modifies this
      ensures Valid()
      ensures State() == Stored(key, value, now)
    {
      var kept := Unexpired(State(), now);
      values := kept.values;
      expires := kept.expires;
      if key !in values && |values| >= maxSize {
        values := map[];
        expires := map[];
      }
      OnlyKey(values.Keys, old(values).Keys, key);
      StoreOnly(values, key, value);
      StoreOnly(expires, key, now + ttl);
      values := values[key := value];
      expires := expires[key := now + ttl];
    }
  }
}
