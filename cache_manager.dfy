/**
 * CacheManager: the plugin's layer over the WordPress transient store.
 * The cache mode chosen in the settings scales every TTL (fast 0.5,
 * slow 2.0, otherwise 1.0), and the scaled TTL is never below one second.
 */
module Cache {
  import opened Wrappers
  import opened Json
  import opened Numeric

  /** A transient: the stored value and the TTL, in seconds, it was stored with. */
  datatype Transient = Transient(value: Json, ttl: int)

  /** The multiplier the constructor derives from the settings array's `cache_mode`. */
  function Multiplier(options: Json): (m: real)
    ensures m == 0.5 <==> Get(options, "cache_mode") == Some(JStr("fast"))
    ensures m == 2.0 <==> Get(options, "cache_mode") == Some(JStr("slow"))
    ensures m == 1.0 <==> Get(options, "cache_mode") !in {Some(JStr("fast")), Some(JStr("slow"))}
  {
    match Get(options, "cache_mode")
    case Some(JStr("fast")) => 0.5
    case Some(JStr("slow")) => 2.0
    case _ => 1.0
  }

  /** The TTL `set` hands to set_transient: the scaled TTL, rounded, and at least 1. */
  function AdjustedTtl(ttl: int, multiplier: real): (r: int)
    ensures r >= 1
    ensures r == 1 || r == RoundHalfAwayFromZero(ttl as real * multiplier)
    ensures RoundHalfAwayFromZero(ttl as real * multiplier) >= 1 ==> r == RoundHalfAwayFromZero(ttl as real * multiplier)
  {
    var adjusted := RoundHalfAwayFromZero(ttl as real * multiplier);
    if adjusted > 1 then adjusted else 1
  }

  /** Normal mode keeps the TTL, floored at 1. */
  lemma NormalModeTtl(ttl: int)
    ensures AdjustedTtl(ttl, 1.0) == if ttl > 1 then ttl else 1
  {
    assert ttl as real * 1.0 == ttl as real;
  }

  /** Slow mode doubles the TTL, floored at 1. */
  lemma SlowModeTtl(ttl: int)
    ensures AdjustedTtl(ttl, 2.0) == if 2 * ttl > 1 then 2 * ttl else 1
  {
    assert ttl as real * 2.0 == (2 * ttl) as real;
  }

  /** Fast mode halves the TTL, an odd TTL rounding up: (ttl + 1) / 2, floored at 1. */
  lemma FastModeTtl(ttl: nat)
    ensures AdjustedTtl(ttl, 0.5) == if (ttl + 1) / 2 > 1 then (ttl + 1) / 2 else 1
  {
    var q := (ttl + 1) / 2;
    var x := ttl as real * 0.5;
    assert x + 0.5 == q as real + ((ttl + 1) % 2) as real * 0.5;
    assert (x + 0.5).Floor == q;
  }

  /**
   * get() on `store`: null for a miss and for a stored `false` (which
   * get_transient cannot tell from a miss), and a stored null is null too.
   */
  function Lookup(store: map<string, Transient>, key: string): (r: Option<Json>)
    ensures r.None? <==> key !in store || store[key].value == JBool(false) || store[key].value == JNull
    ensures r.Some? ==> r.value == store[key].value
  {
    if key in store && store[key].value != JBool(false) && store[key].value != JNull then Some(store[key].value)
    else None
  }

  class CacheManager {
    /** Fixed by the constructor from the cache mode setting. */
    const ttlMultiplier: real
    /** The transient store, keyed by transient name. */
    var transients: map<string, Transient>

    /** Reads the cache mode from the settings array; `store` is what the transient store already holds. */
    constructor (options: Json, store: map<string, Transient>)
      ensures ttlMultiplier == Multiplier(options)
      ensures transients == store
    {
      ttlMultiplier := Multiplier(options);
      transients := store;
    }

    /** get() on the current store. */
    function Get(key: string): Option<Json>
      reads this
    {
      Lookup(transients, key)
    }

    /** set_transient with the adjusted TTL. */
    method Set(key: string, data: Json, ttl: int)
      modifies this
      ensures transients == old(transients)[key := Transient(data, AdjustedTtl(ttl, ttlMultiplier))]
      ensures Get(key) == if data == JBool(false) || data == JNull then None else Some(data)
      ensures forall k :: k != key ==> Get(k) == old(Get(k))
    {
      transients := transients[key := Transient(data, AdjustedTtl(ttl, ttlMultiplier))];
    }

    /** delete_transient */
    method Delete(key: string)
      modifies this
      ensures transients == old(transients) - {key}
      ensures Get(key) == None
      ensures forall k :: k != key ==> Get(k) == old(Get(k))
    {
      transients := transients - {key};
    }
  }
}
