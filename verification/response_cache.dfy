/**
 * The Django cache as the agents use it: `cache.get(key)` answers the stored
 * value or None, and a lookup counts as a hit only when that value is truthy
 * (`if cached: return cached`). Time-to-live and expiry are not modelled.
 */
module ResponseCache {
  import opened JsonValue

  /** What `cache.get(key)` followed by `if cached:` accepts. */
  predicate Hit(store: map<string, Json>, key: string) {
    key in store && Truthy(store[key])
  }

  /** The value a cached operation returns and the store it leaves behind. */
  datatype Cached = Cached(value: Json, store: map<string, Json>)

  /**
   * The get-or-compute step shared by every cached operation: on a hit the
   * stored value is returned and nothing is written; otherwise the freshly
   * computed value is stored under the key and returned.
   */
  function CacheOrCompute(store: map<string, Json>, key: string, computed: Json): Cached {
    if Hit(store, key) then Cached(store[key], store) else Cached(computed, store[key := computed])
  }

  /** A hit does not depend on what the computation would have produced. */
  lemma HitIgnoresComputation(store: map<string, Json>, key: string, a: Json, b: Json)
    requires Hit(store, key)
    ensures CacheOrCompute(store, key, a) == CacheOrCompute(store, key, b) == Cached(store[key], store)
  {
  }

  /**
   * Calling twice with the same key: a truthy first answer is returned again
   * without recomputation and without touching the store; a falsy one is
   * recomputed, because it does not count as a hit.
   */
  lemma SecondCall(store: map<string, Json>, key: string, a: Json, b: Json)
    ensures var first := CacheOrCompute(store, key, a);
            var second := CacheOrCompute(first.store, key, b);
            (Truthy(first.value) ==> second == first)
            && (!Truthy(first.value) ==> second.value == b)
  {
  }

  /** Only the operation's own key is ever written. */
  lemma OtherKeysUntouched(store: map<string, Json>, key: string, computed: Json, other: string)
    requires other != key
    ensures var after := CacheOrCompute(store, key, computed).store;
            (other in after <==> other in store) && (other in store ==> after[other] == store[other])
  {
  }

  /** The shared cache store. */
  class Cache {
    var store: map<string, Json>

    constructor ()
      ensures store == map[]
    {
      store := map[];
    }

    /** `cache.get(key)`: the stored value, or None when the key is absent. */
    method Get(key: string) returns (v: Json)
      ensures v == if key in store then store[key] else JNull
      ensures Truthy(v) <==> Hit(store, key)
    {
      v := if key in store then store[key] else JNull;
    }

    /** `cache.set(key, v, timeout=...)` */
    method Set(key: string, v: Json)
      modifies this
      ensures store == old(store)[key := v]
    {
      store := store[key := v];
    }
  }
}
