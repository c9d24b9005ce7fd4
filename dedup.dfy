/** The Redis keys the pipeline uses as "already notified" markers. Each key
    maps to the time (in seconds, on an abstract clock) at which it expires. */
module Dedup {

  /** A key that is stored and not yet expired at time `now`; Redis `GET` finds it. */
  predicate Live(entries: map<string, int>, key: string, now: int) {
    key in entries && now < entries[key]
  }

  class DedupStore {
    var entries: map<string, int>

    constructor ()
      ensures entries == map[]
    {
      entries := map[];
    }

    /** `GET key`: the stored value is truthy exactly when the key is live. */
    method Get(key: string, now: int) returns (found: bool)
      ensures found <==> Live(entries, key, now)
    {
      found := key in entries && now < entries[key];
    }

    /** `SET key value EX ttl`: the key (new or not) now expires `ttl` seconds from `now`. */
    method Set(key: string, ttl: int, now: int)
      requires ttl > 0
      modifies this
      ensures entries == old(entries)[key := now + ttl]
      ensures Live(entries, key, now)
      ensures forall k :: k != key ==> (k in entries <==> k in old(entries))
      ensures forall k :: k != key && k in entries ==> entries[k] == old(entries)[k]
    {
      entries := entries[key := now + ttl];
    }
  }
}
