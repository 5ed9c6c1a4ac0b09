/** The duplicate-suppression window (internal/relay/dedup.go). */
module Dedup {
  import opened Common

  const TTL: Time := 10 * SECOND

  type Cache = map<PacketId, Time>

  /** What is left after every entry older than `ttl` is dropped. */
  function Evict(m: Cache, ttl: Time, now: Time): Cache {
    map id | id in m && now - m[id] <= ttl :: m[id]
  }

  class DedupCache {
    var m: Cache
    const ttl: Time

    constructor (ttl: Time)
      ensures m == map[] && this.ttl == ttl
    {
      m := map[];
      this.ttl := ttl;
    }

    method SeenOrAdd(id: PacketId, now: Time) returns (seen: bool)
      modifies this
      ensures seen <==> id in old(m)
      ensures m == if seen then old(m) else old(m)[id := now]
    {
      if id in m {
        return true;
      }
      m := m[id := now];
      return false;
    }

    method EvictExpired(now: Time)
      modifies this
      ensures m == Evict(old(m), ttl, now)
      ensures forall id :: id in m <==> id in old(m) && now - old(m)[id] <= ttl
      ensures forall id :: id in m ==> m[id] == old(m)[id]
    {
      ghost var m0 := m;
      var todo := m.Keys;
      while todo != {}
        invariant todo <= m.Keys <= m0.Keys
        invariant forall id :: id in m0 && id !in todo ==> (id in m <==> now - m0[id] <= ttl)
        invariant forall id :: id in m ==> m[id] == m0[id]
      {
        var id :| id in todo;
        if now - m[id] > ttl {
          m := m - {id};
        }
        todo := todo - {id};
      }
    }
  }
}
