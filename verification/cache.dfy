/** `CacheService`, seen from the services: a key-value store whose `get`
    never fails (a miss or an error reads as nothing) and whose `set` never
    fails (an error is swallowed). Values are kept as the JSON data they
    serialise; expiry is not modelled, so an entry only records the TTL it
    was stored with. */
module CacheModel {
  import opened Wrappers
  import opened Values

  /** A stored value and its time to live, when it has one. */
  datatype Entry = Entry(value: Json, ttl: Option<int>)

  /** `if ttl:` — a zero or missing TTL stores without expiry. */
  function EffectiveTtl(ttl: Option<int>): (r: Option<int>)
    ensures r.Some? <==> ttl.Some? && ttl.value != 0
    ensures r.Some? ==> r == ttl
  {
    if ttl.Some? && ttl.value != 0 then ttl else None
  }

  /** What `get(key)` returns for the given entries. */
  function Lookup(entries: map<string, Entry>, key: string): (r: Option<Json>)
    ensures r.Some? <==> key in entries
    ensures r.Some? ==> r.value == entries[key].value
  {
    if key in entries then Some(entries[key].value) else None
  }

  class Cache {
    var entries: map<string, Entry>

    constructor ()
      ensures entries == map[]
    {
      entries := map[];
    }

    /** `get(key)` */
    method Get(key: string) returns (v: Option<Json>)
      ensures v == Lookup(entries, key)
    {
      if key in entries {
        v := Some(entries[key].value);
      } else {
        v := None;
      }
    }

    /** `set(key, value, ttl)`: the key now holds the value; nothing else changes. */
    method Set(key: string, value: Json, ttl: Option<int>)
      modifies this
      ensures entries == old(entries)[key := Entry(value, EffectiveTtl(ttl))]
    {
      entries := entries[key := Entry(value, EffectiveTtl(ttl))];
    }
  }

  /** A value set under a key is what `get` returns for it next, and every
      other key reads as before. */
  lemma SetThenGet(entries: map<string, Entry>, key: string, value: Json, ttl: Option<int>, other: string)
    ensures Lookup(entries[key := Entry(value, EffectiveTtl(ttl))], key) == Some(value)
    ensures other != key ==> Lookup(entries[key := Entry(value, EffectiveTtl(ttl))], other) == Lookup(entries, other)
  {
  }
}
