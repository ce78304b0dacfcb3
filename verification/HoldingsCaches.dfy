/** The in-memory maps of the holdings service: time-limited entries labelled with the source of their value. */
module HoldingsCaches {
  import opened Wrappers

  datatype Source = LiveSource | PersistedSource

  datatype Entry<V> = Entry(value: V, expiresAt: int, source: Source)

  /** What a read with this flag may see of an unexpired entry. */
  function Lookup<K(==), V>(entries: map<K, Entry<V>>, key: K, now: int, requireLive: bool): (r: Option<V>) {
    if key in entries && now < entries[key].expiresAt && !(requireLive && entries[key].source.PersistedSource?)
    then Some(entries[key].value) else None
  }

  /** Every getter deletes the entry it finds expired. */
  function Purged<K(==), V>(entries: map<K, Entry<V>>, key: K, now: int): map<K, Entry<V>> {
    if key in entries && entries[key].expiresAt <= now then entries - {key} else entries
  }

  /** Deleting on read is invisible: no later read of any key can tell. */
  lemma PurgingIsInvisible<K, V>(entries: map<K, Entry<V>>, key: K, now: int, other: K, later: int, requireLive: bool)
    requires now <= later
    ensures Lookup(Purged(entries, key, now), other, later, requireLive) == Lookup(entries, other, later, requireLive)
  {
  }

  /** One of the four value maps. */
  class TtlCache<K(==), V> {
    var entries: map<K, Entry<V>>

    constructor ()
      ensures entries == map[]
    {
      entries := map[];
    }

    method Get(key: K, now: int, requireLive: bool) returns (r: Option<V>)
      modifies this
      // An entry is served until it expires, and a persisted one never to a caller that demands live data.
      ensures r.Some? <==> key in old(entries) && now < old(entries)[key].expiresAt && !(requireLive && old(entries)[key].source.PersistedSource?)
      ensures r.Some? ==> r.value == old(entries)[key].value
      ensures r == Lookup(old(entries), key, now, requireLive)
      // Nothing but an expired entry under this key goes, so no later read can tell that this one took place.
      ensures entries - {key} == old(entries) - {key} && (key in old(entries) && key !in entries ==> old(entries)[key].expiresAt <= now)
      ensures forall k, later, live | now <= later :: Lookup(entries, k, later, live) == Lookup(old(entries), k, later, live)
    {
      ghost var before := entries;
      assert forall k, later, live | now <= later :: Lookup(Purged(before, key, now), k, later, live) == Lookup(before, k, later, live);
      if key !in entries {
        return None;
      }
      var entry := entries[key];
      if entry.expiresAt <= now {
        entries := entries - {key};
        return None;
      }
      if requireLive && entry.source.PersistedSource? {
        return None;
      }
      r := Some(entry.value);
    }

    method Set(key: K, value: V, now: int, ttlMs: int, source: Source)
      modifies this
      ensures entries == old(entries)[key := Entry(value, now + ttlMs, source)]
      ensures forall t | now <= t < now + ttlMs :: Lookup(entries, key, t, false) == Some(value)
      ensures forall t :: Lookup(entries, key, t, true) == if source.LiveSource? && t < now + ttlMs then Some(value) else None
    {
      entries := entries[key := Entry(value, now + ttlMs, source)];
    }
  }
}
