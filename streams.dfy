/** The part of a Redis server the worker uses: per-key append-only streams
    whose entries are field/value maps, and a time-to-live per key. Real
    entry ids, the passing of time and connection handling are not modelled. */
module Streams {

  /** One stream entry: its field names and their values. */
  type Fields<V> = map<string, V>

  /** The entries of the stream at `key` in `streams`; empty when the key is absent. */
  function LogOf<V>(streams: map<string, seq<Fields<V>>>, key: string): seq<Fields<V>> {
    if key in streams then streams[key] else []
  }

  /** `streams` after appending `entries`, in order, to the stream at `key`.
      Appending nothing leaves an absent key absent. */
  function AppendAll<V>(streams: map<string, seq<Fields<V>>>, key: string, entries: seq<Fields<V>>)
    : (r: map<string, seq<Fields<V>>>)
    ensures LogOf(r, key) == LogOf(streams, key) + entries
    ensures forall k :: k != key ==> LogOf(r, k) == LogOf(streams, k)
    ensures r.Keys == if entries == [] then streams.Keys else streams.Keys + {key}
  {
    if entries == [] then streams else streams[key := LogOf(streams, key) + entries]
  }

  /** Appending a list and then one more entry is appending the longer list. */
  lemma AppendAllSnoc<V>(streams: map<string, seq<Fields<V>>>, key: string,
                         entries: seq<Fields<V>>, e: Fields<V>)
    ensures AppendAll(streams, key, entries + [e])
            == AppendAll(streams, key, entries)[key := LogOf(AppendAll(streams, key, entries), key) + [e]]
  {
    var l := LogOf(streams, key);
    if entries == [] {
      assert entries + [e] == [e];
    } else {
      assert l + (entries + [e]) == (l + entries) + [e];
      assert streams[key := l + entries][key := l + entries + [e]] == streams[key := l + (entries + [e])];
    }
  }

  class StreamStore<V> {
    /** The stream held under each key; a key that was never appended to is absent. */
    var streams: map<string, seq<Fields<V>>>
    /** The expiry, in seconds, last set on each key. */
    var ttl: map<string, nat>

    constructor ()
      ensures streams == map[] && ttl == map[]
    {
      streams := map[];
      ttl := map[];
    }

    /** The entries of the stream at `key`, oldest first; empty when the key is absent. */
    function Log(key: string): seq<Fields<V>>
      reads this
    {
      LogOf(streams, key)
    }

    /** XADD with an auto-generated id: the stream at `key` (created if absent)
        gains `fields` as its last entry; nothing else changes. */
    method XAdd(key: string, fields: Fields<V>)
      modifies this
      ensures streams == old(streams)[key := old(Log(key)) + [fields]]
      ensures ttl == old(ttl)
    {
      streams := streams[key := Log(key) + [fields]];
    }

    /** EXPIRE: records `seconds` as the key's time-to-live and reports true
        when the key exists; on an absent key it does nothing and reports false. */
    method Expire(key: string, seconds: nat) returns (applied: bool)
      modifies this
      ensures applied == (key in old(streams))
      ensures streams == old(streams)
      ensures ttl == if applied then old(ttl)[key := seconds] else old(ttl)
    {
      applied := key in streams;
      if applied {
        ttl := ttl[key := seconds];
      }
    }
  }
}
