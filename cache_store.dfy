/**
 * The on-disk media cache (a `SimpleCache`) as the controller sees it: an
 * index from cache keys to the byte ranges (spans) held for each key. The
 * index is kept as a list of entries, one per key (`UniqueKeys`). Eviction is done by the
 * cache itself and is not part of this model.
 */
module CacheStores {

  /** A cached byte range of one resource. */
  datatype Span = Span(position: int, length: nat)

  datatype Entry = Entry(key: string, spans: seq<Span>)

  /** The cache's key index. */
  datatype Store = Store(index: seq<Entry>)

  /** No key has two entries. */
  predicate UniqueKeys(index: seq<Entry>)
  {
    forall i, j :: 0 <= i < j < |index| ==> index[i].key != index[j].key
  }

  /** The bytes held by a list of spans. */
  function SpanBytes(spans: seq<Span>): nat
  {
    if spans == [] then 0 else spans[0].length + SpanBytes(spans[1..])
  }

  /** `getCacheSpace()`: the bytes held under every key. */
  function Space(index: seq<Entry>): nat
  {
    if index == [] then 0 else SpanBytes(index[0].spans) + Space(index[1..])
  }

  /** `getKeys()`. */
  function Keys(index: seq<Entry>): (r: set<string>)
    ensures forall e :: e in index ==> e.key in r
    ensures forall k :: k in r ==> exists e :: e in index && e.key == k
  {
    set e | e in index :: e.key
  }

  /** `getCachedSpans(key)`: empty for a key the cache does not know. */
  function CachedSpans(index: seq<Entry>, key: string): seq<Span>
  {
    if index == [] then [] else if index[0].key == key then index[0].spans else CachedSpans(index[1..], key)
  }

  /** The entries whose key is in `keys`, in index order. */
  function Keep(index: seq<Entry>, keys: set<string>): (r: seq<Entry>)
    ensures forall e :: e in r <==> e in index && e.key in keys
  {
    if index == [] then []
    else if index[0].key in keys then [index[0]] + Keep(index[1..], keys)
    else Keep(index[1..], keys)
  }

  /** With one entry per key, the spans looked up for a key are those of its entry. */
  lemma {:induction false} CachedSpansOfEntry(index: seq<Entry>, e: Entry)
    requires UniqueKeys(index) && e in index
    ensures CachedSpans(index, e.key) == e.spans
  {
    if index[0] != e {
      assert e in index[1..];
      var j :| 1 <= j < |index| && index[j] == e;
      assert index[0].key != e.key;
      CachedSpansOfEntry(index[1..], e);
    }
  }

  /** Restricting an index with one entry per key keeps one entry per key. */
  lemma {:induction false} KeepUnique(index: seq<Entry>, keys: set<string>)
    requires UniqueKeys(index)
    ensures UniqueKeys(Keep(index, keys))
  {
    if index != [] {
      KeepUnique(index[1..], keys);
      var rest := Keep(index[1..], keys);
      if index[0].key in keys {
        var r := [index[0]] + rest;
        forall i, j | 0 <= i < j < |r| ensures r[i].key != r[j].key {
          if i == 0 {
            assert r[j] in index[1..];
            var m :| 0 <= m < |index[1..]| && index[1..][m] == r[j];
            assert index[m + 1] == r[j];
          }
        }
      }
    }
  }

  /** `removeResource(key)`: drops every span held for `key`. */
  function RemoveResource(c: Store, key: string): (r: Store)
    ensures forall e :: e in r.index <==> e in c.index && e.key != key
  {
    Store(Keep(c.index, Keys(c.index) - {key}))
  }

  /** Removing a key from a restricted index restricts it further. */
  lemma {:induction false} KeepMinus(index: seq<Entry>, keys: set<string>, key: string)
    ensures Keep(Keep(index, keys), Keys(Keep(index, keys)) - {key}) == Keep(index, keys - {key})
  {
    if index != [] {
      var inner := Keep(index, keys);
      var later := Keep(index[1..], keys);
      KeepMinus(index[1..], keys, key);
      if index[0].key in keys {
        assert inner == [index[0]] + later;
        assert inner[1..] == later;
        KeepOnlyChangesNothing(later, Keys(inner) - {key}, Keys(later) - {key});
      }
    }
  }

  /** Restricting to two key sets that agree on the index's keys gives the same entries. */
  lemma {:induction false} KeepOnlyChangesNothing(index: seq<Entry>, a: set<string>, b: set<string>)
    requires forall e :: e in index ==> (e.key in a <==> e.key in b)
    ensures Keep(index, a) == Keep(index, b)
  {
    if index != [] {
      KeepOnlyChangesNothing(index[1..], a, b);
    }
  }

  /** A key left out of the restriction has no spans in the restricted index. */
  lemma {:induction false} KeepDropsOthers(index: seq<Entry>, keys: set<string>, key: string)
    requires key !in keys
    ensures CachedSpans(Keep(index, keys), key) == []
  {
    if index != [] {
      KeepDropsOthers(index[1..], keys, key);
    }
  }

  /** An index restricted to no keys holds nothing: no spans for any key, no bytes. */
  lemma EmptyRestriction(index: seq<Entry>, key: string)
    ensures Keep(index, {}) == []
    ensures CachedSpans(Keep(index, {}), key) == [] && Space(Keep(index, {})) == 0
  {
    if index != [] {
      EmptyRestriction(index[1..], key);
    }
  }

  /** Restricting an index to all of its own keys keeps every entry. */
  lemma {:induction false} KeepAll(index: seq<Entry>, keys: set<string>)
    requires Keys(index) <= keys
    ensures Keep(index, keys) == index
  {
    if index != [] {
      assert index[0] in index;
      KeepAll(index[1..], keys);
    }
  }
}
