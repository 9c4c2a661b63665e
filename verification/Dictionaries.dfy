/** An insertion-ordered dictionary, as a list of entries with distinct keys. */
module Dictionaries {

  datatype Entry<+K, +V> = Entry(key: K, value: V)

  /** The place of a key, or the size of the dictionary. */
  function Find<K(==), V>(entries: seq<Entry<K, V>>, key: K): (i: nat)
    ensures i <= |entries| && (i < |entries| ==> entries[i].key == key)
    ensures forall j :: 0 <= j < i ==> entries[j].key != key
  {
    if entries == [] then 0
    else
      var i := Find(entries[..|entries| - 1], key);
      if i == |entries| - 1 && entries[i].key != key then i + 1 else i
  }

  /** Assignment: an existing key keeps its place, a new one goes to the end. */
  function Put<K(==), V>(entries: seq<Entry<K, V>>, key: K, value: V): seq<Entry<K, V>> {
    var i := Find(entries, key);
    if i < |entries| then entries[i := Entry(key, value)] else entries + [Entry(key, value)]
  }

  predicate HasKey<K(==), V>(entries: seq<Entry<K, V>>, key: K) {
    exists i :: 0 <= i < |entries| && entries[i].key == key
  }

  ghost predicate DistinctKeys<K, V>(entries: seq<Entry<K, V>>) {
    forall i, j :: 0 <= i < j < |entries| ==> entries[i].key != entries[j].key
  }

  lemma PutKeeps<K, V>(entries: seq<Entry<K, V>>, key: K, value: V, k: K)
    requires DistinctKeys(entries)
    ensures DistinctKeys(Put(entries, key, value))
    ensures HasKey(Put(entries, key, value), k) <==> HasKey(entries, k) || k == key
  {
    var after := Put(entries, key, value);
    if HasKey(entries, k) {
      var i :| 0 <= i < |entries| && entries[i].key == k;
      assert after[i].key == k;
    }
    assert after[Find(entries, key)].key == key;
  }

  lemma PutMembers<K, V>(entries: seq<Entry<K, V>>, key: K, value: V, e: Entry<K, V>)
    requires DistinctKeys(entries)
    ensures e in Put(entries, key, value) <==> e == Entry(key, value) || (e in entries && e.key != key)
  {
    var after, p := Put(entries, key, value), Find(entries, key);
    assert after[p] == Entry(key, value);
    if e in entries && e.key != key {
      var i :| 0 <= i < |entries| && entries[i] == e;
      assert after[i] == e;
    }
  }
}
