/**
 A key-ordered table: the model of the standard ordered map with integer keys. It is kept as the
 sequence of its entries in increasing key order, so that "iterate in key order" is the sequence.
 */
module OrderedTable {
  import opened Wrappers

  datatype Entry<+V> = Entry(key: nat, value: V)

  type Table<V> = seq<Entry<V>>

  ghost predicate Sorted<V>(t: Table<V>) {
    forall i, j :: 0 <= i < j < |t| ==> t[i].key < t[j].key
  }

  /** Keys are exactly 0, 1, ..., |t| - 1. */
  ghost predicate Dense<V>(t: Table<V>) {
    forall i :: 0 <= i < |t| ==> t[i].key == i
  }

  function Get<V>(t: Table<V>, key: nat): Option<V> {
    if t == [] || key < t[0].key then None
    else if t[0].key == key then Some(t[0].value)
    else Get(t[1..], key)
  }

  function Put<V>(t: Table<V>, key: nat, value: V): Table<V> {
    if t == [] || key < t[0].key then [Entry(key, value)] + t
    else if t[0].key == key then [Entry(key, value)] + t[1..]
    else [t[0]] + Put(t[1..], key, value)
  }

  /** A write is read back, disturbs no other key, and adds an entry only for a new key. */
  lemma {:induction false} GetPut<V>(t: Table<V>, key: nat, value: V, probe: nat)
    ensures Get(Put(t, key, value), probe) == if probe == key then Some(value) else Get(t, probe)
    ensures |Put(t, key, value)| == |t| + if Get(t, key).None? then 1 else 0
  {
    if t != [] && t[0].key < key {
      GetPut(t[1..], key, value, probe);
    }
  }

  lemma {:induction false} PutSorted<V>(t: Table<V>, key: nat, value: V)
    requires Sorted(t)
    ensures Sorted(Put(t, key, value))
    ensures forall e :: e in Put(t, key, value) ==> e.key == key || e in t
  {
    if t != [] && t[0].key < key {
      PutSorted(t[1..], key, value);
      var rest := Put(t[1..], key, value);
      forall j | 0 <= j < |rest| ensures t[0].key < rest[j].key {
        assert rest[j] in rest;
      }
    }
  }

  /** Entries are what `Get` returns. */
  lemma {:induction false} GetAt<V>(t: Table<V>, i: nat)
    requires Sorted(t) && i < |t|
    ensures Get(t, t[i].key) == Some(t[i].value)
  {
    if i > 0 {
      assert t[0].key < t[i].key;
      GetAt(t[1..], i - 1);
    }
  }

  lemma {:induction false} GetIsEntry<V>(t: Table<V>, key: nat)
    ensures Get(t, key).Some? ==> Entry(key, Get(t, key).value) in t
  {
    if t != [] && t[0].key < key {
      GetIsEntry(t[1..], key);
    }
  }

  /** In a dense table position and key are the same thing. */
  lemma DenseGet<V>(t: Table<V>, key: nat)
    requires Dense(t)
    ensures Get(t, key) == if key < |t| then Some(t[key].value) else None
  {
    assert Sorted(t);
    if key < |t| {
      GetAt(t, key);
    } else {
      GetIsEntry(t, key);
    }
  }
}
