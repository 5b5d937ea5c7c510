/** The part of a format-preserving TOML document that the Codex configuration editor works on. */
module TomlDocument {
  import opened Wrappers

  /**
   A TOML item: a string, any other value by its trimmed text, or a table by its trimmed text. `layout` is
   the whitespace and comments around it, and for a table the place it keeps in the file.
   */
  datatype Item =
    | Str(value: string, layout: string)
    | Other(text: string, layout: string)
    | Table(text: string, layout: string)

  /**
   A key and its value. `around` is what is written around the key: comments, blank lines, its spelling; a
   new key has none.
   */
  datatype Entry = Entry(key: string, around: string, item: Item)

  /**
   The values of the root in their order, the tables, which come after all values at places of their own,
   and the layout that belongs to neither.
   */
  datatype Document = Document(values: seq<Entry>, tables: map<string, Item>, layout: string)

  const EMPTY := Document([], map[], "")

  function Lookup(values: seq<Entry>, key: string): Option<Entry> {
    if values == [] then None
    else if values[0].key == key then Some(values[0])
    else Lookup(values[1..], key)
  }

  function Get(doc: Document, key: string): Option<Item> {
    match Lookup(doc.values, key)
    case Some(e) => Some(e.item)
    case None => if key in doc.tables then Some(doc.tables[key]) else None
  }

  /** In the place of the entry with this key, or at the end. */
  function SetEntry(values: seq<Entry>, e: Entry): seq<Entry> {
    if values == [] then [e]
    else if values[0].key == e.key then [e] + values[1..]
    else [values[0]] + SetEntry(values[1..], e)
  }

  function Without(values: seq<Entry>, key: string): seq<Entry> {
    if values == [] then []
    else if values[0].key == key then Without(values[1..], key)
    else [values[0]] + Without(values[1..], key)
  }

  /** What is written around a key; nothing for a new one. */
  function Around(values: seq<Entry>, key: string): string {
    match Lookup(values, key)
    case Some(e) => e.around
    case None => ""
  }

  /** `doc[key] = value`: what is written around an existing key stays. */
  function Assign(doc: Document, key: string, value: string): Document {
    var e := Entry(key, Around(doc.values, key), Str(value, " "));
    doc.(values := SetEntry(doc.values, e), tables := doc.tables - {key})
  }

  /** `insert`: what is written around an existing key is lost. */
  function Insert(doc: Document, key: string, item: Item): Document {
    if item.Table? then doc.(values := Without(doc.values, key), tables := doc.tables[key := item])
    else doc.(values := SetEntry(doc.values, Entry(key, "", item)), tables := doc.tables - {key})
  }

  function Drop(doc: Document, key: string): Document {
    doc.(values := Without(doc.values, key), tables := doc.tables - {key})
  }

  // What is read back.

  lemma {:induction false} LookupSet(values: seq<Entry>, e: Entry, key: string)
    ensures Lookup(SetEntry(values, e), key) == if key == e.key then Some(e) else Lookup(values, key)
  {
    if values != [] && values[0].key != e.key {
      LookupSet(values[1..], e, key);
    }
  }

  lemma {:induction false} LookupWithout(values: seq<Entry>, dropped: string, key: string)
    ensures Lookup(Without(values, dropped), key) == if key == dropped then None else Lookup(values, key)
  {
    if values != [] {
      LookupWithout(values[1..], dropped, key);
    }
  }

  lemma GetAssign(doc: Document, changed: string, value: string, key: string)
    ensures Get(Assign(doc, changed, value), key) == if key == changed then Some(Str(value, " ")) else Get(doc, key)
  {
    LookupSet(doc.values, Entry(changed, Around(doc.values, changed), Str(value, " ")), key);
  }

  lemma GetInsert(doc: Document, inserted: string, item: Item, key: string)
    ensures Get(Insert(doc, inserted, item), key) == if key == inserted then Some(item) else Get(doc, key)
  {
    LookupSet(doc.values, Entry(inserted, "", item), key);
    LookupWithout(doc.values, inserted, key);
  }

  lemma GetDrop(doc: Document, dropped: string, key: string)
    ensures Get(Drop(doc, dropped), key) == if key == dropped then None else Get(doc, key)
  {
    LookupWithout(doc.values, dropped, key);
  }

  // What is left alone.

  /** The values of other keys, with all that is written around them, in their order. */
  function Except(values: seq<Entry>, keys: set<string>): seq<Entry> {
    if values == [] then []
    else (if values[0].key in keys then [] else [values[0]]) + Except(values[1..], keys)
  }

  lemma {:induction false} ExceptSet(values: seq<Entry>, e: Entry, keys: set<string>)
    requires e.key in keys
    ensures Except(SetEntry(values, e), keys) == Except(values, keys)
  {
    if values != [] && values[0].key != e.key {
      ExceptSet(values[1..], e, keys);
    }
  }

  lemma {:induction false} ExceptWithout(values: seq<Entry>, key: string, keys: set<string>)
    requires key in keys
    ensures Except(Without(values, key), keys) == Except(values, keys)
  {
    if values != [] {
      ExceptWithout(values[1..], key, keys);
    }
  }

  // Documents as they are read: every key once.

  predicate UniqueKeys(values: seq<Entry>) {
    forall i, j :: 0 <= i < j < |values| ==> values[i].key != values[j].key
  }

  /** No key is given twice, and values are no tables. */
  predicate Proper(doc: Document) {
    && UniqueKeys(doc.values)
    && (forall k :: 0 <= k < |doc.values| ==> doc.values[k].key !in doc.tables && !doc.values[k].item.Table?)
    && (forall key :: key in doc.tables ==> doc.tables[key].Table?)
  }

  lemma {:induction false} LookupAt(values: seq<Entry>, k: nat)
    requires UniqueKeys(values) && k < |values|
    ensures Lookup(values, values[k].key) == Some(values[k])
  {
    if k > 0 {
      assert values[0].key != values[k].key;
      LookupAt(values[1..], k - 1);
    }
  }

  lemma {:induction false} LookupIsEntry(values: seq<Entry>, key: string)
    ensures Lookup(values, key).Some? ==> Lookup(values, key).value in values && Lookup(values, key).value.key == key
    ensures Lookup(values, key).None? ==> forall e :: e in values ==> e.key != key
  {
    if values != [] && values[0].key != key {
      LookupIsEntry(values[1..], key);
    }
  }

  // How writes to the values combine.

  lemma {:induction false} SetTwice(values: seq<Entry>, e: Entry, f: Entry)
    requires e.key == f.key
    ensures SetEntry(SetEntry(values, e), f) == SetEntry(values, f)
  {
    if values != [] && values[0].key != e.key {
      SetTwice(values[1..], e, f);
    }
  }

  lemma {:induction false} SetPresentFirst(values: seq<Entry>, e: Entry, f: Entry)
    requires e.key != f.key && Lookup(values, f.key).Some?
    ensures SetEntry(SetEntry(values, e), f) == SetEntry(SetEntry(values, f), e)
  {
    if values[0].key != e.key && values[0].key != f.key {
      SetPresentFirst(values[1..], e, f);
    }
  }

  lemma {:induction false} DropAfterSet(values: seq<Entry>, e: Entry, key: string)
    ensures Without(SetEntry(values, e), key)
         == if e.key == key then Without(values, key) else SetEntry(Without(values, key), e)
  {
    if values != [] && values[0].key != e.key {
      DropAfterSet(values[1..], e, key);
    }
  }

  lemma {:induction false} DropAbsent(values: seq<Entry>, key: string)
    requires Lookup(values, key).None?
    ensures Without(values, key) == values
  {
    if values != [] {
      DropAbsent(values[1..], key);
    }
  }

  lemma {:induction false} SetAbsent(values: seq<Entry>, e: Entry)
    requires Lookup(values, e.key).None?
    ensures SetEntry(values, e) == values + [e]
  {
    if values != [] {
      SetAbsent(values[1..], e);
    }
  }

  lemma {:induction false} SetInFront(front: seq<Entry>, back: seq<Entry>, e: Entry)
    requires Lookup(front, e.key).Some?
    ensures SetEntry(front + back, e) == SetEntry(front, e) + back
  {
    assert (front + back)[1..] == front[1..] + back;
    if front[0].key != e.key {
      SetInFront(front[1..], back, e);
    }
  }

  lemma {:induction false} DropFromBoth(front: seq<Entry>, back: seq<Entry>, key: string)
    ensures Without(front + back, key) == Without(front, key) + Without(back, key)
  {
    if front == [] {
      assert front + back == back;
    } else {
      assert (front + back)[1..] == front[1..] + back;
      DropFromBoth(front[1..], back, key);
    }
  }

  lemma {:induction false} SetSame(values: seq<Entry>, e: Entry)
    requires Lookup(values, e.key) == Some(e)
    ensures SetEntry(values, e) == values
  {
    if values[0].key != e.key {
      SetSame(values[1..], e);
    }
  }
}
