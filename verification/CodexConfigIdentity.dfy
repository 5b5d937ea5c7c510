/** When apply and then restore give back the identical file. */
module CodexConfigIdentity {
  import opened Wrappers
  import opened TomlDocument
  import opened CodexConfig
  import opened CodexConfigLaws
  import opened CodexConfigEditor

  /** Nothing is written around a managed key, and the catalog key, if there, is the last of the root's values. */
  predicate Kept(doc: Document) {
    && (forall k :: 0 <= k < |doc.values| && doc.values[k].key in MANAGED ==> doc.values[k].around == "")
    && (forall k :: 0 <= k < |doc.values| - 1 ==> doc.values[k].key != MODEL_CATALOG_JSON)
  }

  /** What restoring one key does to the values. */
  function Back(values: seq<Entry>, key: string, was: Option<Entry>): seq<Entry> {
    match was
    case Some(e) => SetEntry(values, Entry(key, "", e.item))
    case None => Without(values, key)
  }

  function TableBack(tables: map<string, Item>, key: string, was: map<string, Item>): map<string, Item> {
    if key in was then tables[key := was[key]] else tables - {key}
  }

  lemma RestoreItemIsBack(doc: Document, was: Document, key: string)
    requires Proper(was)
    ensures RestoreItem(doc, was, key).values == Back(doc.values, key, Lookup(was.values, key))
    ensures RestoreItem(doc, was, key).tables == TableBack(doc.tables, key, was.tables)
  {
    LookupIsEntry(was.values, key);
    if Lookup(was.values, key).Some? {
      var k :| 0 <= k < |was.values| && was.values[k] == Lookup(was.values, key).value;
      assert !was.values[k].item.Table? && was.values[k].key !in was.tables;
    }
  }

  lemma TablesComeBack(was: map<string, Item>, a: string, b: string, c: string)
    ensures TableBack(TableBack(TableBack(was - {a} - {b} - {c}, a, was), b, was), c, was) == was
  {
  }

  /** The values after an apply, but for the catalog key: the two assignments, in place or at the end. */
  lemma CandidateValues(was: Document, url: string)
    ensures exists u: Entry, p: Entry :: u.key == OPENAI_BASE_URL && p.key == MODEL_PROVIDER
              && Candidate(was, url).values == SetEntry(SetEntry(Without(was.values, MODEL_CATALOG_JSON), u), p)
  {
    var u := Assign(was, OPENAI_BASE_URL, url);
    var e := Entry(OPENAI_BASE_URL, Around(was.values, OPENAI_BASE_URL), Str(url, " "));
    assert u.values == SetEntry(was.values, e);
    DropAfterSet(was.values, e, MODEL_CATALOG_JSON);
    var dropped := Without(u.values, MODEL_CATALOG_JSON);
    var f := Entry(MODEL_PROVIDER, Around(dropped, MODEL_PROVIDER), Str("openai", " "));
    assert Candidate(was, url).values == SetEntry(dropped, f);
  }

  /** Restoring the URL: its assignment is undone, and the provider's stays as it is. */
  lemma UrlComesBack(rest: seq<Entry>, u: Entry, p: Entry, was: Option<Entry>)
    requires u.key != p.key && Lookup(rest, u.key).Some? == was.Some?
    ensures Back(SetEntry(SetEntry(rest, u), p), u.key, was)
         == SetEntry(if was.Some? then SetEntry(rest, Entry(u.key, "", was.value.item)) else rest, p)
  {
    match was
    case Some(e) =>
      var back := Entry(u.key, "", e.item);
      LookupSet(rest, u, u.key);
      SetPresentFirst(SetEntry(rest, u), p, back);
      SetTwice(rest, u, back);
    case None =>
      DropAfterSet(SetEntry(rest, u), p, u.key);
      DropAfterSet(rest, u, u.key);
      DropAbsent(rest, u.key);
  }

  /** Restoring the provider, with the catalog key already at the end. */
  lemma ProviderComesBack(rest: seq<Entry>, p: Entry, tail: seq<Entry>, was: Option<Entry>)
    requires Lookup(rest, p.key).Some? == was.Some? && Lookup(tail, p.key).None?
    ensures Back(SetEntry(rest, p) + tail, p.key, was)
         == (if was.Some? then SetEntry(rest, Entry(p.key, "", was.value.item)) else rest) + tail
  {
    match was
    case Some(e) =>
      LookupSet(rest, p, p.key);
      SetInFront(SetEntry(rest, p), tail, Entry(p.key, "", e.item));
      SetTwice(rest, p, Entry(p.key, "", e.item));
    case None =>
      DropFromBoth(SetEntry(rest, p), tail, p.key);
      DropAfterSet(rest, p, p.key);
      DropAbsent(rest, p.key);
      DropAbsent(tail, p.key);
  }

  /** An entry with this key set back to its item, with nothing around it. */
  function Plain(values: seq<Entry>, key: string, was: Option<Entry>): seq<Entry> {
    if was.Some? then SetEntry(values, Entry(key, "", was.value.item)) else values
  }

  /**
   The values after apply and restore: URL and provider in place without what was around them, the catalog
   key last.
   */
  function Moved(values: seq<Entry>): seq<Entry> {
    var rest := Without(values, MODEL_CATALOG_JSON);
    var one := Plain(rest, OPENAI_BASE_URL, Lookup(values, OPENAI_BASE_URL));
    var both := Plain(one, MODEL_PROVIDER, Lookup(values, MODEL_PROVIDER));
    var catalog := Lookup(values, MODEL_CATALOG_JSON);
    both + if catalog.Some? then [Entry(MODEL_CATALOG_JSON, "", catalog.value.item)] else []
  }

  lemma RestoredIsMoved(was: Document, url: string)
    requires Proper(was)
    ensures RestoreItems(Candidate(was, url), was) == was.(values := Moved(was.values))
  {
    hide RestoreItem, Proper, Lookup, SetEntry, Without, Back, Candidate;
    var vs := was.values;
    var doc := Candidate(was, url);
    var one := RestoreItem(doc, was, OPENAI_BASE_URL);
    var two := RestoreItem(one, was, MODEL_CATALOG_JSON);
    RestoreItemIsBack(doc, was, OPENAI_BASE_URL);
    RestoreItemIsBack(one, was, MODEL_CATALOG_JSON);
    RestoreItemIsBack(two, was, MODEL_PROVIDER);
    TablesComeBack(was.tables, OPENAI_BASE_URL, MODEL_CATALOG_JSON, MODEL_PROVIDER);
    ValuesMove(was, url);
    RestoredIsOriginal(doc, was);
    CandidateKeepsTheRest(was, url);
  }

  lemma CandidateKeepsTheRest(was: Document, url: string)
    ensures Candidate(was, url).layout == was.layout
    ensures Candidate(was, url).tables == was.tables - {OPENAI_BASE_URL} - {MODEL_CATALOG_JSON} - {MODEL_PROVIDER}
  {
  }

  lemma ValuesMove(was: Document, url: string)
    ensures var vs := was.values;
            Back(Back(Back(Candidate(was, url).values, OPENAI_BASE_URL, Lookup(vs, OPENAI_BASE_URL)),
                      MODEL_CATALOG_JSON, Lookup(vs, MODEL_CATALOG_JSON)),
                 MODEL_PROVIDER, Lookup(vs, MODEL_PROVIDER))
            == Moved(vs)
  {
    hide Lookup, SetEntry, Without, Candidate, Back;
    var vs, rest := was.values, Without(was.values, MODEL_CATALOG_JSON);
    CandidateValues(was, url);
    var u: Entry, p: Entry :| u.key == OPENAI_BASE_URL && p.key == MODEL_PROVIDER
                              && Candidate(was, url).values == SetEntry(SetEntry(rest, u), p);
    LookupWithout(vs, MODEL_CATALOG_JSON, OPENAI_BASE_URL);
    LookupWithout(vs, MODEL_CATALOG_JSON, MODEL_PROVIDER);
    UrlComesBack(rest, u, p, Lookup(vs, OPENAI_BASE_URL));
    var plain := Plain(rest, OPENAI_BASE_URL, Lookup(vs, OPENAI_BASE_URL));
    PlainKeepsOthers(rest, OPENAI_BASE_URL, Lookup(vs, OPENAI_BASE_URL), MODEL_PROVIDER);
    PlainKeepsOthers(rest, OPENAI_BASE_URL, Lookup(vs, OPENAI_BASE_URL), MODEL_CATALOG_JSON);
    LookupWithout(vs, MODEL_CATALOG_JSON, MODEL_CATALOG_JSON);
    LookupSet(plain, p, MODEL_CATALOG_JSON);
    CatalogComesLast(SetEntry(plain, p), Lookup(vs, MODEL_CATALOG_JSON));
    var catalog := Lookup(vs, MODEL_CATALOG_JSON);
    var tail := if catalog.Some? then [Entry(MODEL_CATALOG_JSON, "", catalog.value.item)] else [];
    TailLacks(tail, MODEL_PROVIDER);
    ProviderComesBack(plain, p, tail, Lookup(vs, MODEL_PROVIDER));
  }

  lemma TailLacks(tail: seq<Entry>, key: string)
    requires |tail| <= 1 && (|tail| == 1 ==> tail[0].key != key)
    ensures Lookup(tail, key).None?
  {
  }

  lemma PlainKeepsOthers(values: seq<Entry>, key: string, was: Option<Entry>, other: string)
    requires key != other
    ensures Lookup(Plain(values, key, was), other) == Lookup(values, other)
  {
    if was.Some? {
      LookupSet(values, Entry(key, "", was.value.item), other);
    }
  }

  lemma CatalogComesLast(values: seq<Entry>, was: Option<Entry>)
    requires Lookup(values, MODEL_CATALOG_JSON).None?
    ensures Back(values, MODEL_CATALOG_JSON, was)
         == values + if was.Some? then [Entry(MODEL_CATALOG_JSON, "", was.value.item)] else []
  {
    if was.Some? {
      SetAbsent(values, Entry(MODEL_CATALOG_JSON, "", was.value.item));
    } else {
      DropAbsent(values, MODEL_CATALOG_JSON);
    }
  }

  // When nothing has moved.

  lemma {:induction false} WithoutLast(values: seq<Entry>, key: string)
    requires UniqueKeys(values) && forall k :: 0 <= k < |values| - 1 ==> values[k].key != key
    ensures values == Without(values, key) + if Lookup(values, key).Some? then [Lookup(values, key).value] else []
  {
    if |values| == 1 {
      assert values[1..] == [];
    } else if values != [] {
      assert values[0].key != key;
      WithoutLast(values[1..], key);
    }
  }

  lemma PlainIsSame(values: seq<Entry>, key: string, was: Option<Entry>)
    requires Lookup(values, key) == was && (was.Some? ==> was.value.key == key && was.value.around == "")
    ensures Plain(values, key, was) == values
  {
    if was.Some? {
      assert Entry(key, "", was.value.item) == was.value;
      SetSame(values, was.value);
    }
  }

  lemma LookupKept(doc: Document, key: string)
    requires Proper(doc) && Kept(doc) && key in MANAGED
    ensures var found := Lookup(doc.values, key);
            found.Some? ==> found.value.key == key && found.value.around == ""
  {
    LookupIsEntry(doc.values, key);
    if Lookup(doc.values, key).Some? {
      var k :| 0 <= k < |doc.values| && doc.values[k] == Lookup(doc.values, key).value;
    }
  }

  lemma KeptStays(doc: Document)
    requires Proper(doc) && Kept(doc)
    ensures Moved(doc.values) == doc.values
  {
    var vs, rest := doc.values, Without(doc.values, MODEL_CATALOG_JSON);
    LookupKept(doc, OPENAI_BASE_URL);
    LookupKept(doc, MODEL_CATALOG_JSON);
    LookupKept(doc, MODEL_PROVIDER);
    hide Lookup, SetEntry, Without, Plain;
    LookupWithout(vs, MODEL_CATALOG_JSON, OPENAI_BASE_URL);
    LookupWithout(vs, MODEL_CATALOG_JSON, MODEL_PROVIDER);
    PlainIsSame(rest, OPENAI_BASE_URL, Lookup(vs, OPENAI_BASE_URL));
    PlainIsSame(rest, MODEL_PROVIDER, Lookup(vs, MODEL_PROVIDER));
    WithoutLast(vs, MODEL_CATALOG_JSON);
  }

  lemma {:induction false} LookupAppend(front: seq<Entry>, back: seq<Entry>, key: string)
    ensures Lookup(front + back, key) == if Lookup(front, key).Some? then Lookup(front, key) else Lookup(back, key)
  {
    if front == [] {
      assert front + back == back;
    } else {
      assert (front + back)[1..] == front[1..] + back;
      LookupAppend(front[1..], back, key);
    }
  }

  /** In the moved values every managed key stands alone, and the catalog key last. */
  lemma MovedIsPlain(values: seq<Entry>, key: string)
    requires key in MANAGED
    ensures Lookup(Moved(values), key).Some? ==> Lookup(Moved(values), key).value.around == ""
    ensures Lookup(values, MODEL_CATALOG_JSON).Some? ==>
              Moved(values) != [] && Moved(values)[|Moved(values)| - 1].key == MODEL_CATALOG_JSON
  {
    hide Lookup, SetEntry, Without;
    var rest := Without(values, MODEL_CATALOG_JSON);
    var url, provider, catalog :=
      Lookup(values, OPENAI_BASE_URL), Lookup(values, MODEL_PROVIDER), Lookup(values, MODEL_CATALOG_JSON);
    var one := Plain(rest, OPENAI_BASE_URL, url);
    var both := Plain(one, MODEL_PROVIDER, provider);
    var tail := if catalog.Some? then [Entry(MODEL_CATALOG_JSON, "", catalog.value.item)] else [];
    LookupWithout(values, MODEL_CATALOG_JSON, key);
    LookupPlain(rest, OPENAI_BASE_URL, url, key);
    LookupPlain(one, MODEL_PROVIDER, provider, key);
    LookupAppend(both, tail, key);
    LookupShort(tail, key);
  }

  lemma LookupPlain(values: seq<Entry>, key: string, was: Option<Entry>, other: string)
    ensures Lookup(Plain(values, key, was), other)
         == if was.Some? && other == key then Some(Entry(key, "", was.value.item)) else Lookup(values, other)
  {
    if was.Some? {
      LookupSet(values, Entry(key, "", was.value.item), other);
    }
  }

  lemma LookupShort(tail: seq<Entry>, key: string)
    requires |tail| <= 1
    ensures Lookup(tail, key) == if tail != [] && tail[0].key == key then Some(tail[0]) else None
  {
  }

  lemma StayedIsKept(doc: Document)
    requires Proper(doc) && Moved(doc.values) == doc.values
    ensures Kept(doc)
  {
    hide Moved, Lookup;
    forall k | 0 <= k < |doc.values| && doc.values[k].key in MANAGED ensures doc.values[k].around == "" {
      LookupAt(doc.values, k);
      MovedIsPlain(doc.values, doc.values[k].key);
    }
    forall k | 0 <= k < |doc.values| - 1 ensures doc.values[k].key != MODEL_CATALOG_JSON {
      LookupAt(doc.values, k);
      MovedIsPlain(doc.values, MODEL_CATALOG_JSON);
      assert doc.values[k].key != doc.values[|doc.values| - 1].key;
    }
  }

  /**
   Main law: apply and restore, one after the other and left alone, end with the identical file, or none
   where there was none, if and only if nothing is written around a managed key and the catalog key is
   the last of the root's values or not there. Documents that are read are proper.
   */
  lemma QuietRoundTrip(path: string, d: Disk, url: string)
    requires Fresh(path, d) && !HasBinaryCache(d) && Proper(Parse(d.config).value)
    ensures var applied := Amid(StartApply(path, World(d, Idle, None), url), QUIET);
            var restored := Amid(StartRestore(path, World(applied.disk, Idle, None)), QUIET);
            && applied.job.Idle? && applied.error.None?
            && applied.disk.config == Some(Toml(Candidate(Parse(d.config).value, url)))
            && restored.job.Idle? && restored.error.None? && Fresh(path, restored.disk)
            && Returned(d.config, applied.disk.config, restored.disk.config)
            && (restored.disk.config == d.config <==> Kept(Parse(d.config).value))
  {
    hide Proceed, StartApply, StartRestore, Finish, Amid, Candidate, RestoreItems, Proper, Kept, Moved;
    var was := Parse(d.config).value;
    var start := World(d, Idle, None);
    QuietIsFinish(StartApply(path, start, url));
    ApplyCompletes(path, start, url);
    var applied := Finish(StartApply(path, start, url));
    RoundTrip(path, d, url, []);
    assert applied == World(applied.disk, Idle, None);
    QuietIsFinish(StartRestore(path, applied));
    IdenticalIffKept(was, url);
    if d.config.None? {
      CandidateHoldsNothingElse(url);
    }
  }

  lemma IdenticalIffKept(was: Document, url: string)
    requires Proper(was)
    ensures RestoreItems(Candidate(was, url), was) == was <==> Kept(was)
  {
    RestoredIsMoved(was, url);
    if Kept(was) {
      KeptStays(was);
    } else if Moved(was.values) == was.values {
      StayedIsKept(was);
    }
    hide RestoreItems, Candidate, Moved, Kept;
  }

  lemma CandidateHoldsNothingElse(url: string)
    ensures NothingElse(Candidate(EMPTY, url)) && Kept(EMPTY)
  {
    forall key | key !in MANAGED ensures Get(Candidate(EMPTY, url), key) == None {
      GetCandidate(EMPTY, url, key);
    }
  }

  lemma CatalogMovesLast(catalog: Entry, model: Entry, url: string)
    requires catalog.key == MODEL_CATALOG_JSON && catalog.around == "" && !catalog.item.Table?
    requires model.key !in MANAGED && !model.item.Table?
    ensures var was := Document([catalog, model], map[], "");
            && Proper(was) && Parse(Some(Toml(was))) == Some(was)
            && RestoreItems(Candidate(was, url), was) == Document([model, catalog], map[], "")
  {
    var was := Document([catalog, model], map[], "");
    RestoredIsMoved(was, url);
    hide RestoreItems, Candidate;
    OfTwo(catalog, model, MODEL_CATALOG_JSON);
    OfTwo(catalog, model, OPENAI_BASE_URL);
    OfTwo(catalog, model, MODEL_PROVIDER);
    assert Entry(MODEL_CATALOG_JSON, "", catalog.item) == catalog;
    hide Lookup, Without, SetEntry;
    assert Moved(was.values) == [model] + [catalog];
  }

  lemma OfTwo(a: Entry, b: Entry, key: string)
    requires b.key != key
    ensures Lookup([a, b], key) == if a.key == key then Some(a) else None
    ensures Without([a, b], key) == if a.key == key then [b] else [a, b]
  {
    assert [a, b][1..] == [b] && [b][1..] == [];
    assert Lookup([b], key).None? && Without([b], key) == [b];
  }

  /** The plainest file that is not given back: a catalog key above another key moves to the end. */
  lemma CatalogKeyMoves(path: string, url: string, text: string)
    requires !Blank(path)
    ensures var catalog := Entry(MODEL_CATALOG_JSON, "", Str(text, " "));
            var model := Entry("model", "", Str("m", " "));
            var d := Disk(Some(Toml(Document([catalog, model], map[], ""))), None, None);
            var applied := Amid(StartApply(path, World(d, Idle, None), url), QUIET);
            var restored := Amid(StartRestore(path, World(applied.disk, Idle, None)), QUIET);
            restored.error.None? && restored.disk.config == Some(Toml(Document([model, catalog], map[], "")))
  {
    hide Amid, StartApply, StartRestore, RestoreItems, Candidate, Proper, Kept, NothingElse, Blank, Except, Get;
    var catalog := Entry(MODEL_CATALOG_JSON, "", Str(text, " "));
    var model := Entry("model", "", Str("m", " "));
    var d := Disk(Some(Toml(Document([catalog, model], map[], ""))), None, None);
    CatalogMovesLast(catalog, model, url);
    QuietRoundTrip(path, d, url);
  }
}
