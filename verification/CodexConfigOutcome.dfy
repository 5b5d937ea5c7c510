/** What an apply and a restore left alone come to, from any files at all. */
module CodexConfigOutcome {
  import opened Wrappers
  import opened AtomicFile
  import opened TomlDocument
  import opened CodexConfig
  import opened CodexConfigLaws

  /** The document sends Codex to this URL: the URL, no catalog of models, and the stock provider. */
  predicate Shows(doc: Document, url: string) {
    && Get(doc, "openai_base_url").Some? && Get(doc, "openai_base_url").value.Str?
    && Get(doc, "openai_base_url").value.value == url
    && Get(doc, "model_catalog_json") == None
    && Get(doc, "model_provider").Some? && Get(doc, "model_provider").value.Str?
    && Get(doc, "model_provider").value.value == "openai"
  }

  /** Both documents have the same value, or none, for a key. */
  predicate SameValue(a: Option<Item>, b: Option<Item>) {
    && (a.None? <==> b.None?)
    && (a.Some? ==>
          && (a.value.Str? <==> b.value.Str?) && (a.value.Table? <==> b.value.Table?)
          && (if a.value.Str? then a.value.value == b.value.value
              else if a.value.Table? then a.value.text == b.value.text
              else b.value.Other? && a.value.text == b.value.text))
  }

  /** The document has the managed values of the recorded original. */
  predicate IsOriginal(doc: Document, r: Receipt) {
    && Parse(r.original).Some?
    && SameValue(Get(doc, "openai_base_url"), Get(Parse(r.original).value, "openai_base_url"))
    && SameValue(Get(doc, "model_catalog_json"), Get(Parse(r.original).value, "model_catalog_json"))
    && SameValue(Get(doc, "model_provider"), Get(Parse(r.original).value, "model_provider"))
  }

  /** What a live receipt expects of the configuration. */
  predicate Expected(config: Option<Text>, doc: Document, r: Receipt) {
    match r.phase
    case Active(_) => Shows(doc, r.url)
    case Prepared(planned) => config == Some(planned) || Shows(doc, r.url) || IsOriginal(doc, r)
    case Restored => IsOriginal(doc, r)
  }

  lemma ExpectedValidates(config: Option<Text>, doc: Document, r: Receipt)
    ensures Expected(config, doc, r) <==> Validates(config, doc, r)
    ensures Shows(doc, r.url) <==> Applied(doc, r.url)
    ensures IsOriginal(doc, r) <==> Original(doc, r)
  {
    hide Get;
  }

  const KEYS := {"openai_base_url", "model_catalog_json", "model_provider"}

  /** The document with the three values set, every other key, entry and layout kept. */
  ghost predicate SetTo(was: Document, url: string, now: Document) {
    && Get(now, "openai_base_url") == Some(Str(url, " "))
    && Get(now, "model_catalog_json") == None
    && Get(now, "model_provider") == Some(Str("openai", " "))
    && (forall key :: key !in KEYS ==> Get(now, key) == Get(was, key))
    && Except(now.values, KEYS) == Except(was.values, KEYS)
    && now.layout == was.layout
  }

  lemma CandidateSets(was: Document, url: string)
    ensures SetTo(was, url, Candidate(was, url))
  {
    var one := Assign(was, OPENAI_BASE_URL, url);
    var two := Drop(one, MODEL_CATALOG_JSON);
    forall key ensures Get(Candidate(was, url), key)
         == if key == OPENAI_BASE_URL then Some(Str(url, " "))
            else if key == MODEL_CATALOG_JSON then None
            else if key == MODEL_PROVIDER then Some(Str("openai", " "))
            else Get(was, key)
    {
      GetCandidate(was, url, key);
    }
    ExceptSet(was.values, Entry(OPENAI_BASE_URL, Around(was.values, OPENAI_BASE_URL), Str(url, " ")), KEYS);
    ExceptWithout(one.values, MODEL_CATALOG_JSON, KEYS);
    ExceptSet(two.values, Entry(MODEL_PROVIDER, Around(two.values, MODEL_PROVIDER), Str("openai", " ")), KEYS);
    hide Get, Except, SetEntry, Without, Around;
  }

  /** Why an operation refuses what it finds, before it writes anything. */
  function Refusal(path: string, d: Disk): Option<Error> {
    match d.receipt
    case Some(Invalid(_)) => Some(InvalidReceipt)
    case Some(Valid(r)) => if r.path != path then Some(ReceiptPathMismatch) else None
    case None => None
  }

  function LiveReceipt(d: Disk): Option<Receipt> {
    if d.receipt.Some? && d.receipt.value.Valid? && d.receipt.value.receipt.phase != Restored
    then Some(d.receipt.value.receipt) else None
  }

  predicate IsWhite(path: string) { forall k :: 0 <= k < |path| ==> path[k] in {' ', '\t', '\r', '\n'} }

  /**
   An apply left alone, from any files: every refusal, and that it writes nothing; else the three values in the
   configuration, no model cache, and an active receipt with the original configuration and cache: those of a
   live receipt if there is one, or the files just found.
   */
  lemma ApplyIsExact(path: string, d: Disk, url: string)
    ensures var done := Finish(StartApply(path, World(d, Idle, None), url)); var live := LiveReceipt(d);
            if d.config.Some? && d.config.value.NotToml? then done == World(d, Idle, Some(InvalidToml))
            else if Refusal(path, d).Some? then done == World(d, Idle, Refusal(path, d))
            else if live.Some? && !Expected(d.config, Parse(d.config).value, live.value) then
              done == World(d, Idle, Some(ConfigDrift))
            else if d.cache.Some? && d.cache.value.Binary? then done == World(d, Idle, Some(InvalidModelCache))
            else if IsWhite(path) then done == World(d, Idle, Some(InvalidReceipt))
            else
              && done.job.Idle? && done.error.None?
              && done.disk.config.Some? && done.disk.config.value.Toml?
              && SetTo(Parse(d.config).value, url, done.disk.config.value.doc)
              && done.disk.cache.None?
              && done.disk.receipt == Some(Valid(Receipt(path, Active(done.disk.config.value),
                   if live.Some? then live.value.original else d.config,
                   Some(if live.Some? && live.value.originalCache.Some? then live.value.originalCache.value
                        else d.cache),
                   url)))
  {
    var w := World(d, Idle, None);
    if LiveReceipt(d).Some? && Parse(d.config).Some? {
      ExpectedValidates(d.config, Parse(d.config).value, LiveReceipt(d).value);
    }
    WhiteIsBlank(path);
    var start := StartApply(path, w, url);
    if start.job.SavePrepared? {
      CandidateSets(Parse(d.config).value, url);
      FinishesApply(start, path);
    }
    hide Candidate, SetTo, Validates, Expected, Proceed, Blank, IsWhite;
    if start.job.Idle? {
      IdleFinishes(start);
    }
  }

  lemma WhiteIsBlank(path: string)
    ensures IsWhite(path) <==> Blank(path)
  {
  }

  lemma IdleFinishes(w: World)
    requires w.job.Idle?
    ensures Finish(w) == w
  {
  }

  lemma FinishesApply(w: World, path: string)
    requires w.job.SavePrepared? && w.job.config == w.disk.config && w.job.cache == w.disk.cache
    requires w.job.was == w.disk.receipt && w.job.prepared.phase.Prepared? && w.job.prepared.path == path
    ensures Finish(w) ==
              if Blank(path) then World(w.disk, Idle, Some(InvalidReceipt))
              else World(Disk(Some(w.job.prepared.phase.planned), None,
                   Some(Valid(w.job.prepared.(phase := Active(w.job.prepared.phase.planned))))), Idle, None)
  {
    hide Blank;
  }

  /** What a restore gives back, in the three keys' own names. */
  ghost predicate GivenBack(original: Option<Text>, now: Option<Text>, after: Option<Text>) {
    && Parse(original).Some? && Parse(now).Some? && Parse(after).Some?
    && var was, doc, back := Parse(original).value, Parse(now).value, Parse(after).value;
    && Get(back, "openai_base_url") == Get(was, "openai_base_url")
    && Get(back, "model_catalog_json") == Get(was, "model_catalog_json")
    && Get(back, "model_provider") == Get(was, "model_provider")
    && (forall key :: key !in KEYS ==> Get(back, key) == Get(doc, key))
    && Except(back.values, KEYS) == Except(doc.values, KEYS)
    && (after.Some? ==> back.layout == doc.layout)
    && (after.None? ==> now.None? || original.None?)
  }

  /**
   A restore left alone, from any files whose receipt, if live, records an original it can read: every refusal, and
   that it writes nothing; else the original values of the three keys, no model cache, and the receipt
   restored.
   */
  lemma RestoreIsExact(path: string, d: Disk)
    requires !IsWhite(path) && (LiveReceipt(d).Some? ==> Parse(LiveReceipt(d).value.original).Some?)
    ensures var done := Finish(StartRestore(path, World(d, Idle, None))); var live := LiveReceipt(d);
            if Refusal(path, d).Some? then done == World(d, Idle, Refusal(path, d))
            else if d.receipt.None? then done == World(d, Idle, Some(File(MissingFile)))
            else if live.None? then done == World(d, Idle, None)
            else if d.config.Some? && d.config.value.NotToml? then done == World(d, Idle, Some(InvalidToml))
            else if !Expected(d.config, Parse(d.config).value, live.value) then
              done == World(d, Idle, Some(ConfigDrift))
            else
              && done.job.Idle? && done.error.None?
              && GivenBack(live.value.original, d.config, done.disk.config)
              && done.disk.cache.None?
              && done.disk.receipt == Some(Valid(live.value.(phase := Restored)))
  {
    WhiteIsBlank(path);
    var start := StartRestore(path, World(d, Idle, None));
    if start.job.RestoreCache? {
      var r := LiveReceipt(d).value;
      ExpectedValidates(d.config, Parse(d.config).value, r);
      FinishesRestore(path, d, r);
    } else {
      if LiveReceipt(d).Some? && Parse(d.config).Some? {
        ExpectedValidates(d.config, Parse(d.config).value, LiveReceipt(d).value);
      }
      hide Validates, Expected, Proceed;
      IdleFinishes(start);
    }
    hide Validates, Expected, GivenBack, Finish;
  }

  lemma FinishesRestore(path: string, d: Disk, r: Receipt)
    requires !Blank(path) && r.path == path && r.phase != Restored && d.receipt == Some(Valid(r))
    requires Parse(d.config).Some? && Parse(r.original).Some? && Validates(d.config, Parse(d.config).value, r)
    ensures var done := Finish(World(d, RestoreCache(d.config, d.cache, r), None));
            && done.job.Idle? && done.error.None?
            && GivenBack(r.original, d.config, done.disk.config)
            && done.disk.cache.None?
            && done.disk.receipt == Some(Valid(r.(phase := Restored)))
  {
    var start := World(d, RestoreCache(d.config, d.cache, r), None);
    var one := Proceed(start);
    assert one == World(d.(cache := None), RestoreConfig(d.config, r), None);
    if d.config.None? {
      EmptyIsNotApplied(r.url);
      assert Original(EMPTY, r);
    }
    PutBackGives(one, r);
    hide PutBack, Get, Except, Blank, RestoreItems, NothingElse, Validates, Original, Applied;
    assert KEYS == MANAGED;
    var two := Proceed(one);
    assert two == PutBack(one, d.config, r);
  }
}
