/**
 What the apply and restore protocol keeps over whole runs, with crashes and other programs' edits between its
 writes.
 */
module CodexConfigLaws {
  import opened Wrappers
  import opened AtomicFile
  import opened TomlDocument
  import opened CodexConfig

  lemma {:induction false} RunKeepsInv(path: string, w: World, events: seq<Event>)
    requires Inv(path, w) && Calm(path, w, events)
    ensures Inv(path, Run(path, w, events))
    decreases |events|
  {
    if events != [] {
      hide Inv, Step, CalmEvent;
      StepKeepsInv(path, w, events[0]);
      RunKeepsInv(path, Step(path, w, events[0]), events[1..]);
    }
  }

  predicate HasBinaryCache(d: Disk) { d.cache.Some? && d.cache.value.Binary? }

  /**
   Both operations get past their checks: an apply unless the model cache is not text, a restore once there is a
   receipt.
   */
  ghost predicate Accepted(path: string, d: Disk) {
    var w := World(d, Idle, None);
    && (forall url :: var started := StartApply(path, w, url);
          if HasBinaryCache(d) then started == World(d, Idle, Some(InvalidModelCache))
          else started.job.SavePrepared? && started.disk == d && started.error.None?)
    && (d.receipt.Some? ==> StartRestore(path, w).error.None?)
  }

  /** Both operations refuse the configuration and leave every file alone. */
  ghost predicate Refused(path: string, d: Disk) {
    var w := World(d, Idle, None);
    && (forall url :: StartApply(path, w, url) == World(d, Idle, Some(ConfigDrift)))
    && StartRestore(path, w) == World(d, Idle, Some(ConfigDrift))
  }

  /**
   Wherever the editor stops, both operations are accepted again, except exactly in the exposed
   states, where both are refused from then on.
   */
  lemma StoppingIsRecoverableIffNotExposed(path: string, w: World)
    requires Inv(path, w)
    ensures !Exposed(w.job) ==> Accepted(path, w.disk)
    ensures Exposed(w.job) ==> Refused(path, w.disk)
    ensures !(Accepted(path, w.disk) && Refused(path, w.disk))
  {
    ExposedIffInconsistent(path, w);
    if !Exposed(w.job) {
      ConsistentIsAccepted(path, w.disk);
    } else {
      ExposedIsRefused(path, w);
    }
    NeverBoth(path, w.disk);
  }

  lemma NeverBoth(path: string, d: Disk)
    ensures !(Accepted(path, d) && Refused(path, d))
  {
    var w := World(d, Idle, None);
    if Accepted(path, d) {
      assert StartApply(path, w, "").error != Some(ConfigDrift);
    }
  }

  lemma ConsistentIsAccepted(path: string, d: Disk)
    requires Consistent(path, d)
    ensures Accepted(path, d)
  {
    hide Applied, Original, Candidate;
  }

  lemma ExposedIsRefused(path: string, w: World)
    requires Inv(path, w) && Exposed(w.job)
    ensures Refused(path, w.disk)
  {
    ExposedIffInconsistent(path, w);
    hide Candidate, Captured;
  }

  // The recorded original.

  function OriginalOf(d: Disk): Option<Text>
    requires LiveOnDisk(d)
  {
    d.receipt.value.receipt.original
  }

  predicate Applying(job: Job) {
    job.Idle? || job.SavePrepared? || job.WriteConfig? || job.DropCache? || job.SaveActive?
  }

  lemma StepKeepsOriginal(path: string, w: World, e: Event)
    requires Inv(path, w) && LiveOnDisk(w.disk) && Applying(w.job) && !e.Restore?
    ensures var next := Step(path, w, e);
            LiveOnDisk(next.disk) && Applying(next.job) && OriginalOf(next.disk) == OriginalOf(w.disk)
  {
    hide Applied, Original, SameManaged, Candidate, Validates;
  }

  lemma {:induction false} OriginalIsStable(path: string, w: World, events: seq<Event>)
    requires Inv(path, w) && LiveOnDisk(w.disk) && Applying(w.job)
    requires Calm(path, w, events) && Restore !in events
    ensures var end := Run(path, w, events);
            LiveOnDisk(end.disk) && Applying(end.job) && OriginalOf(end.disk) == OriginalOf(w.disk)
    decreases |events|
  {
    if events != [] {
      hide Inv, Step, CalmEvent;
      StepKeepsInv(path, w, events[0]);
      StepKeepsOriginal(path, w, events[0]);
      OriginalIsStable(path, Step(path, w, events[0]), events[1..]);
    }
  }

  /** The live receipt, and an apply under way, record this model cache as the one before the first apply. */
  predicate Records(w: World, cache: Option<CacheText>) {
    && LiveOnDisk(w.disk) && w.disk.receipt.value.receipt.originalCache == Some(cache)
    && Applying(w.job)
    && (w.job.SavePrepared? ==> w.job.prepared.originalCache == Some(cache))
  }

  lemma StepKeepsCache(path: string, w: World, e: Event, cache: Option<CacheText>)
    requires Inv(path, w) && Records(w, cache) && !e.Restore?
    ensures Records(Step(path, w, e), cache)
  {
    hide Applied, Original, SameManaged, Candidate, Validates;
  }

  /** Once recorded, the model cache of before the first apply is recorded until a restore, whatever is applied. */
  lemma {:induction false} OriginalCacheIsStable(path: string, w: World, events: seq<Event>,
                                                 cache: Option<CacheText>)
    requires Inv(path, w) && Records(w, cache) && Calm(path, w, events) && Restore !in events
    ensures Records(Run(path, w, events), cache)
    decreases |events|
  {
    if events != [] {
      hide Inv, Step, CalmEvent, Records;
      StepKeepsInv(path, w, events[0]);
      StepKeepsCache(path, w, events[0], cache);
      OriginalCacheIsStable(path, Step(path, w, events[0]), events[1..], cache);
    }
  }

  // Crash recovery of apply.

  /** Applies of one URL, crashes anywhere, and other programs' edits that keep the managed values. */
  predicate OneUrl(path: string, w: World, url: string, events: seq<Event>)
    decreases |events|
  {
    events != [] ==>
      && var e := events[0];
      && (e.Apply? ==> e.url == url)
      && !e.Restore?
      && (e.Edit? ==> Unmanaged(w.disk.config, e.config))
      && OneUrl(path, Step(path, w, events[0]), url, events[1..])
  }

  /** The receipt and the job speak of this URL, and the job never moves it. */
  predicate Speaks(w: World, url: string) {
    && (LiveOnDisk(w.disk) ==> w.disk.receipt.value.receipt.url == url)
    && Applying(w.job)
    && (!w.job.Idle? ==> w.job.prepared.url == url)
    && !UrlMoves(w.job)
  }

  lemma StepSpeaks(path: string, w: World, url: string, e: Event)
    requires Inv(path, w) && Speaks(w, url)
    requires e == Apply(url) || e.Write? || e.Crash? || (e.Edit? && Unmanaged(w.disk.config, e.config))
    ensures CalmEvent(w, e) && Speaks(Step(path, w, e), url)
  {
    hide Applied, Candidate;
  }

  lemma {:induction false} OneUrlIsCalm(path: string, w: World, url: string, events: seq<Event>)
    requires Inv(path, w) && Speaks(w, url) && OneUrl(path, w, url, events)
    ensures Calm(path, w, events) && Speaks(Run(path, w, events), url)
    decreases |events|
  {
    if events != [] {
      hide Inv, Step, CalmEvent, Speaks, Unmanaged;
      StepSpeaks(path, w, url, events[0]);
      StepKeepsInv(path, w, events[0]);
      OneUrlIsCalm(path, Step(path, w, events[0]), url, events[1..]);
    }
  }

  /** Nothing applied yet, or everything restored. */
  predicate Fresh(path: string, d: Disk) { !Blank(path) && Consistent(path, d) && !LiveOnDisk(d) }

  /**
   Main law: however often applies of one URL are started, crash and are retried, and whatever other
   programs edit in between, at every moment the managed keys are all original or all applied, and
   stopping there leaves both operations accepted; and the original, once recorded, stays.
   */
  lemma ApplyRecoversFromCrashes(path: string, d: Disk, url: string, earlier: seq<Event>, later: seq<Event>)
    requires Fresh(path, d)
    requires var now := Run(path, World(d, Idle, None), earlier);
             OneUrl(path, World(d, Idle, None), url, earlier) && OneUrl(path, now, url, later)
    ensures var now := Run(path, World(d, Idle, None), earlier);
            && Accepted(path, now.disk)
            && (LiveOnDisk(now.disk) ==>
                  && Settled(now.disk.config, now.disk.receipt.value.receipt)
                  && var end := Run(path, now, later).disk;
                     LiveOnDisk(end) && OriginalOf(end) == OriginalOf(now.disk))
  {
    var start := World(d, Idle, None);
    var now := Run(path, start, earlier);
    OneUrlIsCalm(path, start, url, earlier);
    RunKeepsInv(path, start, earlier);
    OneUrlIsCalm(path, now, url, later);
    SpeaksIsAccepted(path, now, url);
    if LiveOnDisk(now.disk) {
      NoRestoreIn(path, now, url, later);
      hide Inv, Consistent, OneUrl;
      OriginalIsStable(path, now, later);
    }
  }

  lemma SpeaksIsAccepted(path: string, w: World, url: string)
    requires Inv(path, w) && Speaks(w, url)
    ensures Accepted(path, w.disk) && (LiveOnDisk(w.disk) ==> Settled(w.disk.config, w.disk.receipt.value.receipt))
  {
    ExposedIffInconsistent(path, w);
    ConsistentIsAccepted(path, w.disk);
    hide Accepted, Applied, SameManaged;
  }

  lemma {:induction false} NoRestoreIn(path: string, w: World, url: string, events: seq<Event>)
    requires OneUrl(path, w, url, events)
    ensures Restore !in events
    decreases |events|
  {
    if events != [] {
      hide Step;
      NoRestoreIn(path, Step(path, w, events[0]), url, events[1..]);
    }
  }

  // Whole operations.

  /** The rest of a job, with nothing in between. */
  function Finish(w: World): World { Proceed(Proceed(Proceed(Proceed(w)))) }

  lemma ApplyCompletes(path: string, w: World, url: string)
    requires Inv(path, w) && w.job.Idle? && !HasBinaryCache(w.disk)
    ensures var done := Finish(StartApply(path, w, url));
            && done.job.Idle? && done.error.None? && Inv(path, done)
            && done.disk.config == Some(Toml(Candidate(Parse(w.disk.config).value, url)))
            && done.disk.cache.None?
            && LiveOnDisk(done.disk)
            && done.disk.receipt.value.receipt.phase == Active(done.disk.config.value)
            && done.disk.receipt.value.receipt.url == url
            && OriginalOf(done.disk) == (if LiveOnDisk(w.disk) then OriginalOf(w.disk) else w.disk.config)
  {
    ConsistentIsAccepted(path, w.disk);
    CandidateIsApplied(Parse(w.disk.config).value, url);
    StartApplyKeepsInv(path, w, url);
    var start := StartApply(path, w, url);
    assert start.job.SavePrepared? by { assert StartApply(path, World(w.disk, Idle, None), url) == start; }
    ApplyFinishes(path, start);
  }

  lemma ApplyFinishes(path: string, w: World)
    requires Inv(path, w) && w.job.SavePrepared? && w.job.config == w.disk.config && w.job.cache == w.disk.cache
    ensures var prepared := w.job.prepared;
            Finish(w) == World(Disk(Some(prepared.phase.planned), None,
                                    Some(Valid(prepared.(phase := Active(prepared.phase.planned))))), Idle, None)
  {
    hide Applied, SameManaged, Blank;
  }

  /** The document holds managed items only. */
  ghost predicate NothingElse(doc: Document) {
    Blank(doc.layout) && forall key :: key !in MANAGED ==> Get(doc, key) == None
  }

  /**
   What a restore gives back: the managed items of the original, and every other key as edited, values
   with their order and all that is written around them. The file is gone only if there was none and
   nothing else is left.
   */
  ghost predicate Returned(original: Option<Text>, edited: Option<Text>, result: Option<Text>) {
    && Parse(original).Some? && Parse(edited).Some? && Parse(result).Some?
    && var was, now, after := Parse(original).value, Parse(edited).value, Parse(result).value;
    && (forall key :: key in MANAGED ==> Get(after, key) == Get(was, key))
    && (forall key :: key !in MANAGED ==> Get(after, key) == Get(now, key))
    && Except(after.values, MANAGED) == Except(now.values, MANAGED)
    && (result.Some? ==> after == RestoreItems(now, was) && after.layout == now.layout)
    && (result.None? <==> edited.None? || (original.None? && NothingElse(now)))
  }

  lemma EmptyIffNothing(doc: Document)
    ensures doc.values == [] && doc.tables == map[] <==> forall key :: Get(doc, key) == None
  {
    assert doc.values != [] ==> Get(doc, doc.values[0].key).Some?;
    if forall key :: Get(doc, key) == None {
      assert forall key :: key in doc.tables ==> Get(doc, key) != None || Lookup(doc.values, key).Some?;
      assert forall key :: key !in doc.tables;
    }
  }

  /** Restoring what a missing file had prints blank exactly when nothing but managed items is there. */
  lemma BlankIffNothingElse(doc: Document)
    ensures PrintsBlank(RestoreItems(doc, EMPTY)) <==> NothingElse(doc)
  {
    hide Get, RestoreItems, Except, Blank;
    RestoredIsOriginal(doc, EMPTY);
    EmptyIffNothing(RestoreItems(doc, EMPTY));
    EmptyIffNothing(EMPTY);
    var back := RestoreItems(doc, EMPTY);
    if NothingElse(doc) {
      forall key ensures Get(back, key) == None {
        if key !in MANAGED {
          assert Get(back, key) == Get(doc, key);
        }
      }
    }
  }

  /** A restore that finds no file leaves none: only an original without managed values allows it. */
  lemma MissingStaysMissing(original: Document)
    requires SameManaged(EMPTY, original)
    ensures RestoreItems(EMPTY, original) == EMPTY
  {
    assert Get(original, OPENAI_BASE_URL) == None;
    assert Get(original, MODEL_CATALOG_JSON) == None;
    assert Get(original, MODEL_PROVIDER) == None;
    assert forall key: string :: Drop(EMPTY, key) == EMPTY;
  }

  lemma PutBackReturns(path: string, w: World, r: Receipt)
    requires Consistent(path, w.disk) && w.disk.receipt == Some(Valid(r)) && r.phase != Restored
    ensures var done := PutBack(w, w.disk.config, r);
            && done.job == SaveRestored(r) && done.error.None?
            && done.disk == w.disk.(config := done.disk.config)
            && Returned(r.original, w.disk.config, done.disk.config)
  {
    hide Get, SameManaged, Returned, PutBack;
    if w.disk.config.None? {
      EmptyIsNotApplied(r.url);
      assert Original(EMPTY, r);
    }
    PutBackGives(w, r);
    hide Applied;
  }

  lemma PutBackGives(w: World, r: Receipt)
    requires Parse(w.disk.config).Some? && Parse(r.original).Some?
    requires w.disk.config.None? ==> Original(EMPTY, r)
    ensures var done := PutBack(w, w.disk.config, r);
            && done.job == SaveRestored(r) && done.error.None?
            && done.disk == w.disk.(config := done.disk.config)
            && Returned(r.original, w.disk.config, done.disk.config)
  {
    hide RestoreItems, Get, Except, SameManaged, NothingElse, Blank;
    var doc, original := Parse(w.disk.config).value, Parse(r.original).value;
    RestoredIsOriginal(doc, original);
    if r.original.None? {
      BlankIffNothingElse(doc);
      if PrintsBlank(RestoreItems(doc, original)) {
        assert RestoreItems(doc, original).values == EMPTY.values;
        EmptyIffNothing(RestoreItems(doc, original));
        EmptyIffNothing(EMPTY);
      }
    }
    if w.disk.config.None? {
      MissingStaysMissing(original);
    }
  }

  lemma EmptyIsNotApplied(url: string)
    ensures !Applied(EMPTY, url)
  {
  }

  lemma {:induction false} RestoreCompletes(path: string, w: World)
    requires Inv(path, w) && w.job.Idle? && LiveOnDisk(w.disk)
    ensures var done := Finish(StartRestore(path, w));
            && done.job.Idle? && done.error.None? && Inv(path, done)
            && done.disk.receipt == Some(Valid(w.disk.receipt.value.receipt.(phase := Restored)))
            && done.disk.cache.None?
            && Returned(OriginalOf(w.disk), w.disk.config, done.disk.config)
  {
    hide RestoreItems, Applied, Original, SameManaged, PutBack, Returned, Blank, PrintsBlank, Settled, Planned;
    ConsistentIsAccepted(path, w.disk);
    StartRestoreKeepsInv(path, w);
    var r := w.disk.receipt.value.receipt;
    var start := StartRestore(path, w);
    assert start == World(w.disk, RestoreCache(w.disk.config, w.disk.cache, r), None) by {
      assert StartRestore(path, World(w.disk, Idle, None)) == start;
    }
    var dropped := Proceed(start);
    assert dropped == World(w.disk.(cache := None), RestoreConfig(w.disk.config, r), None);
    PutBackReturns(path, dropped, r);
    FinishesRestored(path, dropped);
  }

  lemma FinishesRestored(path: string, w: World)
    requires Inv(path, w) && w.job.RestoreConfig?
    requires Proceed(w).job == SaveRestored(w.job.receipt)
    ensures Inv(path, Proceed(Proceed(w)))
    ensures var restored := Some(Valid(w.job.receipt.(phase := Restored)));
            Proceed(Proceed(w)) == World(Proceed(w).disk.(receipt := restored), Idle, None)
  {
    PutBackKeepsInv(path, w);
    RestoreWriteKeepsInv(path, Proceed(w));
    hide PutBack, Blank, Original, Applied, PrintsBlank;
  }

  /**
   Main law: apply, any calm run of further applies with any URLs, crashes and edits by other
   programs, then restore. The managed items are exactly those captured at the first apply, every
   other key is as last edited, and the file is gone only if it did not exist and nothing remains.
   */
  lemma {:induction false} RoundTrip(path: string, d: Disk, url: string, events: seq<Event>)
    requires Fresh(path, d) && !HasBinaryCache(d)
    requires var applied := Finish(StartApply(path, World(d, Idle, None), url));
             Calm(path, applied, events) && Restore !in events && Run(path, applied, events).job.Idle?
    ensures var applied := Finish(StartApply(path, World(d, Idle, None), url));
            var edited := Run(path, applied, events);
            var done := Finish(StartRestore(path, edited));
            && done.error.None? && done.job.Idle? && Fresh(path, done.disk)
            && Returned(d.config, edited.disk.config, done.disk.config)
  {
    var start := World(d, Idle, None);
    ApplyCompletes(path, start, url);
    var applied := Finish(StartApply(path, start, url));
    OriginalIsStable(path, applied, events);
    RunKeepsInv(path, applied, events);
    var edited := Run(path, applied, events);
    RestoreCompletes(path, edited);
  }

  /**
   A second apply is exposed, once its receipt is saved, exactly when it moves the URL of a
   configuration that is not original.
   */
  lemma UrlChangeIsExposed(path: string, w: World, url: string)
    requires Inv(path, w) && w.job.Idle? && !HasBinaryCache(w.disk) && LiveOnDisk(w.disk)
    ensures var r := w.disk.receipt.value.receipt;
            var saved := Proceed(StartApply(path, w, url));
            && Inv(path, saved)
            && (Exposed(saved.job) <==> url != r.url && !Original(Parse(w.disk.config).value, r))
  {
    StartApplyKeepsInv(path, w, url);
    ApplyWriteKeepsInv(path, StartApply(path, w, url));
    hide SameManaged, Candidate, Blank;
  }

  /** So it happens: apply one URL to a missing configuration, then another, and stop after the second receipt. */
  lemma UrlChangeStrands(path: string, url: string, other: string)
    requires !Blank(path) && url != other
    ensures var applied := Finish(StartApply(path, World(Disk(None, None, None), Idle, None), url));
            && applied.error.None?
            && Refused(path, Proceed(StartApply(path, applied, other)).disk)
  {
    var start := World(Disk(None, None, None), Idle, None);
    ApplyCompletes(path, start, url);
    var applied := Finish(StartApply(path, start, url));
    CandidateIsApplied(EMPTY, url);
    assert !Original(Parse(applied.disk.config).value, applied.disk.receipt.value.receipt);
    UrlChangeIsExposed(path, applied, other);
    StoppingIsRecoverableIffNotExposed(path, Proceed(StartApply(path, applied, other)));
  }

  /** So does a restore that stops after the config write: apply to a missing configuration, restore, and stop there. */
  lemma RestoreStrands(path: string, url: string)
    requires !Blank(path)
    ensures var applied := Finish(StartApply(path, World(Disk(None, None, None), Idle, None), url));
            && applied.error.None?
            && Refused(path, Proceed(Proceed(StartRestore(path, applied))).disk)
  {
    hide Candidate, RestoreItems, Blank, Refused, Accepted, Applied;
    var start := World(Disk(None, None, None), Idle, None);
    ApplyCompletes(path, start, url);
    var applied := Finish(StartApply(path, start, url));
    EmptyIsNotApplied(url);
    RestoreIsExposed(path, applied);
    StoppingIsRecoverableIffNotExposed(path, Proceed(Proceed(StartRestore(path, applied))));
  }

  /**
   And an edit while the URL moves, with nothing stopping: apply one URL, save the receipt for another,
   let another program change anything but the managed values, and the write fails.
   */
  lemma EditStrands(path: string, url: string, other: string, config: Option<Text>, cache: Option<CacheText>)
    requires !Blank(path) && url != other
    requires var applied := Finish(StartApply(path, World(Disk(None, None, None), Idle, None), url));
             Unmanaged(applied.disk.config, config) && config != applied.disk.config
    ensures var applied := Finish(StartApply(path, World(Disk(None, None, None), Idle, None), url));
            var saved := Proceed(StartApply(path, applied, other));
            && applied.error.None?
            && Refused(path, Proceed(Step(path, saved, Edit(config, cache))).disk)
  {
    hide Candidate, RestoreItems, Blank, Refused, Accepted;
    var start := World(Disk(None, None, None), Idle, None);
    ApplyCompletes(path, start, url);
    var applied := Finish(StartApply(path, start, url));
    CandidateIsApplied(EMPTY, url);
    assert !Original(Parse(applied.disk.config).value, applied.disk.receipt.value.receipt);
    hide Applied, Original, Unmanaged;
    UrlChangeIsExposed(path, applied, other);
    EditBeforeWriteStrandsIffUrlMoves(path, Proceed(StartApply(path, applied, other)), config, cache);
  }

  /**
   Another program's edit of unmanaged keys, made just before the config write: the write fails, and
   both operations refuse the configuration from then on, exactly when the URL was being moved and
   the edit changed the file at all. Otherwise both are accepted.
   */
  lemma EditBeforeWriteStrandsIffUrlMoves(path: string, w: World, config: Option<Text>, cache: Option<CacheText>)
    requires Inv(path, w) && w.job.WriteConfig? && w.job.config == w.disk.config
    requires Unmanaged(w.disk.config, config)
    ensures var done := Proceed(Step(path, w, Edit(config, cache)));
            if UrlMoves(w.job) && config != w.disk.config
            then Refused(path, done.disk) && done.error == Some(File(ConcurrentModification))
            else Accepted(path, done.disk)
  {
    var edited := Step(path, w, Edit(config, cache));
    var r := w.job.prepared;
    UnmanagedKeepsValues(w.disk.config, config, r);
    if UrlMoves(w.job) && config != w.disk.config {
      MovedIsRefused(path, edited.disk, r);
    } else {
      EditKeepsInv(path, w, config, cache);
      ApplyWriteKeepsInv(path, edited);
      StoppingIsRecoverableIffNotExposed(path, Proceed(edited));
      hide Inv, Accepted, Refused;
      NotExposedAfterWrite(edited);
    }
  }

  lemma NotExposedAfterWrite(w: World)
    requires w.job.WriteConfig?
    ensures w.job.prepared.phase.Prepared? ==> !Exposed(Proceed(w).job)
  {
  }

  /**
   A receipt prepared for a URL, over a configuration neither applied with it nor original, refuses both operations.
   */
  lemma MovedIsRefused(path: string, d: Disk, r: Receipt)
    requires d.receipt == Some(Valid(r)) && r.phase.Prepared? && Sound(path, r)
    requires Parse(d.config).Some? && !Settled(d.config, r)
    ensures Refused(path, d)
  {
    hide Candidate, Captured;
  }

  /** The same in the gap before the receipt is saved. */
  lemma EditBeforeReceiptStrandsIffUrlMoves(path: string, w: World, config: Option<Text>, cache: Option<CacheText>)
    requires Inv(path, w) && w.job.SavePrepared? && w.job.config == w.disk.config
    requires Unmanaged(w.disk.config, config)
    ensures var saved := Proceed(Step(path, w, Edit(config, cache)));
            var done := Proceed(saved);
            && saved.error.None?
            && if UrlMoves(w.job) && config != w.disk.config
               then Refused(path, done.disk) && done.error == Some(File(ConcurrentModification))
               else Accepted(path, done.disk)
  {
    var edited := Step(path, w, Edit(config, cache));
    var r := w.job.prepared;
    UnmanagedKeepsValues(w.disk.config, config, r);
    if UrlMoves(w.job) && config != w.disk.config {
      MovedIsRefused(path, Proceed(edited).disk, r);
    } else {
      EditKeepsInv(path, w, config, cache);
      ApplyWriteKeepsInv(path, edited);
      ApplyWriteKeepsInv(path, Proceed(edited));
      StoppingIsRecoverableIffNotExposed(path, Proceed(Proceed(edited)));
      NotExposedAfterWrite(Proceed(edited));
      hide Accepted, Refused;
    }
  }

  /**
   A restore is exposed, once it put the original back, exactly when the receipt says active and the original does
   not look applied.
   */
  lemma {:induction false} RestoreIsExposed(path: string, w: World)
    requires Inv(path, w) && w.job.Idle? && LiveOnDisk(w.disk)
    ensures var r := w.disk.receipt.value.receipt;
            var back := Proceed(Proceed(StartRestore(path, w)));
            && Inv(path, back)
            && (Exposed(back.job) <==> r.phase.Active? && !Applied(Parse(r.original).value, r.url))
  {
    hide RestoreItems, Applied, Original, SameManaged, PutBack, Returned, Blank, PrintsBlank;
    var r := w.disk.receipt.value.receipt;
    StartRestoreKeepsInv(path, w);
    var start := StartRestore(path, w);
    RestoreWriteKeepsInv(path, start);
    PutBackReturns(path, Proceed(start), r);
    PutBackKeepsInv(path, Proceed(start));
  }

  /**
   While a receipt is live, another program's edit, which may remove the file, is drift exactly when it
   leaves the managed values neither applied nor, under a prepared receipt, original; drift leaves every
   file alone.
   */
  lemma ManagedEditIsDrift(path: string, w: World, config: Option<Text>)
    requires Inv(path, w) && w.job.Idle? && LiveOnDisk(w.disk) && Parse(config).Some?
    ensures var r := w.disk.receipt.value.receipt; var doc := Parse(config).value;
            var ok := Applied(doc, r.url) || (r.phase.Prepared? && Original(doc, r));
            var edited := w.disk.(config := config);
            (Refused(path, edited) <==> !ok) && (Accepted(path, edited) <==> ok)
  {
    var edited := w.disk.(config := config);
    var r := w.disk.receipt.value.receipt;
    if Applied(Parse(config).value, r.url) || (r.phase.Prepared? && Original(Parse(config).value, r)) {
      ConsistentIsAccepted(path, edited);
    }
    NeverBoth(path, edited);
    hide Candidate, Captured, Applied, SameManaged;
  }
}
