/** The editor as it runs: its reads and writes in order, and before each write whatever another program did. */
module CodexConfigEditor {
  import opened Wrappers
  import opened AtomicFile
  import opened TomlDocument
  import opened CodexConfig
  import opened CodexConfigLaws

  datatype Others = Quiet | Edited(config: Option<Text>, cache: Option<CacheText>)

  function Meanwhile(w: World, others: Others): World {
    match others
    case Quiet => w
    case Edited(config, cache) => w.(disk := w.disk.(config := config, cache := cache))
  }

  /** A job's writes, each after what others did, until it ends. */
  function Amid(w: World, gaps: seq<Others>): World
    decreases |gaps|
  {
    if w.job.Idle? || gaps == [] then w else Amid(Proceed(Meanwhile(w, gaps[0])), gaps[1..])
  }

  function EventsOf(w: World, gaps: seq<Others>): seq<Event>
    decreases |gaps|
  {
    if w.job.Idle? || gaps == [] then []
    else (match gaps[0] case Quiet => [] case Edited(config, cache) => [Edit(config, cache)])
         + [Write] + EventsOf(Proceed(Meanwhile(w, gaps[0])), gaps[1..])
  }

  lemma {:induction false} RunAppend(path: string, w: World, a: seq<Event>, b: seq<Event>)
    ensures Run(path, w, a + b) == Run(path, Run(path, w, a), b)
    decreases |a|
  {
    if a == [] {
      assert a + b == b;
    } else {
      assert (a + b)[1..] == a[1..] + b;
      RunAppend(path, Step(path, w, a[0]), a[1..], b);
    }
  }

  /** So an operation amid other programs is one of the runs the laws speak of. */
  lemma {:induction false} AmidIsARun(path: string, w: World, gaps: seq<Others>)
    ensures Amid(w, gaps) == Run(path, w, EventsOf(w, gaps))
    decreases |gaps|
  {
    if !w.job.Idle? && gaps != [] {
      hide Proceed;
      var first: seq<Event> := match gaps[0] case Quiet => [] case Edited(config, cache) => [Edit(config, cache)];
      var next := Proceed(Meanwhile(w, gaps[0]));
      assert Run(path, w, first) == Meanwhile(w, gaps[0]);
      RunAppend(path, w, first, [Write]);
      RunAppend(path, w, first + [Write], EventsOf(next, gaps[1..]));
      assert Run(path, Meanwhile(w, gaps[0]), [Write]) == next;
      AmidIsARun(path, next, gaps[1..]);
    }
  }

  lemma AmidStep(w: World, gaps: seq<Others>)
    requires !w.job.Idle? && gaps != []
    ensures Amid(w, gaps) == Amid(Proceed(Meanwhile(w, gaps[0])), gaps[1..])
  {
  }

  lemma AmidEnds(w: World, gaps: seq<Others>)
    ensures w.job.Idle? ==> Amid(w, gaps) == w
  {
  }

  /** Left alone, the four gaps of an apply finish it. */
  lemma QuietIsFinish(w: World)
    ensures Amid(w, [Quiet, Quiet, Quiet, Quiet]) == Finish(w)
  {
    hide Proceed;
    var gaps := [Quiet, Quiet, Quiet, Quiet];
    assert gaps[1..] == [Quiet, Quiet, Quiet] && gaps[2..] == [Quiet, Quiet] && gaps[3..] == [Quiet] && gaps[4..] == [];
    assert gaps[1..][1..] == gaps[2..] && gaps[2..][1..] == gaps[3..] && gaps[3..][1..] == gaps[4..];
    IdleStays(w);
    IdleStays(Proceed(w));
    IdleStays(Proceed(Proceed(w)));
    IdleStays(Proceed(Proceed(Proceed(w))));
  }

  lemma IdleStays(w: World)
    ensures w.job.Idle? ==> Proceed(w) == w
  {
  }

  const QUIET := [Quiet, Quiet, Quiet, Quiet]

  /** The value, unless the write before it failed. */
  function Then<T>(written: Result<(), Error>, value: T): Result<T, Error> {
    match written
    case Ok(_) => Ok(value)
    case Err(e) => Err(e)
  }

  class Editor {
    const path: string
    var config: Option<Text>
    var cache: Option<CacheText>
    var receipt: Option<ReceiptText>

    function View(): Disk
      reads this
    {
      Disk(config, cache, receipt)
    }

    constructor (path: string, disk: Disk)
      ensures this.path == path && View() == disk
    {
      this.path, config, cache, receipt := path, disk.config, disk.cache, disk.receipt;
    }

    /** What other programs did to the files before the next write. */
    method LetOthersRun(ghost w: World, others: Others) returns (ghost now: World)
      requires w.disk == View()
      modifies this`config, this`cache
      ensures now == Meanwhile(w, others) && now.disk == View() && now.job == w.job
    {
      match others {
        case Quiet =>
        case Edited(newConfig, newCache) => config, cache := newConfig, newCache;
      }
      now := Meanwhile(w, others);
    }

    /** The disk is what the write left, and the job goes on to `next` or ends with the write's error. */
    ghost predicate Wrote(r: Result<(), Error>, done: World, next: Job)
      reads this
    {
      && done.disk == View()
      && (r.Ok? ==> done.job == next && done.error.None?)
      && (r.Err? ==> done.job.Idle? && done.error == Some(r.error))
    }

    method WriteExternal(ghost w: World, was: Option<Text>, text: Text, ghost next: Job)
        returns (r: Result<(), Error>, ghost done: World)
      requires w.disk == View()
      modifies this`config
      ensures done == ReplaceConfig(w, was, text, next) && Wrote(r, done, next)
      ensures r.Ok? <==> old(config) == was
    {
      done := ReplaceConfig(w, was, text, next);
      match Replace(config, was, text) {
        case Ok(bytes) => config := Some(bytes); r := Ok(());
        case Err(e) => r := Err(File(e));
      }
    }

    method RemoveExternal(was: Text) returns (r: Result<(), Error>)
      modifies this`config
      ensures r.Ok? <==> old(config) == Some(was)
      ensures config == if r.Ok? then None else old(config)
      ensures r.Err? ==> r.error == File(if old(config).None? then MissingFile else ConcurrentModification)
    {
      match Remove(config, was) {
        case Ok(_) => config := None; r := Ok(());
        case Err(e) => r := Err(File(e));
      }
    }

    method InvalidateModelCache(ghost w: World, current: Option<CacheText>, ghost next: Job)
        returns (r: Result<(), Error>, ghost done: World)
      requires w.disk == View()
      modifies this`cache
      ensures done == RemoveCache(w, current, next) && Wrote(r, done, next)
      ensures r.Ok? <==> current.None? || old(cache) == current
    {
      done := RemoveCache(w, current, next);
      if current.None? {
        r := Ok(());
        return;
      }
      match Remove(cache, current.value) {
        case Ok(_) => cache := None; r := Ok(());
        case Err(e) => r := Err(File(e));
      }
    }

    method Save(ghost w: World, to: Receipt, was: Option<ReceiptText>, ghost next: Job)
        returns (r: Result<(), Error>, ghost done: World)
      requires w.disk == View()
      modifies this`receipt
      ensures done == SaveReceipt(w, was, to, next) && Wrote(r, done, next)
      ensures r.Ok? <==> !Blank(to.path) && old(receipt) == was
      ensures r.Ok? ==> receipt == Some(Valid(to))
    {
      done := SaveReceipt(w, was, to, next);
      if Blank(to.path) {
        r := Err(InvalidReceipt);
        return;
      }
      match Replace(receipt, was, Valid(to)) {
        case Ok(text) => receipt := Some(text); r := Ok(());
        case Err(e) => r := Err(File(e));
      }
    }

    /** Put the managed items back, or remove a file that did not exist before. */
    method PutItemsBack(ghost w: World, was: Option<Text>, doc: Document, last: Receipt)
        returns (r: Result<(), Error>, ghost done: World)
      requires w.disk == View() && Parse(was) == Some(doc)
      modifies this`config
      ensures done == PutBack(w, was, last) && Wrote(r, done, SaveRestored(last))
    {
      hide RestoreItems, PrintsBlank;
      done := PutBack(w, was, last);
      var original := Parse(last.original);
      if original.None? {
        r := Err(InvalidToml);
        return;
      }
      var candidate := RestoreItems(doc, original.value);
      r := Ok(());
      if last.original.None? && PrintsBlank(candidate) {
        if was.Some? {
          r := RemoveExternal(was.value);
        }
      } else if candidate != doc {
        ghost var written;
        r, written := WriteExternal(w, was, Toml(candidate), SaveRestored(last));
      }
    }

    method Apply(url: string, gaps: seq<Others>) returns (r: Result<Receipt, Error>)
      requires |gaps| >= 4
      modifies this
      ensures World(View(), Idle, if r.Ok? then None else Some(r.error))
           == Amid(StartApply(path, World(old(View()), Idle, None), url), gaps)
      ensures r.Ok? ==> receipt == Some(Valid(r.value)) && r.value.phase.Active?
    {
      hide Candidate, Blank, Applied, SameManaged, Validates;
      var current := config;
      var doc := Parse(current);
      if doc.None? {
        return Err(InvalidToml);
      }
      var currentCache := cache;
      var loaded := LoadReceipt(path, View());
      if loaded.Err? {
        return Err(loaded.error);
      }
      var live := Live(loaded.value);
      if live && !Validates(current, doc.value, loaded.value.value) {
        return Err(ConfigDrift);
      }
      if currentCache.Some? && currentCache.value.Binary? {
        return Err(InvalidModelCache);
      }
      var original, originalCache := current, currentCache;
      if live {
        original := loaded.value.value.original;
        originalCache := loaded.value.value.originalCache.GetOr(currentCache);
      }
      var planned := Toml(Candidate(doc.value, url));
      var prepared := Receipt(path, Prepared(planned), original, Some(originalCache), url);
      ghost var w := StartApply(path, World(View(), Idle, None), url);
      assert w == World(View(), SavePrepared(current, currentCache, receipt, prepared), None);
      r := WritePrepared(current, currentCache, planned, prepared, gaps);
    }

    /** The four writes of an apply. */
    method WritePrepared(current: Option<Text>, currentCache: Option<CacheText>, planned: Text, prepared: Receipt,
        gaps: seq<Others>)
      returns (r: Result<Receipt, Error>)
      requires |gaps| >= 4 && prepared.phase == Prepared(planned)
      modifies this
      ensures World(View(), Idle, if r.Ok? then None else Some(r.error))
           == Amid(World(old(View()), SavePrepared(current, currentCache, old(receipt), prepared), None), gaps)
      ensures r.Ok? ==> receipt == Some(Valid(r.value)) && r.value.phase.Active?
    {
      hide Blank, Amid, SaveReceipt, ReplaceConfig, RemoveCache, Meanwhile;
      ghost var w := World(View(), SavePrepared(current, currentCache, receipt, prepared), None);
      var was := receipt;
      AmidStep(w, gaps);
      w := LetOthersRun(w, gaps[0]);
      var saved, written, dropped;
      saved, w := Save(w, prepared, was, WriteConfig(current, currentCache, prepared));
      if saved.Err? {
        AmidEnds(w, gaps[1..]);
        return Err(saved.error);
      }
      AmidStep(w, gaps[1..]);
      w := LetOthersRun(w, gaps[1]);
      written, w := WriteExternal(w, current, planned, DropCache(currentCache, prepared));
      if written.Err? {
        AmidEnds(w, gaps[2..]);
        return Err(written.error);
      }
      AmidStep(w, gaps[2..]);
      w := LetOthersRun(w, gaps[2]);
      dropped, w := InvalidateModelCache(w, currentCache, SaveActive(prepared));
      if dropped.Err? {
        AmidEnds(w, gaps[3..]);
        return Err(dropped.error);
      }
      AmidStep(w, gaps[3..]);
      w := LetOthersRun(w, gaps[3]);
      var active := prepared.(phase := Active(planned));
      saved, w := Save(w, active, Some(Valid(prepared)), Idle);
      AmidEnds(w, gaps[4..]);
      r := Then(saved, active);
    }

    method Restore(gaps: seq<Others>) returns (r: Result<Receipt, Error>)
      requires |gaps| >= 3
      modifies this
      ensures World(View(), Idle, if r.Ok? then None else Some(r.error))
           == Amid(StartRestore(path, World(old(View()), Idle, None)), gaps)
      ensures r.Ok? ==> receipt == Some(Valid(r.value)) && r.value.phase == Restored
    {
      hide RestoreItems, Blank, Validates;
      var loaded := LoadReceipt(path, View());
      if loaded.Err? {
        return Err(loaded.error);
      }
      if loaded.value.None? {
        return Err(File(MissingFile));
      }
      var last := loaded.value.value;
      if last.phase == Restored {
        return Ok(last);
      }
      var current := config;
      var doc := Parse(current);
      if doc.None? {
        return Err(InvalidToml);
      }
      if !Validates(current, doc.value, last) {
        return Err(ConfigDrift);
      }
      assert StartRestore(path, World(View(), Idle, None)) == World(View(), RestoreCache(current, cache, last), None);
      r := WriteBack(current, doc.value, last, gaps);
    }

    /** The three writes of a restore. */
    method WriteBack(current: Option<Text>, doc: Document, last: Receipt, gaps: seq<Others>)
        returns (r: Result<Receipt, Error>)
      requires |gaps| >= 3 && Parse(current) == Some(doc) && receipt == Some(Valid(last))
      modifies this
      ensures World(View(), Idle, if r.Ok? then None else Some(r.error))
           == Amid(World(old(View()), RestoreCache(current, old(cache), last), None), gaps)
      ensures r.Ok? ==> receipt == Some(Valid(r.value)) && r.value.phase == Restored
    {
      hide Blank, Amid, SaveReceipt, RemoveCache, Meanwhile, PutBack;
      ghost var w := World(View(), RestoreCache(current, cache, last), None);
      AmidStep(w, gaps);
      var currentCache := cache;
      w := LetOthersRun(w, gaps[0]);
      var dropped, written, saved;
      dropped, w := InvalidateModelCache(w, currentCache, RestoreConfig(current, last));
      if dropped.Err? {
        AmidEnds(w, gaps[1..]);
        return Err(dropped.error);
      }
      AmidStep(w, gaps[1..]);
      w := LetOthersRun(w, gaps[1]);
      written, w := PutItemsBack(w, current, doc, last);
      if written.Err? {
        AmidEnds(w, gaps[2..]);
        return Err(written.error);
      }
      AmidStep(w, gaps[2..]);
      w := LetOthersRun(w, gaps[2]);
      var restored := last.(phase := Restored);
      saved, w := Save(w, restored, Some(Valid(last)), Idle);
      AmidEnds(w, gaps[3..]);
      r := Then(saved, restored);
    }
  }
}
