/** Applying and restoring the Codex configuration, one file write at a time. */
module CodexConfig {
  import opened Wrappers
  import opened AtomicFile
  import opened TomlDocument

  // The files.

  datatype Text = Toml(doc: Document) | NotToml(bytes: string)

  datatype CacheText = Utf8(text: string) | Binary(bytes: seq<bv8>)

  datatype Phase = Prepared(planned: Text) | Active(applied: Text) | Restored

  /** `original` is the configuration before the first apply, `None` when there was no file. */
  datatype Receipt = Receipt(path: string, phase: Phase, original: Option<Text>,
      originalCache: Option<Option<CacheText>>, url: string)

  datatype ReceiptText = Valid(receipt: Receipt) | Invalid(bytes: string)

  datatype Disk = Disk(config: Option<Text>, cache: Option<CacheText>, receipt: Option<ReceiptText>)

  datatype Error =
    | File(error: FileError)
    | InvalidToml
    | InvalidModelCache
    | InvalidReceipt
    | ReceiptPathMismatch
    | ConfigDrift

  const OPENAI_BASE_URL := "openai_base_url"
  const MODEL_CATALOG_JSON := "model_catalog_json"
  const MODEL_PROVIDER := "model_provider"
  const MANAGED := {OPENAI_BASE_URL, MODEL_CATALOG_JSON, MODEL_PROVIDER}

  predicate Blank(s: string) { forall k :: 0 <= k < |s| ==> s[k] in " \t\r\n" }

  /** The document prints as nothing but whitespace. */
  predicate PrintsBlank(doc: Document) { doc.values == [] && doc.tables == map[] && Blank(doc.layout) }

  /** A missing file reads as the empty document. */
  function Parse(file: Option<Text>): Option<Document> {
    match file
    case None => Some(EMPTY)
    case Some(Toml(doc)) => Some(doc)
    case Some(NotToml(_)) => None
  }

  function AsStr(item: Option<Item>): Option<string> {
    if item.Some? && item.value.Str? then Some(item.value.value) else None
  }

  /**
   Strings by value and other items by trimmed text; the text of a string is never that of another item,
   nor a value's that of a table.
   */
  predicate ItemsMatch(a: Option<Item>, b: Option<Item>) {
    match (a, b)
    case (None, None) => true
    case (Some(Str(x, _)), Some(Str(y, _))) => x == y
    case (Some(Other(x, _)), Some(Other(y, _))) => x == y
    case (Some(Table(x, _)), Some(Table(y, _))) => x == y
    case _ => false
  }

  predicate Applied(doc: Document, url: string) {
    && AsStr(Get(doc, OPENAI_BASE_URL)) == Some(url)
    && Get(doc, MODEL_CATALOG_JSON) == None
    && AsStr(Get(doc, MODEL_PROVIDER)) == Some("openai")
  }

  predicate SameManaged(a: Document, b: Document) {
    && ItemsMatch(Get(a, OPENAI_BASE_URL), Get(b, OPENAI_BASE_URL))
    && ItemsMatch(Get(a, MODEL_CATALOG_JSON), Get(b, MODEL_CATALOG_JSON))
    && ItemsMatch(Get(a, MODEL_PROVIDER), Get(b, MODEL_PROVIDER))
  }

  predicate Original(doc: Document, r: Receipt) {
    Parse(r.original).Some? && SameManaged(doc, Parse(r.original).value)
  }

  predicate Validates(config: Option<Text>, doc: Document, r: Receipt) {
    match r.phase
    case Active(_) => Applied(doc, r.url)
    case Prepared(planned) => config == Some(planned) || Applied(doc, r.url) || Original(doc, r)
    case Restored => Original(doc, r)
  }

  function Candidate(doc: Document, url: string): Document {
    Assign(Drop(Assign(doc, OPENAI_BASE_URL, url), MODEL_CATALOG_JSON), MODEL_PROVIDER, "openai")
  }

  function RestoreItem(candidate: Document, original: Document, key: string): Document {
    match Get(original, key)
    case Some(item) => Insert(candidate, key, item)
    case None => Drop(candidate, key)
  }

  function RestoreItems(doc: Document, original: Document): Document {
    var restored := RestoreItem(RestoreItem(doc, original, OPENAI_BASE_URL), original, MODEL_CATALOG_JSON);
    RestoreItem(restored, original, MODEL_PROVIDER)
  }

  // One write at a time.

  /** What the editor holds between two writes: what it read when it started, and what it will write. */
  datatype Job =
    | Idle
    | SavePrepared(config: Option<Text>, cache: Option<CacheText>, was: Option<ReceiptText>, prepared: Receipt)
    | WriteConfig(config: Option<Text>, cache: Option<CacheText>, prepared: Receipt)
    | DropCache(cache: Option<CacheText>, prepared: Receipt)
    | SaveActive(prepared: Receipt)
    | RestoreCache(config: Option<Text>, cache: Option<CacheText>, receipt: Receipt)
    | RestoreConfig(config: Option<Text>, receipt: Receipt)
    | SaveRestored(receipt: Receipt)

  datatype World = World(disk: Disk, job: Job, error: Option<Error>)

  function Failed(w: World, e: Error): World { World(w.disk, Idle, Some(e)) }

  function LoadReceipt(path: string, d: Disk): Result<Option<Receipt>, Error> {
    match d.receipt
    case None => Ok(None)
    case Some(Invalid(_)) => Err(InvalidReceipt)
    case Some(Valid(r)) => if r.path == path then Ok(Some(r)) else Err(ReceiptPathMismatch)
  }

  /** A receipt that records an apply not yet restored. */
  predicate Live(r: Option<Receipt>) { r.Some? && r.value.phase != Restored }

  /** The original an apply records, and the cache it records with it. */
  function Captured(d: Disk, r: Option<Receipt>): (Option<Text>, Option<CacheText>) {
    if Live(r) then (r.value.original, r.value.originalCache.GetOr(d.cache)) else (d.config, d.cache)
  }

  function StartApply(path: string, w: World, url: string): World {
    var doc := Parse(w.disk.config);
    if doc.None? then Failed(w, InvalidToml) else
    var loaded := LoadReceipt(path, w.disk);
    if loaded.Err? then Failed(w, loaded.error) else
    var r := loaded.value;
    if Live(r) && !Validates(w.disk.config, doc.value, r.value) then Failed(w, ConfigDrift)
    else if w.disk.cache.Some? && w.disk.cache.value.Binary? then Failed(w, InvalidModelCache)
    else
      var (original, cache) := Captured(w.disk, r);
      var planned := Toml(Candidate(doc.value, url));
      World(w.disk, SavePrepared(w.disk.config, w.disk.cache, w.disk.receipt,
          Receipt(path, Prepared(planned), original, Some(cache), url)), None)
  }

  function StartRestore(path: string, w: World): World {
    var loaded := LoadReceipt(path, w.disk);
    if loaded.Err? then Failed(w, loaded.error)
    else if loaded.value.None? then Failed(w, File(MissingFile)) else
    var r := loaded.value.value;
    if r.phase == Restored then World(w.disk, Idle, None) else
    var doc := Parse(w.disk.config);
    if doc.None? then Failed(w, InvalidToml)
    else if !Validates(w.disk.config, doc.value, r) then Failed(w, ConfigDrift)
    else World(w.disk, RestoreCache(w.disk.config, w.disk.cache, r), None)
  }

  function SaveReceipt(w: World, was: Option<ReceiptText>, r: Receipt, next: Job): World {
    if Blank(r.path) then Failed(w, InvalidReceipt) else
    match Replace(w.disk.receipt, was, Valid(r))
    case Ok(text) => World(w.disk.(receipt := Some(text)), next, None)
    case Err(e) => Failed(w, File(e))
  }

  function RemoveCache(w: World, cache: Option<CacheText>, next: Job): World {
    if cache.None? then World(w.disk, next, None) else
    match Remove(w.disk.cache, cache.value)
    case Ok(_) => World(w.disk.(cache := None), next, None)
    case Err(e) => Failed(w, File(e))
  }

  function ReplaceConfig(w: World, was: Option<Text>, text: Text, next: Job): World {
    match Replace(w.disk.config, was, text)
    case Ok(text) => World(w.disk.(config := Some(text)), next, None)
    case Err(e) => Failed(w, File(e))
  }

  function PutBack(w: World, was: Option<Text>, r: Receipt): World {
    var doc, original := Parse(was), Parse(r.original);
    if doc.None? || original.None? then Failed(w, InvalidToml) else
    var candidate := RestoreItems(doc.value, original.value);
    if r.original.None? && PrintsBlank(candidate) then
      if was.None? then World(w.disk, SaveRestored(r), None) else
      match Remove(w.disk.config, was.value)
      case Ok(_) => World(w.disk.(config := None), SaveRestored(r), None)
      case Err(e) => Failed(w, File(e))
    else if candidate != doc.value then ReplaceConfig(w, was, Toml(candidate), SaveRestored(r))
    else World(w.disk, SaveRestored(r), None)
  }

  /** The job's next write. */
  function Proceed(w: World): World {
    match w.job
    case Idle => w
    case SavePrepared(config, cache, was, prepared) =>
        SaveReceipt(w, was, prepared, WriteConfig(config, cache, prepared))
    case WriteConfig(config, cache, prepared) =>
      if prepared.phase.Prepared? then ReplaceConfig(w, config, prepared.phase.planned, DropCache(cache, prepared))
          else w
    case DropCache(cache, prepared) => RemoveCache(w, cache, SaveActive(prepared))
    case SaveActive(prepared) =>
      if prepared.phase.Prepared?
      then SaveReceipt(w, Some(Valid(prepared)), prepared.(phase := Active(prepared.phase.planned)), Idle) else w
    case RestoreCache(config, cache, r) => RemoveCache(w, cache, RestoreConfig(config, r))
    case RestoreConfig(config, r) => PutBack(w, config, r)
    case SaveRestored(r) => SaveReceipt(w, Some(Valid(r)), r.(phase := Restored), Idle)
  }

  /** `Crash` also stands for a write that fails and leaves its file as it was; `Edit` is another program's write. */
  datatype Event = Apply(url: string) | Restore | Write | Crash | Edit(config: Option<Text>, cache: Option<CacheText>)

  function Step(path: string, w: World, e: Event): World {
    match e
    case Apply(url) => if w.job.Idle? then StartApply(path, w, url) else w
    case Restore => if w.job.Idle? then StartRestore(path, w) else w
    case Write => Proceed(w)
    case Crash => w.(job := Idle)
    case Edit(config, cache) => w.(disk := w.disk.(config := config, cache := cache))
  }

  function Run(path: string, w: World, events: seq<Event>): World
    decreases |events|
  {
    if events == [] then w else Run(path, Step(path, w, events[0]), events[1..])
  }

  // When the files can be recovered.

  /** The managed keys are all original, or all applied. */
  predicate Settled(config: Option<Text>, r: Receipt) {
    Parse(config).Some? && (Applied(Parse(config).value, r.url) || Original(Parse(config).value, r))
  }

  predicate Planned(r: Receipt) {
    r.phase.Prepared? ==> r.phase.planned.Toml? && Applied(r.phase.planned.doc, r.url)
  }

  predicate Sound(path: string, r: Receipt) { r.path == path && Parse(r.original).Some? && Planned(r) }

  predicate Consistent(path: string, d: Disk) {
    && Parse(d.config).Some?
    && (d.receipt.Some? ==>
          && d.receipt.value.Valid?
          && var r := d.receipt.value.receipt;
             && Sound(path, r)
             && (r.phase.Active? ==> Applied(Parse(d.config).value, r.url))
             && (r.phase.Prepared? ==> Settled(d.config, r)))
  }

  /**
   The two places where stopping strands the configuration: an apply has recorded a new URL over a
   configuration applied with another one, and a restore has put the original back under a receipt
   that says applied.
   */
  predicate Exposed(job: Job) {
    match job
    case WriteConfig(config, _, prepared) => !Settled(config, prepared)
    case SaveRestored(r) => r.phase.Active? && Parse(r.original).Some? && !Applied(Parse(r.original).value, r.url)
    case _ => false
  }

  /** An apply that has read a configuration applied with another URL. */
  predicate UrlMoves(job: Job) {
    (job.SavePrepared? || job.WriteConfig?) && !Settled(job.config, job.prepared)
  }

  /** Another program's edit keeps the value of every managed key. */
  predicate Unmanaged(before: Option<Text>, after: Option<Text>) {
    Parse(before).Some? && Parse(after).Some? && SameManaged(Parse(before).value, Parse(after).value)
  }

  predicate CalmEvent(w: World, e: Event) {
    match e
    case Crash => !Exposed(w.job)
    case Edit(config, _) => Unmanaged(w.disk.config, config) && (UrlMoves(w.job) ==> config == w.disk.config)
    case _ => true
  }

  /** Other programs leave the managed values alone, and nothing stops the editor where it is exposed. */
  predicate Calm(path: string, w: World, events: seq<Event>)
    decreases |events|
  {
    events != [] ==> CalmEvent(w, events[0]) && Calm(path, Step(path, w, events[0]), events[1..])
  }

  predicate LiveOnDisk(d: Disk) {
    d.receipt.Some? && d.receipt.value.Valid? && d.receipt.value.receipt.phase != Restored
  }

  /** What holds of the files at every write of a job, and of what the job carries. */
  predicate Inv(path: string, w: World) {
    !Blank(path) &&
    match w.job
    case Idle => Consistent(path, w.disk)
    case SavePrepared(config, _, was, prepared) =>
      && Consistent(path, w.disk) && w.disk.receipt == was
      && Unmanaged(config, w.disk.config) && (UrlMoves(w.job) ==> w.disk.config == config)
      && Sound(path, prepared) && prepared.phase.Prepared?
      && (LiveOnDisk(w.disk) ==> prepared.original == was.value.receipt.original)
      && (!LiveOnDisk(w.disk) ==> prepared.original == config)
    case WriteConfig(config, _, prepared) =>
      && w.disk.receipt == Some(Valid(prepared)) && prepared.phase.Prepared?
      && Sound(path, prepared)
      && Unmanaged(config, w.disk.config)
      && (UrlMoves(w.job) ==> w.disk.config == config)
    case DropCache(_, prepared) =>
      && w.disk.receipt == Some(Valid(prepared)) && prepared.phase.Prepared?
      && Sound(path, prepared)
      && Parse(w.disk.config).Some? && Applied(Parse(w.disk.config).value, prepared.url)
    case SaveActive(prepared) =>
      && w.disk.receipt == Some(Valid(prepared)) && prepared.phase.Prepared?
      && Sound(path, prepared)
      && Parse(w.disk.config).Some? && Applied(Parse(w.disk.config).value, prepared.url)
    case RestoreCache(config, _, r) =>
      && Consistent(path, w.disk) && w.disk.receipt == Some(Valid(r)) && r.phase != Restored
      && Unmanaged(config, w.disk.config)
    case RestoreConfig(config, r) =>
      && Consistent(path, w.disk) && w.disk.receipt == Some(Valid(r)) && r.phase != Restored
      && Unmanaged(config, w.disk.config)
    case SaveRestored(r) =>
      && w.disk.receipt == Some(Valid(r)) && r.phase != Restored
      && Sound(path, r)
      && Parse(w.disk.config).Some? && Original(Parse(w.disk.config).value, r)
  }

  // The laws of one write.

  lemma UnmanagedKeepsValues(before: Option<Text>, after: Option<Text>, r: Receipt)
    requires Unmanaged(before, after)
    ensures Applied(Parse(before).value, r.url) <==> Applied(Parse(after).value, r.url)
    ensures Original(Parse(before).value, r) <==> Original(Parse(after).value, r)
    ensures Settled(before, r) <==> Settled(after, r)
  {
  }

  lemma UnmanagedComposes(a: Option<Text>, b: Option<Text>, c: Option<Text>)
    requires Unmanaged(a, b) && Unmanaged(b, c)
    ensures Unmanaged(a, c)
  {
  }

  lemma GetCandidate(doc: Document, url: string, key: string)
    ensures Get(Candidate(doc, url), key)
         == if key == OPENAI_BASE_URL then Some(Str(url, " "))
            else if key == MODEL_CATALOG_JSON then None
            else if key == MODEL_PROVIDER then Some(Str("openai", " "))
            else Get(doc, key)
  {
    hide Get, Assign, Drop;
    var moved := Assign(doc, OPENAI_BASE_URL, url);
    GetAssign(doc, OPENAI_BASE_URL, url, key);
    GetDrop(moved, MODEL_CATALOG_JSON, key);
    GetAssign(Drop(moved, MODEL_CATALOG_JSON), MODEL_PROVIDER, "openai", key);
  }

  lemma CandidateIsApplied(doc: Document, url: string)
    ensures Applied(Candidate(doc, url), url)
  {
    hide Get, Candidate;
    GetCandidate(doc, url, OPENAI_BASE_URL);
    GetCandidate(doc, url, MODEL_CATALOG_JSON);
    GetCandidate(doc, url, MODEL_PROVIDER);
  }

  lemma GetRestored(doc: Document, original: Document, restored: string, key: string)
    ensures Get(RestoreItem(doc, original, restored), key) == Get(if key == restored then original else doc, key)
  {
    hide Get, Insert, Drop;
    if Get(original, restored).Some? {
      GetInsert(doc, restored, Get(original, restored).value, key);
    } else {
      GetDrop(doc, restored, key);
    }
  }

  lemma RestoreItemKeepsRest(doc: Document, original: Document, key: string)
    requires key in MANAGED
    ensures Except(RestoreItem(doc, original, key).values, MANAGED) == Except(doc.values, MANAGED)
    ensures RestoreItem(doc, original, key).layout == doc.layout
  {
    hide Except;
    ExceptWithout(doc.values, key, MANAGED);
    if Get(original, key).Some? {
      ExceptSet(doc.values, Entry(key, "", Get(original, key).value), MANAGED);
    }
  }

  /** Every managed item is the original's; every other entry keeps its place and all that is written around it. */
  lemma RestoredIsOriginal(doc: Document, original: Document)
    ensures SameManaged(RestoreItems(doc, original), original)
    ensures forall key :: key in MANAGED ==> Get(RestoreItems(doc, original), key) == Get(original, key)
    ensures forall key :: key !in MANAGED ==> Get(RestoreItems(doc, original), key) == Get(doc, key)
    ensures Except(RestoreItems(doc, original).values, MANAGED) == Except(doc.values, MANAGED)
    ensures RestoreItems(doc, original).layout == doc.layout
  {
    hide Get, RestoreItem, Except;
    var one := RestoreItem(doc, original, OPENAI_BASE_URL);
    var two := RestoreItem(one, original, MODEL_CATALOG_JSON);
    forall key
      ensures Get(RestoreItems(doc, original), key) == if key in MANAGED then Get(original, key) else Get(doc, key)
    {
      GetRestored(doc, original, OPENAI_BASE_URL, key);
      GetRestored(one, original, MODEL_CATALOG_JSON, key);
      GetRestored(two, original, MODEL_PROVIDER, key);
    }
    RestoreItemKeepsRest(doc, original, OPENAI_BASE_URL);
    RestoreItemKeepsRest(one, original, MODEL_CATALOG_JSON);
    RestoreItemKeepsRest(two, original, MODEL_PROVIDER);
  }

  lemma StartApplyKeepsInv(path: string, w: World, url: string)
    requires Inv(path, w) && w.job.Idle?
    ensures Inv(path, StartApply(path, w, url))
  {
    var doc := Parse(w.disk.config).value;
    CandidateIsApplied(doc, url);
  }

  lemma StartRestoreKeepsInv(path: string, w: World)
    requires Inv(path, w) && w.job.Idle?
    ensures Inv(path, StartRestore(path, w))
  {
  }

  lemma EditKeepsInv(path: string, w: World, config: Option<Text>, cache: Option<CacheText>)
    requires Inv(path, w) && CalmEvent(w, Edit(config, cache))
    ensures Inv(path, Step(path, w, Edit(config, cache)))
  {
    hide Parse, Applied, SameManaged, Planned;
    if w.disk.receipt.Some? && w.disk.receipt.value.Valid? {
      UnmanagedKeepsValues(w.disk.config, config, w.disk.receipt.value.receipt);
    }
    if w.job.SavePrepared? || w.job.WriteConfig? || w.job.RestoreCache? || w.job.RestoreConfig? {
      UnmanagedComposes(w.job.config, w.disk.config, config);
    }
  }

  /**
   The exposed states are exactly those whose files nothing recovers.
   */
  lemma ExposedIffInconsistent(path: string, w: World)
    requires Inv(path, w)
    ensures Consistent(path, w.disk) <==> !Exposed(w.job)
  {
  }

  lemma ApplyWriteKeepsInv(path: string, w: World)
    requires Inv(path, w) && (w.job.SavePrepared? || w.job.WriteConfig? || w.job.DropCache? || w.job.SaveActive?)
    ensures Inv(path, Proceed(w))
  {
    hide Applied, SameManaged, Blank;
    if w.job.SavePrepared? {
      UnmanagedKeepsValues(w.job.config, w.disk.config, w.job.prepared);
    } else if w.job.WriteConfig? {
      UnmanagedKeepsValues(w.job.config, w.disk.config, w.job.prepared);
    }
  }

  lemma {:induction false} PutBackKeepsInv(path: string, w: World)
    requires Inv(path, w) && w.job.RestoreConfig?
    ensures Inv(path, Proceed(w))
  {
    hide RestoreItems, Applied, Blank, SameManaged, Get, Except;
    var doc, original := Parse(w.job.config).value, Parse(w.job.receipt.original).value;
    RestoredIsOriginal(doc, original);
    UnmanagedKeepsValues(w.job.config, w.disk.config, w.job.receipt);
    if PrintsBlank(RestoreItems(doc, original)) {
      BlankIsEmpty(RestoreItems(doc, original), original);
    }
  }

  /** A document that prints blank has the managed values of no file at all. */
  lemma BlankIsEmpty(doc: Document, original: Document)
    requires SameManaged(doc, original) && doc.values == [] && doc.tables == map[]
    ensures SameManaged(EMPTY, original)
  {
  }

  lemma RestoreWriteKeepsInv(path: string, w: World)
    requires Inv(path, w) && (w.job.RestoreCache? || w.job.SaveRestored?)
    ensures Inv(path, Proceed(w))
  {
    hide Applied, SameManaged, Blank;
  }

  lemma CrashKeepsInv(path: string, w: World)
    requires Inv(path, w) && !Exposed(w.job)
    ensures Inv(path, w.(job := Idle))
  {
    ExposedIffInconsistent(path, w);
  }

  lemma IdleIsStill(w: World)
    requires w.job.Idle?
    ensures Proceed(w) == w
  {
  }

  lemma {:induction false} StepKeepsInv(path: string, w: World, e: Event)
    requires Inv(path, w) && CalmEvent(w, e)
    ensures Inv(path, Step(path, w, e))
  {
    if e.Crash? {
      CrashKeepsInv(path, w);
    }
    hide Inv, CalmEvent, Proceed, StartApply, StartRestore;
    match e {
      case Apply(url) => if w.job.Idle? { StartApplyKeepsInv(path, w, url); }
      case Restore => if w.job.Idle? { StartRestoreKeepsInv(path, w); }
      case Crash =>
      case Edit(config, cache) => EditKeepsInv(path, w, config, cache);
      case Write =>
        if w.job.RestoreConfig? {
          PutBackKeepsInv(path, w);
        } else if w.job.RestoreCache? || w.job.SaveRestored? {
          RestoreWriteKeepsInv(path, w);
        } else if !w.job.Idle? {
          ApplyWriteKeepsInv(path, w);
        } else {
          IdleIsStill(w);
        }
    }
  }
}
