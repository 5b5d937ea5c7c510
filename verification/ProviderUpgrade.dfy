/** Replacing an outdated provider configuration by the defaults, with a backup first, one file access at a time. */
module ProviderUpgrade {
  import opened Wrappers
  import opened AtomicFile

  type Bytes = string

  /** How a provider document reads: current, of another (non-zero) schema version, or not a document at all. */
  datatype Kind = Current | Outdated | Malformed

  /** What the program writes in place of the old files, and how it reads a provider document. */
  datatype Setup = Setup(kind: Bytes -> Kind, defaults: Bytes, emptyCache: Bytes)

  /** `providers` and `cache` are the recorded originals, `cache` is `None` when there was no cache file. */
  datatype Receipt = Receipt(directory: string, providers: Bytes, cache: Option<Bytes>, complete: bool)

  datatype ReceiptText = Valid(receipt: Receipt) | Invalid(bytes: Bytes)

  datatype Backup = Backup(providers: Option<Bytes>, cache: Option<Bytes>)

  datatype Disk = Disk(providers: Option<Bytes>, cache: Option<Bytes>, receipt: Option<ReceiptText>,
      backups: map<string, Backup>)

  datatype Error = File(error: FileError) | InvalidProviders | InvalidReceipt

  datatype Notice = Notice(directory: string, receipt: ReceiptText)

  const PREFIX := "upgrade-backup-"

  predicate Alphanumeric(c: char) { '0' <= c <= '9' || 'a' <= c <= 'z' || 'A' <= c <= 'Z' }

  /** A directory name the upgrade itself makes: the prefix and a non-empty alphanumeric suffix. */
  predicate NamesBackup(directory: string) {
    && PREFIX < directory
    && forall k :: |PREFIX| <= k < |directory| ==> Alphanumeric(directory[k])
  }

  /** Between two file accesses: what has been read, and what comes next. */
  datatype Job =
    | Idle
    | LoadCache(dir: string, providers: Bytes)
    | BackUpProviders(dir: string, providers: Bytes, cache: Option<Bytes>)
    | BackUpCache(dir: string, providers: Bytes, cache: Option<Bytes>)
    | SaveReceipt(dir: string, providers: Bytes, cache: Option<Bytes>)
    | Verify(text: ReceiptText)
    | CheckCache(receipt: Receipt, seenProviders: Option<Bytes>)
    | WriteCache(receipt: Receipt, seenProviders: Option<Bytes>, seenCache: Option<Bytes>)
    | WriteProviders(receipt: Receipt, seenProviders: Option<Bytes>)
    | SaveComplete(receipt: Receipt)

  datatype World = World(disk: Disk, job: Job, outcome: Option<Result<Option<Notice>, Error>>)

  function Ends(w: World, outcome: Result<Option<Notice>, Error>): World { World(w.disk, Idle, Some(outcome)) }

  function Next(disk: Disk, job: Job): World { World(disk, job, None) }

  /** `dir` is the fresh directory name a new backup would get. */
  function StartPrepare(s: Setup, w: World, dir: string): World {
    match w.disk.receipt
    case Some(text) => Next(w.disk, Verify(text))
    case None =>
      match w.disk.providers
      case None => Ends(w, Ok(None))
      case Some(bytes) =>
        match s.kind(bytes)
        case Outdated => Next(w.disk, LoadCache(dir, bytes))
        case Current => Ends(w, Ok(None))
        case Malformed => Ends(w, Err(InvalidProviders))
  }

  /** The content a replacement may replace: the original, or the replacement itself. */
  function Replaceable(current: Option<Bytes>, original: Option<Bytes>,
      replacement: Bytes): Result<Option<Bytes>, Error> {
    if current == original || current == Some(replacement) then Ok(current) else Err(File(ConcurrentModification))
  }

  /** The recorded backup, still there with the recorded contents. */
  function CheckBackup(d: Disk, r: Receipt): Result<(), Error> {
    if !NamesBackup(r.directory) then Err(InvalidReceipt) else
    var backup := if r.directory in d.backups then d.backups[r.directory] else Backup(None, None);
    if backup.providers.None? then Err(File(MissingFile))
    else if backup.providers != Some(r.providers) then Err(InvalidReceipt)
    else if r.cache.None? then Ok(())
    else if backup.cache.None? then Err(File(MissingFile))
    else if backup.cache != r.cache then Err(InvalidReceipt)
    else Ok(())
  }

  function VerifyBackup(s: Setup, w: World, text: ReceiptText): World {
    match text
    case Invalid(_) => Ends(w, Err(InvalidReceipt))
    case Valid(r) =>
      match CheckBackup(w.disk, r)
      case Err(e) => Ends(w, Err(e))
      case Ok(_) =>
        if r.complete then Ends(w, Ok(Some(Notice(r.directory, text)))) else
        match Replaceable(w.disk.providers, Some(r.providers), s.defaults)
        case Err(e) => Ends(w, Err(e))
        case Ok(seen) => Next(w.disk, CheckCache(r, seen))
  }

  function BackupIn(d: Disk, dir: string): Backup { if dir in d.backups then d.backups[dir] else Backup(None, None) }

  function Proceed(s: Setup, w: World): World {
    match w.job
    case Idle => w
    case LoadCache(dir, providers) =>
      Next(w.disk.(backups := w.disk.backups[dir := Backup(None, None)]), BackUpProviders(dir, providers, w.disk.cache))
    case BackUpProviders(dir, providers, cache) =>
      (match Replace(BackupIn(w.disk, dir).providers, None, providers)
       case Err(e) => Ends(w, Err(File(e)))
       case Ok(bytes) =>
         Next(w.disk.(backups := w.disk.backups[dir := BackupIn(w.disk, dir).(providers := Some(bytes))]),
             BackUpCache(dir, providers, cache)))
    case BackUpCache(dir, providers, cache) =>
      if cache.None? then Next(w.disk, SaveReceipt(dir, providers, cache)) else
      (match Replace(BackupIn(w.disk, dir).cache, None, cache.value)
       case Err(e) => Ends(w, Err(File(e)))
       case Ok(bytes) =>
         Next(w.disk.(backups := w.disk.backups[dir := BackupIn(w.disk, dir).(cache := Some(bytes))]),
             SaveReceipt(dir, providers, cache)))
    case SaveReceipt(dir, providers, cache) =>
      var r := Receipt(dir, providers, cache, false);
      (match Replace(w.disk.receipt, None, Valid(r))
       case Err(e) => Ends(w, Err(File(e)))
       case Ok(text) => Next(w.disk.(receipt := Some(text)), Verify(text)))
    case Verify(text) => VerifyBackup(s, w, text)
    case CheckCache(r, seenProviders) =>
      (match Replaceable(w.disk.cache, r.cache, s.emptyCache)
       case Err(e) => Ends(w, Err(e))
       case Ok(seenCache) => Next(w.disk, WriteCache(r, seenProviders, seenCache)))
    case WriteCache(r, seenProviders, seenCache) =>
      (match Replace(w.disk.cache, seenCache, s.emptyCache)
       case Err(e) => Ends(w, Err(File(e)))
       case Ok(bytes) => Next(w.disk.(cache := Some(bytes)), WriteProviders(r, seenProviders)))
    case WriteProviders(r, seenProviders) =>
      (match Replace(w.disk.providers, seenProviders, s.defaults)
       case Err(e) => Ends(w, Err(File(e)))
       case Ok(bytes) => Next(w.disk.(providers := Some(bytes)), SaveComplete(r)))
    case SaveComplete(r) =>
      (match Replace(w.disk.receipt, Some(Valid(r)), Valid(r.(complete := true)))
       case Err(e) => Ends(w, Err(File(e)))
       case Ok(text) => Ends(w.(disk := w.disk.(receipt := Some(text))), Ok(Some(Notice(r.directory, text)))))
  }

  function Acknowledge(w: World, notice: Notice): World {
    match w.disk.receipt
    case None => Ends(w, Err(File(MissingFile)))
    case Some(text) =>
      if text == notice.receipt then World(w.disk.(receipt := None), Idle, Some(Ok(None)))
      else Ends(w, Err(File(ConcurrentModification)))
  }

  /** `Crash` also stands for an access that fails and leaves its file as it was; `Edit` is another program's write. */
  datatype Event =
    | Prepare(dir: string)
    | Proceeds
    | Crash
    | Edit(providers: Option<Bytes>, cache: Option<Bytes>)
    | Acknowledged(notice: Notice)

  function Step(s: Setup, w: World, e: Event): World {
    match e
    case Prepare(dir) => if w.job.Idle? then StartPrepare(s, w, dir) else w
    case Proceeds => Proceed(s, w)
    case Crash => Next(w.disk, Idle)
    case Edit(providers, cache) => w.(disk := w.disk.(providers := providers, cache := cache))
    case Acknowledged(notice) => if w.job.Idle? then Acknowledge(w, notice) else w
  }

  function Run(s: Setup, w: World, events: seq<Event>): World
    decreases |events|
  {
    if events == [] then w else Run(s, Step(s, w, events[0]), events[1..])
  }

  /** New backups get well-formed names no backup has. */
  predicate Fresh(w: World, e: Event) { e.Prepare? ==> NamesBackup(e.dir) && e.dir !in w.disk.backups }

  predicate AllFresh(s: Setup, w: World, events: seq<Event>)
    decreases |events|
  {
    events != [] ==> Fresh(w, events[0]) && AllFresh(s, Step(s, w, events[0]), events[1..])
  }

  /** The backup the receipt names holds what the receipt records as original. */
  predicate Held(d: Disk, r: Receipt) {
    NamesBackup(r.directory) && r.directory in d.backups && d.backups[r.directory] == Backup(Some(r.providers), r.cache)
  }

  predicate ReceiptHeld(d: Disk) { d.receipt.Some? ==> d.receipt.value.Valid? && Held(d, d.receipt.value.receipt) }

  predicate Pending(d: Disk, r: Receipt) { d.receipt == Some(Valid(r)) && Held(d, r) && !r.complete }

  predicate IsNewBackup(d: Disk, dir: string, backup: Backup) {
    d.receipt.None? && NamesBackup(dir) && dir in d.backups && d.backups[dir] == backup
  }

  /** What holds at every file access, whatever other programs do to the two configuration files. */
  predicate Inv(s: Setup, w: World) {
    match w.job
    case Idle => ReceiptHeld(w.disk)
    case LoadCache(dir, _) => w.disk.receipt.None? && NamesBackup(dir) && dir !in w.disk.backups
    case BackUpProviders(dir, _, _) => IsNewBackup(w.disk, dir, Backup(None, None))
    case BackUpCache(dir, providers, _) => IsNewBackup(w.disk, dir, Backup(Some(providers), None))
    case SaveReceipt(dir, providers, cache) => IsNewBackup(w.disk, dir, Backup(Some(providers), cache))
    case Verify(text) => w.disk.receipt == Some(text) && ReceiptHeld(w.disk)
    case CheckCache(r, seen) => Pending(w.disk, r) && seen in {Some(r.providers), Some(s.defaults)}
    case WriteCache(r, seen, seenCache) =>
      Pending(w.disk, r) && seen in {Some(r.providers), Some(s.defaults)} && seenCache in {r.cache, Some(s.emptyCache)}
    case WriteProviders(r, seen) => Pending(w.disk, r) && seen in {Some(r.providers), Some(s.defaults)}
    case SaveComplete(r) => Pending(w.disk, r)
  }
}
