/** The upgrade as it runs: its file accesses in order, and before each one whatever another program did. */
module ProviderUpgrader {
  import opened Wrappers
  import opened AtomicFile
  import opened ProviderUpgrade

  datatype Others = Quiet | Edited(providers: Option<Bytes>, cache: Option<Bytes>)

  function Meanwhile(w: World, others: Others): World {
    match others
    case Quiet => w
    case Edited(providers, cache) => w.(disk := w.disk.(providers := providers, cache := cache))
  }

  /** A job's accesses, each after what others did, until it ends. */
  function Amid(s: Setup, w: World, gaps: seq<Others>): World
    decreases |gaps|
  {
    if w.job.Idle? || gaps == [] then w else Amid(s, Proceed(s, Meanwhile(w, gaps[0])), gaps[1..])
  }

  lemma AmidStep(s: Setup, w: World, gaps: seq<Others>)
    requires !w.job.Idle? && gaps != []
    ensures Amid(s, w, gaps) == Amid(s, Proceed(s, Meanwhile(w, gaps[0])), gaps[1..])
  {
  }

  lemma AmidEnds(s: Setup, w: World, gaps: seq<Others>)
    ensures w.job.Idle? ==> Amid(s, w, gaps) == w
  {
  }

  /** So an upgrade amid other programs is one of the runs the laws speak of. */
  lemma {:induction false} AmidIsARun(s: Setup, w: World, gaps: seq<Others>) returns (events: seq<Event>)
    ensures Amid(s, w, gaps) == Run(s, w, events)
    ensures forall e :: e in events ==> e.Edit? || e.Proceeds?
    decreases |gaps|
  {
    events := [];
    if !w.job.Idle? && gaps != [] {
      hide Proceed;
      var rest := AmidIsARun(s, Proceed(s, Meanwhile(w, gaps[0])), gaps[1..]);
      events := [Proceeds] + rest;
      assert events[1..] == rest;
      if gaps[0].Edited? {
        events := [Edit(gaps[0].providers, gaps[0].cache)] + events;
        assert events[1..] == [Proceeds] + rest;
      }
    }
  }

  class Upgrader {
    const s: Setup
    var providers: Option<Bytes>
    var cache: Option<Bytes>
    var receipt: Option<ReceiptText>
    var backups: map<string, Backup>

    function View(): Disk
      reads this
    {
      Disk(providers, cache, receipt, backups)
    }

    constructor (s: Setup, disk: Disk)
      ensures this.s == s && View() == disk
    {
      this.s, providers, cache, receipt, backups := s, disk.providers, disk.cache, disk.receipt, disk.backups;
    }

    method LetOthersRun(ghost w: World, others: Others) returns (ghost now: World)
      requires w.disk == View()
      modifies this`providers, this`cache
      ensures now == Meanwhile(w, others) && now.disk == View() && now.job == w.job
    {
      match others {
        case Quiet =>
        case Edited(newProviders, newCache) => providers, cache := newProviders, newCache;
      }
      now := Meanwhile(w, others);
    }

    method PrepareUpgrade(dir: string, gaps: seq<Others>) returns (r: Result<Option<Notice>, Error>)
      requires |gaps| == 9
      modifies this
      ensures World(View(), Idle, Some(r)) == Amid(s, StartPrepare(s, Next(old(View()), Idle), dir), gaps)
    {
      if receipt.Some? {
        r := FinishUpgrade(receipt.value, gaps);
        return;
      }
      if providers.None? {
        return Ok(None);
      }
      match s.kind(providers.value) {
        case Outdated =>
        case Current => return Ok(None);
        case Malformed => return Err(InvalidProviders);
      }
      ghost var w := Next(View(), LoadCache(dir, providers.value));
      var begun;
      begun, w := Begin(w, dir, providers.value, gaps);
      if begun.Err? {
        return Err(begun.error);
      }
      r := FinishUpgrade(begun.value, gaps[4..]);
    }

    /** Back both files up in a new directory, then record them: four accesses. */
    method Begin(ghost w: World, dir: string, original: Bytes, gaps: seq<Others>)
        returns (r: Result<ReceiptText, Error>, ghost done: World)
      requires |gaps| == 9 && w == Next(View(), LoadCache(dir, original))
      modifies this
      ensures done.disk == View() && Amid(s, done, gaps[4..]) == Amid(s, w, gaps)
      ensures r.Ok? ==> done == Next(View(), Verify(r.value))
      ensures r.Err? ==> done == World(View(), Idle, Some(Err(r.error)))
    {
      hide Amid, Meanwhile;
      done := w;
      AmidStep(s, done, gaps);
      done := LetOthersRun(done, gaps[0]);
      var originalCache := cache;
      backups := backups[dir := Backup(None, None)];
      done := Next(View(), BackUpProviders(dir, original, originalCache));

      AmidStep(s, done, gaps[1..]);
      done := LetOthersRun(done, gaps[1]);
      backups := backups[dir := BackupIn(View(), dir).(providers := Some(original))];
      done := Next(View(), BackUpCache(dir, original, originalCache));

      AmidStep(s, done, gaps[2..]);
      done := LetOthersRun(done, gaps[2]);
      if originalCache.Some? {
        backups := backups[dir := BackupIn(View(), dir).(cache := originalCache)];
      }
      done := Next(View(), SaveReceipt(dir, original, originalCache));

      AmidStep(s, done, gaps[3..]);
      done := LetOthersRun(done, gaps[3]);
      match Replace(receipt, None, Valid(Receipt(dir, original, originalCache, false))) {
        case Ok(text) =>
          receipt := Some(text);
          done := Next(View(), Verify(text));
          r := Ok(text);
        case Err(e) =>
          done := World(View(), Idle, Some(Err(File(e))));
          AmidEnds(s, done, gaps[4..]);
          r := Err(File(e));
      }
    }

    /** Check the backup, then replace the cache, the providers and the receipt: five accesses. */
    method FinishUpgrade(text: ReceiptText, gaps: seq<Others>) returns (r: Result<Option<Notice>, Error>)
      requires |gaps| >= 5
      modifies this
      ensures World(View(), Idle, Some(r)) == Amid(s, Next(old(View()), Verify(text)), gaps)
    {
      hide Amid, Meanwhile, CheckBackup;
      ghost var w := Next(View(), Verify(text));
      AmidStep(s, w, gaps);
      w := LetOthersRun(w, gaps[0]);
      w := Proceed(s, w);
      AmidEnds(s, w, gaps[1..]);
      if text.Invalid? {
        return Err(InvalidReceipt);
      }
      var last := text.receipt;
      var checked := CheckBackup(View(), last);
      if checked.Err? {
        return Err(checked.error);
      }
      if last.complete {
        return Ok(Some(Notice(last.directory, text)));
      }
      var seenProviders := Replaceable(providers, Some(last.providers), s.defaults);
      if seenProviders.Err? {
        return Err(seenProviders.error);
      }
      r := ReplaceFiles(w, last, seenProviders.value, gaps[1..]);
    }

    method ReplaceFiles(ghost was: World, last: Receipt, seenProviders: Option<Bytes>, gaps: seq<Others>)
        returns (r: Result<Option<Notice>, Error>)
      requires |gaps| >= 4 && was == Next(View(), CheckCache(last, seenProviders))
      modifies this
      ensures World(View(), Idle, Some(r)) == Amid(s, was, gaps)
    {
      hide Amid, Meanwhile;
      ghost var w := was;
      AmidStep(s, w, gaps);
      w := LetOthersRun(w, gaps[0]);
      w := Proceed(s, w);
      AmidEnds(s, w, gaps[1..]);
      var seenCache := Replaceable(cache, last.cache, s.emptyCache);
      if seenCache.Err? {
        return Err(seenCache.error);
      }
      AmidStep(s, w, gaps[1..]);
      w := LetOthersRun(w, gaps[1]);
      w := Proceed(s, w);
      AmidEnds(s, w, gaps[2..]);
      match Replace(cache, seenCache.value, s.emptyCache) {
        case Ok(bytes) => cache := Some(bytes);
        case Err(e) => return Err(File(e));
      }
      AmidStep(s, w, gaps[2..]);
      w := LetOthersRun(w, gaps[2]);
      w := Proceed(s, w);
      AmidEnds(s, w, gaps[3..]);
      match Replace(providers, seenProviders, s.defaults) {
        case Ok(bytes) => providers := Some(bytes);
        case Err(e) => return Err(File(e));
      }
      AmidStep(s, w, gaps[3..]);
      w := LetOthersRun(w, gaps[3]);
      w := Proceed(s, w);
      AmidEnds(s, w, gaps[4..]);
      match Replace(receipt, Some(Valid(last)), Valid(last.(complete := true))) {
        case Ok(bytes) => receipt := Some(bytes); return Ok(Some(Notice(last.directory, bytes)));
        case Err(e) => return Err(File(e));
      }
    }

    method AcknowledgeNotice(notice: Notice) returns (r: Result<(), Error>)
      modifies this`receipt
      ensures Acknowledge(Next(old(View()), Idle), notice)
           == World(View(), Idle, Some(match r case Ok(_) => Ok(None) case Err(e) => Err(e)))
    {
      match Remove(receipt, notice.receipt) {
        case Ok(_) => receipt := None; return Ok(());
        case Err(e) => return Err(File(e));
      }
    }
  }
}
