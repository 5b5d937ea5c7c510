/** What the upgrade keeps over every run with crashes, retries and other programs' edits. */
module ProviderUpgradeLaws {
  import opened Wrappers
  import opened AtomicFile
  import opened ProviderUpgrade

  lemma StepKeepsInv(s: Setup, w: World, e: Event)
    requires Inv(s, w) && Fresh(w, e)
    ensures Inv(s, Step(s, w, e))
  {
    hide NamesBackup;
  }

  // With edits: nothing is lost.

  datatype Content = Providers(bytes: Bytes) | Cache(bytes: Bytes)

  /** The contents this event of the program's own replaces by something else. */
  function Overwritten(s: Setup, w: World, e: Event): set<Content> {
    if e.Edit? then {} else
    var next := Step(s, w, e).disk;
    (if w.disk.providers.Some? && next.providers != w.disk.providers then {Providers(w.disk.providers.value)} else {})
    + (if w.disk.cache.Some? && next.cache != w.disk.cache then {Cache(w.disk.cache.value)} else {})
  }

  function AllOverwritten(s: Setup, w: World, events: seq<Event>): set<Content>
    decreases |events|
  {
    if events == [] then {} else Overwritten(s, w, events[0]) + AllOverwritten(s, Step(s, w, events[0]), events[1..])
  }

  predicate Keeps(b: Backup, c: Content) {
    match c
    case Providers(bytes) => b.providers == Some(bytes)
    case Cache(bytes) => b.cache == Some(bytes)
  }

  /** Some backup holds the content. */
  predicate Kept(d: Disk, c: Content) { exists dir :: dir in d.backups && Keeps(d.backups[dir], c) }

  /** What a backup holds, it keeps. */
  predicate Grows(d: Disk, later: Disk) {
    forall dir :: dir in d.backups ==>
      && dir in later.backups
      && (d.backups[dir].providers.Some? ==> later.backups[dir].providers == d.backups[dir].providers)
      && (d.backups[dir].cache.Some? ==> later.backups[dir].cache == d.backups[dir].cache)
  }

  lemma StepGrows(s: Setup, w: World, e: Event)
    requires Inv(s, w)
    ensures Grows(w.disk, Step(s, w, e).disk)
  {
    hide NamesBackup;
  }

  lemma {:induction false} RunGrows(s: Setup, w: World, events: seq<Event>)
    requires Inv(s, w) && AllFresh(s, w, events)
    ensures Inv(s, Run(s, w, events)) && Grows(w.disk, Run(s, w, events).disk)
    decreases |events|
  {
    if events != [] {
      hide Inv, Step, Fresh;
      StepKeepsInv(s, w, events[0]);
      StepGrows(s, w, events[0]);
      RunGrows(s, Step(s, w, events[0]), events[1..]);
    }
  }

  /** What the program replaces is the original its receipt records, and the backup has it. */
  lemma StepKeepsContents(s: Setup, w: World, e: Event)
    requires Inv(s, w)
    ensures forall c :: c in Overwritten(s, w, e) ==> Kept(Step(s, w, e).disk, c)
    ensures Overwritten(s, w, e) != {} ==>
              && w.disk.receipt.Some? && w.disk.receipt.value.Valid?
              && var r := w.disk.receipt.value.receipt;
                 && !r.complete
                 && Overwritten(s, w, e)
                    <= {Providers(r.providers)} + (if r.cache.Some? then {Cache(r.cache.value)} else {})
  {
    hide NamesBackup;
    if w.job.WriteCache? || w.job.WriteProviders? {
      var r := w.job.receipt;
      assert Held(w.disk, r);
      assert Keeps(w.disk.backups[r.directory], Providers(r.providers));
    }
  }

  /**
   Main law, with other programs editing both files at any moment: every content the upgrade ever
   replaces by its own is, at the end of the run, in a backup.
   */
  lemma {:induction false} NothingIsLost(s: Setup, w: World, events: seq<Event>)
    requires Inv(s, w) && AllFresh(s, w, events)
    ensures forall c :: c in AllOverwritten(s, w, events) ==> Kept(Run(s, w, events).disk, c)
    decreases |events|
  {
    if events != [] {
      hide Inv, Step, Fresh, Overwritten;
      var next := Step(s, w, events[0]);
      StepKeepsInv(s, w, events[0]);
      StepKeepsContents(s, w, events[0]);
      RunGrows(s, next, events[1..]);
      NothingIsLost(s, next, events[1..]);
      forall c | c in Overwritten(s, w, events[0]) ensures Kept(Run(s, w, events).disk, c) {
        KeptGrows(next.disk, Run(s, next, events[1..]).disk, c);
      }
    }
  }

  lemma KeptGrows(d: Disk, later: Disk, c: Content)
    requires Grows(d, later) && Kept(d, c)
    ensures Kept(later, c)
  {
    var dir :| dir in d.backups && Keeps(d.backups[dir], c);
    assert Keeps(later.backups[dir], c);
  }

  // The receipt.

  /** Until it is acknowledged a receipt keeps naming the same originals, and a complete one stays. */
  predicate SameOriginals(d: Disk, later: Disk) {
    d.receipt.Some? && d.receipt.value.Valid? ==>
      && later.receipt.Some? && later.receipt.value.Valid?
      && var r, after := d.receipt.value.receipt, later.receipt.value.receipt;
         after == r.(complete := after.complete) && (r.complete ==> after.complete)
  }

  lemma InvHoldsReceipt(s: Setup, w: World)
    requires Inv(s, w)
    ensures ReceiptHeld(w.disk)
  {
    hide NamesBackup;
  }

  lemma StepKeepsReceipt(s: Setup, w: World, e: Event)
    requires Inv(s, w) && !e.Acknowledged?
    ensures SameOriginals(w.disk, Step(s, w, e).disk)
  {
    hide NamesBackup;
  }

  lemma {:induction false} ReceiptIsStable(s: Setup, w: World, events: seq<Event>)
    requires Inv(s, w) && AllFresh(s, w, events) && forall k :: 0 <= k < |events| ==> !events[k].Acknowledged?
    ensures var end := Run(s, w, events).disk;
            && SameOriginals(w.disk, end)
            && (w.disk.receipt.Some? ==> Held(end, w.disk.receipt.value.receipt))
    decreases |events|
  {
    InvHoldsReceipt(s, w);
    if events != [] {
      hide Inv, Step, Fresh, NamesBackup;
      var next := Step(s, w, events[0]);
      StepKeepsInv(s, w, events[0]);
      StepKeepsReceipt(s, w, events[0]);
      InvHoldsReceipt(s, next);
      ReceiptIsStable(s, next, events[1..]);
    }
  }

  // An upgrade left alone.

  function Onward(s: Setup, w: World, steps: nat): World
    decreases steps
  {
    if steps == 0 then w else Onward(s, Proceed(s, w), steps - 1)
  }

  /** A `prepare` with nothing in between: at most nine accesses. */
  function Prepared(s: Setup, w: World, dir: string): World { Onward(s, StartPrepare(s, w, dir), 9) }

  /** The receipt's originals or the replacements are in place, so the upgrade may go on. */
  predicate Resumable(s: Setup, d: Disk, r: Receipt) {
    d.providers in {Some(r.providers), Some(s.defaults)} && d.cache in {r.cache, Some(s.emptyCache)}
  }

  /** The upgraded disk and its notice. */
  predicate Upgraded(s: Setup, w: World, providers: Bytes, cache: Option<Bytes>) {
    && w.job.Idle?
    && w.disk.providers == Some(s.defaults) && w.disk.cache == Some(s.emptyCache)
    && w.disk.receipt.Some? && w.disk.receipt.value.Valid?
    && var r := w.disk.receipt.value.receipt;
       && r.complete && w.outcome == Some(Ok(Some(Notice(r.directory, Valid(r)))))
       && r.directory in w.disk.backups && w.disk.backups[r.directory] == Backup(Some(providers), cache)
  }

  lemma EndedStays(s: Setup, w: World, steps: nat)
    requires w.job.Idle?
    ensures Onward(s, w, steps) == w
  {
  }

  lemma {:induction false} OnwardAdds(s: Setup, w: World, a: nat, b: nat)
    ensures Onward(s, w, a + b) == Onward(s, Onward(s, w, a), b)
    decreases a
  {
    if a > 0 {
      OnwardAdds(s, Proceed(s, w), a - 1, b);
    }
  }

  lemma VerifiedEnds(s: Setup, w: World)
    requires Inv(s, w) && w.job.Verify?
    ensures var r := w.disk.receipt.value.receipt;
            var done := Onward(s, w, 5);
            if r.complete then done == Ends(w, Ok(Some(Notice(r.directory, Valid(r)))))
            else if Resumable(s, w.disk, r) then Upgraded(s, done, r.providers, r.cache)
                && done.disk.backups == w.disk.backups
            else done == Ends(w, Err(File(ConcurrentModification)))
  {
    hide NamesBackup;
    var r := w.disk.receipt.value.receipt;
    assert CheckBackup(w.disk, r) == Ok(());
    var one := Proceed(s, w);
    if one.job.Idle? {
      EndedStays(s, one, 4);
    } else {
      var two := Proceed(s, one);
      CheckedEnds(s, one);
    }
  }

  lemma CheckedEnds(s: Setup, w: World)
    requires Inv(s, w) && w.job.CheckCache? && w.job.seenProviders == w.disk.providers
    ensures var r := w.job.receipt;
            var done := Onward(s, w, 4);
            if w.disk.cache in {r.cache, Some(s.emptyCache)} then Upgraded(s, done, r.providers, r.cache)
                && done.disk.backups == w.disk.backups
            else done == Ends(w, Err(File(ConcurrentModification)))
  {
    hide NamesBackup;
    var one := Proceed(s, w);
    var two := Proceed(s, one);
    var three := Proceed(s, two);
    var four := Proceed(s, three);
    assert Onward(s, w, 4) == four by {
      assert Onward(s, one, 3) == Onward(s, two, 2) == Onward(s, three, 1) == Onward(s, four, 0);
    }
  }

  lemma BeginsWithBackup(s: Setup, w: World)
    requires Inv(s, w) && w.job.LoadCache?
    ensures var begun := Onward(s, w, 4);
            var r := Receipt(w.job.dir, w.job.providers, w.disk.cache, false);
            && Inv(s, begun) && begun.job == Verify(Valid(r))
            && begun.disk == Disk(w.disk.providers, w.disk.cache, Some(Valid(r)),
                w.disk.backups[w.job.dir := Backup(Some(r.providers), r.cache)])
  {
    hide NamesBackup;
    var one := Proceed(s, w);
    var two := Proceed(s, one);
    var three := Proceed(s, two);
    var four := Proceed(s, three);
    assert Onward(s, w, 4) == four by {
      assert Onward(s, one, 3) == Onward(s, two, 2) == Onward(s, three, 1) == Onward(s, four, 0);
    }
  }

  /**
   What a `prepare` left alone does, exactly. An incomplete upgrade ends upgraded if and only if both
   files are original or replaced, and is refused untouched otherwise; a complete one touches nothing.
   */
  lemma {:induction false} PrepareOutcome(s: Setup, w: World, dir: string)
    requires Inv(s, w) && w.job.Idle? && Fresh(w, Prepare(dir))
    ensures var done := Prepared(s, w, dir);
            match w.disk.receipt
            case Some(text) =>
              var r := text.receipt;
              if r.complete then done == Ends(w, Ok(Some(Notice(r.directory, text))))
              else if Resumable(s, w.disk, r) then Upgraded(s, done, r.providers, r.cache)
              else done == Ends(w, Err(File(ConcurrentModification)))
            case None =>
              if w.disk.providers.None? || s.kind(w.disk.providers.value).Current? then done == Ends(w, Ok(None))
              else if s.kind(w.disk.providers.value).Malformed? then done == Ends(w, Err(InvalidProviders))
              else Upgraded(s, done, w.disk.providers.value, w.disk.cache)
  {
    hide NamesBackup, Onward, Proceed;
    var start := StartPrepare(s, w, dir);
    if start.job.Idle? {
      EndedStays(s, start, 9);
    } else if start.job.Verify? {
      VerifiedEnds(s, start);
      OnwardAdds(s, start, 5, 4);
      EndedStays(s, Onward(s, start, 5), 4);
    } else {
      BeginsWithBackup(s, start);
      OnwardAdds(s, start, 4, 5);
      VerifiedEnds(s, Onward(s, start, 4));
    }
  }

  // Without edits: every crash is recovered.

  predicate Undisturbed(events: seq<Event>) {
    forall k :: 0 <= k < |events| ==> events[k].Prepare? || events[k].Proceeds? || events[k].Crash?
  }

  /** The files are on their way from these originals to the replacements. */
  predicate OnItsWay(s: Setup, w: World, providers: Bytes, cache: Option<Bytes>) {
    match w.disk.receipt
    case None =>
      && w.disk.providers == Some(providers) && w.disk.cache == cache
      && (w.job.LoadCache? ==> w.job.providers == providers)
      && (w.job.BackUpProviders? || w.job.BackUpCache? || w.job.SaveReceipt? ==>
          w.job.providers == providers && w.job.cache == cache)
    case Some(Invalid(_)) => false
    case Some(Valid(r)) =>
      && r.providers == providers && r.cache == cache
      && (if r.complete then w.disk.providers == Some(s.defaults) && w.disk.cache == Some(s.emptyCache)
          else Resumable(s, w.disk, r))
      && (w.job.WriteProviders? || w.job.SaveComplete? ==> w.disk.cache == Some(s.emptyCache))
      && (w.job.SaveComplete? ==> w.disk.providers == Some(s.defaults))
  }

  lemma StepOnItsWay(s: Setup, w: World, e: Event, providers: Bytes, cache: Option<Bytes>)
    requires Inv(s, w) && OnItsWay(s, w, providers, cache) && (e.Prepare? || e.Proceeds? || e.Crash?)
    ensures OnItsWay(s, Step(s, w, e), providers, cache)
  {
    hide NamesBackup;
  }

  lemma {:induction false} RunOnItsWay(s: Setup, w: World, events: seq<Event>, providers: Bytes, cache: Option<Bytes>)
    requires Inv(s, w) && OnItsWay(s, w, providers, cache) && AllFresh(s, w, events) && Undisturbed(events)
    ensures Inv(s, Run(s, w, events)) && OnItsWay(s, Run(s, w, events), providers, cache)
    decreases |events|
  {
    if events != [] {
      hide Inv, Step, Fresh, OnItsWay;
      StepKeepsInv(s, w, events[0]);
      StepOnItsWay(s, w, events[0], providers, cache);
      RunOnItsWay(s, Step(s, w, events[0]), events[1..], providers, cache);
    }
  }

  lemma CrashKeeps(s: Setup, w: World, providers: Bytes, cache: Option<Bytes>)
    requires Inv(s, w) && OnItsWay(s, w, providers, cache)
    ensures Inv(s, Next(w.disk, Idle)) && OnItsWay(s, Next(w.disk, Idle), providers, cache)
  {
    InvHoldsReceipt(s, w);
  }

  /**
   Main law, without edits: after any number of crashes at any points and any retries, the next
   `prepare` that is left alone ends with the default providers, an empty cache, a complete receipt
   and a backup of the exact original contents.
   */
  lemma UpgradeRecoversFromCrashes(s: Setup, d: Disk, providers: Bytes, events: seq<Event>, dir: string)
    requires d.receipt.None? && d.providers == Some(providers) && s.kind(providers).Outdated?
    requires AllFresh(s, Next(d, Idle), events) && Undisturbed(events)
    requires Fresh(Run(s, Next(d, Idle), events), Prepare(dir))
    ensures Upgraded(s, Prepared(s, Next(Run(s, Next(d, Idle), events).disk, Idle), dir), providers, d.cache)
  {
    var start := Next(d, Idle);
    RunOnItsWay(s, start, events, providers, d.cache);
    var crashed := Next(Run(s, start, events).disk, Idle);
    CrashKeeps(s, Run(s, start, events), providers, d.cache);
    InvHoldsReceipt(s, crashed);
    PrepareOutcome(s, crashed, dir);
    hide Prepared, NamesBackup, Run;
  }

  // What is trusted.

  /** The receipt names a backup the upgrade can have made, and it still holds what the receipt records. */
  predicate Intact(d: Disk, r: Receipt) {
    && |r.directory| > |"upgrade-backup-"| && r.directory[..|"upgrade-backup-"|] == "upgrade-backup-"
    && (forall k :: |"upgrade-backup-"| <= k < |r.directory| ==>
          '0' <= r.directory[k] <= '9' || 'a' <= r.directory[k] <= 'z' || 'A' <= r.directory[k] <= 'Z')
    && r.directory in d.backups
    && d.backups[r.directory].providers == Some(r.providers)
    && (r.cache.Some? ==> d.backups[r.directory].cache == r.cache)
  }

  lemma NamesAreLiteral(directory: string)
    ensures NamesBackup(directory) <==>
              && |directory| > |"upgrade-backup-"| && directory[..|"upgrade-backup-"|] == "upgrade-backup-"
              && forall k :: |"upgrade-backup-"| <= k < |directory| ==>
                   '0' <= directory[k] <= '9' || 'a' <= directory[k] <= 'z' || 'A' <= directory[k] <= 'Z'
  {
  }

  lemma CheckIsExact(d: Disk, r: Receipt)
    ensures CheckBackup(d, r).Ok? <==> Intact(d, r)
    ensures CheckBackup(d, r).Err? ==> CheckBackup(d, r).error in {InvalidReceipt, File(MissingFile)}
    ensures CheckBackup(d, r) == Err(File(MissingFile)) ==>
              || r.directory !in d.backups
              || d.backups[r.directory].providers.None?
              || (r.cache.Some? && d.backups[r.directory].cache.None?)
  {
    NamesAreLiteral(r.directory);
    hide NamesBackup;
  }

  /**
   In any state at all, whatever other programs did to receipt and backups: a `prepare` that finds a receipt
   it cannot read, or whose backup is not intact, touches nothing and fails.
   */
  lemma OnlyIntactBackupsAreTrusted(s: Setup, w: World, dir: string)
    requires w.job.Idle? && w.disk.receipt.Some?
    requires w.disk.receipt.value.Valid? ==> !Intact(w.disk, w.disk.receipt.value.receipt)
    ensures var done := Prepared(s, w, dir);
            && done.disk == w.disk && done.job.Idle?
            && done.outcome in {Some(Err(InvalidReceipt)), Some(Err(File(MissingFile)))}
            && (w.disk.receipt.value.Invalid? ==> done.outcome == Some(Err(InvalidReceipt)))
  {
    var text := w.disk.receipt.value;
    if text.Valid? {
      CheckIsExact(w.disk, text.receipt);
    }
    var start := StartPrepare(s, w, dir);
    var one := Proceed(s, start);
    EndedStays(s, one, 8);
    hide Onward, CheckBackup, Intact, NamesBackup;
    OnwardStep(s, start, 9);
  }

  lemma OnwardStep(s: Setup, w: World, steps: nat)
    requires steps > 0
    ensures Onward(s, w, steps) == Onward(s, Proceed(s, w), steps - 1)
  {
  }

  /** Acknowledging a notice removes exactly the receipt the notice was given for; no other file changes. */
  lemma AcknowledgementIsExact(s: Setup, w: World, notice: Notice)
    requires w.job.Idle?
    ensures var done := Step(s, w, Acknowledged(notice));
            && done.job.Idle?
            && done.disk == w.disk.(receipt := done.disk.receipt)
            && (w.disk.receipt == Some(notice.receipt) ==>
                  done.disk.receipt.None? && done.outcome == Some(Ok(None)))
            && (w.disk.receipt != Some(notice.receipt) ==>
                  && done.disk.receipt == w.disk.receipt
                  && done.outcome == Some(Err(File(if w.disk.receipt.None? then MissingFile
                                                   else ConcurrentModification))))
  {
  }

  /**
   An upgrade left alone, and its notice acknowledged: the receipt is gone, the backup stays, and a second
   acknowledgement finds nothing; if the defaults read as current, the next `prepare` has nothing to do.
   */
  lemma UpgradeEnds(s: Setup, w: World, dir: string, again: string)
    requires Inv(s, w) && w.job.Idle? && Fresh(w, Prepare(dir))
    requires w.disk.receipt.None? && w.disk.providers.Some? && s.kind(w.disk.providers.value).Outdated?
    ensures var done := Prepared(s, w, dir);
            && done.outcome.Some? && done.outcome.value.Ok? && done.outcome.value.value.Some?
            && var notice := done.outcome.value.value.value;
               var ended := Step(s, done, Acknowledged(notice));
               && ended.disk == done.disk.(receipt := None)
               && Step(s, ended, Acknowledged(notice)).outcome == Some(Err(File(MissingFile)))
               && (s.kind(s.defaults).Current? ==> Prepared(s, ended, again) == Ends(ended, Ok(None)))
  {
    PrepareOutcome(s, w, dir);
    var done := Prepared(s, w, dir);
    var notice := done.outcome.value.value.value;
    AcknowledgementIsExact(s, done, notice);
    var ended := Step(s, done, Acknowledged(notice));
    AcknowledgementIsExact(s, ended, notice);
    if s.kind(s.defaults).Current? {
      EndedStays(s, StartPrepare(s, ended, again), 9);
    }
    hide Onward, Proceed, NamesBackup;
  }
}
