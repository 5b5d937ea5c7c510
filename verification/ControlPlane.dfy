/** The control plane: two configuration files, their documents in memory, and the published runtime. */
module ControlPlane {
  import opened Wrappers
  import opened AtomicFile
  import opened Routing

  // Documents.

  datatype CacheEntry = CacheEntry(fingerprint: string, models: seq<Model>)

  datatype Cache = Cache(fault: Option<string>, entries: map<ProviderId, CacheEntry>)

  predicate CacheValid(c: Cache) {
    c.fault.None? && forall id :: id in c.entries ==> ModelsValid(id, c.entries[id].models)
  }

  const EMPTY_CACHE := Cache(None, map[])
  const DEFAULT_PROVIDERS := Document(None, [])

  /** Byte order on identifiers. */
  predicate AtMost(a: string, b: string) {
    a == [] || (b != [] && (a[0] < b[0] || (a[0] == b[0] && AtMost(a[1..], b[1..]))))
  }

  lemma AtMostIsTotal(a: string, b: string)
    ensures AtMost(a, b) || AtMost(b, a)
    ensures AtMost(a, b) && AtMost(b, a) ==> a == b
  {
  }

  lemma {:induction false} AtMostIsTransitive(a: string, b: string, c: string)
    requires AtMost(a, b) && AtMost(b, c)
    ensures AtMost(a, c)
  {
    if a != [] && a[0] == b[0] == c[0] {
      AtMostIsTransitive(a[1..], b[1..], c[1..]);
    }
  }

  predicate Sorted(providers: seq<Provider>) {
    forall i, j :: 0 <= i < j < |providers| ==> AtMost(providers[i].id, providers[j].id)
  }

  function Insert(providers: seq<Provider>, p: Provider): seq<Provider> {
    if providers == [] then [p]
    else
      var last := providers[|providers| - 1];
      if AtMost(last.id, p.id) then providers + [p] else Insert(providers[..|providers| - 1], p) + [last]
  }

  /** A stable sort by identifier. */
  function SortById(providers: seq<Provider>): seq<Provider> {
    if providers == [] then [] else Insert(SortById(providers[..|providers| - 1]), providers[|providers| - 1])
  }

  /** The index of the first provider with this identifier; the length when there is none. */
  function Find(providers: seq<Provider>, id: ProviderId): (k: nat)
    ensures k <= |providers| && (k < |providers| ==> providers[k].id == id)
    ensures forall i :: 0 <= i < k ==> providers[i].id != id
  {
    if providers == [] || providers[0].id == id then 0
    else
      var k := Find(providers[1..], id);
      assert forall i :: 0 < i < k + 1 ==> providers[i] == providers[1..][i - 1];
      k + 1
  }

  function Upsert(doc: Document, p: Provider): Document {
    var k := Find(doc.providers, p.id);
    if k < |doc.providers| then doc.(providers := doc.providers[k := p])
    else doc.(providers := SortById(doc.providers + [p]))
  }

  predicate UniqueIds(providers: seq<Provider>) {
    forall i, j :: 0 <= i < j < |providers| ==> providers[i].id != providers[j].id
  }

  lemma {:induction false} InsertPermutes(providers: seq<Provider>, p: Provider)
    ensures multiset(Insert(providers, p)) == multiset(providers) + multiset{p}
  {
    if providers != [] {
      var init, last := providers[..|providers| - 1], providers[|providers| - 1];
      assert providers == init + [last];
      InsertPermutes(init, p);
    }
  }

  lemma {:induction false} InsertSorts(providers: seq<Provider>, p: Provider)
    requires Sorted(providers)
    ensures Sorted(Insert(providers, p))
  {
    if providers != [] {
      var init, last := providers[..|providers| - 1], providers[|providers| - 1];
      if AtMost(last.id, p.id) {
        forall i | 0 <= i < |init| ensures AtMost(providers[i].id, p.id) {
          AtMostIsTransitive(providers[i].id, last.id, p.id);
        }
      } else {
        InsertSorts(init, p);
        InsertHolds(init, p);
        AtMostIsTotal(last.id, p.id);
        var inserted := Insert(init, p);
        forall i | 0 <= i < |inserted| ensures AtMost(inserted[i].id, last.id) {
          assert inserted[i] in inserted;
        }
      }
    }
  }

  lemma {:induction false} SortByIdSorts(providers: seq<Provider>)
    ensures Sorted(SortById(providers)) && multiset(SortById(providers)) == multiset(providers)
  {
    if providers != [] {
      var init, last := providers[..|providers| - 1], providers[|providers| - 1];
      assert providers == init + [last];
      SortByIdSorts(init);
      InsertSorts(SortById(init), last);
      InsertPermutes(SortById(init), last);
    }
  }

  predicate Lists(providers: seq<Provider>, id: ProviderId) {
    exists k :: 0 <= k < |providers| && providers[k].id == id
  }

  lemma {:induction false} InsertKeepsUnique(providers: seq<Provider>, p: Provider)
    requires UniqueIds(providers) && !Lists(providers, p.id)
    ensures UniqueIds(Insert(providers, p))
  {
    if providers != [] {
      var init, last := providers[..|providers| - 1], providers[|providers| - 1];
      if !AtMost(last.id, p.id) {
        assert !Lists(init, p.id) by {
          assert forall k :: 0 <= k < |init| ==> init[k] == providers[k];
        }
        InsertKeepsUnique(init, p);
        InsertHolds(init, p);
        assert p.id != last.id;
        forall i | 0 <= i < |Insert(init, p)| ensures Insert(init, p)[i].id != last.id {
          assert Insert(init, p)[i] in Insert(init, p);
        }
      }
    }
  }

  lemma {:induction false} InsertHolds(providers: seq<Provider>, p: Provider)
    ensures forall q :: q in Insert(providers, p) <==> q in providers || q == p
  {
    if providers != [] {
      var init, last := providers[..|providers| - 1], providers[|providers| - 1];
      assert providers == init + [last];
      InsertHolds(init, p);
    }
  }

  lemma {:induction false} SortByIdHolds(providers: seq<Provider>)
    ensures forall q :: q in SortById(providers) <==> q in providers
    ensures UniqueIds(providers) ==> UniqueIds(SortById(providers))
  {
    if providers != [] {
      var init, last := providers[..|providers| - 1], providers[|providers| - 1];
      assert providers == init + [last];
      SortByIdHolds(init);
      InsertHolds(SortById(init), last);
      if UniqueIds(providers) {
        assert UniqueIds(init);
        assert !Lists(SortById(init), last.id) by {
          assert forall k :: 0 <= k < |SortById(init)| ==> SortById(init)[k] in init;
        }
        InsertKeepsUnique(SortById(init), last);
      }
    }
  }

  /** An upsert keeps identifiers unique and the list sorted, and changes the one provider only. */
  lemma UpsertReplacesOne(doc: Document, p: Provider)
    requires UniqueIds(doc.providers)
    ensures var after := Upsert(doc, p).providers;
            && UniqueIds(after)
            && (Sorted(doc.providers) ==> Sorted(after))
            && p in after
            && (forall q: Provider :: q.id != p.id ==> (q in after <==> q in doc.providers))
            && (forall q :: q in after && q.id == p.id ==> q == p)
  {
    var k := Find(doc.providers, p.id);
    var after := Upsert(doc, p).providers;
    if k < |doc.providers| {
      assert after[k] == p;
      forall q: Provider | q.id != p.id ensures q in after <==> q in doc.providers {
        if q in doc.providers {
          var i :| 0 <= i < |doc.providers| && doc.providers[i] == q;
          assert after[i] == q;
        }
      }
    } else {
      var longer := doc.providers + [p];
      assert UniqueIds(longer);
      SortByIdSorts(longer);
      SortByIdHolds(longer);
      assert p in longer;
    }
  }

  // The runtime.

  /** One line of the private catalog: a model under its provider's settings. */
  datatype Line = Line(settings: string, model: Model)

  function WithLines(lines: map<string, Line>, p: Provider, models: seq<Model>): Result<map<string, Line>, DocError> {
    if models == [] then Ok(lines)
    else
      match WithLines(lines, p, models[..|models| - 1])
      case Err(e) => Err(e)
      case Ok(before) =>
        var last := models[|models| - 1];
        if !last.enabled then Ok(before)
        else if last.catalog in before then Err(Fault("duplicate private catalog model slug"))
        else Ok(before[last.catalog := Line(p.settings, last)])
  }

  /** The catalog overlay: the enabled models by name, `Err` on a name that occurs twice. */
  function OverlayOf(providers: seq<Provider>): Result<map<string, Line>, DocError> {
    if providers == [] then Ok(map[])
    else
      match OverlayOf(providers[..|providers| - 1])
      case Err(e) => Err(e)
      case Ok(before) =>
        var last := providers[|providers| - 1];
        if last.enabled then WithLines(before, last, last.models) else Ok(before)
  }

  lemma {:induction false} LinesFollowRoutes(lines: map<string, Line>, routes: Routes, p: Provider, models: seq<Model>)
    requires ModelsValid(p.id, models) && lines.Keys == routes.Keys
    requires forall m: ModelId :: CatalogName(p.id, m) !in routes
    ensures var out := WithLines(lines, p, models); out.Ok? && out.value.Keys == WithModels(routes, p.id, models).Keys
  {
    if models != [] {
      var init, last := models[..|models| - 1], models[|models| - 1];
      LinesFollowRoutes(lines, routes, p, init);
      assert init + [last] == models;
      NameIsNew(routes, p.id, init, last);
    }
  }

  lemma NameIsNew(routes: Routes, id: ProviderId, init: seq<Model>, last: Model)
    requires ModelsValid(id, init + [last]) && forall m: ModelId :: CatalogName(id, m) !in routes
    ensures CatalogName(id, last.upstream) !in WithModels(routes, id, init)
  {
    WithModelsExact(routes, id, init);
    assert (init + [last])[|init|] == last && forall k :: 0 <= k < |init| ==> (init + [last])[k] == init[k];
    if CatalogName(id, last.upstream) in WithModels(routes, id, init) {
      var m: ModelId :| EnablesModel(init, m) && CatalogName(id, last.upstream) == CatalogName(id, m);
      CatalogNamesAreInjective(id, m, id, last.upstream);
      assert false;
    }
  }

  /** For a valid document the overlay never fails and lists exactly the names that route to a provider. */
  lemma {:induction false} OverlayListsTheRoutes(providers: seq<Provider>)
    requires ProvidersValid(providers)
    ensures OverlayOf(providers).Ok? && OverlayOf(providers).value.Keys == RoutesOf(providers).Keys
  {
    if providers != [] {
      var init, last := providers[..|providers| - 1], providers[|providers| - 1];
      assert init + [last] == providers;
      OverlayListsTheRoutes(init);
      NamesAreNew(init, last);
      if last.enabled {
        LinesFollowRoutes(OverlayOf(init).value, RoutesOf(init), last, last.models);
      }
    }
  }

  /** What requests run on. */
  datatype Runtime = Runtime(routes: Routes, overlay: map<string, Line>, providers: map<ProviderId, Provider>)

  function ProviderMap(providers: seq<Provider>): map<ProviderId, Provider> {
    if providers == [] then map[]
    else ProviderMap(providers[..|providers| - 1])[providers[|providers| - 1].id := providers[|providers| - 1]]
  }

  /** With unique identifiers every provider is in the map, under its own. */
  lemma {:induction false} ProviderMapHoldsAll(providers: seq<Provider>)
    requires UniqueIds(providers)
    ensures forall p :: p in providers ==> p.id in ProviderMap(providers) && ProviderMap(providers)[p.id] == p
  {
    if providers != [] {
      var init, last := providers[..|providers| - 1], providers[|providers| - 1];
      assert providers == init + [last];
      ProviderMapHoldsAll(init);
      assert forall k :: 0 <= k < |init| ==> init[k] == providers[k] && init[k].id != last.id;
    }
  }

  function RuntimeOf(doc: Document, c: Cache): Option<Runtime> {
    if !Valid(doc) || !CacheValid(c) then None else
    match OverlayOf(doc.providers)
    case Err(_) => None
    case Ok(overlay) => Some(Runtime(RoutesOf(doc.providers), overlay, ProviderMap(doc.providers)))
  }

  /** The runtime does not depend on what a valid cache holds. */
  lemma RuntimeIgnoresCache(doc: Document, c: Cache, other: Cache)
    requires CacheValid(c) && CacheValid(other)
    ensures RuntimeOf(doc, c) == RuntimeOf(doc, other)
    ensures RuntimeOf(doc, c).Some? <==> Valid(doc)
  {
    if Valid(doc) {
      OverlayListsTheRoutes(doc.providers);
    }
  }

  // Mutations.

  datatype Mutation =
    | CommitRefresh(provider: Provider, entry: CacheEntry)
    | SaveProvider(provider: Provider)
    | SetEnabled(id: ProviderId, enabled: bool)
    | Remove(id: ProviderId)

  datatype Error = FingerprintMismatch | NotFound | Invalid | Transport | Save | ProviderSaveAfterCache

  /** A prepared mutation, with both documents as they would be. */
  datatype Prepared = Prepared(providers: Document, cache: Cache, id: ProviderId, cacheChanged: bool)

  function Without(providers: seq<Provider>, id: ProviderId): seq<Provider> {
    if providers == [] then []
    else (if providers[0].id == id then [] else [providers[0]]) + Without(providers[1..], id)
  }

  /** `fingerprint` digests the fields a refreshed cache entry is bound to. */
  function Prepare(fingerprint: Provider -> string, doc: Document, c: Cache, m: Mutation): Result<Prepared, Error> {
    match m
    case CommitRefresh(provider, entry) =>
      if entry.fingerprint != fingerprint(provider) then Err(FingerprintMismatch)
      else Checked(Prepared(Upsert(doc, provider.(models := entry.models)),
          c.(entries := c.entries[provider.id := entry]), provider.id, true))
    case SaveProvider(provider) => Checked(Prepared(Upsert(doc, provider), c, provider.id, false))
    case SetEnabled(id, enabled) =>
      var k := Find(doc.providers, id);
      if k == |doc.providers| then Err(NotFound)
      else Checked(Prepared(doc.(providers := doc.providers[k := doc.providers[k].(enabled := enabled)]), c, id, false))
    case Remove(id) =>
      if Find(doc.providers, id) == |doc.providers| then Err(NotFound)
      else Checked(Prepared(doc.(providers := Without(doc.providers, id)), c, id, false))
  }

  function Checked(p: Prepared): Result<Prepared, Error> {
    if RuntimeOf(p.providers, p.cache).None? then Err(Invalid) else Ok(p)
  }

  // Commits.

  /** Both files, both documents in memory with the file contents they were read from, and the published runtime. */
  datatype State = State(
    providersFile: Option<Document>,
    cacheFile: Option<Cache>,
    providers: Document,
    providersRead: Option<Document>,
    cache: Cache,
    cacheRead: Option<Cache>,
    published: Runtime)

  /** Which file operations succeed; a failing one leaves its file as it was. */
  datatype Io = Io(transport: bool, cacheSave: bool, providerSave: bool)

  function SaveFile<T(==)>(file: Option<T>, read: Option<T>, document: T, works: bool): Result<T, Error> {
    if !works then Err(Save) else
    match Replace(file, read, document)
    case Ok(saved) => Ok(saved)
    case Err(_) => Err(Save)
  }

  datatype Outcome = Outcome(state: State, result: Result<ProviderId, Error>)

  function Commit(s: State, p: Prepared, io: Io): Outcome {
    if p.cacheChanged then
      match SaveFile(s.cacheFile, s.cacheRead, p.cache, io.cacheSave)
      case Err(e) => Outcome(s, Err(e))
      case Ok(savedCache) =>
        var cached := s.(cacheFile := Some(savedCache), cache := p.cache, cacheRead := Some(savedCache));
        match SaveFile(s.providersFile, s.providersRead, p.providers, io.providerSave)
        case Err(_) => Outcome(cached, Err(ProviderSaveAfterCache))
        case Ok(saved) =>
          var done := cached.(providersFile := Some(saved), providers := p.providers, providersRead := Some(saved));
          Outcome(done, Ok(p.id))
    else
      match SaveFile(s.providersFile, s.providersRead, p.providers, io.providerSave)
      case Err(e) => Outcome(s, Err(e))
      case Ok(saved) =>
        Outcome(s.(providersFile := Some(saved), providers := p.providers, providersRead := Some(saved),
            cache := p.cache), Ok(p.id))
  }

  /** Prepare, build the runtime, commit, publish. */
  function Apply(fingerprint: Provider -> string, s: State, m: Mutation, io: Io): Outcome {
    match Prepare(fingerprint, s.providers, s.cache, m)
    case Err(e) => Outcome(s, Err(e))
    case Ok(p) => Publish(s, p, io)
  }

  function Publish(s: State, p: Prepared, io: Io): Outcome {
    var runtime := RuntimeOf(p.providers, p.cache);
    if runtime.None? then Outcome(s, Err(Invalid))
    else if !io.transport then Outcome(s, Err(Transport))
    else
      var committed := Commit(s, p, io);
      if committed.result.Ok? then committed.(state := committed.state.(published := runtime.value)) else committed
  }

  /** The state after a credential refresh, and the provider its caller goes on with. */
  datatype Refreshed = Refreshed(state: State, result: Result<Provider, Error>)

  /**
   Persist refreshed credentials, unless the provider is gone or its credentials are no longer those
   that were refreshed; then the current provider is the answer.
   */
  function PersistRefreshed(fingerprint: Provider -> string, s: State, updated: Provider, sourceAuth: string,
      io: Io): Refreshed {
    var k := Find(s.providers.providers, updated.id);
    if k == |s.providers.providers| then Refreshed(s, Ok(updated))
    else if s.providers.providers[k].auth != sourceAuth then Refreshed(s, Ok(s.providers.providers[k]))
    else
      var saved := Apply(fingerprint, s, SaveProvider(updated), io);
      Refreshed(saved.state, match saved.result case Ok(_) => Ok(updated) case Err(e) => Err(e))
  }

  /** Memory is what the files hold, and the published runtime is the one memory builds. */
  predicate Coherent(s: State) {
    && s.providersRead == s.providersFile && s.cacheRead == s.cacheFile
    && s.providers == s.providersFile.GetOr(DEFAULT_PROVIDERS)
    && s.cache == s.cacheFile.GetOr(EMPTY_CACHE)
    && RuntimeOf(s.providers, s.cache) == Some(s.published)
  }

  lemma PreparedIsChecked(fingerprint: Provider -> string, doc: Document, c: Cache, m: Mutation)
    ensures var p := Prepare(fingerprint, doc, c, m);
            p.Ok? ==>
              && RuntimeOf(p.value.providers, p.value.cache).Some?
              && (!p.value.cacheChanged ==> p.value.cache == c)
  {
    hide Upsert, RuntimeOf, Without;
  }

  lemma RuntimeNeedsValid(doc: Document, c: Cache)
    ensures RuntimeOf(doc, c).Some? ==> Valid(doc) && CacheValid(c)
  {
  }

  lemma PublishKeepsCoherence(s: State, p: Prepared, io: Io)
    requires Coherent(s) && RuntimeOf(p.providers, p.cache).Some? && (!p.cacheChanged ==> p.cache == s.cache)
    ensures var done := Publish(s, p, io);
            && Coherent(done.state)
            && (done.result.Ok? ==> done.state.providers == p.providers && done.state.cache == p.cache)
            && (done.result.Err? && done.result.error != ProviderSaveAfterCache ==> done.state == s)
            && (done.result == Err(ProviderSaveAfterCache) ==>
                  && p.cacheChanged
                  && done.state == s.(cacheFile := Some(p.cache), cache := p.cache, cacheRead := Some(p.cache)))
  {
    RuntimeNeedsValid(s.providers, s.cache);
    RuntimeNeedsValid(p.providers, p.cache);
    RuntimeIgnoresCache(s.providers, s.cache, p.cache);
    hide RuntimeOf;
  }

  /**
   Main law: whatever a mutation comes to (done, refused, cache not saved, providers not saved before
   or after the cache was), memory matches the files and the published runtime is the one memory
   builds. Only a done mutation changes the providers, and only a providers file that could not be
   saved after the cache was leaves the cache ahead.
   */
  lemma MutationsKeepCoherence(fingerprint: Provider -> string, s: State, m: Mutation, io: Io)
    requires Coherent(s)
    ensures var done := Apply(fingerprint, s, m, io);
            && Coherent(done.state)
            && (done.result.Err? ==> done.state.providers == s.providers && done.state.published == s.published)
            && (done.result.Err? && done.result.error != ProviderSaveAfterCache ==> done.state == s)
            && (done.result.Err? && done.result.error == ProviderSaveAfterCache ==> m.CommitRefresh?)
            && (done.result.Ok? ==>
                  Prepare(fingerprint, s.providers, s.cache, m)
                      == Ok(Prepared(done.state.providers, done.state.cache, done.result.value, m.CommitRefresh?)))
  {
    PreparedIsChecked(fingerprint, s.providers, s.cache, m);
    PreparedKind(fingerprint, s.providers, s.cache, m);
    var p := Prepare(fingerprint, s.providers, s.cache, m);
    if p.Ok? {
      PublishKeepsCoherence(s, p.value, io);
      PublishNames(s, p.value, io);
    }
    hide Prepare, Publish, Coherent;
  }

  lemma PublishNames(s: State, p: Prepared, io: Io)
    ensures Publish(s, p, io).result.Ok? ==> Publish(s, p, io).result.value == p.id
    ensures Publish(s, p, io).result.Err? ==>
        Publish(s, p, io).state.published == s.published && Publish(s, p, io).state.providers == s.providers
  {
    hide RuntimeOf;
  }

  lemma PreparedKind(fingerprint: Provider -> string, doc: Document, c: Cache, m: Mutation)
    ensures var p := Prepare(fingerprint, doc, c, m); p.Ok? ==> p.value.cacheChanged == m.CommitRefresh?
  {
    hide Upsert, RuntimeOf, Without;
  }

  /** A run of mutations, each with its own luck, from any coherent state. */
  function ApplyAll(fingerprint: Provider -> string, s: State, steps: seq<(Mutation, Io)>): State
    decreases |steps|
  {
    if steps == [] then s else ApplyAll(fingerprint, Apply(fingerprint, s, steps[0].0, steps[0].1).state, steps[1..])
  }

  lemma {:induction false} RunsKeepCoherence(fingerprint: Provider -> string, s: State, steps: seq<(Mutation, Io)>)
    requires Coherent(s)
    ensures Coherent(ApplyAll(fingerprint, s, steps))
    decreases |steps|
  {
    if steps != [] {
      hide Coherent, Apply;
      MutationsKeepCoherence(fingerprint, s, steps[0].0, steps[0].1);
      RunsKeepCoherence(fingerprint, Apply(fingerprint, s, steps[0].0, steps[0].1).state, steps[1..]);
    }
  }

  /** A file another program has written since it was read is never overwritten, in any state. */
  lemma OnlyReadFilesAreReplaced(fingerprint: Provider -> string, s: State, m: Mutation, io: Io)
    ensures var done := Apply(fingerprint, s, m, io).state;
            && (done.providersFile != s.providersFile ==> s.providersFile == s.providersRead)
            && (done.cacheFile != s.cacheFile ==> s.cacheFile == s.cacheRead)
  {
    hide Prepare, RuntimeOf;
  }

  /** A refresh keeps coherence, and changes the providers only if they hold the credentials it started from. */
  lemma NewerCredentialsWin(fingerprint: Provider -> string, s: State, updated: Provider, sourceAuth: string, io: Io)
    requires Coherent(s)
    ensures var done := PersistRefreshed(fingerprint, s, updated, sourceAuth, io);
            && Coherent(done.state)
            && (done.state.providers != s.providers ==>
                  exists p :: p in s.providers.providers && p.id == updated.id && p.auth == sourceAuth)
  {
    hide Coherent, Apply;
    var k := Find(s.providers.providers, updated.id);
    MutationsKeepCoherence(fingerprint, s, SaveProvider(updated), io);
    if k < |s.providers.providers| {
      assert s.providers.providers[k] in s.providers.providers;
    }
  }

  /**
   What the caller of a refresh goes on with: a provider saved with other credentials meanwhile, which
   then nothing changes; otherwise, unless the save fails, the refreshed one, which then is saved.
   */
  lemma RefreshAnswersWhatIsSaved(fingerprint: Provider -> string, s: State, updated: Provider, sourceAuth: string,
      io: Io,
                                  current: Provider)
    requires Coherent(s) && UniqueIds(s.providers.providers)
    requires current in s.providers.providers && current.id == updated.id
    ensures var done := PersistRefreshed(fingerprint, s, updated, sourceAuth, io);
            if current.auth != sourceAuth then done.state == s && done.result == Ok(current)
            else done.result.Ok? ==> done.result.value == updated && updated in done.state.providers.providers
  {
    hide Coherent, Apply, Upsert, Prepare;
    var k := Find(s.providers.providers, updated.id);
    var i :| 0 <= i < |s.providers.providers| && s.providers.providers[i] == current;
    assert k == i;
    if current.auth == sourceAuth {
      MutationsKeepCoherence(fingerprint, s, SaveProvider(updated), io);
      UpsertReplacesOne(s.providers, updated);
      SavePrepares(fingerprint, s.providers, s.cache, updated);
    }
  }

  lemma SavePrepares(fingerprint: Provider -> string, doc: Document, c: Cache, p: Provider)
    ensures var prepared := Prepare(fingerprint, doc, c, SaveProvider(p));
            prepared.Ok? ==> prepared.value.providers == Upsert(doc, p)
  {
    hide Upsert, RuntimeOf;
  }
}
