/** The running application's provider mutations, under its control lock. */
module AppRuntime {
  import opened Wrappers
  import opened AtomicFile
  import opened Routing
  import opened ControlPlane

  /** Replace the provider with this identifier in place, or add it and sort. */
  method UpsertProvider(doc: Document, p: Provider) returns (r: Document)
    ensures r == Upsert(doc, p)
    ensures UniqueIds(doc.providers) ==> UniqueIds(r.providers) && p in r.providers
  {
    if UniqueIds(doc.providers) {
      UpsertReplacesOne(doc, p);
    }
    var k := 0;
    while k < |doc.providers| && doc.providers[k].id != p.id
      invariant 0 <= k <= |doc.providers|
      invariant forall i :: 0 <= i < k ==> doc.providers[i].id != p.id
    {
      k := k + 1;
    }
    if k < |doc.providers| {
      r := doc.(providers := doc.providers[k := p]);
    } else {
      r := doc.(providers := SortById(doc.providers + [p]));
    }
  }

  method BuildProviderMap(providers: seq<Provider>) returns (r: map<ProviderId, Provider>)
    ensures r == ProviderMap(providers)
    ensures UniqueIds(providers) ==> forall p :: p in providers ==> p.id in r && r[p.id] == p
  {
    if UniqueIds(providers) {
      ProviderMapHoldsAll(providers);
    }
    r := map[];
    for k := 0 to |providers|
      invariant r == ProviderMap(providers[..k])
    {
      assert providers[..k + 1][..k] == providers[..k];
      r := r[providers[k].id := providers[k]];
    }
    assert providers[..|providers|] == providers;
  }

  /** Validate both documents and build what requests run on. */
  method BuildRuntime(doc: Document, c: Cache) returns (r: Option<Runtime>)
    ensures r == RuntimeOf(doc, c)
    ensures r.Some? <==> Valid(doc) && CacheValid(c)
  {
    hide OverlayOf, RoutesOf, ProviderMap;
    var routes := Build(doc, if CacheValid(c) then None else Some("invalid model cache"));
    if routes.Err? {
      return None;
    }
    RuntimeIgnoresCache(doc, c, c);
    var overlay := OverlayOf(doc.providers);
    if overlay.Err? {
      return None;
    }
    var providers := BuildProviderMap(doc.providers);
    return Some(Runtime(routes.value, overlay.value, providers));
  }

  class Application {
    const fingerprint: Provider -> string
    var providersFile: Option<Document>
    var cacheFile: Option<Cache>
    var providers: Document
    var providersRead: Option<Document>
    var cache: Cache
    var cacheRead: Option<Cache>
    var published: Runtime

    function View(): State
      reads this
    {
      State(providersFile, cacheFile, providers, providersRead, cache, cacheRead, published)
    }

    /** Load both files, or their defaults; `running` is the runtime they build. */
    constructor (fingerprint: Provider -> string, providersFile: Option<Document>, cacheFile: Option<Cache>,
        running: Runtime)
      requires RuntimeOf(providersFile.GetOr(DEFAULT_PROVIDERS), cacheFile.GetOr(EMPTY_CACHE)) == Some(running)
      ensures Coherent(View()) && this.fingerprint == fingerprint
      ensures this.providersFile == providersFile && this.cacheFile == cacheFile
    {
      this.fingerprint := fingerprint;
      this.providersFile, this.cacheFile := providersFile, cacheFile;
      providers, providersRead := providersFile.GetOr(DEFAULT_PROVIDERS), providersFile;
      cache, cacheRead := cacheFile.GetOr(EMPTY_CACHE), cacheFile;
      published := running;
    }

    method CommitMutation(p: Prepared, io: Io) returns (r: Result<ProviderId, Error>)
      modifies this`providersFile, this`cacheFile, this`providers, this`providersRead, this`cache, this`cacheRead
      ensures Outcome(View(), r) == Commit(old(View()), p, io)
    {
      var savedCache: Option<Cache> := None;
      if p.cacheChanged {
        match SaveFile(cacheFile, cacheRead, p.cache, io.cacheSave) {
          case Ok(saved) => cacheFile, savedCache := Some(saved), Some(saved);
          case Err(e) => return Err(e);
        }
      }
      match SaveFile(providersFile, providersRead, p.providers, io.providerSave) {
        case Ok(saved) =>
          providersFile, providersRead := Some(saved), Some(saved);
        case Err(e) =>
          if savedCache.Some? {
            cache, cacheRead := p.cache, savedCache;
            return Err(ProviderSaveAfterCache);
          }
          return Err(e);
      }
      providers, cache := p.providers, p.cache;
      if savedCache.Some? {
        cacheRead := savedCache;
      }
      return Ok(p.id);
    }

    method ApplyProviderMutation(m: Mutation, io: Io) returns (r: Result<ProviderId, Error>)
      modifies this
      ensures Outcome(View(), r) == Apply(fingerprint, old(View()), m, io)
      ensures old(Coherent(View())) ==> Coherent(View())
    {
      if Coherent(View()) {
        MutationsKeepCoherence(fingerprint, View(), m, io);
      }
      hide Prepare, RuntimeOf, Commit, Coherent;
      var prepared := Prepare(fingerprint, providers, cache, m);
      if prepared.Err? {
        return Err(prepared.error);
      }
      var runtime := BuildRuntime(prepared.value.providers, prepared.value.cache);
      if runtime.None? {
        return Err(Invalid);
      }
      if !io.transport {
        return Err(Transport);
      }
      r := CommitMutation(prepared.value, io);
      if r.Ok? {
        published := runtime.value;
      }
    }

    method PersistRefreshedProvider(updated: Provider, sourceAuth: string, io: Io) returns (r: Result<Provider, Error>)
      modifies this
      ensures Refreshed(View(), r) == PersistRefreshed(fingerprint, old(View()), updated, sourceAuth, io)
      ensures old(Coherent(View())) ==> Coherent(View())
    {
      var k := Find(providers.providers, updated.id);
      if k == |providers.providers| {
        return Ok(updated);
      }
      if providers.providers[k].auth != sourceAuth {
        return Ok(providers.providers[k]);
      }
      var saved := ApplyProviderMutation(SaveProvider(updated), io);
      if saved.Err? {
        return Err(saved.error);
      }
      return Ok(updated);
    }
  }
}
