/** What each mutation of the control plane does to providers, cache, files and runtime. */
module ControlPlaneMutations {
  import opened Wrappers
  import opened Routing
  import opened ControlPlane

  /** The provider a mutation saves, if it saves one. */
  function SavedBy(m: Mutation): Option<Provider> {
    match m
    case CommitRefresh(provider, entry) => Some(provider.(models := entry.models))
    case SaveProvider(provider) => Some(provider)
    case _ => None
  }

  /** `after` is `before` with `p` in the place of the provider of its id, or added in order if there is none. */
  ghost predicate Saves(before: seq<Provider>, p: Provider, after: seq<Provider>) {
    && p in after
    && (forall q: Provider :: q.id != p.id ==> (q in after <==> q in before))
    && (forall q :: q in after && q.id == p.id ==> q == p)
    && UniqueIds(after)
    && (forall i :: 0 <= i < |before| && before[i].id == p.id ==> after == before[i := p])
    && (!Lists(before, p.id) ==> |after| == |before| + 1 && Sorted(after))
  }

  /** What a mutation makes of the list of providers. */
  ghost predicate Becomes(before: seq<Provider>, m: Mutation, after: seq<Provider>) {
    match m
    case CommitRefresh(provider, entry) => Saves(before, provider.(models := entry.models), after)
    case SaveProvider(provider) => Saves(before, provider, after)
    case SetEnabled(id, enabled) =>
      && Lists(before, id)
      && (forall i :: 0 <= i < |before| && before[i].id == id ==> after == before[i := before[i].(enabled := enabled)])
    case Remove(id) =>
      && Lists(before, id)
      && (forall q :: q in after <==> q in before && q.id != id)
      && (forall i :: 0 <= i < |before| && before[i].id == id ==> after == before[..i] + before[i + 1..])
  }

  /** What a mutation makes of the cache: a refresh enters its models under the provider's id, nothing else does. */
  ghost predicate Caches(before: Cache, m: Mutation, after: Cache) {
    && after.fault == before.fault
    && (forall id: ProviderId :: m.CommitRefresh? && id == m.provider.id ==>
          id in after.entries && after.entries[id] == m.entry)
    && (forall id: ProviderId :: !(m.CommitRefresh? && id == m.provider.id) ==>
          (id in after.entries <==> id in before.entries)
          && (id in before.entries ==> after.entries[id] == before.entries[id]))
  }

  /** No model twice, and every one under its own catalog name. */
  predicate ModelsInOrder(id: ProviderId, models: seq<Model>) {
    && (forall i, j :: 0 <= i < j < |models| ==> models[i].upstream != models[j].upstream)
    && (forall i :: 0 <= i < |models| ==> models[i].catalog == id + "/" + models[i].upstream)
  }

  /** What both documents must be: no provider twice, nothing at fault, and models in order in both. */
  predicate InOrder(providers: seq<Provider>, c: Cache) {
    && UniqueIds(providers)
    && (forall i :: 0 <= i < |providers| ==>
          providers[i].fault == None && ModelsInOrder(providers[i].id, providers[i].models))
    && c.fault == None
    && (forall id :: id in c.entries ==> ModelsInOrder(id, c.entries[id].models))
  }

  lemma InOrderIsValid(providers: seq<Provider>, c: Cache)
    ensures InOrder(providers, c) <==> Valid(Document(None, providers)) && CacheValid(c)
  {
    assert forall id: ProviderId, models: seq<Model> :: ModelsInOrder(id, models) <==> ModelsValid(id, models);
    hide ModelsInOrder, ModelsValid;
  }

  // The lists.

  lemma UpsertSaves(doc: Document, p: Provider)
    requires UniqueIds(doc.providers)
    ensures Saves(doc.providers, p, Upsert(doc, p).providers) && Upsert(doc, p).fault == doc.fault
  {
    UpsertReplacesOne(doc, p);
    UpsertPlaces(doc, p);
    if !Lists(doc.providers, p.id) {
      UpsertAdds(doc, p);
    }
    hide Upsert, UniqueIds, Sorted, Lists;
  }

  lemma UpsertPlaces(doc: Document, p: Provider)
    requires UniqueIds(doc.providers)
    ensures forall i :: 0 <= i < |doc.providers| && doc.providers[i].id == p.id ==>
              Upsert(doc, p).providers == doc.providers[i := p]
    ensures Upsert(doc, p).fault == doc.fault
  {
    hide SortById;
  }

  lemma UpsertAdds(doc: Document, p: Provider)
    requires !Lists(doc.providers, p.id)
    ensures |Upsert(doc, p).providers| == |doc.providers| + 1 && Sorted(Upsert(doc, p).providers)
  {
    hide SortById, Sorted;
    SortByIdSorts(doc.providers + [p]);
    assert |multiset(SortById(doc.providers + [p]))| == |multiset(doc.providers + [p])|;
  }

  lemma {:induction false} WithoutCuts(before: seq<Provider>, id: ProviderId, i: nat)
    requires UniqueIds(before) && i < |before| && before[i].id == id
    ensures Without(before, id) == before[..i] + before[i + 1..]
  {
    if i == 0 {
      WithoutNothing(before[1..], id);
    } else {
      WithoutCuts(before[1..], id, i - 1);
      assert [before[0]] + before[1..][..i - 1] == before[..i] && before[1..][i..] == before[i + 1..];
    }
  }

  lemma {:induction false} WithoutNothing(before: seq<Provider>, id: ProviderId)
    requires forall i :: 0 <= i < |before| ==> before[i].id != id
    ensures Without(before, id) == before
  {
    if before != [] {
      WithoutNothing(before[1..], id);
    }
  }

  lemma {:induction false} WithoutHolds(before: seq<Provider>, id: ProviderId)
    ensures forall q :: q in Without(before, id) <==> q in before && q.id != id
  {
    if before != [] {
      WithoutHolds(before[1..], id);
      assert before == [before[0]] + before[1..];
    }
  }

  lemma RemovalCuts(before: seq<Provider>, id: ProviderId)
    requires UniqueIds(before) && Lists(before, id)
    ensures Becomes(before, Remove(id), Without(before, id))
  {
    WithoutHolds(before, id);
    forall i | 0 <= i < |before| && before[i].id == id
      ensures Without(before, id) == before[..i] + before[i + 1..]
    {
      WithoutCuts(before, id, i);
    }
    hide Without;
  }

  lemma FindsListed(providers: seq<Provider>, id: ProviderId)
    ensures Find(providers, id) < |providers| <==> Lists(providers, id)
  {
  }

  lemma EnablingSets(before: seq<Provider>, id: ProviderId, enabled: bool)
    requires UniqueIds(before) && Lists(before, id)
    ensures var k := Find(before, id);
            k < |before| && Becomes(before, SetEnabled(id, enabled), before[k := before[k].(enabled := enabled)])
  {
    FindsListed(before, id);
    hide Find;
  }

  // One mutation.

  /** Why a mutation is refused before anything is checked: another provider's models, or no such provider. */
  predicate Mismatches(fingerprint: Provider -> string, m: Mutation) {
    m.CommitRefresh? && m.entry.fingerprint != fingerprint(m.provider)
  }

  predicate Misses(before: seq<Provider>, m: Mutation) {
    (m.SetEnabled? || m.Remove?) && !Lists(before, m.id)
  }

  function IdOf(m: Mutation): ProviderId {
    match m
    case CommitRefresh(provider, _) => provider.id
    case SaveProvider(provider) => provider.id
    case SetEnabled(id, _) => id
    case Remove(id) => id
  }

  /** A prepared mutation is the wanted list and cache; what is wanted is refused exactly when it is not valid. */
  lemma PreparedIsWanted(fingerprint: Provider -> string, doc: Document, c: Cache, m: Mutation)
    requires UniqueIds(doc.providers) && doc.fault.None?
    ensures var p := Prepare(fingerprint, doc, c, m);
            if Mismatches(fingerprint, m) then p == Err(FingerprintMismatch)
            else if Misses(doc.providers, m) then p == Err(NotFound)
            else
              exists after, cache ::
                && Becomes(doc.providers, m, after) && Caches(c, m, cache)
                && p == if InOrder(after, cache)
                        then Ok(Prepared(Document(None, after), cache, IdOf(m), m.CommitRefresh?)) else Err(Invalid)
  {
    hide RuntimeOf, Upsert, Without, Find, InOrder, UniqueIds, Lists, Saves;
    var before := doc.providers;
    match m
    case CommitRefresh(provider, entry) =>
      var saved := provider.(models := entry.models);
      UpsertSaves(doc, saved);
      CheckedIffValid(Upsert(doc, saved), c.(entries := c.entries[provider.id := entry]));
      if !Mismatches(fingerprint, m) {
        assert Becomes(before, m, Upsert(doc, saved).providers);
        assert Caches(c, m, c.(entries := c.entries[provider.id := entry]));
      }
    case SaveProvider(provider) =>
      UpsertSaves(doc, provider);
      CheckedIffValid(Upsert(doc, provider), c);
      assert Becomes(before, m, Upsert(doc, provider).providers);
      assert Caches(c, m, c);
    case SetEnabled(id, enabled) =>
      FindsListed(before, id);
      if Lists(before, id) {
        EnablingSets(before, id, enabled);
        var k := Find(before, id);
        CheckedIffValid(doc.(providers := before[k := before[k].(enabled := enabled)]), c);
        assert Caches(c, m, c);
      }
    case Remove(id) =>
      FindsListed(before, id);
      if Lists(before, id) {
        RemovalCuts(before, id);
        CheckedIffValid(doc.(providers := Without(before, id)), c);
        assert Caches(c, m, c);
      }
  }

  lemma CheckedIffValid(doc: Document, c: Cache)
    requires doc.fault.None?
    ensures RuntimeOf(doc, c).Some? <==> InOrder(doc.providers, c)
  {
    InOrderIsValid(doc.providers, c);
    if Valid(doc) {
      OverlayListsTheRoutes(doc.providers);
    }
    hide OverlayOf, RoutesOf, ProvidersValid, CacheValid, InOrder;
  }

  lemma CoherentIsValid(s: State)
    requires Coherent(s)
    ensures UniqueIds(s.providers.providers) && s.providers.fault.None?
  {
    RuntimeNeedsValid(s.providers, s.cache);
    hide RuntimeOf, ModelsValid, CacheValid;
  }

  /** What publishing a checked mutation comes to, and which files it leaves. */
  lemma PublishIsExact(s: State, p: Prepared, io: Io)
    requires Coherent(s) && RuntimeOf(p.providers, p.cache).Some? && (!p.cacheChanged ==> p.cache == s.cache)
    ensures var done := Publish(s, p, io);
            && (done.result == Err(Transport) <==> !io.transport)
            && (done.result == Err(Save) <==>
                  io.transport && if p.cacheChanged then !io.cacheSave else !io.providerSave)
            && (done.result == Err(ProviderSaveAfterCache) <==>
                  io.transport && p.cacheChanged && io.cacheSave && !io.providerSave)
            && (done.result.Err? ==> done.result.error in {Transport, Save, ProviderSaveAfterCache})
            && (done.result.Ok? ==>
                  && done.result.value == p.id
                  && done.state.providers == p.providers && done.state.cache == p.cache
                  && done.state.providersFile == Some(p.providers)
                  && done.state.cacheFile == (if p.cacheChanged then Some(p.cache) else s.cacheFile))
            && (done.result.Err? ==>
                  && done.state.providers == s.providers && done.state.providersFile == s.providersFile
                  && done.state.published == s.published
                  && (done.result.error != ProviderSaveAfterCache ==> done.state == s)
                  && (done.result.error == ProviderSaveAfterCache ==>
                        done.state.cache == p.cache && done.state.cacheFile == Some(p.cache)))
  {
    hide RuntimeOf;
  }

  /**
   Main law: what a mutation comes to, in terms of the old and new lists only. Refresh and save put the one
   provider in its place or in order, and only a refresh touches the cache, at that provider's entry; enabling
   sets that one flag; removing takes out that one provider and keeps the order of the rest. A mutation is
   refused exactly for a foreign fingerprint, an unknown provider or an invalid outcome; otherwise it is
   done exactly when its files can be written, and then they hold what memory holds. Of a failed one nothing
   stays but the cache, when the providers could not be saved after it.
   */
  lemma MutationsDoWhatTheySay(fingerprint: Provider -> string, s: State, m: Mutation, io: Io)
    requires Coherent(s)
    ensures var done := Apply(fingerprint, s, m, io); var before := s.providers.providers;
            if Mismatches(fingerprint, m) then done == Outcome(s, Err(FingerprintMismatch))
            else if Misses(before, m) then done == Outcome(s, Err(NotFound))
            else
              exists after, cache ::
                && Becomes(before, m, after) && Caches(s.cache, m, cache)
                && if !InOrder(after, cache) then done == Outcome(s, Err(Invalid))
                   else Attempted(s, after, cache, m, io, done)
  {
    hide Prepare, Publish, Becomes, Caches, InOrder, Coherent, Mismatches, Misses, UniqueIds;
    CoherentIsValid(s);
    PreparedIsWanted(fingerprint, s.providers, s.cache, m);
    PreparedIsChecked(fingerprint, s.providers, s.cache, m);
    var p := Prepare(fingerprint, s.providers, s.cache, m);
    if p.Ok? {
      PublishIsExact(s, p.value, io);
      var after, cache :| Becomes(s.providers.providers, m, after) && Caches(s.cache, m, cache)
        && p == if InOrder(after, cache)
                then Ok(Prepared(Document(None, after), cache, IdOf(m), m.CommitRefresh?)) else Err(Invalid);
      assert Attempted(s, after, cache, m, io, Apply(fingerprint, s, m, io));
    }
  }

  /** A valid mutation, attempted. */
  ghost predicate Attempted(s: State, after: seq<Provider>, cache: Cache, m: Mutation, io: Io, done: Outcome) {
    if io.transport && (m.CommitRefresh? ==> io.cacheSave) && io.providerSave then
      && done.result == Ok(IdOf(m))
      && done.state.providers == Document(None, after) && done.state.providersFile == Some(Document(None, after))
      && done.state.cache == cache
      && done.state.cacheFile == (if m.CommitRefresh? then Some(cache) else s.cacheFile)
    else if io.transport && m.CommitRefresh? && io.cacheSave then
      && done.result == Err(ProviderSaveAfterCache)
      && done.state.providers == s.providers && done.state.providersFile == s.providersFile
      && done.state.published == s.published
      && done.state.cache == cache && done.state.cacheFile == Some(cache)
    else
      done == Outcome(s, Err(if io.transport then Save else Transport))
  }

  /**
   What persisting refreshed credentials comes to. For a provider that is gone nothing changes and the refreshed
   one is the answer; otherwise it is as the current credentials say, and a save is one of the mutations above.
   */
  lemma RefreshIsExact(fingerprint: Provider -> string, s: State, updated: Provider, sourceAuth: string, io: Io, k: nat)
    requires Coherent(s)
    requires k < |s.providers.providers| ==> s.providers.providers[k].id == updated.id
    requires k >= |s.providers.providers| ==> !Lists(s.providers.providers, updated.id)
    ensures var done := PersistRefreshed(fingerprint, s, updated, sourceAuth, io); var before := s.providers.providers;
            if k >= |before| then done == Refreshed(s, Ok(updated))
            else if before[k].auth != sourceAuth then done == Refreshed(s, Ok(before[k]))
            else
              var saved := Apply(fingerprint, s, SaveProvider(updated), io);
              && done.state == saved.state
              && done.result == match saved.result case Ok(_) => Ok(updated) case Err(e) => Err(e)
  {
    CoherentIsValid(s);
    FindsListed(s.providers.providers, updated.id);
    var found := Find(s.providers.providers, updated.id);
    if k < |s.providers.providers| {
      assert Lists(s.providers.providers, updated.id);
      assert found == k;
    }
    hide Apply, Find, Coherent;
  }

  // The published runtime.

  /** One of the models is enabled, has this name, and this line under its provider's settings. */
  predicate IsLineOf(p: Provider, models: seq<Model>, name: string, line: Line) {
    exists model :: && model in models && model.enabled && name == CatalogName(p.id, model.upstream)
                    && line == Line(p.settings, model)
  }

  /** Some enabled provider enables this model: the line it gets in the private catalog. */
  predicate IsLine(providers: seq<Provider>, name: string, line: Line) {
    exists p :: p in providers && p.enabled && IsLineOf(p, p.models, name, line)
  }

  lemma MoreModels(p: Provider, init: seq<Model>, last: Model, name: string, line: Line)
    requires IsLineOf(p, init, name, line)
    ensures IsLineOf(p, init + [last], name, line)
  {
    var model :| model in init && model.enabled && name == CatalogName(p.id, model.upstream)
                 && line == Line(p.settings, model);
    assert model in init + [last];
  }

  lemma LastModel(p: Provider, init: seq<Model>, last: Model)
    requires ModelsValid(p.id, init + [last]) && last.enabled
    ensures IsLineOf(p, init + [last], last.catalog, Line(p.settings, last))
  {
    assert (init + [last])[|init|] == last && last in init + [last];
  }

  lemma {:induction false} LinesAreModels(lines: map<string, Line>, p: Provider, models: seq<Model>)
    requires ModelsValid(p.id, models) && WithLines(lines, p, models).Ok?
    ensures var out := WithLines(lines, p, models).value;
            forall name :: name in out ==>
              (name in lines && out[name] == lines[name]) || IsLineOf(p, models, name, out[name])
  {
    if models != [] {
      var init, last := models[..|models| - 1], models[|models| - 1];
      assert models == init + [last];
      LinesAreModels(lines, p, init);
      var before, out := WithLines(lines, p, init).value, WithLines(lines, p, models).value;
      if last.enabled {
        LastModel(p, init, last);
      }
      hide IsLineOf, ModelsValid;
      forall name | name in out && !(name in lines && out[name] == lines[name])
        ensures IsLineOf(p, models, name, out[name])
      {
        if name in before && before[name] == out[name] {
          MoreModels(p, init, last, name, out[name]);
        }
      }
    }
  }

  /** Every line of the private catalog is an enabled model of an enabled provider, under that one's settings. */
  lemma {:induction false} OverlayHoldsTheModels(providers: seq<Provider>)
    requires ProvidersValid(providers)
    ensures OverlayOf(providers).Ok?
    ensures forall name :: name in OverlayOf(providers).value ==>
              IsLine(providers, name, OverlayOf(providers).value[name])
  {
    OverlayListsTheRoutes(providers);
    if providers != [] {
      var init, last := providers[..|providers| - 1], providers[|providers| - 1];
      assert providers == init + [last];
      OverlayHoldsTheModels(init);
      if last.enabled {
        LinesAreModels(OverlayOf(init).value, last, last.models);
      }
      hide OverlayOf, WithLines, IsLineOf, ModelsValid;
    }
  }

  /** What is published in a coherent state: a line and a route for every enabled model, and every provider. */
  lemma PublishedServesTheProviders(s: State, name: string, p: Provider)
    requires Coherent(s)
    ensures var providers := s.providers.providers;
            && (name in s.published.overlay <==> Resolve(s.published.routes, name).ThirdParty?)
            && (name in s.published.overlay ==> IsLine(providers, name, s.published.overlay[name]))
            && (forall id: ProviderId, model: ModelId ::
                  Resolve(s.published.routes, name) == ThirdParty(id, model)
                  <==> Enables(providers, Route(id, model)) && name == CatalogName(id, model))
            && (p in providers ==> p.id in s.published.providers && s.published.providers[p.id] == p)
  {
    RuntimeNeedsValid(s.providers, s.cache);
    CoherentIsValid(s);
    OverlayListsTheRoutes(s.providers.providers);
    OverlayHoldsTheModels(s.providers.providers);
    RoutingIsExact(s.providers, name);
    ProviderMapHoldsAll(s.providers.providers);
    hide OverlayOf, RoutesOf, ProviderMap, IsLine, Enables, CatalogName, ModelsValid, CacheValid, ProvidersValid;
  }
}
