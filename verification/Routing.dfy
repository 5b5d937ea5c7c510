/** Catalog identities and the routing table built from a provider document. Characters here are Unicode scalars. */
module Routing {
  import opened Wrappers

  // Identities.

  predicate LowerOrDigit(c: char) { 'a' <= c <= 'z' || '0' <= c <= '9' }

  predicate IsProviderId(s: string) {
    && s != []
    && (exists k :: 0 <= k < |s| && LowerOrDigit(s[k]))
    && (forall k :: 0 <= k < |s| ==> LowerOrDigit(s[k]) || s[k] == '-')
  }

  /** Unicode White_Space. */
  predicate White(c: char) {
    var n := c as int;
    0x9 <= n <= 0xD || n in {0x20, 0x85, 0xA0, 0x1680, 0x2028, 0x2029, 0x202F, 0x205F, 0x3000} || 0x2000 <= n <= 0x200A
  }

  predicate Control(c: char) { var n := c as int; n <= 0x1F || 0x7F <= n <= 0x9F }

  predicate IsModelId(s: string) {
    && s != [] && !White(s[0]) && !White(s[|s| - 1])
    && (forall k :: 0 <= k < |s| ==> !Control(s[k]))
  }

  type ProviderId = s: string | IsProviderId(s) witness OneLetter()
  type ModelId = s: string | IsModelId(s) witness OneLetter()

  function OneLetter(): (s: string)
    ensures IsProviderId(s) && IsModelId(s)
  {
    assert LowerOrDigit("a"[0]);
    "a"
  }

  datatype IdError = InvalidProviderId(value: string) | InvalidModelId(value: string)

  function NewProviderId(value: string): Result<ProviderId, IdError> {
    if IsProviderId(value) then Ok(value) else Err(InvalidProviderId(value))
  }

  function NewModelId(value: string): Result<ModelId, IdError> {
    if IsModelId(value) then Ok(value) else Err(InvalidModelId(value))
  }

  /** The catalog name of a provider's model. */
  function CatalogName(p: ProviderId, m: ModelId): string { p + "/" + m }

  /** Where the first slash is; the length when there is none. */
  function FirstSlash(s: string): (k: nat)
    ensures k <= |s| && '/' !in s[..k] && (k < |s| ==> s[k] == '/')
  {
    if s == [] || s[0] == '/' then 0
    else
      var k := FirstSlash(s[1..]);
      assert s[..k + 1] == [s[0]] + s[1..][..k];
      k + 1
  }

  function ParseCatalogName(value: string): Result<(ProviderId, ModelId), IdError> {
    var k := FirstSlash(value);
    if k == |value| then Err(InvalidModelId(value)) else
    match (NewProviderId(value[..k]), NewModelId(value[k + 1..]))
    case (Err(e), _) => Err(e)
    case (Ok(_), Err(e)) => Err(e)
    case (Ok(p), Ok(m)) => Ok((p, m))
  }

  /** A name parses back to what it was made of, however many slashes the model id holds. */
  lemma CatalogNameParses(p: ProviderId, m: ModelId)
    ensures ParseCatalogName(CatalogName(p, m)) == Ok((p, m))
  {
    var name := CatalogName(p, m);
    var k := FirstSlash(name);
    assert name[|p|] == '/';
    assert forall i :: 0 <= i < |p| ==> name[i] == p[i] && p[i] != '/';
    assert k <= |p|;
    assert name[..|p|] == p && name[|p| + 1..] == m;
  }

  /** Only such names parse, and to themselves. */
  lemma ParsedNamesAreCatalogNames(value: string)
    ensures match ParseCatalogName(value)
            case Ok((p, m)) => CatalogName(p, m) == value
            case Err(_) => forall p: ProviderId, m: ModelId :: CatalogName(p, m) != value
  {
    if ParseCatalogName(value).Ok? {
      var k := FirstSlash(value);
      assert value == value[..k] + [value[k]] + value[k + 1..];
    } else {
      forall p: ProviderId, m: ModelId ensures CatalogName(p, m) != value {
        CatalogNameParses(p, m);
      }
    }
  }

  /** What any other name fails with: the provider's half is judged first, and a name without halves as a model. */
  lemma ParsingFailsAs(first: string, second: string)
    requires '/' !in first
    ensures ParseCatalogName(first) == Err(InvalidModelId(first))
    ensures ParseCatalogName(first + "/" + second).Err? ==>
              ParseCatalogName(first + "/" + second).error
              == if IsProviderId(first) then InvalidModelId(second) else InvalidProviderId(first)
  {
    var name := first + "/" + second;
    var k := FirstSlash(name);
    assert name[|first|] == '/';
    assert forall i :: 0 <= i < |first| ==> name[i] == first[i] && first[i] != '/';
    assert k <= |first|;
    assert name[..|first|] == first && name[|first| + 1..] == second;
    hide IsProviderId, IsModelId;
  }

  /** Identifiers at their edges: a dash needs company, case and underscores are refused, inner white space is not. */
  lemma IdsAtTheirEdges()
    ensures IsProviderId("kimi-2") && !IsProviderId("-") && !IsProviderId("Kimi") && !IsProviderId("a_b")
    ensures !IsProviderId("") && !IsModelId("")
    ensures IsModelId("org/Model 1") && !IsModelId(" m") && !IsModelId("m ") && !IsModelId("m\tn")
  {
    assert LowerOrDigit("kimi-2"[0]);
    assert !LowerOrDigit("Kimi"[0]) && !LowerOrDigit("a_b"[1]);
    assert White(" m"[0]) && White("m "[1]) && Control("m\tn"[1]);
  }

  lemma CatalogNamesAreInjective(p: ProviderId, m: ModelId, q: ProviderId, n: ModelId)
    ensures CatalogName(p, m) == CatalogName(q, n) <==> p == q && m == n
  {
    CatalogNameParses(p, m);
    CatalogNameParses(q, n);
  }

  // Documents.

  datatype Model = Model(upstream: ModelId, catalog: string, enabled: bool)

  /** `auth` and `settings` are the fields routing does not read, `fault` the first of their checks that fails. */
  datatype Provider = Provider(id: ProviderId, enabled: bool, models: seq<Model>, auth: string, settings: string,
      fault: Option<string>)

  datatype Document = Document(fault: Option<string>, providers: seq<Provider>)

  datatype DocError =
    | Fault(text: string)
    | DuplicateProvider(id: ProviderId)
    | DuplicateModel(provider: ProviderId, model: ModelId)
    | CatalogMismatch(expected: string, actual: string)

  predicate ModelsValid(id: ProviderId, models: seq<Model>) {
    && (forall i, j :: 0 <= i < j < |models| ==> models[i].upstream != models[j].upstream)
    && (forall i :: 0 <= i < |models| ==> models[i].catalog == CatalogName(id, models[i].upstream))
  }

  predicate ProvidersValid(providers: seq<Provider>) {
    && (forall i, j :: 0 <= i < j < |providers| ==> providers[i].id != providers[j].id)
    && (forall i :: 0 <= i < |providers| ==>
        providers[i].fault.None? && ModelsValid(providers[i].id, providers[i].models))
  }

  predicate Valid(doc: Document) { doc.fault.None? && ProvidersValid(doc.providers) }

  method ValidateModels(id: ProviderId, models: seq<Model>) returns (r: Result<(), DocError>)
    ensures r.Ok? <==> ModelsValid(id, models)
    ensures r.Err? && r.error.DuplicateModel? ==>
              exists i, j :: 0 <= i < j < |models| && models[i].upstream == models[j].upstream == r.error.model
    ensures r.Err? && r.error.CatalogMismatch? ==>
              exists i :: 0 <= i < |models| && models[i].catalog == r.error.actual != r.error.expected
    ensures r.Err? ==> !r.error.Fault? && !r.error.DuplicateProvider?
  {
    var ids: set<ModelId> := {};
    for k := 0 to |models|
      invariant ModelsValid(id, models[..k])
      invariant forall m: ModelId :: m in ids <==> exists i :: 0 <= i < k && models[i].upstream == m
    {
      var model := models[k];
      assert models[..k + 1][k] == model;
      if model.upstream in ids {
        ghost var i :| 0 <= i < k && models[i].upstream == model.upstream;
        return Err(DuplicateModel(id, model.upstream));
      }
      ids := ids + {model.upstream};
      var expected := CatalogName(id, model.upstream);
      if model.catalog != expected {
        return Err(CatalogMismatch(expected, model.catalog));
      }
      assert models[..k + 1] == models[..k] + [model];
    }
    assert models[..|models|] == models;
    return Ok(());
  }

  method Validate(doc: Document) returns (r: Result<(), DocError>)
    ensures r.Ok? <==> Valid(doc)
    ensures r.Err? && r.error.DuplicateProvider? ==>
              exists i, j :: 0 <= i < j < |doc.providers| && doc.providers[i].id == doc.providers[j].id == r.error.id
  {
    if doc.fault.Some? {
      return Err(Fault(doc.fault.value));
    }
    var ids: set<ProviderId> := {};
    for k := 0 to |doc.providers|
      invariant ProvidersValid(doc.providers[..k])
      invariant forall p: ProviderId :: p in ids <==> exists i :: 0 <= i < k && doc.providers[i].id == p
    {
      var provider := doc.providers[k];
      assert doc.providers[..k + 1][k] == provider;
      if provider.id in ids {
        ghost var i :| 0 <= i < k && doc.providers[i].id == provider.id;
        return Err(DuplicateProvider(provider.id));
      }
      ids := ids + {provider.id};
      var models := ValidateModels(provider.id, provider.models);
      if models.Err? {
        return models;
      }
      if provider.fault.Some? {
        return Err(Fault(provider.fault.value));
      }
      assert doc.providers[..k + 1] == doc.providers[..k] + [provider];
    }
    assert doc.providers[..|doc.providers|] == doc.providers;
    return Ok(());
  }

  // The routing table.

  datatype Route = Route(provider: ProviderId, model: ModelId)

  type Routes = map<string, Route>

  function WithModels(routes: Routes, id: ProviderId, models: seq<Model>): Routes {
    if models == [] then routes
    else
      var before := WithModels(routes, id, models[..|models| - 1]);
      var last := models[|models| - 1];
      if last.enabled then before[CatalogName(id, last.upstream) := Route(id, last.upstream)] else before
  }

  function RoutesOf(providers: seq<Provider>): Routes {
    if providers == [] then map[]
    else
      var before := RoutesOf(providers[..|providers| - 1]);
      var last := providers[|providers| - 1];
      if last.enabled then WithModels(before, last.id, last.models) else before
  }

  /** The document enables this provider and this model of it. */
  predicate Enables(providers: seq<Provider>, r: Route) {
    exists p :: p in providers && p.enabled && p.id == r.provider && EnablesModel(p.models, r.model)
  }

  predicate EnablesModel(models: seq<Model>, m: ModelId) {
    exists model :: model in models && model.enabled && model.upstream == m
  }

  lemma {:induction false} WithModelsExact(routes: Routes, id: ProviderId, models: seq<Model>)
    ensures var out := WithModels(routes, id, models);
            && (forall m: ModelId :: EnablesModel(models, m) ==>
                CatalogName(id, m) in out && out[CatalogName(id, m)] == Route(id, m))
            && (forall name :: name in out ==>
                  || (name in routes && out[name] == routes[name])
                  || (exists m: ModelId :: EnablesModel(models, m) && name == CatalogName(id, m)))
            && (forall name :: name in routes ==> name in out)
  {
    if models != [] {
      var init, last := models[..|models| - 1], models[|models| - 1];
      assert models == init + [last];
      WithModelsExact(routes, id, init);
      forall m: ModelId | EnablesModel(models, m) ensures EnablesModel(init, m)
          || (last.enabled && m == last.upstream) {
      }
      forall m: ModelId | EnablesModel(init, m) ensures EnablesModel(models, m) {
        var model :| model in init && model.enabled && model.upstream == m;
        assert model in models;
      }
      forall m: ModelId ensures CatalogName(id, m) == CatalogName(id, last.upstream) <==> m == last.upstream {
        CatalogNamesAreInjective(id, m, id, last.upstream);
      }
      if last.enabled {
        assert EnablesModel(models, last.upstream);
      }
    }
  }

  lemma {:induction false} RoutesExact(providers: seq<Provider>)
    ensures var out := RoutesOf(providers);
            && (forall r: Route :: Enables(providers, r) ==> CatalogName(r.provider, r.model) in out)
            && (forall name :: name in out ==>
                Enables(providers, out[name]) && name == CatalogName(out[name].provider, out[name].model))
  {
    if providers != [] {
      hide EnablesModel, CatalogName;
      var init, last := providers[..|providers| - 1], providers[|providers| - 1];
      assert providers == init + [last];
      RoutesExact(init);
      WithModelsExact(RoutesOf(init), last.id, last.models);
      forall r: Route | Enables(providers, r) ensures CatalogName(r.provider, r.model) in RoutesOf(providers) {
        var p :| p in providers && p.enabled && p.id == r.provider && EnablesModel(p.models, r.model);
        if p in init {
          assert Enables(init, r);
        }
      }
      forall name | name in RoutesOf(providers)
        ensures var r := RoutesOf(providers)[name]; Enables(providers, r) && name == CatalogName(r.provider, r.model)
      {
        var r := RoutesOf(providers)[name];
        if name in RoutesOf(init) && RoutesOf(init)[name] == r {
          EnablesGrows(init, last, r);
        } else {
          var m: ModelId :| EnablesModel(last.models, m) && name == CatalogName(last.id, m);
          assert r == Route(last.id, m);
          assert last in providers;
        }
      }
    }
  }

  lemma EnablesGrows(init: seq<Provider>, last: Provider, r: Route)
    requires Enables(init, r)
    ensures Enables(init + [last], r)
  {
    var p :| p in init && p.enabled && p.id == r.provider && EnablesModel(p.models, r.model);
    assert p in init + [last];
  }

  lemma RouteIsEnabled(providers: seq<Provider>, name: string)
    requires name in RoutesOf(providers)
    ensures var r := RoutesOf(providers)[name]; Enables(providers, r) && name == CatalogName(r.provider, r.model)
  {
    hide Enables, RoutesOf;
    RoutesExact(providers);
  }

  lemma EnabledIsRouted(providers: seq<Provider>, r: Route)
    requires Enables(providers, r)
    ensures CatalogName(r.provider, r.model) in RoutesOf(providers)
    ensures RoutesOf(providers)[CatalogName(r.provider, r.model)] == r
  {
    hide Enables, RoutesOf;
    RoutesExact(providers);
    var found := RoutesOf(providers)[CatalogName(r.provider, r.model)];
    CatalogNamesAreInjective(r.provider, r.model, found.provider, found.model);
  }

  datatype Decision = Official | Unavailable | ThirdParty(provider: ProviderId, model: ModelId)

  function Resolve(routes: Routes, name: string): Decision {
    if name in routes then ThirdParty(routes[name].provider, routes[name].model)
    else if '/' in name then Unavailable
    else Official
  }

  /**
   Main law: a name routes to a provider's model exactly when both are enabled and it is their
   catalog name; of the other names those with a slash are unavailable and the rest official.
   */
  lemma RoutingIsExact(doc: Document, name: string)
    ensures var d := Resolve(RoutesOf(doc.providers), name);
            && (forall p: ProviderId, m: ModelId ::
                  d == ThirdParty(p, m) <==> Enables(doc.providers, Route(p, m)) && name == CatalogName(p, m))
            && (d == Official <==> '/' !in name)
  {
    hide Enables, RoutesOf;
    var routes := RoutesOf(doc.providers);
    if name in routes {
      RouteIsEnabled(doc.providers, name);
    }
    forall p: ProviderId, m: ModelId | Enables(doc.providers, Route(p, m)) && name == CatalogName(p, m)
      ensures Resolve(routes, name) == ThirdParty(p, m)
    {
      EnabledIsRouted(doc.providers, Route(p, m));
    }
    if name in routes {
      var r := routes[name];
      assert CatalogName(r.provider, r.model)[|r.provider|] == '/';
    }
  }

  // The published count.

  function EnabledModels(models: seq<Model>): nat {
    if models == [] then 0
    else EnabledModels(models[..|models| - 1]) + if models[|models| - 1].enabled then 1 else 0
  }

  function EnabledPairs(providers: seq<Provider>): nat {
    if providers == [] then 0
    else
      var last := providers[|providers| - 1];
      EnabledPairs(providers[..|providers| - 1]) + if last.enabled then EnabledModels(last.models) else 0
  }

  lemma {:induction false} ModelsAreCounted(routes: Routes, id: ProviderId, models: seq<Model>)
    requires ModelsValid(id, models)
    requires forall m: ModelId :: CatalogName(id, m) !in routes
    ensures |WithModels(routes, id, models)| == |routes| + EnabledModels(models)
  {
    if models != [] {
      var init, last := models[..|models| - 1], models[|models| - 1];
      ModelsAreCounted(routes, id, init);
      WithModelsExact(routes, id, init);
      if CatalogName(id, last.upstream) in WithModels(routes, id, init) {
        var m: ModelId :| EnablesModel(init, m) && CatalogName(id, last.upstream) == CatalogName(id, m);
        CatalogNamesAreInjective(id, m, id, last.upstream);
        assert false;
      }
    }
  }

  lemma OnlyOthersEnable(init: seq<Provider>, last: Provider, r: Route)
    requires ProvidersValid(init + [last]) && Enables(init, r)
    ensures r.provider != last.id
  {
    var p :| p in init && p.enabled && p.id == r.provider && EnablesModel(p.models, r.model);
    var k :| 0 <= k < |init| && init[k] == p;
    assert (init + [last])[k] == p && (init + [last])[|init|] == last;
  }

  lemma NamesAreNew(init: seq<Provider>, last: Provider)
    requires ProvidersValid(init + [last])
    ensures forall m: ModelId :: CatalogName(last.id, m) !in RoutesOf(init)
  {
    hide ProvidersValid, RoutesOf;
    forall m: ModelId ensures CatalogName(last.id, m) !in RoutesOf(init) {
      if CatalogName(last.id, m) in RoutesOf(init) {
        RouteIsEnabled(init, CatalogName(last.id, m));
        var r := RoutesOf(init)[CatalogName(last.id, m)];
        CatalogNamesAreInjective(last.id, m, r.provider, r.model);
        OnlyOthersEnable(init, last, r);
        assert false;
      }
    }
  }

  /** In a valid document no route overwrites another: the table has one entry for every enabled pair. */
  lemma {:induction false} EveryPairIsPublished(providers: seq<Provider>)
    requires ProvidersValid(providers)
    ensures |RoutesOf(providers)| == EnabledPairs(providers)
  {
    if providers != [] {
      var init, last := providers[..|providers| - 1], providers[|providers| - 1];
      EveryPairIsPublished(init);
      assert init + [last] == providers;
      NamesAreNew(init, last);
      ModelsAreCounted(RoutesOf(init), last.id, last.models);
    }
  }

  /**
   `cacheFault` is the cache document's own validation error, if any; nothing else of the cache is
   read. The duplicate and catalog checks inside the loop repeat `ValidateModels` and cannot fail.
   */
  method Build(doc: Document, cacheFault: Option<string>) returns (r: Result<Routes, DocError>)
    ensures r.Ok? <==> Valid(doc) && cacheFault.None?
    ensures r.Ok? ==> r.value == RoutesOf(doc.providers) && |r.value| == EnabledPairs(doc.providers)
  {
    var valid := Validate(doc);
    if valid.Err? {
      return Err(valid.error);
    }
    if cacheFault.Some? {
      return Err(Fault(cacheFault.value));
    }
    var routes: Routes := map[];
    for i := 0 to |doc.providers|
      invariant routes == RoutesOf(doc.providers[..i])
    {
      var provider := doc.providers[i];
      ghost var before := routes;
      assert doc.providers[..i + 1][..i] == doc.providers[..i];
      if provider.enabled {
        var ids: set<ModelId> := {};
        for j := 0 to |provider.models|
          invariant routes == WithModels(before, provider.id, provider.models[..j])
          invariant forall m: ModelId :: m in ids ==> exists k :: 0 <= k < j && provider.models[k].upstream == m
        {
          var model := provider.models[j];
          assert provider.models[..j + 1][..j] == provider.models[..j];
          assert ModelsValid(provider.id, provider.models);
          assert model.upstream !in ids && model.catalog == CatalogName(provider.id, model.upstream);
          ids := ids + {model.upstream};
          if model.enabled {
            routes := routes[CatalogName(provider.id, model.upstream) := Route(provider.id, model.upstream)];
          }
        }
        assert provider.models[..|provider.models|] == provider.models;
      }
    }
    assert doc.providers[..|doc.providers|] == doc.providers;
    EveryPairIsPublished(doc.providers);
    return Ok(routes);
  }
}
