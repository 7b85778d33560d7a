/**
 What every route satisfies: independence from the order of the registry, the policy's order, the
 limits of authorization and fallback, and capabilities bound to what each model supports.
 */
module RoutingSafety {
  import opened Common
  import opened Sorting
  import opened Routers

  // ---------------------------------------------------------------- registry order

  lemma RankTellsModels(models: seq<Model>, ranking: Ranking, policy: RoutingPolicy, explicit: Option<string>)
    requires KeysTell(models)
    ensures RankTellsAll(models, RankBy(ranking, policy, explicit))
  {
    var rank := RankBy(ranking, policy, explicit);
    forall x, y | x in models && y in models && rank(x) == rank(y) ensures x == y {
      RankHasKey(ranking, policy, explicit, x);
      RankHasKey(ranking, policy, explicit, y);
    }
  }

  lemma FilterKeepsTelling(models: seq<Model>, keep: Model -> bool)
    requires KeysTell(models)
    ensures KeysTell(Filter(models, keep))
  {
    forall a, b | a in Filter(models, keep) && b in Filter(models, keep) && Key(a) == Key(b) ensures a == b {
      FilterMember(models, keep, a);
      FilterMember(models, keep, b);
    }
  }

  lemma SortSame(
    first: seq<Model>, second: seq<Model>, ranking: Ranking, policy: RoutingPolicy, explicit: Option<string>)
    requires multiset(first) == multiset(second) && KeysTell(first)
    ensures Sort(first, RankBy(ranking, policy, explicit)) == Sort(second, RankBy(ranking, policy, explicit))
  {
    RankTellsModels(first, ranking, policy, explicit);
    SortForgetsOrder(first, second, RankBy(ranking, policy, explicit));
  }

  lemma EmptySame<T>(first: seq<T>, second: seq<T>)
    requires multiset(first) == multiset(second)
    ensures first == [] <==> second == []
  {
    assert |multiset(first)| == |first| && |multiset(second)| == |second|;
  }

  lemma MissingSame(request: Request, first: seq<Model>, second: seq<Model>)
    requires multiset(first) == multiset(second)
    ensures MissingAnywhere(request, first) == MissingAnywhere(request, second)
  {
    MembersOf(first, second);
    MembersOf(second, first);
  }

  lemma LookupSame(first: seq<Model>, second: seq<Model>, key: string)
    requires multiset(first) == multiset(second) && KeysTell(first)
    ensures Lookup(first, key) == Lookup(second, key)
  {
    FilterForgetsOrder(first, second, Keyed(key));
    EmptySame(Filter(first, Keyed(key)), Filter(second, Keyed(key)));
    if Filter(first, Keyed(key)) != [] {
      var a, b := Filter(first, Keyed(key))[0], Filter(second, Keyed(key))[0];
      FilterMember(first, Keyed(key), a);
      FilterMember(second, Keyed(key), b);
      MembersOf(second, first);
    }
  }

  lemma AutoRouteSame(env: Env, shuffled: seq<Model>, request: Request)
    requires KeysTell(env.models) && multiset(shuffled) == multiset(env.models) && !request.policy.Fixed?
    ensures AutoRoute(env.(models := shuffled), request) == AutoRoute(env, request)
  {
    var pool, other := Pool(env), Pool(env.(models := shuffled));
    FilterForgetsOrder(env.models, shuffled, Permitted(env.permissions));
    FilterForgetsOrder(pool, other, Fits(request));
    EmptySame(pool, other);
    EmptySame(Filter(pool, Fits(request)), Filter(other, Fits(request)));
    MissingSame(request, pool, other);
    FilterKeepsTelling(env.models, Permitted(env.permissions));
    FilterKeepsTelling(pool, Fits(request));
    SortSame(pool, other, env.ranking, request.policy, None);
    SortSame(Filter(pool, Fits(request)), Filter(other, Fits(request)), env.ranking, request.policy, None);
  }

  lemma NamedSame(env: Env, shuffled: seq<Model>, request: Request, provider: string)
    requires KeysTell(env.models) && multiset(shuffled) == multiset(env.models) && request.model.Some?
    ensures Named(env.(models := shuffled), request, provider) == Named(env, request, provider)
  {
    var pool, other := Pool(env), Pool(env.(models := shuffled));
    FilterForgetsOrder(env.models, shuffled, Permitted(env.permissions));
    FilterForgetsOrder(pool, other, OfProvider(provider));
    EmptySame(Filter(pool, OfProvider(provider)), Filter(other, OfProvider(provider)));
    LookupSame(env.models, shuffled, provider + "/" + request.model.value);
  }

  lemma NamedRouteSame(env: Env, shuffled: seq<Model>, request: Request, explicit: Model)
    requires KeysTell(env.models) && multiset(shuffled) == multiset(env.models)
    ensures NamedRoute(env.(models := shuffled), request, explicit) == NamedRoute(env, request, explicit)
  {
    var pool, other := Pool(env), Pool(env.(models := shuffled));
    var key := Key(explicit);
    FilterForgetsOrder(env.models, shuffled, Permitted(env.permissions));
    FilterForgetsOrder(pool, other, NotKeyed(key));
    FilterForgetsOrder(Filter(pool, NotKeyed(key)), Filter(other, NotKeyed(key)), Fits(request));
    FilterKeepsTelling(env.models, Permitted(env.permissions));
    FilterKeepsTelling(pool, NotKeyed(key));
    FilterKeepsTelling(Filter(pool, NotKeyed(key)), Fits(request));
    SortSame(Filter(Filter(pool, NotKeyed(key)), Fits(request)), Filter(Filter(other, NotKeyed(key)), Fits(request)),
             env.ranking, request.policy, Some(key));
  }

  /**
   The route, or its error, does not depend on the order in which the registry lists its models,
   for every request that names no provider or names both a provider and a model.
   */
  lemma RouteForgetsRegistryOrder(env: Env, shuffled: seq<Model>, request: Request)
    requires WellFormed(env) && ValidRequest(request) && multiset(shuffled) == multiset(env.models)
    requires request.provider.None? || request.model.Some?
    ensures Routed(env.(models := shuffled), request) == Routed(env, request)
  {
    FilterForgetsOrder(env.models, shuffled, Permitted(env.permissions));
    EmptySame(Pool(env), Pool(env.(models := shuffled)));
    match request.provider {
      case None => AutoRouteSame(env, shuffled, request);
      case Some(provider) =>
        NamedSame(env, shuffled, request, provider);
        match Named(env, request, provider) {
          case Err(_) =>
          case Ok(explicit) => NamedRouteSame(env, shuffled, request, explicit);
        }
    }
    LimitedForgetsModels(env, shuffled, request);
  }

  lemma LimitedForgetsModels(env: Env, shuffled: seq<Model>, request: Request)
    requires RoutedModels(env.(models := shuffled), request) == RoutedModels(env, request)
    ensures Routed(env.(models := shuffled), request) == Routed(env, request)
  {
  }

  // ---------------------------------------------------------------- who is in a route

  /** A model that may be considered and, unless everything is downgraded, fits. */
  predicate Eligible(env: Env, request: Request, m: Model) {
    m in env.models && m.configured && env.permissions.Permits(m.provider) && Fits(request)(m)
  }

  /** Without a named provider the route is the sorted permutation of the eligible models; */
  lemma AutoRouteIsSortedPermutation(env: Env, request: Request)
    requires ValidRequest(request) && request.provider.None? && RoutedModels(env, request).Ok?
    ensures var route := RoutedModels(env, request).value;
            var fitting := Filter(Pool(env), Fits(request));
            && IsSorted(route, RankBy(env.ranking, request.policy, None))
            && multiset(route) == multiset(if fitting == [] then Pool(env) else fitting)
            && (fitting == [] ==> !request.strict)
  {
    var fitting := Filter(Pool(env), Fits(request));
    SortIsSortedPermutation(fitting, RankBy(env.ranking, request.policy, None));
    SortIsSortedPermutation(Pool(env), RankBy(env.ranking, request.policy, None));
  }

  /** the fitting models are exactly the eligible ones; */
  lemma FittingIsEligible(env: Env, request: Request, m: Model)
    ensures m in Filter(Pool(env), Fits(request)) <==> Eligible(env, request, m)
  {
    FilterMember(Pool(env), Fits(request), m);
    FilterMember(env.models, Permitted(env.permissions), m);
  }

  /** with one, the named model comes first and the other eligible ones follow in the policy's order. */
  lemma NamedRouteShape(env: Env, request: Request, m: Model)
    requires request.provider.Some? && RoutedModels(env, request).Ok?
    ensures var route := RoutedModels(env, request).value;
            && Named(env, request, request.provider.value).Ok?
            && var explicit := Named(env, request, request.provider.value).value;
            && route != [] && route[0] == explicit
            && (request.policy.Fixed? ==> route == [explicit])
            && (!request.policy.Fixed? ==>
                  && IsSorted(route[1..], RankBy(env.ranking, request.policy, Some(Key(explicit))))
                  && (m in route[1..] <==> Eligible(env, request, m) && Key(m) != Key(explicit)))
  {
    var explicit := Named(env, request, request.provider.value).value;
    var others := Filter(Filter(Pool(env), NotKeyed(Key(explicit))), Fits(request));
    var sorted := Sort(others, RankBy(env.ranking, request.policy, Some(Key(explicit))));
    SortIsSortedPermutation(others, RankBy(env.ranking, request.policy, Some(Key(explicit))));
    assert ([explicit] + sorted)[1..] == sorted;
    MembersOf(sorted, others);
    MembersOf(others, sorted);
    FilterMember(Filter(Pool(env), NotKeyed(Key(explicit))), Fits(request), m);
    FilterMember(Pool(env), NotKeyed(Key(explicit)), m);
    FilterMember(env.models, Permitted(env.permissions), m);
  }

  function BeforeSlash(s: string): string {
    if s == "" || s[0] == '/' then "" else [s[0]] + BeforeSlash(s[1..])
  }

  lemma {:induction false} BeforeSlashIs(provider: string, name: string)
    requires '/' !in provider
    ensures BeforeSlash(provider + "/" + name) == provider
  {
    if provider == "" {
      assert (provider + "/" + name)[0] == '/';
    } else {
      assert (provider + "/" + name)[1..] == provider[1..] + "/" + name;
      BeforeSlashIs(provider[1..], name);
      assert provider == [provider[0]] + provider[1..];
    }
  }

  /** The named model belongs to the provider the request names, and that provider is permitted. */
  lemma NamedIsPermitted(env: Env, request: Request, provider: string)
    requires WellFormed(env) && '/' !in provider && Named(env, request, provider).Ok?
    ensures var explicit := Named(env, request, provider).value;
            && explicit in env.models && explicit.provider == provider && env.permissions.Permits(provider)
            && (request.model.None? ==> explicit.configured)
  {
    var explicit := Named(env, request, provider).value;
    if request.model.None? {
      FilterMember(Pool(env), OfProvider(provider), explicit);
      FilterMember(env.models, Permitted(env.permissions), explicit);
    } else {
      var key := provider + "/" + request.model.value;
      FilterMember(env.models, Keyed(key), explicit);
      BeforeSlashIs(explicit.provider, explicit.name);
      BeforeSlashIs(provider, request.model.value);
    }
  }

  /**
   Every routed model is one of the registry's and its provider is permitted. It is also configured,
   unless it is the model the request names: that one is looked up among all models.
   */
  lemma RoutedIsPermitted(env: Env, request: Request, m: Model)
    requires WellFormed(env) && ValidRequest(request) && RoutedModels(env, request).Ok?
    requires m in RoutedModels(env, request).value
    ensures m in env.models && env.permissions.Permits(m.provider)
    ensures m.configured || (request.model.Some? && m == RoutedModels(env, request).value[0])
  {
    var route := RoutedModels(env, request).value;
    if request.provider.None? {
      AutoRouteIsSortedPermutation(env, request);
      assert m in multiset(route);
      FilterMember(Pool(env), Fits(request), m);
      FilterMember(env.models, Permitted(env.permissions), m);
    } else {
      NamedRouteShape(env, request, m);
      NamedIsPermitted(env, request, request.provider.value);
      if m != route[0] {
        assert m in route[1..];
      }
    }
  }

  /** Every provider flags its models alike, as each of the shipped ones does. */
  ghost predicate FlagsAlike(models: seq<Model>) {
    forall a, b :: a in models && b in models && a.provider == b.provider ==> a.configured == b.configured
  }

  /** The models that are left after the fallback limits. */
  function RouteLeft(env: Env, request: Request): seq<Model>
    requires RoutedModels(env, request).Ok?
  {
    Limited(env, request, RoutedModels(env, request).value)
  }

  /**
   Every routed model is configured exactly when the request names no model or names a configured
   one: a named model is looked up among all models, every other is taken from the configured ones.
   */
  lemma AllConfiguredIff(env: Env, request: Request)
    requires WellFormed(env) && ValidRequest(request) && RoutedModels(env, request).Ok?
    ensures (forall m :: m in RouteLeft(env, request) ==> m.configured)
            <==> (request.model.None? || Named(env, request, request.provider.value).value.configured)
  {
    var route, left := RoutedModels(env, request).value, RouteLeft(env, request);
    RoutedIsNotEmpty(env, request);
    LimitedKeepsFirst(env, request, route, route[0]);
    assert left[0] in left;
    if request.model.Some? {
      NamedRouteShape(env, request, route[0]);
    }
    forall m | m in left ensures m in route && (m.configured || (request.model.Some? && m == route[0])) {
      LimitedKeepsFirst(env, request, route, m);
      RoutedIsPermitted(env, request, m);
    }
  }

  /** With the shipped providers, which flag their models alike, every routed model is configured. */
  lemma RoutedIsConfigured(env: Env, request: Request)
    requires WellFormed(env) && ValidRequest(request) && FlagsAlike(env.models) && RoutedModels(env, request).Ok?
    ensures forall m :: m in RouteLeft(env, request) ==> m.configured
  {
    if request.model.Some? {
      var provider := request.provider.value;
      NamedIsPermitted(env, request, provider);
      var own := Filter(Pool(env), OfProvider(provider));
      FilterMember(Pool(env), OfProvider(provider), own[0]);
      FilterMember(env.models, Permitted(env.permissions), own[0]);
    }
    AllConfiguredIff(env, request);
  }

  /** Without that, naming an unconfigured model of a provider that has a configured one routes to it. */
  lemma FlagsMustAgree(ready: Model, bare: Model, request: Request)
    requires ready.provider == bare.provider == "groq" && ready.name != bare.name
    requires ready.configured && !bare.configured
    requires request.provider == Some("groq") && request.model == Some(bare.name) && Missing(request, bare) == []
    ensures var env := Env([ready, bare], {"groq"}, Permissions(None, true), Ranking([], [], ""));
            RoutedModels(env, request).Ok? && RoutedModels(env, request).value[0] == bare
  {
    var env := Env([ready, bare], {"groq"}, Permissions(None, true), Ranking([], [], ""));
    assert env.models[1..] == [bare] && [bare][1..] == [];
    FilterMember(env.models, Permitted(env.permissions), ready);
    FilterMember(Pool(env), OfProvider("groq"), ready);
    KeysApart("groq", ready.name, bare.name);
    FilterNone([], Keyed(Key(bare)));
    assert Filter([bare], Keyed(Key(bare))) == [bare];
    assert Filter(env.models, Keyed(Key(bare))) == [bare];
  }

  lemma KeysApart(provider: string, first: string, second: string)
    requires first != second
    ensures provider + "/" + first != provider + "/" + second
  {
    var n := |provider| + 1;
    assert (provider + "/" + first)[n..] == first && (provider + "/" + second)[n..] == second;
  }

  // ---------------------------------------------------------------- what the fallback limits leave

  lemma {:induction false} FilterOccurs<T>(s: seq<T>, keep: T -> bool)
    ensures |Filter(s, keep)| <= |s|
    ensures s != [] && keep(s[0]) ==> Filter(s, keep) != [] && Filter(s, keep)[0] == s[0]
  {
    if s != [] {
      FilterOccurs(s[1..], keep);
    }
  }

  /**
   What is left of an order starts with its first model; it is that one alone when fallback is
   disallowed, and of its provider alone when fallback may not cross providers.
   */
  lemma LimitedKeepsFirst(env: Env, request: Request, ordered: seq<Model>, m: Model)
    requires ordered != []
    ensures var limited := Limited(env, request, ordered);
            && limited != [] && limited[0] == ordered[0]
            && (m in limited ==> m in ordered)
            && (!request.allowFallback ==> |limited| == 1)
            && (!env.permissions.crossProviderFallback && m in limited ==> m.provider == ordered[0].provider)
  {
    FilterOccurs(ordered, OfProvider(ordered[0].provider));
    FilterMember(ordered, OfProvider(ordered[0].provider), m);
  }

  lemma RoutedIsNotEmpty(env: Env, request: Request)
    requires ValidRequest(request) && RoutedModels(env, request).Ok?
    ensures RoutedModels(env, request).value != []
  {
    if request.provider.None? {
      AutoRouteIsSortedPermutation(env, request);
      var route := RoutedModels(env, request).value;
      assert |multiset(route)| == |route|;
    }
  }

  /**
   Everyone in a route: at least one candidate, each permitted, each bound to capabilities its model
   supports and warned about exactly what it lacks; nothing is warned about in a strict request;
   one candidate without fallback; one provider without fallback across providers.
   */
  lemma RouteIsSafe(env: Env, request: Request, i: nat)
    requires WellFormed(env) && ValidRequest(request) && Routed(env, request).Ok?
    requires i < |Routed(env, request).value|
    ensures var route := Routed(env, request).value;
            var c := route[i];
            && c.model in env.models && env.permissions.Permits(c.model.provider)
            && (c.model.timestamps != {} && c.model.styles != {} ==> Supported(c.bound, c.model))
            && (forall capability :: capability in c.warnings <==> Lacks(request, c.model, capability))
            && (request.strict ==> c.warnings == [])
            && (!request.allowFallback ==> |route| == 1)
            && (!env.permissions.crossProviderFallback ==> c.model.provider == route[0].model.provider)
  {
    var ordered := RoutedModels(env, request).value;
    RoutedIsNotEmpty(env, request);
    var m := Limited(env, request, ordered)[i];
    LimitedKeepsFirst(env, request, ordered, m);
    RoutedIsPermitted(env, request, m);
    if m.timestamps != {} && m.styles != {} {
      BoundIsSupported(request, m);
    }
    forall capability ensures capability in Missing(request, m) <==> Lacks(request, m, capability) {
      MissingIff(request, m, capability);
    }
    if request.strict {
      StrictFits(env, request, m);
    }
  }

  lemma StrictFits(env: Env, request: Request, m: Model)
    requires ValidRequest(request) && request.strict && RoutedModels(env, request).Ok?
    requires m in RoutedModels(env, request).value
    ensures Missing(request, m) == []
  {
    var route := RoutedModels(env, request).value;
    if request.provider.None? {
      AutoRouteIsSortedPermutation(env, request);
      assert m in multiset(route);
      FilterMember(Pool(env), Fits(request), m);
    } else {
      NamedRouteShape(env, request, m);
      if m != route[0] {
        assert m in route[1..];
      }
    }
  }

  /** A route that succeeds is never empty. */
  lemma RouteIsNotEmpty(env: Env, request: Request)
    requires ValidRequest(request) && Routed(env, request).Ok?
    ensures Routed(env, request).value != []
  {
    RoutedIsNotEmpty(env, request);
    var ordered := RoutedModels(env, request).value;
    LimitedKeepsFirst(env, request, ordered, ordered[0]);
  }

  // ---------------------------------------------------------------- no repeats

  /** Each element occurs at most once. */
  ghost predicate Single<T(!new)>(s: seq<T>) {
    forall x :: multiset(s)[x] <= 1
  }

  lemma {:induction false} SingleIffDistinct<T(!new)>(s: seq<T>)
    ensures Single(s) <==> NoDuplicates(s)
  {
    if s != [] {
      var head, rest := s[0], s[1..];
      FrontMultiset(s);
      SingleIffDistinct(rest);
      assert forall i :: 0 <= i < |rest| ==> rest[i] == s[i + 1];
      assert NoDuplicates(s) <==> NoDuplicates(rest) && head !in rest;
      assert head in rest <==> multiset(rest)[head] > 0;
      assert multiset(s)[head] == multiset(rest)[head] + 1;
      if Single(rest) && head !in rest {
        forall x ensures multiset(s)[x] <= 1 { assert multiset(rest)[x] <= 1; }
      }
      if Single(s) {
        forall x ensures multiset(rest)[x] <= 1 { assert multiset(s)[x] <= 1; }
      }
    }
  }

  lemma FilterSingle<T(!new)>(s: seq<T>, keep: T -> bool)
    requires Single(s)
    ensures Single(Filter(s, keep))
  {
    forall x ensures multiset(Filter(s, keep))[x] <= 1 {
      FilterMultiplicity(s, keep, x);
    }
  }

  /** No model is routed twice. */
  lemma RouteHasNoRepeats(env: Env, request: Request)
    requires WellFormed(env) && ValidRequest(request) && Routed(env, request).Ok?
    ensures NoDuplicates(Limited(env, request, RoutedModels(env, request).value))
  {
    var ordered := RoutedModels(env, request).value;
    SingleIffDistinct(env.models);
    FilterSingle(env.models, Permitted(env.permissions));
    OrderedIsSingle(env, request);
    SingleIffDistinct(ordered);
    if ordered != [] {
      FilterSingle(ordered, OfProvider(ordered[0].provider));
      SingleIffDistinct(Filter(ordered, OfProvider(ordered[0].provider)));
    }
  }

  lemma OrderedIsSingle(env: Env, request: Request)
    requires ValidRequest(request) && RoutedModels(env, request).Ok? && Single(Pool(env))
    ensures Single(RoutedModels(env, request).value)
  {
    if request.provider.None? {
      AutoRouteIsSortedPermutation(env, request);
      FilterSingle(Pool(env), Fits(request));
    } else {
      NamedIsSingle(env, request);
    }
  }

  lemma NamedIsSingle(env: Env, request: Request)
    requires request.provider.Some? && RoutedModels(env, request).Ok? && Single(Pool(env))
    ensures Single(RoutedModels(env, request).value)
  {
    var explicit := Named(env, request, request.provider.value).value;
    var key := Key(explicit);
    var others := Filter(Filter(Pool(env), NotKeyed(key)), Fits(request));
    var rank := RankBy(env.ranking, request.policy, Some(key));
    FilterSingle(Pool(env), NotKeyed(key));
    FilterSingle(Filter(Pool(env), NotKeyed(key)), Fits(request));
    SortIsSortedPermutation(others, rank);
    OthersAreOthers(Pool(env), key, Fits(request));
    assert explicit !in others;
    assert multiset(others)[explicit] == 0;
    forall x ensures multiset([explicit] + Sort(others, rank))[x] <= 1 {
      assert multiset(others)[x] <= 1;
    }
    assert Single([explicit]);
  }
}
