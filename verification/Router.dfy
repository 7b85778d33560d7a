/**
 Choosing the models a request may be sent to: authorization before ranking, capability
 negotiation, a total order per routing policy, the named model first, and the fallback limits.
 */
module Routers {
  import opened Common
  import opened Sorting

  // ---------------------------------------------------------------- what is routed

  datatype TimestampMode = NoTimestamps | SegmentTimestamps | WordTimestamps

  datatype Style = Clean | Verbatim

  datatype RoutingPolicy = Default | Quality | Cost | Latency | Fixed

  /** A model a provider offers. A limit of zero is no limit, as None is. */
  datatype Model = Model(
    provider: string, name: string, preview: bool, diarization: bool, timestamps: set<TimestampMode>,
      styles: set<Style>,
    detectsLanguage: bool, phraseHints: bool, maxSeconds: Option<nat>, maxBytes: Option<nat>, price: Option<real>,
      configured: bool)

  /** No provider means that the router chooses one. */
  datatype Request = Request(
    provider: Option<string>, model: Option<string>, policy: RoutingPolicy, language: Option<string>,
      diarization: Option<bool>,
    timestamps: Option<TimestampMode>, style: Option<Style>, phraseHints: seq<string>, strict: bool,
      allowFallback: bool,
    allowPreview: bool, duration: Option<real>)

  /** What request validation guarantees. */
  predicate ValidRequest(request: Request) {
    && (request.policy.Fixed? ==> request.provider.Some?)
    && (request.model.Some? ==> request.provider.Some?)
    && (request.provider.Some? ==> '/' !in request.provider.value)
  }

  datatype Permissions = Permissions(enabled: Option<set<string>>, crossProviderFallback: bool)
  {
    predicate Permits(provider: string) {
      enabled.None? || provider in enabled.value
    }
  }

  datatype Ranking = Ranking(quality: seq<string>, latency: seq<string>, defaultKey: string)

  datatype Env = Env(models: seq<Model>, providers: set<string>, permissions: Permissions, ranking: Ranking)

  function Key(model: Model): string {
    model.provider + "/" + model.name
  }

  /** The registry is keyed by model key, and provider names hold no slash. */
  ghost predicate WellFormed(env: Env) {
    && NoDuplicates(env.models)
    && KeysTell(env.models)
    && forall m :: m in env.models ==> '/' !in m.provider
  }

  ghost predicate KeysTell(models: seq<Model>) {
    forall a, b :: a in models && b in models && Key(a) == Key(b) ==> a == b
  }

  // ---------------------------------------------------------------- capabilities

  datatype Capability =
    | PreviewModel | Diarization | Timestamps(mode: TimestampMode) | StyleOf(style: Style)
    | LanguageDetection | PhraseHints | MaxAudioSeconds

  /** The request demands the capability and the model does not have it. */
  predicate Lacks(request: Request, model: Model, capability: Capability) {
    match capability
    case PreviewModel => model.preview && !request.allowPreview
    case Diarization => request.diarization == Some(true) && !model.diarization
    case Timestamps(mode) => request.timestamps == Some(mode) && mode !in model.timestamps
    case StyleOf(style) => request.style == Some(style) && style !in model.styles
    case LanguageDetection => request.language.None? && !model.detectsLanguage
    case PhraseHints => request.phraseHints != [] && !model.phraseHints
    case MaxAudioSeconds =>
      request.duration.Some? && request.duration.value != 0.0 && model.maxSeconds.Some? && model.maxSeconds.value != 0
      && request.duration.value > model.maxSeconds.value as real
  }

  function AppendIf(missing: seq<Capability>, condition: bool, capability: Capability): seq<Capability> {
    if condition then missing + [capability] else missing
  }

  function MissingStated(request: Request, model: Model): seq<Capability> {
    var first := AppendIf([], Lacks(request, model, PreviewModel), PreviewModel);
    var second := AppendIf(first, Lacks(request, model, Diarization), Diarization);
    var third := if request.timestamps.None? then second
                 else AppendIf(second, Lacks(request, model, Timestamps(request.timestamps.value)),
                   Timestamps(request.timestamps.value));
    if request.style.None? then third
    else AppendIf(third, Lacks(request, model, StyleOf(request.style.value)), StyleOf(request.style.value))
  }

  /** The demanded capabilities the model lacks, in the order they are reported. */
  function Missing(request: Request, model: Model): seq<Capability> {
    var first := AppendIf(MissingStated(request, model), Lacks(request, model, LanguageDetection), LanguageDetection);
    var second := AppendIf(first, Lacks(request, model, PhraseHints), PhraseHints);
    AppendIf(second, Lacks(request, model, MaxAudioSeconds), MaxAudioSeconds)
  }

  predicate Stated(capability: Capability) {
    capability.PreviewModel? || capability.Diarization? || capability.Timestamps? || capability.StyleOf?
  }

  lemma MissingStatedIff(request: Request, model: Model, capability: Capability)
    ensures capability in MissingStated(request, model) <==> Stated(capability) && Lacks(request, model, capability)
  {
  }

  /** A capability is missing exactly when it is demanded and lacked. */
  lemma MissingIff(request: Request, model: Model, capability: Capability)
    ensures capability in Missing(request, model) <==> Lacks(request, model, capability)
  {
    MissingStatedIff(request, model, capability);
  }

  /** Collects what is demanded and lacking, each capability once, in the fixed order of `Missing`. */
  method MissingCapabilities(request: Request, model: Model) returns (missing: seq<Capability>)
    ensures missing == Missing(request, model)
    ensures forall capability :: capability in missing <==> Lacks(request, model, capability)
  {
    forall capability ensures capability in Missing(request, model) <==> Lacks(request, model, capability) {
      MissingIff(request, model, capability);
    }
    missing := MissingOfStated(request, model);
    if request.language.None? && !model.detectsLanguage {
      missing := missing + [LanguageDetection];
    }
    if request.phraseHints != [] && !model.phraseHints {
      missing := missing + [PhraseHints];
    }
    if Lacks(request, model, MaxAudioSeconds) {
      missing := missing + [MaxAudioSeconds];
    }
  }

  method MissingOfStated(request: Request, model: Model) returns (missing: seq<Capability>)
    ensures missing == MissingStated(request, model)
  {
    missing := [];
    if model.preview && !request.allowPreview {
      missing := missing + [PreviewModel];
    }
    if request.diarization == Some(true) && !model.diarization {
      missing := missing + [Diarization];
    }
    if request.timestamps.Some? && request.timestamps.value !in model.timestamps {
      missing := missing + [Timestamps(request.timestamps.value)];
    }
    if request.style.Some? && request.style.value !in model.styles {
      missing := missing + [StyleOf(request.style.value)];
    }
  }

  datatype Bound = Bound(diarization: bool, timestamps: TimestampMode, style: Style)

  /** What the model will be asked for: stated values it supports, otherwise what it prefers. */
  function Resolve(request: Request, model: Model): Bound {
    var timestamps :=
      if request.timestamps.Some? && request.timestamps.value in model.timestamps then request.timestamps.value
      else if SegmentTimestamps in model.timestamps then SegmentTimestamps
      else if WordTimestamps in model.timestamps then WordTimestamps
      else NoTimestamps;
    var style :=
      if request.style.Some? && request.style.value in model.styles then request.style.value
      else if Clean in model.styles then Clean
      else Verbatim;
    var diarization := if request.diarization.None? then model.diarization else request.diarization.value;
    Bound(diarization && model.diarization, timestamps, style)
  }

  datatype Candidate = Candidate(model: Model, bound: Bound, warnings: seq<Capability>)

  function CandidateOf(request: Request, model: Model): Candidate {
    Candidate(model, Resolve(request, model), Missing(request, model))
  }

  predicate Supported(bound: Bound, model: Model) {
    (bound.diarization ==> model.diarization) && bound.timestamps in model.timestamps && bound.style in model.styles
  }

  /** Every bound value is one the model supports, given that it has any. */
  lemma BoundIsSupported(request: Request, model: Model)
    requires model.timestamps != {} && model.styles != {}
    ensures Supported(Resolve(request, model), model)
  {
    assert SegmentTimestamps in model.timestamps || WordTimestamps in model.timestamps
           || NoTimestamps in model.timestamps by {
      var mode :| mode in model.timestamps;
      match mode { case NoTimestamps => case SegmentTimestamps => case WordTimestamps => }
    }
    assert Clean in model.styles || Verbatim in model.styles by {
      var style :| style in model.styles;
      match style { case Clean => case Verbatim => }
    }
  }

  /** A stated value is kept exactly when it is not warned about. */
  lemma StatedValuesKeptIff(request: Request, model: Model)
    requires model.timestamps != {} && model.styles != {}
    ensures var bound := Resolve(request, model);
            && (request.timestamps.Some? ==>
                  (bound.timestamps == request.timestamps.value <==>
                    Timestamps(request.timestamps.value) !in Missing(request, model)))
            && (request.style.Some? ==>
                  (bound.style == request.style.value <==> StyleOf(request.style.value) !in Missing(request, model)))
            && (request.diarization.Some? ==>
                  (bound.diarization == request.diarization.value <==>
                    Capability.Diarization !in Missing(request, model)))
  {
    BoundIsSupported(request, model);
    if request.timestamps.Some? { MissingIff(request, model, Timestamps(request.timestamps.value)); }
    if request.style.Some? { MissingIff(request, model, StyleOf(request.style.value)); }
    MissingIff(request, model, Capability.Diarization);
  }

  // ---------------------------------------------------------------- order

  /** The last position of a key in a ranking; 10000 for a key it does not list. */
  function Position(ranking: seq<string>, key: string): int {
    if ranking == [] then 10000
    else if ranking[|ranking| - 1] == key then |ranking| - 1
    else Position(ranking[..|ranking| - 1], key)
  }

  function Flag(condition: bool): int {
    if condition then 0 else 1
  }

  function RankBy(ranking: Ranking, policy: RoutingPolicy, explicit: Option<string>): Model -> Rank {
    match policy
    case Cost => (m: Model) => Rank(Flag(m.price.Some?), if m.price.Some? then m.price.value else 0.0, Key(m))
    case Quality => (m: Model) => Rank(Position(ranking.quality, Key(m)), 0.0, Key(m))
    case Latency => (m: Model) => Rank(Position(ranking.latency, Key(m)), 0.0, Key(m))
    case _ => (m: Model) => Rank(2 * Flag(explicit == Some(Key(m))) + Flag(Key(m) == ranking.defaultKey), 0.0, Key(m))
  }

  lemma RankHasKey(ranking: Ranking, policy: RoutingPolicy, explicit: Option<string>, m: Model)
    ensures RankBy(ranking, policy, explicit)(m).name == Key(m)
  {
  }

  /** The candidates in policy order; fixed routing keeps only the first as given. */
  function Ordered(env: Env, policy: RoutingPolicy, models: seq<Model>, explicit: Option<string>): seq<Model> {
    if policy.Fixed? then (if models == [] then [] else models[..1])
    else Sort(models, RankBy(env.ranking, policy, explicit))
  }

  // ---------------------------------------------------------------- filters

  function Filter<T>(s: seq<T>, keep: T -> bool): seq<T> {
    if s == [] then [] else if keep(s[0]) then [s[0]] + Filter(s[1..], keep) else Filter(s[1..], keep)
  }

  function Permitted(permissions: Permissions): Model -> bool {
    (m: Model) => m.configured && permissions.Permits(m.provider)
  }

  function Fits(request: Request): Model -> bool {
    (m: Model) => Missing(request, m) == []
  }

  function OfProvider(provider: string): Model -> bool {
    (m: Model) => m.provider == provider
  }

  function Keyed(key: string): Model -> bool {
    (m: Model) => Key(m) == key
  }

  function NotKeyed(key: string): Model -> bool {
    (m: Model) => Key(m) != key
  }

  function MissingAnywhere(request: Request, models: seq<Model>): set<Capability> {
    set m, c | m in models && c in Missing(request, m) :: c
  }

  /** What the fallback permissions leave of an order. */
  function Limited(env: Env, request: Request, ordered: seq<Model>): seq<Model> {
    if ordered == [] then []
    else if !request.allowFallback then ordered[..1]
    else if !env.permissions.crossProviderFallback then Filter(ordered, OfProvider(ordered[0].provider))
    else ordered
  }

  // ---------------------------------------------------------------- the specification

  datatype RouteError =
    | ProviderUnavailable | ProviderNotEnabled | UnsupportedProvider | UnsupportedModel
    | UnsupportedCapability(missing: set<Capability>)

  /** The models that may be considered at all. */
  function Pool(env: Env): seq<Model> {
    Filter(env.models, Permitted(env.permissions))
  }

  function Lookup(models: seq<Model>, key: string): Option<Model> {
    var found := Filter(models, Keyed(key));
    if found == [] then None else Some(found[0])
  }

  /** The model the request names, or that its provider lists first. */
  function Named(env: Env, request: Request, provider: string): Result<Model, RouteError> {
    var own := Filter(Pool(env), OfProvider(provider));
    if !env.permissions.Permits(provider) then Err(ProviderNotEnabled)
    else if own == [] then Err(if provider in env.providers then ProviderUnavailable else UnsupportedProvider)
    else if request.model.None? then Ok(own[0])
    else
      match Lookup(env.models, provider + "/" + request.model.value)
      case None => Err(UnsupportedModel)
      case Some(model) => Ok(model)
  }

  /** Without a named provider: every fitting model in policy order, or all of them downgraded. */
  function AutoRoute(env: Env, request: Request): Result<seq<Model>, RouteError> {
    var pool := Pool(env);
    var fitting := Filter(pool, Fits(request));
    var chosen := if fitting == [] && !request.strict then pool else fitting;
    if chosen == [] then Err(UnsupportedCapability(MissingAnywhere(request, pool)))
    else Ok(Ordered(env, request.policy, chosen, None))
  }

  /** With one: that model first, then the other fitting models in policy order. */
  function NamedRoute(env: Env, request: Request, explicit: Model): Result<seq<Model>, RouteError> {
    var missing := Missing(request, explicit);
    if missing != [] && request.strict then Err(UnsupportedCapability(set c | c in missing))
    else if request.policy.Fixed? then Ok([explicit])
    else
      var others := Filter(Filter(Pool(env), NotKeyed(Key(explicit))), Fits(request));
      Ok([explicit] + Sort(others, RankBy(env.ranking, request.policy, Some(Key(explicit)))))
  }

  function RoutedModels(env: Env, request: Request): Result<seq<Model>, RouteError> {
    if Pool(env) == [] then Err(ProviderUnavailable)
    else
      match request.provider
      case None => AutoRoute(env, request)
      case Some(provider) =>
        match Named(env, request, provider)
        case Err(error) => Err(error)
        case Ok(explicit) => NamedRoute(env, request, explicit)
  }

  function Candidates(request: Request, models: seq<Model>): seq<Candidate> {
    seq(|models|, i requires 0 <= i < |models| => CandidateOf(request, models[i]))
  }

  function Routed(env: Env, request: Request): Result<seq<Candidate>, RouteError> {
    match RoutedModels(env, request)
    case Err(error) => Err(error)
    case Ok(models) => Ok(Candidates(request, Limited(env, request, models)))
  }

  // ---------------------------------------------------------------- lemmas about filters

  lemma {:induction false} FilterMultiplicity<T>(s: seq<T>, keep: T -> bool, x: T)
    ensures multiset(Filter(s, keep))[x] == if keep(x) then multiset(s)[x] else 0
  {
    if s != [] {
      FilterMultiplicity(s[1..], keep, x);
      FrontMultiset(s);
    }
  }

  lemma {:induction false} FilterMember<T>(s: seq<T>, keep: T -> bool, x: T)
    ensures x in Filter(s, keep) <==> x in s && keep(x)
  {
    FilterMultiplicity(s, keep, x);
    assert x in Filter(s, keep) <==> multiset(Filter(s, keep))[x] > 0;
    assert x in s <==> multiset(s)[x] > 0;
  }

  lemma FilterForgetsOrder<T(!new)>(first: seq<T>, second: seq<T>, keep: T -> bool)
    requires multiset(first) == multiset(second)
    ensures multiset(Filter(first, keep)) == multiset(Filter(second, keep))
  {
    forall x: T | true
      ensures multiset(Filter(first, keep))[x] == multiset(Filter(second, keep))[x]
    {
      FilterMultiplicity(first, keep, x);
      FilterMultiplicity(second, keep, x);
    }
  }

  lemma {:induction false} FilterAll<T(!new)>(s: seq<T>, keep: T -> bool)
    requires forall x :: x in s ==> keep(x)
    ensures Filter(s, keep) == s
  {
    if s != [] {
      FilterAll(s[1..], keep);
    }
  }

  lemma {:induction false} FilterNone<T(!new)>(s: seq<T>, keep: T -> bool)
    requires forall x :: x in s ==> !keep(x)
    ensures Filter(s, keep) == []
  {
    if s != [] {
      FilterNone(s[1..], keep);
    }
  }

  // ---------------------------------------------------------------- sorting and filtering

  lemma {:induction false} FilteredHead<T(!new)>(x: T, s: seq<T>, keep: T -> bool, rank: T -> Rank)
    requires IsSorted(s, rank) && s != [] && Leq(rank(x), rank(s[0]))
    ensures Filter(s, keep) == [] || Leq(rank(x), rank(Filter(s, keep)[0]))
  {
    if !keep(s[0]) && |s| > 1 {
      LeqTransitive(rank(x), rank(s[0]), rank(s[1]));
      FilteredHead(x, s[1..], keep, rank);
    }
  }

  lemma {:induction false} FilterInsert<T(!new)>(x: T, s: seq<T>, keep: T -> bool, rank: T -> Rank)
    requires IsSorted(s, rank)
    ensures Filter(Insert(x, s, rank), keep) == if keep(x) then Insert(x, Filter(s, keep), rank) else Filter(s, keep)
  {
    if s == [] {
      FilterCons(x, [], keep);
    } else if Leq(rank(x), rank(s[0])) {
      FilteredHead(x, s, keep, rank);
      FilterCons(x, s, keep);
    } else {
      FilterInsert(x, s[1..], keep, rank);
      FilterCons(s[0], Insert(x, s[1..], rank), keep);
      if keep(s[0]) {
        InsertPast(x, s[0], Filter(s[1..], keep), rank);
      }
    }
  }

  lemma FilterCons<T>(x: T, s: seq<T>, keep: T -> bool)
    ensures Filter([x] + s, keep) == if keep(x) then [x] + Filter(s, keep) else Filter(s, keep)
  {
    assert ([x] + s)[1..] == s;
  }

  lemma InsertPast<T>(x: T, head: T, s: seq<T>, rank: T -> Rank)
    requires !Leq(rank(x), rank(head))
    ensures Insert(x, [head] + s, rank) == [head] + Insert(x, s, rank)
  {
    assert ([head] + s)[1..] == s;
  }

  lemma SortCons<T>(x: T, s: seq<T>, rank: T -> Rank)
    ensures Sort([x] + s, rank) == Insert(x, Sort(s, rank), rank)
  {
    assert ([x] + s)[1..] == s;
  }

  /** Filtering before or after sorting is the same. */
  lemma {:induction false} FilterSort<T(!new)>(s: seq<T>, keep: T -> bool, rank: T -> Rank)
    ensures Filter(Sort(s, rank), keep) == Sort(Filter(s, keep), rank)
  {
    if s != [] {
      FilterSort(s[1..], keep, rank);
      SortIsSortedPermutation(s[1..], rank);
      FilterInsert(s[0], Sort(s[1..], rank), keep, rank);
      SortCons(s[0], Filter(s[1..], keep), rank);
    }
  }

  function FrontRank(key: string): Model -> Rank {
    (m: Model) => Rank(Flag(Key(m) == key), 0.0, "")
  }

  lemma {:induction false} FrontInsert(x: Model, own: seq<Model>, others: seq<Model>, key: string)
    requires forall m :: m in own ==> Key(m) == key
    requires forall m :: m in others ==> Key(m) != key
    ensures Insert(x, own + others, FrontRank(key)) == if Key(x) == key then [x] + own + others else own + [x] + others
  {
    if own == [] {
      assert own + others == others;
      assert others != [] ==> Key(others[0]) != key;
    } else if Key(x) != key {
      FrontInsert(x, own[1..], others, key);
      FrontInsertPast(x, own, others, key);
    } else {
      assert own + others == [own[0]] + (own[1..] + others);
    }
  }

  lemma FrontInsertPast(x: Model, own: seq<Model>, others: seq<Model>, key: string)
    requires own != [] && Key(own[0]) == key && Key(x) != key
    requires Insert(x, own[1..] + others, FrontRank(key)) == own[1..] + [x] + others
    ensures Insert(x, own + others, FrontRank(key)) == own + [x] + others
  {
    assert own + others == [own[0]] + (own[1..] + others);
    InsertPast(x, own[0], own[1..] + others, FrontRank(key));
    assert own + [x] + others == [own[0]] + (own[1..] + [x] + others);
  }

  /** Sorting by whether the key is another's moves the named model to the front and nothing else. */
  lemma {:induction false} FrontSort(s: seq<Model>, key: string)
    ensures Sort(s, FrontRank(key)) == Filter(s, Keyed(key)) + Filter(s, NotKeyed(key))
  {
    if s != [] {
      FrontSort(s[1..], key);
      var own, others := Filter(s[1..], Keyed(key)), Filter(s[1..], NotKeyed(key));
      forall m | m in own ensures Key(m) == key { FilterMember(s[1..], Keyed(key), m); }
      forall m | m in others ensures Key(m) != key { FilterMember(s[1..], NotKeyed(key), m); }
      FrontInsert(s[0], own, others, key);
    }
  }

  // ---------------------------------------------------------------- the router

  /** The named model goes first whatever the policy's order was. */
  lemma ExplicitToFront(explicit: Model, others: seq<Model>, rank: Model -> Rank)
    requires forall m :: m in others ==> Key(m) != Key(explicit)
    ensures var key := Key(explicit);
            var ordered := Sort([explicit] + others, rank);
            && ordered != []
            && Sort(ordered, FrontRank(key)) == [explicit] + Sort(others, rank)
            && (Key(ordered[0]) == key ==> ordered == [explicit] + Sort(others, rank))
  {
    var key := Key(explicit);
    SortedParts(explicit, others, rank);
    FrontSort(Sort([explicit] + others, rank), key);
    SplitByHead(Sort([explicit] + others, rank), key, explicit);
  }

  lemma SortedParts(explicit: Model, others: seq<Model>, rank: Model -> Rank)
    requires forall m :: m in others ==> Key(m) != Key(explicit)
    ensures var key := Key(explicit);
            var ordered := Sort([explicit] + others, rank);
            Filter(ordered, Keyed(key)) == [explicit] && Filter(ordered, NotKeyed(key)) == Sort(others, rank)
  {
    var key := Key(explicit);
    FilterCons(explicit, others, Keyed(key));
    FilterCons(explicit, others, NotKeyed(key));
    FilterNone(others, Keyed(key));
    FilterAll(others, NotKeyed(key));
    FilterSort([explicit] + others, Keyed(key), rank);
    FilterSort([explicit] + others, NotKeyed(key), rank);
    assert Sort([explicit], rank) == [explicit];
  }

  lemma SplitByHead(s: seq<Model>, key: string, explicit: Model)
    requires Filter(s, Keyed(key)) == [explicit]
    ensures s != [] && (Key(s[0]) == key ==> s == Filter(s, Keyed(key)) + Filter(s, NotKeyed(key)))
  {
    if Key(s[0]) == key {
      assert Filter(s[1..], Keyed(key)) == [];
      forall m | m in s[1..] ensures NotKeyed(key)(m) {
        FilterMember(s[1..], Keyed(key), m);
      }
      FilterAll(s[1..], NotKeyed(key));
    }
  }

  lemma OthersAreOthers(models: seq<Model>, key: string, keep: Model -> bool)
    ensures forall m :: m in Filter(Filter(models, NotKeyed(key)), keep) ==> Key(m) != key
  {
    forall m | m in Filter(Filter(models, NotKeyed(key)), keep) ensures Key(m) != key {
      FilterMember(Filter(models, NotKeyed(key)), keep, m);
      FilterMember(models, NotKeyed(key), m);
    }
  }

  /** Routes a request: the list the specification describes, or its error. */
  method Route(env: Env, request: Request) returns (r: Result<seq<Candidate>, RouteError>)
    requires ValidRequest(request)
    ensures r == Routed(env, request)
  {
    var models := Filter(env.models, Permitted(env.permissions));
    if models == [] {
      return Err(ProviderUnavailable);
    }
    var explicit: Option<Model> := None;
    var considered := models;
    if request.provider.Some? {
      var provider := request.provider.value;
      var named := FindNamed(env, request, models, provider);
      if named.Err? {
        return Err(named.error);
      }
      explicit := Some(named.value);
      considered := [named.value] + Filter(models, NotKeyed(Key(named.value)));
    }
    var compatible := Filter(considered, Fits(request));
    if explicit.Some? {
      FilterCons(explicit.value, Filter(models, NotKeyed(Key(explicit.value))), Fits(request));
      OthersAreOthers(models, Key(explicit.value), Fits(request));
      var missing := MissingCapabilities(request, explicit.value);
      if missing != [] {
        if request.strict {
          return Err(UnsupportedCapability(set c | c in missing));
        }
        compatible := [explicit.value] + compatible;
      }
    }
    if compatible == [] && !request.strict {
      compatible := considered;
    }
    if compatible == [] {
      return Err(UnsupportedCapability(MissingAnywhere(request, considered)));
    }
    var ordered := Arrange(env, request, compatible, explicit);
    return Ok(Candidates(request, Limited(env, request, ordered)));
  }

  method FindNamed(
    env: Env, request: Request, models: seq<Model>, provider: string) returns (r: Result<Model, RouteError>)
    requires models == Pool(env)
    ensures r == Named(env, request, provider)
  {
    if !env.permissions.Permits(provider) {
      return Err(ProviderNotEnabled);
    }
    var own := Filter(models, OfProvider(provider));
    if own == [] {
      if provider !in env.providers {
        return Err(UnsupportedProvider);
      }
      return Err(ProviderUnavailable);
    }
    if request.model.None? {
      return Ok(own[0]);
    }
    var found := Lookup(env.models, provider + "/" + request.model.value);
    if found.None? {
      return Err(UnsupportedModel);
    }
    return Ok(found.value);
  }

  /** The policy's order, re-sorted so that the named model comes first when it does not already. */
  method Arrange(
    env: Env, request: Request, compatible: seq<Model>, explicit: Option<Model>) returns (ordered: seq<Model>)
    requires compatible != []
    requires explicit.Some? ==>
      compatible[0] == explicit.value && forall m :: m in compatible[1..] ==> Key(m) != Key(explicit.value)
    ensures explicit.None? ==> ordered == Ordered(env, request.policy, compatible, None)
    ensures explicit.Some? ==>
      ordered == if request.policy.Fixed? then [explicit.value]
                 else [explicit.value]
                      + Sort(compatible[1..], RankBy(env.ranking, request.policy, Some(Key(explicit.value))))
  {
    var key := if explicit.Some? then Some(Key(explicit.value)) else None;
    ordered := Ordered(env, request.policy, compatible, key);
    if explicit.Some? {
      if !request.policy.Fixed? {
        assert compatible == [explicit.value] + compatible[1..];
        ExplicitToFront(explicit.value, compatible[1..], RankBy(env.ranking, request.policy, key));
      }
      if Key(ordered[0]) != key.value {
        ordered := Sort(ordered, FrontRank(key.value));
      }
    }
  }
}
