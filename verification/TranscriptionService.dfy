/**
 The attempt loop: candidates are tried in order, and only a retryable provider error moves on to
 the next. What the source broker and the providers do is a script of outcomes.
 */
module TranscriptionServices {
  import opened Common
  import opened Routers
  import opened RoutingSafety

  datatype Transcript = Transcript(text: string, durationMs: nat)

  /** What preparing the audio for one candidate gives: its size if known, or a failure. */
  datatype Preparation = Prepared(size: Option<nat>) | NotPrepared

  /** What the provider answers once it was handed the audio. */
  datatype Answer = Transcribed(transcript: Transcript) | ProviderFails(retryable: bool, reason: string) | OtherFailure

  datatype Attempt = Attempt(preparation: Preparation, answer: Answer)

  datatype Failure = Failure(provider: string, model: string, reason: string)

  datatype ServiceError =
    | NotRouted(error: RouteError) | NotEnabled | Unsupported | SourceFailed | SourceTooLarge
    | DurationExceeded | CostExceeded | ProviderFailed(reason: string) | UnexpectedFailure
    | AllFailed(attempts: seq<Failure>) | TooLargeInline | StoreFailed

  datatype Answered = Answered(transcript: Transcript, warnings: seq<Capability>, fallbackReason: Option<string>,
    history: seq<Failure>)

  datatype Limits = Limits(maxDuration: real, maxCost: Option<real>, maxTextChars: nat, maxSegments: nat, maxBytes: nat)

  /** How the caller wants the result back. */
  datatype ResultMode = AutoMode | InlineMode | StoredMode

  /** The size of a finished transcript: its text, its segments, its serialized form. */
  datatype Shape = Shape(textChars: nat, segments: nat, bytes: nat)

  datatype Delivered = Inline(answered: Answered) | Stored(answered: Answered)

  predicate TooLargeToInline(shape: Shape, limits: Limits) {
    shape.textChars > limits.maxTextChars || shape.segments > limits.maxSegments || shape.bytes > limits.maxBytes
  }

  predicate Stores(mode: ResultMode, shape: Shape, limits: Limits) {
    mode.StoredMode? || (mode.AutoMode? && TooLargeToInline(shape, limits))
  }

  /** The model's size limit, none when unset or zero, and likewise an unknown size. */
  predicate TooLarge(size: Option<nat>, model: Model) {
    size.Some? && size.value != 0 && model.maxBytes.Some? && model.maxBytes.value != 0
      && size.value > model.maxBytes.value
  }

  /** The audio reaches the provider. */
  predicate Receives(attempt: Attempt, model: Model) {
    attempt.preparation.Prepared? && !TooLarge(attempt.preparation.size, model)
  }

  /** The attempt ends in a failure that lets the next candidate have a turn. */
  predicate FailsRetryably(attempt: Attempt, model: Model) {
    Receives(attempt, model) && attempt.answer.ProviderFails? && attempt.answer.retryable
  }

  /** The failures of the first n candidates, in order. */
  function FailuresOf(candidates: seq<Candidate>, script: seq<Attempt>, n: nat): (failures: seq<Failure>)
    requires n <= |candidates| && n <= |script|
    ensures |failures| == n
  {
    if n == 0 then []
    else
      var m := candidates[n - 1].model;
      var reason := if script[n - 1].answer.ProviderFails? then script[n - 1].answer.reason else "";
      FailuresOf(candidates, script, n - 1) + [Failure(m.provider, m.name, reason)]
  }

  /** The first n candidates received the audio and each failed in a way that allowed another attempt. */
  predicate AllRetried(candidates: seq<Candidate>, script: seq<Attempt>, n: nat, request: Request)
    requires n <= |candidates| && n <= |script|
  {
    forall i :: 0 <= i < n ==> FailsRetryably(script[i], candidates[i].model) && request.allowFallback
  }

  function ModelsOf(candidates: seq<Candidate>): seq<Model> {
    seq(|candidates|, i requires 0 <= i < |candidates| => candidates[i].model)
  }

  predicate AllPermitted(permissions: Permissions, models: seq<Model>) {
    forall i :: 0 <= i < |models| ==> permissions.Permits(models[i].provider)
  }

  /** A prefix of a route: what is known of whoever received the audio. */
  predicate RecipientsOf(route: seq<Candidate>, recipients: seq<Model>) {
    |recipients| <= |route| && recipients == ModelsOf(route[..|recipients|])
  }

  predicate TooLong(transcript: Transcript, limits: Limits) {
    transcript.durationMs != 0 && transcript.durationMs as real / 1000.0 > limits.maxDuration
  }

  /** How a run can end once n candidates have received the audio. */
  predicate Ended(
    service: Service, request: Request, route: seq<Candidate>, script: seq<Attempt>, n: nat,
    r: Result<Answered, ServiceError>)
    requires n <= |route| == |script|
  {
    match r
    case Ok(answered) =>
      && n > 0 && Receives(script[n - 1], route[n - 1].model)
      && script[n - 1].answer == Transcribed(answered.transcript) && !TooLong(answered.transcript, service.limits)
      && answered.warnings == route[n - 1].warnings
      && answered.history == FailuresOf(route, script, n - 1)
      && answered.fallbackReason == if n == 1 then None else Some(answered.history[n - 2].reason)
    case Err(ProviderFailed(reason)) =>
      && n > 0 && script[n - 1].answer.ProviderFails? && script[n - 1].answer.reason == reason
      && !(script[n - 1].answer.retryable && request.allowFallback)
    case Err(UnexpectedFailure) => n > 0 && script[n - 1].answer.OtherFailure?
    case Err(DurationExceeded) =>
      n > 0 && script[n - 1].answer.Transcribed? && TooLong(script[n - 1].answer.transcript, service.limits)
    case Err(AllFailed(attempts)) =>
      n == |route| && AllRetried(route, script, n, request) && attempts == FailuresOf(route, script, n)
    case Err(error) =>
      && n < |route| && AllRetried(route, script, n, request)
      && match error {
           case NotEnabled => !service.permissions.Permits(route[n].model.provider)
           case Unsupported => route[n].model.provider !in service.env.providers
           case SourceFailed => script[n].preparation.NotPrepared?
           case SourceTooLarge =>
             script[n].preparation.Prepared? && TooLarge(script[n].preparation.size, route[n].model)
           case _ => false
         }
  }

  /**
   One run of the attempt loop: those who receive the audio are a prefix of the route, each
   permitted; every one before the last failed retryably with fallback allowed; and the run ends as
   the last outcome says, its history exactly the failures before.
   */
  predicate IsRun(
    service: Service, request: Request, route: seq<Candidate>, script: seq<Attempt>, recipients: seq<Model>,
    r: Result<Answered, ServiceError>)
    requires |route| == |script|
  {
    && RecipientsOf(route, recipients)
    && AllPermitted(service.permissions, recipients)
    && (recipients != [] ==> AllRetried(route, script, |recipients| - 1, request))
    && Ended(service, request, route, script, |recipients|, r)
  }

  /** A request without a stated duration is not checked beforehand. */
  predicate WithinLimits(limits: Limits, request: Request, estimate: Option<real>) {
    request.duration.None? ||
    (request.duration.value <= limits.maxDuration
     && (limits.maxCost.None? || (estimate.Some? && estimate.value <= limits.maxCost.value)))
  }

  /** What a service is built from. Its own permissions may be other than the router's. */
  datatype Service = Service(env: Env, permissions: Permissions, limits: Limits)

  class TranscriptionService {
    const service: Service
    /** Every model that was handed the audio, in order. */
    var recipients: seq<Model>

    constructor (service: Service)
      ensures this.service == service && recipients == []
    {
      this.service := service;
      recipients := [];
    }

    /** Refuses a request whose stated duration or estimated cost is above the limits. */
    method Preflight(request: Request, estimate: Option<real>) returns (refused: Option<ServiceError>)
      ensures refused.None? <==> WithinLimits(service.limits, request, estimate)
    {
      if request.duration.None? {
        return None;
      }
      if request.duration.value > service.limits.maxDuration {
        return Some(DurationExceeded);
      }
      if service.limits.maxCost.None? {
        return None;
      }
      if estimate.None? || estimate.value > service.limits.maxCost.value {
        return Some(CostExceeded);
      }
      return None;
    }

    /**
     Stores what must be stored and returns the rest inline; an inline result never exceeds the hard
     byte limit, and nothing larger is refused but an explicit wish for it.
     */
    method FormatResult(mode: ResultMode, shape: Shape, storeWorks: bool) returns (r: Result<bool, ServiceError>)
      ensures r == Err(TooLargeInline) <==> mode.InlineMode? && shape.bytes > service.limits.maxBytes
      ensures r == Err(StoreFailed) <==> Stores(mode, shape, service.limits) && !storeWorks
      ensures r.Err? ==> r.error == TooLargeInline || r.error == StoreFailed
      ensures r.Ok? ==>
                r.value == Stores(mode, shape, service.limits) && (!r.value ==> shape.bytes <= service.limits.maxBytes)
    {
      var store := mode.StoredMode? || (mode.AutoMode? && TooLargeToInline(shape, service.limits));
      if mode.InlineMode? && shape.bytes > service.limits.maxBytes {
        return Err(TooLargeInline);
      }
      if store {
        if !storeWorks {
          return Err(StoreFailed);
        }
        return Ok(true);
      }
      return Ok(false);
    }

    /**
     One transcription. `script[i]` is what happens if candidate i is attempted, `estimate` the first
     candidate's estimated cost, `shape` the size of the transcript that comes back. `attempted` is
     how the attempts ended; what is delivered is their transcript or their error.
     */
    method Transcribe(
      request: Request, script: seq<Attempt>, estimate: Option<real>, mode: ResultMode, shape: Shape, storeWorks: bool)
      returns (r: Result<Delivered, ServiceError>, attempted: Result<Answered, ServiceError>)
      requires ValidRequest(request) && recipients == []
      requires Routed(service.env, request).Ok? ==> |script| == |Routed(service.env, request).value|
      modifies this`recipients
      ensures match Routed(service.env, request)
              case Err(error) => recipients == [] && attempted == Err(NotRouted(error))
              case Ok(route) =>
                if WithinLimits(service.limits, request, estimate)
                  then IsRun(service, request, route, script, recipients, attempted)
                else recipients == [] && attempted.Err?
      ensures match attempted
              case Err(error) => r == Err(error)
              case Ok(answered) =>
                if mode.InlineMode? && shape.bytes > service.limits.maxBytes then r == Err(TooLargeInline)
                else if !Stores(mode, shape, service.limits)
                  then r == Ok(Inline(answered)) && shape.bytes <= service.limits.maxBytes
                else r == if storeWorks then Ok(Stored(answered)) else Err(StoreFailed)
    {
      attempted := Obtain(request, script, estimate);
      match attempted {
        case Err(error) =>
          r := Err(error);
        case Ok(answered) =>
          var form := FormatResult(mode, shape, storeWorks);
          match form {
            case Err(error) => r := Err(error);
            case Ok(stored) => r := Ok(if stored then Stored(answered) else Inline(answered));
          }
      }
    }

    /** Routing, preflight and attempts. */
    method Obtain(
      request: Request, script: seq<Attempt>, estimate: Option<real>) returns (r: Result<Answered, ServiceError>)
      requires ValidRequest(request) && recipients == []
      requires Routed(service.env, request).Ok? ==> |script| == |Routed(service.env, request).value|
      modifies this`recipients
      ensures match Routed(service.env, request)
              case Err(error) => recipients == [] && r == Err(NotRouted(error))
              case Ok(route) =>
                if WithinLimits(service.limits, request, estimate)
                  then IsRun(service, request, route, script, recipients, r)
                else recipients == [] && r.Err?
    {
      var routed := Route(service.env, request);
      if routed.Err? {
        return Err(NotRouted(routed.error));
      }
      RouteIsNotEmpty(service.env, request);
      var refused := Preflight(request, estimate);
      if refused.Some? {
        return Err(refused.value);
      }
      r := Attempts(request, routed.value, script);
    }

    method Attempts(
      request: Request, candidates: seq<Candidate>, script: seq<Attempt>) returns (r: Result<Answered, ServiceError>)
      requires candidates != [] && |script| == |candidates| && recipients == []
      modifies this`recipients
      ensures IsRun(service, request, candidates, script, recipients, r)
    {
      var failures: seq<Failure> := [];
      var i := 0;
      while i < |candidates|
        invariant i <= |candidates|
        invariant recipients == ModelsOf(candidates[..i])
        invariant AllPermitted(service.permissions, recipients)
        invariant AllRetried(candidates, script, i, request)
        invariant failures == FailuresOf(candidates, script, i)
      {
        var candidate, attempt := candidates[i], script[i];
        if !service.permissions.Permits(candidate.model.provider) {
          return Err(NotEnabled);
        }
        if candidate.model.provider !in service.env.providers {
          return Err(Unsupported);
        }
        if attempt.preparation.NotPrepared? {
          return Err(SourceFailed);
        }
        if TooLarge(attempt.preparation.size, candidate.model) {
          return Err(SourceTooLarge);
        }
        recipients := recipients + [candidate.model];
        assert recipients == ModelsOf(candidates[..i + 1]);
        match attempt.answer {
          case Transcribed(transcript) =>
            if TooLong(transcript, service.limits) {
              return Err(DurationExceeded);
            }
            var reason := if failures == [] then None else Some(failures[|failures| - 1].reason);
            return Ok(Answered(transcript, candidate.warnings, reason, failures));
          case OtherFailure =>
            return Err(UnexpectedFailure);
          case ProviderFails(retryable, reason) =>
            if !retryable || !request.allowFallback {
              return Err(ProviderFailed(reason));
            }
            failures := failures + [Failure(candidate.model.provider, candidate.model.name, reason)];
        }
        i := i + 1;
      }
      return Err(AllFailed(failures));
    }
  }

  /**
   Whoever received the audio, in any run: models of the registry whose providers the router's
   policy permits, none twice, one at most without fallback, and all of one provider when fallback
   may not cross providers.
   */
  lemma RecipientsAreSafe(env: Env, request: Request, recipients: seq<Model>)
    requires WellFormed(env) && ValidRequest(request) && Routed(env, request).Ok?
    requires RecipientsOf(Routed(env, request).value, recipients)
    ensures NoDuplicates(recipients)
    ensures forall m :: m in recipients ==> m in env.models && env.permissions.Permits(m.provider)
    ensures !request.allowFallback ==> |recipients| <= 1
    ensures !env.permissions.crossProviderFallback ==> forall m, n :: m in recipients && n in recipients ==>
              m.provider == n.provider
  {
    var route := Routed(env, request).value;
    var models := Limited(env, request, RoutedModels(env, request).value);
    RouteHasNoRepeats(env, request);
    assert forall i :: 0 <= i < |recipients| ==> recipients[i] == route[i].model == models[i];
    RouteIsNotEmpty(env, request);
    RouteIsSafe(env, request, 0);
    forall m | m in recipients
      ensures m in env.models && env.permissions.Permits(m.provider)
      ensures !env.permissions.crossProviderFallback ==> m.provider == route[0].model.provider
    {
      var i :| 0 <= i < |recipients| && recipients[i] == m;
      RouteIsSafe(env, request, i);
    }
  }
}
