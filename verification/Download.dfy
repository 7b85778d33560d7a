/**
 Relaying an audio source: choosing the delivery, following redirects with every hop validated
 anew, and streaming the body into a temporary file that never outgrows the limit. URL validation,
 URL joining and the servers' answers are parameters.
 */
module Downloads {
  import opened Common

  type byte = x: int | 0 <= x < 256

  // ---------------------------------------------------------------- what a server answers

  /** The content type, reduced to the cases that matter. */
  datatype MediaType = AudioOrVideo | OctetStream | BinaryOctetStream | NoType | OtherType

  datatype DeclaredLength = NoLength | NotANumber | Length(n: int)

  /** One step of a body's stream. */
  datatype Piece = Data(bytes: seq<byte>) | NetworkBreak | DiskError

  datatype Response =
    | NetworkError
    | Redirect(location: Option<string>)
    | Answer(status: nat, length: DeclaredLength, media: MediaType, body: seq<Piece>)

  /** Validating a URL yields the addresses it may be fetched from, at least one, or a rejection. */
  datatype Validation = Rejected | Valid(addresses: seq<string>)

  predicate Usable(validation: Validation) {
    validation.Valid? && validation.addresses != []
  }

  datatype Request = Request(url: string, address: string)

  datatype DownloadError =
    | UrlRejected | Unavailable | TooLarge | InvalidAudio | WriteError | DeliveryUnsupported | TemporaryAudioRefused

  datatype Downloaded = Downloaded(media: MediaType, size: nat)

  // ---------------------------------------------------------------- what counts as audio

  predicate StartsWith(prefix: seq<byte>, magic: seq<byte>) {
    magic <= prefix
  }

  predicate Magic(prefix: seq<byte>) {
    || StartsWith(prefix, [0x49, 0x44, 0x33])
    || StartsWith(prefix, [0x52, 0x49, 0x46, 0x46])
    || StartsWith(prefix, [0x4F, 0x67, 0x67, 0x53])
    || StartsWith(prefix, [0x66, 0x4C, 0x61, 0x43])
    || StartsWith(prefix, [0x1A, 0x45, 0xDF, 0xA3])
    || (|prefix| >= 8 && prefix[4..8] == [0x66, 0x74, 0x79, 0x70])
    || StartsWith(prefix, [0xFF, 0xFB]) || StartsWith(prefix, [0xFF, 0xF3]) || StartsWith(prefix, [0xFF, 0xF2])
  }

  /** The declared type decides; an unspecific one needs a known beginning as well. */
  predicate LooksLikeAudio(prefix: seq<byte>, media: MediaType, size: nat) {
    && size != 0
    && !media.OtherType?
    && (media.NoType? || media.OctetStream? ==> Magic(prefix))
  }

  /** The first sixteen bytes, or all of fewer. */
  function Sniffed(bytes: seq<byte>): seq<byte> {
    if |bytes| <= 16 then bytes else bytes[..16]
  }

  // ---------------------------------------------------------------- the specification

  /** The bytes of the stream up to its end or the first step that breaks it, and how it stops. */
  datatype Streamed = Complete(bytes: seq<byte>) | Stopped(error: DownloadError)

  function Stream(body: seq<Piece>, before: seq<byte>, limit: nat): Streamed {
    if body == [] then Complete(before)
    else
      match body[0]
      case NetworkBreak => Stopped(Unavailable)
      case DiskError => Stopped(WriteError)
      case Data(bytes) =>
        if |before| + |bytes| > limit then Stopped(TooLarge) else Stream(body[1..], before + bytes, limit)
  }

  /** What one answer that is not a redirect comes to. */
  function Received(answer: Response, limit: nat): Result<(Downloaded, seq<byte>), DownloadError>
    requires answer.Answer?
  {
    if answer.status >= 400 || answer.length.NotANumber? || (answer.length.Length? && answer.length.n < 0)
      then Err(Unavailable)
    else if answer.length.Length? && answer.length.n > limit then Err(TooLarge)
    else
      match Stream(answer.body, [], limit)
      case Stopped(error) => Err(error)
      case Complete(bytes) =>
        if LooksLikeAudio(Sniffed(bytes), answer.media, |bytes|) then Ok((Downloaded(answer.media, |bytes|), bytes))
        else Err(InvalidAudio)
  }

  datatype Network = Network(validate: (nat, string) -> Validation, join: (string, string) -> string)

  /** The chain of requests from one hop on. */
  function Chain(network: Network, responses: seq<Response>, hop: nat, url: string, redirects: nat): seq<Request>
    requires |responses| > redirects
    decreases redirects + 1 - hop
  {
    var validation := network.validate(hop, url);
    if hop > redirects || !Usable(validation) then []
    else
      [Request(url, validation.addresses[0])] +
      match responses[hop]
      case Redirect(Some(location)) =>
        if hop == redirects then [] else Chain(network, responses, hop + 1, network.join(url, location), redirects)
      case _ => []
  }

  /** What the chain comes to. */
  function Outcome(network: Network, responses: seq<Response>, hop: nat, url: string, redirects: nat, limit: nat)
    : Result<(Downloaded, seq<byte>), DownloadError>
    requires |responses| > redirects && hop <= redirects
    decreases redirects - hop
  {
    if !Usable(network.validate(hop, url)) then Err(UrlRejected)
    else
      match responses[hop]
      case NetworkError => Err(Unavailable)
      case Redirect(None) => Err(UrlRejected)
      case Redirect(Some(location)) =>
        if hop == redirects then Err(UrlRejected)
        else Outcome(network, responses, hop + 1, network.join(url, location), redirects, limit)
      case Answer(_, _, _, _) => Received(responses[hop], limit)
  }

  /** A redirect that is followed goes on with the next hop; */
  lemma HopFollows(
    network: Network, responses: seq<Response>, hop: nat, url: string, redirects: nat, limit: nat, sent: seq<Request>)
    requires |responses| > redirects && hop < redirects && Usable(network.validate(hop, url))
    requires responses[hop].Redirect? && responses[hop].location.Some?
    ensures var next := network.join(url, responses[hop].location.value);
            var request := Request(url, network.validate(hop, url).addresses[0]);
            && sent + Chain(network, responses, hop, url, redirects)
               == sent + [request] + Chain(network, responses, hop + 1, next, redirects)
            && Outcome(network, responses, hop, url, redirects, limit)
               == Outcome(network, responses, hop + 1, next, redirects, limit)
  {
  }

  /** anything else is the last request. */
  lemma HopStops(
    network: Network, responses: seq<Response>, hop: nat, url: string, redirects: nat, limit: nat, sent: seq<Request>)
    requires |responses| > redirects && hop <= redirects && Usable(network.validate(hop, url))
    requires !responses[hop].Redirect? || responses[hop].location.None? || hop == redirects
    ensures sent + Chain(network, responses, hop, url, redirects)
              == sent + [Request(url, network.validate(hop, url).addresses[0])]
    ensures Outcome(network, responses, hop, url, redirects, limit) ==
            match responses[hop]
            case NetworkError => Err(Unavailable)
            case Redirect(_) => Err(UrlRejected)
            case Answer(_, _, _, _) => Received(responses[hop], limit)
  {
  }

  lemma HopRejected(
    network: Network, responses: seq<Response>, hop: nat, url: string, redirects: nat, limit: nat, sent: seq<Request>)
    requires |responses| > redirects && hop <= redirects && !Usable(network.validate(hop, url))
    ensures sent + Chain(network, responses, hop, url, redirects) == sent
    ensures Outcome(network, responses, hop, url, redirects, limit) == Err(UrlRejected)
  {
    assert sent + [] == sent;
  }

  // ---------------------------------------------------------------- the operation

  datatype Delivery = Auto | Passthrough | Proxy

  /** Passing the URL on needs a model that accepts one; left open, it is preferred where possible. */
  function SelectDelivery(requested: Delivery, acceptsUrl: bool): Result<Delivery, DownloadError> {
    if requested.Passthrough? && !acceptsUrl then Err(DeliveryUnsupported)
    else if requested.Auto? then Ok(if acceptsUrl then Passthrough else Proxy)
    else Ok(requested)
  }

  predicate WithinLimit(states: seq<seq<byte>>, limit: nat) {
    forall i :: 0 <= i < |states| ==> |states[i]| <= limit
  }

  class SourceBroker {
    const network: Network
    const redirects: nat
    const limit: nat
    const temporaryAudio: bool
    /** The temporary file, when there is one. */
    var file: Option<seq<byte>>
    /** Every request sent, in order. */
    var requests: seq<Request>
    /** Every content the file has had. */
    ghost var states: seq<seq<byte>>

    constructor (network: Network, redirects: nat, limit: nat, temporaryAudio: bool)
      ensures this.network == network && this.redirects == redirects && this.limit == limit
      ensures this.temporaryAudio == temporaryAudio
      ensures file == None && requests == [] && states == []
    {
      this.network := network;
      this.redirects := redirects;
      this.limit := limit;
      this.temporaryAudio := temporaryAudio;
      file := None;
      requests := [];
      states := [];
    }

    /** Streams a body into the file, keeping the first sixteen bytes. */
    method Save(body: seq<Piece>) returns (stopped: Option<DownloadError>, size: nat, prefix: seq<byte>)
      requires WithinLimit(states, limit)
      modifies this`file, this`states
      ensures WithinLimit(states, limit)
      ensures match Stream(body, [], limit)
              case Stopped(error) => stopped == Some(error)
              case Complete(bytes) =>
                stopped == None && file == Some(bytes) && size == |bytes| && prefix == Sniffed(bytes)
    {
      file := Some([]);
      states := states + [[]];
      size, prefix := 0, [];
      var i := 0;
      while i < |body|
        invariant i <= |body|
        invariant file.Some? && size == |file.value| <= limit && prefix == Sniffed(file.value)
        invariant WithinLimit(states, limit)
        invariant Stream(body, [], limit) == Stream(body[i..], file.value, limit)
      {
        match body[i] {
          case NetworkBreak => return Some(Unavailable), size, prefix;
          case DiskError => return Some(WriteError), size, prefix;
          case Data(bytes) =>
            assert body[i..][1..] == body[i + 1..];
            size := size + |bytes|;
            if size > limit {
              return Some(TooLarge), size, prefix;
            }
            if |prefix| < 16 {
              prefix := prefix + if |bytes| <= 16 - |prefix| then bytes else bytes[..16 - |prefix|];
            }
            file := Some(file.value + bytes);
            states := states + [file.value];
        }
        i := i + 1;
      }
      return None, size, prefix;
    }

    /** Takes one answer: its status, its declared length, its body, and whether that is audio. */
    method Take(answer: Response) returns (r: Result<Downloaded, DownloadError>)
      requires answer.Answer? && WithinLimit(states, limit)
      modifies this`file, this`states
      ensures WithinLimit(states, limit)
      ensures match Received(answer, limit)
              case Err(error) => r == Err(error)
              case Ok((downloaded, bytes)) => r == Ok(downloaded) && file == Some(bytes)
    {
      if answer.status >= 400 {
        return Err(Unavailable);
      }
      match answer.length {
        case NoLength =>
        case NotANumber => return Err(Unavailable);
        case Length(n) =>
          if n < 0 {
            return Err(Unavailable);
          }
          if n > limit {
            return Err(TooLarge);
          }
      }
      var stopped, size, prefix := Save(answer.body);
      if stopped.Some? {
        return Err(stopped.value);
      }
      if !LooksLikeAudio(prefix, answer.media, size) {
        return Err(InvalidAudio);
      }
      return Ok(Downloaded(answer.media, size));
    }

    /** Follows redirects from a validated URL and takes the first answer that is none. */
    method Follow(
      source: string, validated: Validation, responses: seq<Response>) returns (r: Result<Downloaded, DownloadError>)
      requires validated == network.validate(0, source) && Usable(validated) && |responses| > redirects
      requires requests == [] && WithinLimit(states, limit)
      modifies this`file, this`requests, this`states
      ensures requests == Chain(network, responses, 0, source, redirects) && WithinLimit(states, limit)
      ensures match Outcome(network, responses, 0, source, redirects, limit)
              case Err(error) => r == Err(error)
              case Ok((downloaded, bytes)) => r == Ok(downloaded) && file == Some(bytes)
    {
      var current, validation := source, validated;
      var hop := 0;
      while hop <= redirects
        invariant hop <= redirects && WithinLimit(states, limit)
        invariant validation == network.validate(hop, current) && Usable(validation)
        invariant Chain(network, responses, 0, source, redirects)
                    == requests + Chain(network, responses, hop, current, redirects)
        invariant Outcome(network, responses, 0, source, redirects, limit)
                    == Outcome(network, responses, hop, current, redirects, limit)
        decreases redirects + 1 - hop
      {
        ghost var sent := requests;
        requests := requests + [Request(current, validation.addresses[0])];
        if responses[hop].NetworkError? {
          HopStops(network, responses, hop, current, redirects, limit, sent);
          return Err(Unavailable);
        }
        if responses[hop].Answer? {
          HopStops(network, responses, hop, current, redirects, limit, sent);
          r := Take(responses[hop]);
          return r;
        }
        if responses[hop].location.None? || hop >= redirects {
          HopStops(network, responses, hop, current, redirects, limit, sent);
          return Err(UrlRejected);
        }
        HopFollows(network, responses, hop, current, redirects, limit, sent);
        current := network.join(current, responses[hop].location.value);
        validation := network.validate(hop + 1, current);
        if !Usable(validation) {
          HopRejected(network, responses, hop + 1, current, redirects, limit, requests);
          return Err(UrlRejected);
        }
        hop := hop + 1;
      }
      return Err(UrlRejected);
    }

    /** A whole download: any failure takes the file away again. */
    method Download(
      source: string, validated: Validation, responses: seq<Response>) returns (r: Result<Downloaded, DownloadError>)
      requires validated == network.validate(0, source) && Usable(validated) && |responses| > redirects
      requires requests == [] && WithinLimit(states, limit)
      modifies this`file, this`requests, this`states
      ensures requests == Chain(network, responses, 0, source, redirects) && WithinLimit(states, limit)
      ensures r.Err? <==> file == None
      ensures match Outcome(network, responses, 0, source, redirects, limit)
              case Err(error) => r == Err(error)
              case Ok((downloaded, bytes)) => r == Ok(downloaded) && file == Some(bytes)
    {
      file := Some([]);
      states := states + [[]];
      r := Follow(source, validated, responses);
      if r.Err? {
        file := None;
      }
    }

    /** Makes the source available in the delivery chosen for the model. */
    method Open(
      source: string, requested: Delivery, acceptsUrl: bool,
      responses: seq<Response>) returns (r: Result<Option<Downloaded>, DownloadError>)
      requires |responses| > redirects && file == None && requests == [] && WithinLimit(states, limit)
      modifies this`file, this`requests, this`states
      ensures WithinLimit(states, limit)
      ensures !Relays(source, requested, acceptsUrl) ==> requests == [] && file == None && states == old(states)
      ensures Relays(source, requested, acceptsUrl) ==> requests == Chain(network, responses, 0, source, redirects)
      ensures r.Err? ==> file == None
      ensures r.Ok? ==>
        && Usable(network.validate(0, source)) && SelectDelivery(requested, acceptsUrl).Ok?
        && (r.value.Some? <==> SelectDelivery(requested, acceptsUrl) == Ok(Proxy))
        && (r.value.Some? <==> file.Some?) && (r.value.Some? ==> r.value.value.size == |file.value| <= limit)
    {
      var validated := network.validate(0, source);
      if !Usable(validated) {
        return Err(UrlRejected);
      }
      var delivery := SelectDelivery(requested, acceptsUrl);
      if delivery.Err? {
        return Err(delivery.error);
      }
      if delivery.value.Passthrough? {
        return Ok(None);
      }
      if !temporaryAudio {
        return Err(TemporaryAudioRefused);
      }
      OutcomeIsAudio(network, responses, 0, source, redirects, limit);
      var downloaded := Download(source, validated, responses);
      if downloaded.Err? {
        return Err(downloaded.error);
      }
      return Ok(Some(downloaded.value));
    }

    /** Whether the source is downloaded at all. */
    predicate Relays(source: string, requested: Delivery, acceptsUrl: bool) {
      Usable(network.validate(0, source)) && temporaryAudio && SelectDelivery(requested, acceptsUrl) == Ok(Proxy)
    }

    /**
     Lends the source for the duration of its use, however that ends: whoever uses it sees the whole
     downloaded file, or none when the URL is passed on, and afterwards no file is left.
     */
    method Resolve(source: string, requested: Delivery, acceptsUrl: bool, responses: seq<Response>)
      returns (r: Result<Option<Downloaded>, DownloadError>, lent: Option<seq<byte>>)
      requires |responses| > redirects && file == None && requests == [] && WithinLimit(states, limit)
      modifies this`file, this`requests, this`states
      ensures file == None && WithinLimit(states, limit)
      ensures !Relays(source, requested, acceptsUrl) ==> requests == [] && lent == None && states == old(states)
      ensures Relays(source, requested, acceptsUrl) ==> requests == Chain(network, responses, 0, source, redirects)
      ensures r.Err? ==> lent == None
      ensures r.Ok? ==>
        && (r.value.Some? <==> lent.Some?) && (lent.Some? ==> r.value.value.size == |lent.value| <= limit)
        && (lent.Some? <==> SelectDelivery(requested, acceptsUrl) == Ok(Proxy))
    {
      r := Open(source, requested, acceptsUrl, responses);
      lent := file;
      if r.Ok? && r.value.Some? {
        file := None;
      }
    }
  }

  // ---------------------------------------------------------------- what every download satisfies

  /** At most one request more than the redirects allowed; */
  lemma {:induction false} FewRequests(
    network: Network, responses: seq<Response>, hop: nat, url: string, redirects: nat)
    requires |responses| > redirects && hop <= redirects + 1
    ensures |Chain(network, responses, hop, url, redirects)| <= redirects + 1 - hop
    decreases redirects + 1 - hop
  {
    if hop <= redirects && responses[hop].Redirect? && responses[hop].location.Some? && hop < redirects {
      FewRequests(network, responses, hop + 1, network.join(url, responses[hop].location.value), redirects);
    }
  }

  lemma LaterRequest(network: Network, responses: seq<Response>, hop: nat, url: string, redirects: nat, k: nat)
    requires |responses| > redirects && 0 < k < |Chain(network, responses, hop, url, redirects)|
    ensures responses[hop].Redirect? && responses[hop].location.Some? && hop < redirects
    ensures var chain := Chain(network, responses, hop, url, redirects);
            var rest := Chain(network, responses, hop + 1, network.join(url, responses[hop].location.value), redirects);
            && |chain| == |rest| + 1 && chain[0].url == url && chain[k] == rest[k - 1]
            && (k > 1 ==> chain[k - 1] == rest[k - 2])
  {
  }

  /**
   each goes to an address its own URL's validation gave at that hop, and each URL after the first
   is where the answer before it pointed.
   */
  lemma {:induction false} EachRequestIsValidated(
    network: Network, responses: seq<Response>, hop: nat, url: string, redirects: nat, k: nat)
    requires |responses| > redirects && k < |Chain(network, responses, hop, url, redirects)|
    ensures var chain := Chain(network, responses, hop, url, redirects);
            && hop + k <= redirects
            && Usable(network.validate(hop + k, chain[k].url))
            && chain[k].address in network.validate(hop + k, chain[k].url).addresses
            && (k == 0 ==> chain[k].url == url)
            && (k > 0 ==> responses[hop + k - 1].Redirect? && responses[hop + k - 1].location.Some?
                          && chain[k].url == network.join(chain[k - 1].url, responses[hop + k - 1].location.value))
    decreases k
  {
    var chain := Chain(network, responses, hop, url, redirects);
    if k > 0 {
      var next := network.join(url, responses[hop].location.value);
      LaterRequest(network, responses, hop, url, redirects, k);
      EachRequestIsValidated(network, responses, hop + 1, next, redirects, k - 1);
    }
  }

  lemma {:induction false} StreamIsAll(body: seq<Piece>, before: seq<byte>, limit: nat)
    requires Stream(body, before, limit).Complete? && |before| <= limit
    ensures Stream(body, before, limit).bytes == before + AllBytes(body) && |before + AllBytes(body)| <= limit
    ensures forall i :: 0 <= i < |body| ==> body[i].Data?
  {
    if body == [] {
      assert before + [] == before;
    } else {
      StreamIsAll(body[1..], before + body[0].bytes, limit);
      assert before + body[0].bytes + AllBytes(body[1..]) == before + (body[0].bytes + AllBytes(body[1..]));
      assert forall i :: 0 < i < |body| ==> body[i] == body[1..][i - 1];
    }
  }

  function AllBytes(body: seq<Piece>): seq<byte> {
    if body == [] then [] else (if body[0].Data? then body[0].bytes else []) + AllBytes(body[1..])
  }

  /** A stream is kept exactly when no step breaks it and all its bytes stay within the limit. */
  lemma {:induction false} StreamCompleteIff(body: seq<Piece>, before: seq<byte>, limit: nat)
    requires |before| <= limit
    ensures Stream(body, before, limit).Complete? <==>
            (forall i :: 0 <= i < |body| ==> body[i].Data?) && |before| + |AllBytes(body)| <= limit
  {
    if body != [] && body[0].Data? {
      assert forall i :: 0 < i < |body| ==> body[i] == body[1..][i - 1];
      if |before| + |body[0].bytes| <= limit {
        StreamCompleteIff(body[1..], before + body[0].bytes, limit);
        assert (forall i :: 0 <= i < |body| ==> body[i].Data?) <==>
                 (forall i :: 0 <= i < |body[1..]| ==> body[1..][i].Data?);
      }
    }
  }

  /** What a successful download holds: the whole body of one answer, within the limit, sniffed as audio. */
  lemma {:induction false} OutcomeIsAudio(
    network: Network, responses: seq<Response>, hop: nat, url: string, redirects: nat, limit: nat)
    requires |responses| > redirects && hop <= redirects
    ensures match Outcome(network, responses, hop, url, redirects, limit)
            case Err(_) => true
            case Ok((downloaded, bytes)) =>
              && |bytes| == downloaded.size <= limit
              && LooksLikeAudio(Sniffed(bytes), downloaded.media, |bytes|)
              && exists k :: hop <= k <= redirects && Serves(responses[k], downloaded.media, bytes)
    decreases redirects - hop
  {
    match responses[hop] {
      case Redirect(Some(location)) =>
        if hop < redirects {
          OutcomeIsAudio(network, responses, hop + 1, network.join(url, location), redirects, limit);
        }
      case Answer(_, _, media, body) =>
        if Outcome(network, responses, hop, url, redirects, limit).Ok? {
          StreamIsAll(body, [], limit);
          assert Serves(responses[hop], media, AllBytes(body));
        }
      case _ =>
    }
  }

  predicate Serves(response: Response, media: MediaType, bytes: seq<byte>) {
    response.Answer? && response.status < 400 && response.media == media && AllBytes(response.body) == bytes
  }
}
