/** The request wrapper: `fetchJSON` resolves the address, arms a timeout,
    calls `fetch`, and turns every outcome into a parsed body or a
    `FetchError`; `get`, `post`, `put` and `del` fix the method (and for
    `post`/`put` the JSON body and content type); `isFetchError` and
    `getErrorMessage` inspect what a caller caught.

    The network, the timer and the JSON library are not executed: how `fetch`
    settles is a parameter, the timer is recorded in a ghost trace of events,
    and JSON is a `JsonCodec`. */
module FetchWrapper {
  import opened Js

  /** Headers given as a plain string record. */
  type Headers = map<string, string>

  /** A response as `fetch` resolves it: its status and the body text that
      `response.json()` parses. */
  datatype Response = Response(status: nat, body: string)

  /** An ok status is one in the range 200 to 299 inclusive (Fetch Standard,
      section 2.2.3 "Statuses"); `response.ok` tests exactly that. */
  predicate IsOk(status: nat) {
    200 <= status <= 299
  }

  /** A `FetchError`: an `Error` named "FetchError" with a message and, for an
      HTTP-status failure only, the status and the response. */
  datatype FetchError = FetchError(message: string, status: Option<nat>, response: Option<Response>)

  /** A value that a `throw` or a rejected promise can carry. */
  datatype Thrown =
    | FetchErr(error: FetchError)               // an instance of FetchError
    | OtherError(name: string, message: string) // any other Error instance: TypeError, SyntaxError, an AbortError DOMException, ...
    | NonError(messageProperty: Option<string>) // not an Error: null, undefined, a string, a plain object (with the `message` property it may have)

  /** How the promise of an async call settles. */
  datatype Settled<T> = Fulfilled(value: T) | Rejected(reason: Thrown)

  /** The process-wide defaults (`API_CONFIG`). */
  datatype ApiConfig = ApiConfig(timeout: nat, baseUrl: string)

  /** `FetchOptions`: the wrapper's own `timeout` and `baseURL`, and the
      request fields the wrapper passes on to `fetch`. */
  datatype FetchOptions = FetchOptions(
    timeout: Option<nat>,
    baseUrl: Option<string>,
    httpMethod: Option<string>,
    headers: Option<Headers>,
    body: Option<string>)

  /** Options left out by the caller (`options?` undefined spreads nothing). */
  const NoOptions: FetchOptions := FetchOptions(None, None, None, None, None)

  /** What `fetch` is called with: the full address and the pass-through
      request fields (its abort signal is always the wrapper's own). */
  datatype Request = Request(url: string, httpMethod: Option<string>, headers: Option<Headers>, body: Option<string>)

  /** How the one `fetch` call settles. */
  datatype FetchSettlement =
    | Resolves(response: Response)
    | Rejects(reason: Thrown)  // the transport fails, e.g. TypeError "Failed to fetch"
    | TimesOut                 // the armed timer fires first; `controller.abort()` makes fetch reject with an AbortError

  /** The side effects of one call, in order. */
  datatype Event =
    | ArmTimer(delay: nat)     // setTimeout(() => controller.abort(), timeout)
    | CallFetch(request: Request)
    | TimerFires               // the timeout elapses and aborts the request
    | ClearTimer               // clearTimeout(timeoutId)
    | ReadBody                 // response.json()

  const TimeoutMessage := "Request timeout"
  const NetworkMessage := "Network error. Please check your connection."
  const UnknownMessage := "Unknown error occurred"
  const FallbackMessage := "An unknown error occurred"
  const HttpErrorPrefix := "HTTP error! status: "
  const NetworkFailureMarker := "Failed to fetch"
  const AbortErrorName := "AbortError"
  const SyntaxErrorName := "SyntaxError"
  const TypeErrorName := "TypeError"
  /** The message of the AbortError that `abort()` without a reason produces;
      the classification ignores it. */
  const AbortedMessage := "signal is aborted without reason"
  const ContentType := "Content-Type"
  const JsonMediaType := "application/json"

  /** The full address: `url` itself when it starts with the literal "http"
      (so "httpfoo/x" counts as absolute too), otherwise the base address
      followed by `url`. */
  function ResolveUrl(url: string, baseUrl: string): (r: string)
    ensures StartsWith(url, "http") ==> r == url
    ensures !StartsWith(url, "http") ==> r == baseUrl + url
  {
    if StartsWith(url, "http") then url else baseUrl + url
  }

  /** Resolving is idempotent once the result is absolute: a resolved address
      that starts with "http" resolves to itself against any base. */
  lemma ResolveIsStable(url: string, baseUrl: string, otherBase: string)
    requires StartsWith(ResolveUrl(url, baseUrl), "http")
    ensures ResolveUrl(ResolveUrl(url, baseUrl), otherBase) == ResolveUrl(url, baseUrl)
  {
  }

  /** An address is absolute once resolved when the address or the base it
      is resolved against starts with "http". */
  lemma AbsoluteBaseGivesAbsolute(url: string, baseUrl: string)
    requires StartsWith(url, "http") || StartsWith(baseUrl, "http")
    ensures StartsWith(ResolveUrl(url, baseUrl), "http")
  {
    if !StartsWith(url, "http") {
      assert (baseUrl + url)[..4] == baseUrl[..4];
    }
  }

  /** The failure for a response whose status is not ok: it names the status
      and carries both the status and the response. */
  function HttpError(response: Response): (r: FetchError)
    ensures StartsWith(r.message, HttpErrorPrefix)
    ensures r.status == Some(response.status) && r.response == Some(response)
  {
    FetchError(HttpErrorPrefix + DecimalString(response.status), Some(response.status), Some(response))
  }

  /** The message of an HTTP failure names the status: it is the fixed prefix
      followed by the status as a template literal renders it, a non-empty
      run of digits without a leading zero that reads back as the status. */
  lemma HttpErrorReportsStatus(response: Response)
    ensures StartsWith(HttpError(response).message, HttpErrorPrefix)
    ensures HttpError(response).message[|HttpErrorPrefix|..] == DecimalString(response.status)
    ensures |HttpError(response).message| > |HttpErrorPrefix|
    ensures forall i :: |HttpErrorPrefix| <= i < |HttpError(response).message| ==> '0' <= HttpError(response).message[i] <= '9'
    ensures HttpError(response).message[|HttpErrorPrefix|] == '0' ==> response.status == 0
    ensures DecimalValue(HttpError(response).message[|HttpErrorPrefix|..]) == response.status
    ensures HttpError(response).status == Some(response.status)
    ensures HttpError(response).response == Some(response)
  {
    var m := HttpError(response).message;
    assert m[..|HttpErrorPrefix|] == HttpErrorPrefix;
    assert m[|HttpErrorPrefix|..] == DecimalString(response.status);
    DecimalRoundTrip(response.status);
  }

  /** The catch block: a FetchError is rethrown as it is; any other Error is
      mapped by name, then by message; anything else is "unknown". Only a
      rethrown FetchError can carry a status or a response. */
  function Classify(error: Thrown): (r: FetchError)
    ensures error.FetchErr? ==> r == error.error
    ensures !error.FetchErr? ==> r.status == None && r.response == None
    ensures error.OtherError? && error.name == AbortErrorName ==> r.message == TimeoutMessage
    ensures error.NonError? ==> r == FetchError(UnknownMessage, None, None)
  {
    match error
    case FetchErr(e) => e
    case OtherError(name, message) =>
      if name == AbortErrorName then FetchError(TimeoutMessage, None, None)
      else if Includes(message, NetworkFailureMarker) then FetchError(NetworkMessage, None, None)
      else FetchError(message, None, None)
    case NonError(_) => FetchError(UnknownMessage, None, None)
  }

  /** The order of the classification of an Error that is not a FetchError:
      the name "AbortError" wins, then any occurrence of "Failed to fetch" in
      the message, and otherwise the message is kept. */
  lemma ClassificationOrder(name: string, message: string)
    ensures Classify(OtherError(name, message)).message ==
      if name == AbortErrorName then TimeoutMessage
      else if exists i :: OccursAt(message, NetworkFailureMarker, i) then NetworkMessage
      else message
  {
    IncludesIffOccurs(message, NetworkFailureMarker);
  }

  /** What `fetchJSON` settles with, given how `fetch` settles and the JSON
      parser that `response.json()` applies to the body. */
  function FetchOutcome<T>(settlement: FetchSettlement, json: JsonCodec<T>): (r: Settled<T>)
    ensures r.Fulfilled? <==> settlement.Resolves? && IsOk(settlement.response.status) && json.parse(settlement.response.body).Ok?
    ensures r.Fulfilled? ==> json.parse(settlement.response.body) == Ok(r.value)
    ensures r.Rejected? ==> r.reason.FetchErr?
    ensures settlement.TimesOut? ==> r.reason.error == FetchError(TimeoutMessage, None, None)
  {
    match settlement
    case TimesOut => Rejected(FetchErr(FetchError(TimeoutMessage, None, None)))
    case Rejects(reason) => Rejected(FetchErr(Classify(reason)))
    case Resolves(response) =>
      if !IsOk(response.status) then Rejected(FetchErr(HttpError(response)))
      else match json.parse(response.body)
        case Ok(v) => Fulfilled(v)
        case Err(message) => Rejected(FetchErr(Classify(OtherError(SyntaxErrorName, message))))
  }

  /** A response that is not ok fails with the HTTP error carrying its status
      and itself, and the body is never parsed: the outcome is the same
      whatever the parser would have done. */
  lemma HttpFailureSkipsBody<T>(response: Response, json: JsonCodec<T>, otherJson: JsonCodec<T>)
    requires !IsOk(response.status)
    ensures FetchOutcome(Resolves(response), json) == Rejected(FetchErr(HttpError(response)))
    ensures FetchOutcome(Resolves(response), json) == FetchOutcome(Resolves(response), otherJson)
  {
  }

  /** An ok response yields exactly the parsed body; a body that fails to
      parse yields a FetchError without status, classified like any Error. */
  lemma OkResponseYieldsBody<T>(response: Response, json: JsonCodec<T>)
    requires IsOk(response.status)
    ensures json.parse(response.body).Ok? ==> FetchOutcome(Resolves(response), json) == Fulfilled(json.parse(response.body).value)
    ensures json.parse(response.body).Err? ==>
      FetchOutcome(Resolves(response), json) == Rejected(FetchErr(Classify(OtherError(SyntaxErrorName, json.parse(response.body).error))))
  {
  }

  /** `fetch` itself never rejects with a FetchError. */
  predicate FromTransport(settlement: FetchSettlement) {
    !(settlement.Rejects? && settlement.reason.FetchErr?)
  }

  /** Every failure of `fetchJSON` is a FetchError, and it carries a status
      and a response exactly when the server answered with a status that is
      not ok. */
  lemma StatusOnlyForHttpFailure<T>(settlement: FetchSettlement, json: JsonCodec<T>)
    requires FromTransport(settlement)
    ensures FetchOutcome(settlement, json).Rejected? ==> IsFetchError(FetchOutcome(settlement, json).reason)
    ensures FetchOutcome(settlement, json).Rejected? ==>
      (FetchOutcome(settlement, json).reason.error.status.Some? <==> settlement.Resolves? && !IsOk(settlement.response.status))
    ensures FetchOutcome(settlement, json).Rejected? ==>
      (FetchOutcome(settlement, json).reason.error.response.Some? <==> settlement.Resolves? && !IsOk(settlement.response.status))
  {
  }

  /** Whether the timer is pending after the events of `trace`. */
  ghost function TimerArmed(trace: seq<Event>): bool {
    if trace == [] then false
    else match trace[|trace| - 1]
      case ArmTimer(_) => true
      case TimerFires => false
      case ClearTimer => false
      case _ => TimerArmed(trace[..|trace| - 1])
  }

  /** The timeout `fetchJSON` arms: the caller's, else the default. */
  function EffectiveTimeout(options: FetchOptions, config: ApiConfig): nat {
    options.timeout.GetOr(config.timeout)
  }

  /** What `fetch` is called with: `timeout` and `baseURL` are taken out of
      the options, and the rest is passed on unchanged. */
  function BuildRequest(url: string, options: FetchOptions, config: ApiConfig): (r: Request)
    ensures r.url == ResolveUrl(url, options.baseUrl.GetOr(config.baseUrl))
    ensures r.httpMethod == options.httpMethod && r.headers == options.headers && r.body == options.body
  {
    Request(ResolveUrl(url, options.baseUrl.GetOr(config.baseUrl)), options.httpMethod, options.headers, options.body)
  }

  /** `fetchJSON(url, options)`: arm the timer, call fetch, clear the timer as
      soon as fetch settles, reject a status that is not ok, parse the body;
      the catch block clears the timer again and classifies what was thrown.
      The one timer is never left pending, the body is read only after the
      timer was cleared, and only the timer firing during fetch can end in a
      timeout. */
  method FetchJson<T>(url: string, options: FetchOptions, config: ApiConfig, settlement: FetchSettlement, json: JsonCodec<T>)
    returns (r: Settled<T>, ghost trace: seq<Event>)
    ensures r == FetchOutcome(settlement, json)
    ensures |trace| >= 2 && trace[0] == ArmTimer(EffectiveTimeout(options, config))
    ensures trace[1] == CallFetch(BuildRequest(url, options, config))
    ensures forall i :: 0 < i < |trace| ==> (!trace[i].ArmTimer? && !trace[i].CallFetch?) || i == 1
    ensures !TimerArmed(trace)
    ensures ReadBody in trace <==> settlement.Resolves? && IsOk(settlement.response.status)
    ensures forall i :: 0 <= i < |trace| && trace[i] == ReadBody ==> !TimerArmed(trace[..i])
    ensures TimerFires in trace <==> settlement.TimesOut?
  {
    var timeout := EffectiveTimeout(options, config);
    var fullUrl := ResolveUrl(url, options.baseUrl.GetOr(config.baseUrl));
    trace := [ArmTimer(timeout)];
    var request := Request(fullUrl, options.httpMethod, options.headers, options.body);
    trace := trace + [CallFetch(request)];
    // the try block: `attempt` is what it returns, or Rejected with what it throws
    var attempt: Settled<T>;
    match settlement {
      case TimesOut =>
        trace := trace + [TimerFires];
        attempt := Rejected(OtherError(AbortErrorName, AbortedMessage));
      case Rejects(reason) =>
        attempt := Rejected(reason);
      case Resolves(response) =>
        trace := trace + [ClearTimer];
        if !IsOk(response.status) {
          attempt := Rejected(FetchErr(HttpError(response)));
        } else {
          assert !TimerArmed(trace);
          trace := trace + [ReadBody];
          match json.parse(response.body) {
            case Ok(data) => attempt := Fulfilled(data);
            case Err(message) => attempt := Rejected(OtherError(SyntaxErrorName, message));
          }
        }
    }
    // the catch block
    if attempt.Rejected? {
      trace := trace + [ClearTimer];
      r := Rejected(FetchErr(Classify(attempt.reason)));
    } else {
      r := attempt;
    }
    // a body is read only as the fourth event, after the ClearTimer
    forall i | 0 <= i < |trace| && trace[i] == ReadBody
      ensures !TimerArmed(trace[..i])
    {
      assert i == 3 && trace[..i] == [ArmTimer(timeout), CallFetch(request), ClearTimer];
    }
  }

  /** `get`: the caller's options with the method forced to GET. */
  function WithMethod(options: FetchOptions, httpMethod: string): (r: FetchOptions)
    ensures r.httpMethod == Some(httpMethod)
    ensures r.timeout == options.timeout && r.baseUrl == options.baseUrl
    ensures r.headers == options.headers && r.body == options.body
  {
    options.(httpMethod := Some(httpMethod))
  }

  /** The caller's headers, or none when they gave none. */
  function HeadersOf(options: FetchOptions): Headers {
    options.headers.GetOr(map[])
  }

  /** `post`/`put`: the method forced, the body replaced by the serialized
      data, and the headers `{'Content-Type': 'application/json',
      ...options?.headers}`: every caller header kept with its value, and the
      JSON content type added unless the caller gave a `Content-Type`. */
  function WithJsonBody(options: FetchOptions, httpMethod: string, body: string): (r: FetchOptions)
    ensures r.httpMethod == Some(httpMethod) && r.body == Some(body)
    ensures r.timeout == options.timeout && r.baseUrl == options.baseUrl
    ensures r.headers.Some? && r.headers.value.Keys == HeadersOf(options).Keys + {ContentType}
    ensures forall name :: name in HeadersOf(options) ==> r.headers.value[name] == HeadersOf(options)[name]
    ensures ContentType !in HeadersOf(options) ==> r.headers.value[ContentType] == JsonMediaType
  {
    options.(httpMethod := Some(httpMethod), headers := Some(map[ContentType := JsonMediaType] + HeadersOf(options)), body := Some(body))
  }

  /** `get(url, options)`. */
  method Get<T>(url: string, options: FetchOptions, config: ApiConfig, settlement: FetchSettlement, json: JsonCodec<T>)
    returns (r: Settled<T>, ghost trace: seq<Event>)
    ensures r == FetchOutcome(settlement, json)
    ensures |trace| >= 2 && trace[1].CallFetch? && trace[1].request.httpMethod == Some("GET")
    ensures trace[1].request == BuildRequest(url, WithMethod(options, "GET"), config)
  {
    r, trace := FetchJson(url, WithMethod(options, "GET"), config, settlement, json);
  }

  /** `del(url, options)`. */
  method Del<T>(url: string, options: FetchOptions, config: ApiConfig, settlement: FetchSettlement, json: JsonCodec<T>)
    returns (r: Settled<T>, ghost trace: seq<Event>)
    ensures r == FetchOutcome(settlement, json)
    ensures |trace| >= 2 && trace[1].CallFetch? && trace[1].request.httpMethod == Some("DELETE")
    ensures trace[1].request == BuildRequest(url, WithMethod(options, "DELETE"), config)
  {
    r, trace := FetchJson(url, WithMethod(options, "DELETE"), config, settlement, json);
  }

  /** What `post` and `put` share. The data is serialized while the options
      are built, before `fetchJSON` runs: a serialization failure rejects with
      the TypeError itself, arms no timer and sends nothing. */
  method SendJson<D, T>(httpMethod: string, url: string, data: D, options: FetchOptions, config: ApiConfig,
                        settlement: FetchSettlement, request: JsonCodec<D>, response: JsonCodec<T>)
    returns (r: Settled<T>, ghost trace: seq<Event>)
    ensures request.stringify(data).Err? ==> r == Rejected(OtherError(TypeErrorName, request.stringify(data).error))
    ensures request.stringify(data).Ok? ==> r == FetchOutcome(settlement, response)
    ensures request.stringify(data).Err? ==> trace == []
    ensures request.stringify(data).Ok? ==>
      && |trace| >= 2
      && trace[1] == CallFetch(BuildRequest(url, WithJsonBody(options, httpMethod, request.stringify(data).value), config))
  {
    var body := request.stringify(data);
    if body.Err? {
      r, trace := Rejected(OtherError(TypeErrorName, body.error)), [];
      return;
    }
    r, trace := FetchJson(url, WithJsonBody(options, httpMethod, body.value), config, settlement, response);
  }

  /** `post(url, data, options)`. */
  method Post<D, T>(url: string, data: D, options: FetchOptions, config: ApiConfig,
                    settlement: FetchSettlement, request: JsonCodec<D>, response: JsonCodec<T>)
    returns (r: Settled<T>, ghost trace: seq<Event>)
    ensures request.stringify(data).Err? ==> r == Rejected(OtherError(TypeErrorName, request.stringify(data).error))
    ensures request.stringify(data).Ok? ==> r == FetchOutcome(settlement, response)
    ensures request.stringify(data).Err? ==> trace == []
    ensures request.stringify(data).Ok? ==>
      && |trace| >= 2
      && trace[1] == CallFetch(BuildRequest(url, WithJsonBody(options, "POST", request.stringify(data).value), config))
      && trace[1].request.httpMethod == Some("POST")
      && trace[1].request.body == Some(request.stringify(data).value)
      && trace[1].request.headers == WithJsonBody(options, "POST", request.stringify(data).value).headers
  {
    r, trace := SendJson("POST", url, data, options, config, settlement, request, response);
  }

  /** `put(url, data, options)`. */
  method Put<D, T>(url: string, data: D, options: FetchOptions, config: ApiConfig,
                   settlement: FetchSettlement, request: JsonCodec<D>, response: JsonCodec<T>)
    returns (r: Settled<T>, ghost trace: seq<Event>)
    ensures request.stringify(data).Err? ==> r == Rejected(OtherError(TypeErrorName, request.stringify(data).error))
    ensures request.stringify(data).Ok? ==> r == FetchOutcome(settlement, response)
    ensures request.stringify(data).Err? ==> trace == []
    ensures request.stringify(data).Ok? ==>
      && |trace| >= 2
      && trace[1] == CallFetch(BuildRequest(url, WithJsonBody(options, "PUT", request.stringify(data).value), config))
      && trace[1].request.httpMethod == Some("PUT")
      && trace[1].request.body == Some(request.stringify(data).value)
      && trace[1].request.headers == WithJsonBody(options, "PUT", request.stringify(data).value).headers
  {
    r, trace := SendJson("PUT", url, data, options, config, settlement, request, response);
  }

  /** `isFetchError(error)`: the `instanceof FetchError` test. A value that
      passes it is one the catch block of `fetchJSON` rethrows unchanged. */
  predicate IsFetchError(error: Thrown): (r: bool)
    ensures r <==> exists e: FetchError :: error == FetchErr(e)
    ensures r ==> Classify(error) == error.error
  {
    error.FetchErr?
  }

  /** `getErrorMessage(error)`: the message of a FetchError or of any other
      Error instance, and a fixed text for everything else, even a plain
      object that has a `message` property. */
  function GetErrorMessage(error: Thrown): (r: string)
    ensures error.FetchErr? ==> r == error.error.message
    ensures error.OtherError? ==> r == error.message
    ensures error.NonError? ==> r == FallbackMessage
  {
    if IsFetchError(error) then error.error.message
    else if error.OtherError? then error.message
    else FallbackMessage
  }

  /** What a caller of `fetchJSON` shows for a failure: the FetchError's own
      message, which is one of the fixed texts, the HTTP status text, or the
      underlying Error's message. */
  lemma FailureMessages<T>(settlement: FetchSettlement, json: JsonCodec<T>)
    requires FromTransport(settlement)
    requires FetchOutcome(settlement, json).Rejected?
    ensures IsFetchError(FetchOutcome(settlement, json).reason)
    ensures GetErrorMessage(FetchOutcome(settlement, json).reason) in
      {TimeoutMessage, NetworkMessage, UnknownMessage}
      + (if settlement.Resolves? then {HttpErrorPrefix + DecimalString(settlement.response.status)} else {})
      + (if settlement.Resolves? && json.parse(settlement.response.body).Err? then {json.parse(settlement.response.body).error} else {})
      + (if settlement.Rejects? && settlement.reason.OtherError? then {settlement.reason.message} else {})
  {
  }
}
