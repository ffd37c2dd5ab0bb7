/** Classification of failed HTTP calls: the enhanced error object, the
    message chosen for a failed response, and the routing of everything a
    fetch can throw. */
module ApiErrorUtils {
  import opened Wrappers
  import opened JsStrings

  /** Request parameters, carried along unchanged. */
  type Params = map<string, string>

  /** The two JSON body fields the classifier reads ("" when absent or falsy). */
  datatype Json = Json(message: string, error: string)

  /** `responseData` of an error: not given (undefined), null, a parsed
      body, or a marker object `{ type }`. */
  datatype ResponseData = NoData | NullData | Body(json: Json) | Marker(kind: string)

  /** An `Error` enhanced with the request details. */
  datatype ApiError = ApiError(message: string, endpoint: string, params: Params,
                               statusCode: Option<int>, responseData: ResponseData)

  /** What `response.json()` yields: a body, or a parse failure with its message. */
  datatype JsonRead = Parsed(json: Json) | NotJson(failure: string)

  /** The parts of a fetch `Response` the code reads; `text` is None when
      `response.text()` rejects. */
  datatype Response = Response(status: int, ok: bool, responseType: string, json: JsonRead, text: Option<string>)

  /** `createApiError` */
  function CreateApiError(message: string, endpoint: string, params: Params,
                          statusCode: Option<int>, responseData: ResponseData): (e: ApiError)
    ensures e.message == message && e.endpoint == endpoint && e.params == params
    ensures e.statusCode == statusCode && e.responseData == responseData
  {
    ApiError(message, endpoint, params, statusCode, responseData)
  }

  const CorsMessage := "CORS error: The request was blocked due to cross-origin restrictions. Please check server CORS configuration."
  const NetworkMessage := "Network error: This could be due to CORS restrictions. Please check server configuration."

  predicate IsCors(r: Response) {
    r.status == 0 || r.responseType == "opaqueredirect"
  }

  /** `API request failed with status ${status}`; a negative status is out
      of range for a fetch response and renders as "-" then its magnitude. */
  function DefaultMessage(status: int): string {
    "API request failed with status " + (if status >= 0 then NatToString(status) else "-" + NatToString(-status))
  }

  /** The error `handleApiError` throws, stated as a precedence list: CORS
      first; then the JSON `message`, the JSON `error`, a non-empty text body,
      and last the default message. */
  function ErrorFor(r: Response, endpoint: string, params: Params): ApiError {
    if IsCors(r) then ApiError(CorsMessage, endpoint, params, Some(0), Marker("CORS_ERROR"))
    else
      var message :=
        if r.json.Parsed? && r.json.json.message != "" then r.json.json.message
        else if r.json.Parsed? && r.json.json.error != "" then r.json.json.error
        else if r.json.NotJson? && r.text.Some? && r.text.value != "" then r.text.value
        else DefaultMessage(r.status);
      ApiError(message, endpoint, params, Some(r.status), if r.json.Parsed? then Body(r.json.json) else NullData)
  }

  /** `handleApiError`: the error it throws (it never returns normally). The
      locals `errorMessage` and `responseData` are reassigned step by step. */
  method HandleApiError(r: Response, endpoint: string, params: Params) returns (e: ApiError)
    ensures e == ErrorFor(r, endpoint, params)
    ensures e.endpoint == endpoint && e.params == params
  {
    var errorMessage := DefaultMessage(r.status);
    var responseData := NullData;
    if IsCors(r) {
      return CreateApiError(CorsMessage, endpoint, params, Some(0), Marker("CORS_ERROR"));
    }
    match r.json {
      case Parsed(body) =>
        responseData := Body(body);
        if body.message != "" || body.error != "" {
          errorMessage := if body.message != "" then body.message else body.error;
        }
      case NotJson(_) =>
        if r.text.Some? && r.text.value != "" {
          errorMessage := r.text.value;
        }
    }
    e := CreateApiError(errorMessage, endpoint, params, Some(r.status), responseData);
  }

  /** The four rungs of the message precedence, and the status code a
      non-CORS error carries. */
  lemma MessagePrecedence(r: Response, endpoint: string, params: Params)
    requires !IsCors(r)
    ensures r.json.Parsed? && r.json.json.message != "" ==> ErrorFor(r, endpoint, params).message == r.json.json.message
    ensures r.json.Parsed? && r.json.json.message == "" && r.json.json.error != "" ==>
              ErrorFor(r, endpoint, params).message == r.json.json.error
    ensures r.json.NotJson? && r.text.Some? && r.text.value != "" ==> ErrorFor(r, endpoint, params).message == r.text.value
    ensures (r.json.Parsed? && r.json.json.message == "" && r.json.json.error == "") ||
            (r.json.NotJson? && (r.text.None? || r.text.value == "")) ==>
              ErrorFor(r, endpoint, params).message == DefaultMessage(r.status)
    ensures ErrorFor(r, endpoint, params).statusCode == Some(r.status)
  {
  }

  /** A CORS failure is reported before the body is looked at: whatever the
      body says, the error is the CORS error with status 0. */
  lemma CorsIgnoresBody(r: Response, r2: Response, endpoint: string, params: Params)
    requires IsCors(r) && r2.status == r.status && r2.responseType == r.responseType
    ensures ErrorFor(r, endpoint, params) == ErrorFor(r2, endpoint, params)
    ensures ErrorFor(r, endpoint, params).statusCode == Some(0)
    ensures ErrorFor(r, endpoint, params).responseData == Marker("CORS_ERROR")
  {
  }

  /** The default message names the status: different statuses give
      different messages. */
  lemma DefaultMessageNamesStatus(a: nat, b: nat)
    requires a != b
    ensures DefaultMessage(a) != DefaultMessage(b)
  {
    var p := "API request failed with status ";
    if DefaultMessage(a) == DefaultMessage(b) {
      assert DefaultMessage(a)[|p|..] == NatToString(a);
      assert DefaultMessage(b)[|p|..] == NatToString(b);
      NatToStringInjective(a, b);
    }
  }

  // --------------------------------------------------------------- routing

  /** What `fetch` itself rejected with: a TypeError, another Error, or a
      thrown non-Error value (rendered by `String(error)`). */
  datatype Thrown = TypeErr(message: string) | OtherError(message: string) | NonError(text: string)

  datatype FetchOutcome = Responded(response: Response) | FetchRejected(thrown: Thrown)

  /** What `fetchWithErrorHandling` settles with. */
  datatype FetchResult = Returned(body: Json) | Raised(error: ApiError)

  /** The catch block: a TypeError mentioning 'NetworkError' becomes the
      network error; an error with a truthy `endpoint` is rethrown; anything
      else is wrapped with its message and no status or data. */
  function Route(thrownMessage: string, isTypeError: bool, enhanced: Option<ApiError>,
                 endpoint: string, params: Params): (r: ApiError)
    ensures isTypeError && Contains(thrownMessage, "NetworkError") ==>
              r == ApiError(NetworkMessage, endpoint, params, Some(0), Marker("NETWORK_ERROR"))
  {
    if isTypeError && Contains(thrownMessage, "NetworkError") then
      CreateApiError(NetworkMessage, endpoint, params, Some(0), Marker("NETWORK_ERROR"))
    else if enhanced.Some? && enhanced.value.endpoint != "" then enhanced.value
    else CreateApiError(thrownMessage, endpoint, params, None, NoData)
  }

  /** `fetchWithErrorHandling` over the outcome of the fetch. */
  function FetchWithErrorHandling(outcome: FetchOutcome, endpoint: string, params: Params): (res: FetchResult)
    ensures outcome.Responded? && outcome.response.ok && outcome.response.json.Parsed? ==>
              res == Returned(outcome.response.json.json)
    ensures res.Raised? ==> res.error.endpoint == endpoint && res.error.params == params
  {
    match outcome
    case Responded(r) =>
      if !r.ok then
        var e := ErrorFor(r, endpoint, params);
        Raised(Route(e.message, false, Some(e), endpoint, params))
      else
        (match r.json
         case Parsed(body) => Returned(body)
         case NotJson(failure) => Raised(Route(failure, false, None, endpoint, params)))
    case FetchRejected(t) =>
      match t
      case TypeErr(m) => Raised(Route(m, true, None, endpoint, params))
      case OtherError(m) => Raised(Route(m, false, None, endpoint, params))
      case NonError(s) => Raised(Route(s, false, None, endpoint, params))
  }

  /** A failed response reaches the caller as the error `handleApiError`
      threw, status included, as long as the endpoint is a non-empty string. */
  lemma FailedResponseRethrown(r: Response, endpoint: string, params: Params)
    requires !r.ok && endpoint != ""
    ensures FetchWithErrorHandling(Responded(r), endpoint, params) == Raised(ErrorFor(r, endpoint, params))
  {
  }

  /** With an empty endpoint the rethrow test fails, so the error is wrapped
      again and loses its status code and its response data (the message
      survives). */
  lemma EmptyEndpointLosesStatus(r: Response, params: Params)
    requires !r.ok
    ensures var res := FetchWithErrorHandling(Responded(r), "", params);
            res.Raised? && res.error.statusCode.None? && res.error.responseData == NoData &&
            res.error.message == ErrorFor(r, "", params).message
  {
  }

  /** Only a TypeError mentioning 'NetworkError' is classified as a network
      error; a TypeError with another message (such as "Failed to fetch") is
      wrapped with that message and no status. */
  lemma NetworkErrorClassification(m: string, endpoint: string, params: Params)
    ensures Contains(m, "NetworkError") ==>
              FetchWithErrorHandling(FetchRejected(TypeErr(m)), endpoint, params)
              == Raised(ApiError(NetworkMessage, endpoint, params, Some(0), Marker("NETWORK_ERROR")))
    ensures !Contains(m, "NetworkError") ==>
              FetchWithErrorHandling(FetchRejected(TypeErr(m)), endpoint, params)
              == Raised(ApiError(m, endpoint, params, None, NoData))
    ensures FetchWithErrorHandling(FetchRejected(OtherError(m)), endpoint, params)
            == Raised(ApiError(m, endpoint, params, None, NoData))
  {
  }
}
