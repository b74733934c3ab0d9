/**
 * The proxy endpoint `GET /api/container?containerNumber=...`: it checks the
 * query parameter, builds the outbound URL of the tracking provider, and turns
 * the provider's answer (or the failure to get one) into one response.
 *
 * The endpoint keeps no state, so it is a function of the query parameter, the
 * configured API key and the outcome of the single outbound call. The provider's
 * JSON body is generic (`B`); the one field the endpoint reads from it,
 * `message`, travels beside it.
 */
module ContainerRoute {
  import opened Wrappers
  import Text

  const DefaultAuthCode: string := "5a1f27d823ccd62177a9dc3ad3699e7f"
  const ProviderEndpoint: string := "https://shipsgo.com/api/v1.2/ContainerService/GetContainerInfo/?authCode="
  const ContainerNumberField: string := "&containerNumber="
  const MapPointFlag: string := "&mapPoint=true"

  const MissingParamMessage: string := "containerNumber query param is required"
  const ProviderErrorFallback: string := "Shipsgo API error"
  const FetchFailedMessage: string := "Failed to fetch container data"

  const BadRequest: nat := 400
  const InternalError: nat := 500
  /** The status a JSON response gets when none is given. */
  const DefaultSuccess: nat := 200

  /** `Response.ok`: a status in the 2xx range. */
  predicate IsOk(status: int) {
    200 <= status <= 299
  }

  /** The body of the provider's answer, as `res.json()` leaves it. */
  datatype ParsedBody<B> =
    | Malformed(detail: string)                    // `res.json()` threw
    | Parsed(message: Option<string>, json: B)     // `json.message` and the whole value

  /** What the single outbound call to the provider produced. */
  datatype ProviderOutcome<B> =
    | TransportFailure(detail: string)             // `fetch` rejected
    | Replied(status: nat, body: ParsedBody<B>)

  datatype ResponseBody<B> =
    | ErrorBody(error: string)                     // `{ error }`
    | StatusErrorBody(error: string, status: nat)  // `{ error, status }`
    | Forwarded(json: B)                           // the provider's body, unchanged

  datatype Response<B> = Response(status: nat, body: ResponseBody<B>)

  /** The outbound request made (none, or the one URL fetched) and the response sent back. */
  datatype Exchange<B> = Exchange(outbound: Option<string>, response: Response<B>)

  /** `process.env.SHIPSGO_API_KEY || DefaultAuthCode`: the configured key wins unless it is unset or empty. */
  function AuthCode(configured: Option<string>): (code: string)
    ensures code != ""
    ensures code == DefaultAuthCode || Some(code) == configured
    ensures configured.Some? && configured.value != "" ==> code == configured.value
  {
    Text.OrElse(configured, DefaultAuthCode)
  }

  /** The provider URL for one lookup; the container number is inserted as given, not re-encoded. */
  function ApiUrl(authCode: string, containerNumber: string): (url: string)
    ensures |url| == |ProviderEndpoint| + |authCode| + |ContainerNumberField| + |containerNumber| + |MapPointFlag|
    ensures url[..|ProviderEndpoint|] == ProviderEndpoint
    ensures url[|url| - |MapPointFlag|..] == MapPointFlag
    ensures ContainerNumberOf(url, authCode) == Some(containerNumber)
  {
    var url := ProviderEndpoint + authCode + ContainerNumberField + containerNumber + MapPointFlag;
    var head := ProviderEndpoint + authCode + ContainerNumberField;
    assert url == head + containerNumber + MapPointFlag;
    assert url[..|head|] == head;
    assert url[|url| - |MapPointFlag|..] == MapPointFlag;
    assert url[|head|..|url| - |MapPointFlag|] == containerNumber;
    url
  }

  /** Reads the container number back out of a provider URL built with `authCode`. */
  function ContainerNumberOf(url: string, authCode: string): Option<string> {
    var head := ProviderEndpoint + authCode + ContainerNumberField;
    if |head| + |MapPointFlag| <= |url| && url[..|head|] == head && url[|url| - |MapPointFlag|..] == MapPointFlag
    then Some(url[|head|..|url| - |MapPointFlag|])
    else None
  }

  /** The response built from the provider's outcome (the `try`/`catch` of the handler). */
  function Respond<B>(outcome: ProviderOutcome<B>): (r: Response<B>)
    ensures IsOk(r.status) <==> r.body.Forwarded?
    ensures r.body.StatusErrorBody? ==> r.body.status == r.status && r.body.error != ""
  {
    match outcome
    case TransportFailure(_) => Response(InternalError, ErrorBody(FetchFailedMessage))
    case Replied(_, Malformed(_)) => Response(InternalError, ErrorBody(FetchFailedMessage))
    case Replied(status, Parsed(message, json)) =>
      if !IsOk(status) then
        Response(status, StatusErrorBody(Text.OrElse(message, ProviderErrorFallback), status))
      else
        Response(DefaultSuccess, Forwarded(json))
  }

  /** The handler: `containerNumber` is `searchParams.get("containerNumber")`, `apiKey` the configured key. */
  function Get<B>(containerNumber: Option<string>, apiKey: Option<string>, outcome: ProviderOutcome<B>): (x: Exchange<B>)
    ensures x.outbound.None? <==> containerNumber.None? || containerNumber.value == ""
    ensures x.outbound.Some? ==> ContainerNumberOf(x.outbound.value, AuthCode(apiKey)) == containerNumber
    ensures IsOk(x.response.status) <==> x.response.body.Forwarded?
  {
    if containerNumber.None? || containerNumber.value == "" then
      Exchange(None, Response(BadRequest, ErrorBody(MissingParamMessage)))
    else
      Exchange(Some(ApiUrl(AuthCode(apiKey), containerNumber.value)), Respond(outcome))
  }

  // ---------------------------------------------------------------------------
  // Properties of the endpoint
  // ---------------------------------------------------------------------------

  /** A missing or empty parameter is answered with 400 and the fixed message, and nothing is fetched. */
  lemma MissingParameter<B>(containerNumber: Option<string>, apiKey: Option<string>, outcome: ProviderOutcome<B>)
    requires containerNumber.None? || containerNumber == Some("")
    ensures Get(containerNumber, apiKey, outcome) == Exchange(None, Response(400, ErrorBody("containerNumber query param is required")))
  {
  }

  /** A present parameter leads to exactly one outbound request, to the URL built from the auth code and the parameter. */
  lemma OneOutboundRequest<B>(containerNumber: string, apiKey: Option<string>, outcome: ProviderOutcome<B>)
    requires containerNumber != ""
    ensures Get(Some(containerNumber), apiKey, outcome).outbound
         == Some(ProviderEndpoint + AuthCode(apiKey) + "&containerNumber=" + containerNumber + "&mapPoint=true")
    ensures Get(Some(containerNumber), apiKey, outcome).response == Respond(outcome)
  {
  }

  /** A provider failure status with a readable body keeps that status; the message falls back when absent or empty. */
  lemma ProviderErrorForwarded<B>(containerNumber: string, apiKey: Option<string>, status: nat, message: Option<string>, json: B)
    requires containerNumber != "" && !IsOk(status)
    ensures var r := Get(Some(containerNumber), apiKey, Replied(status, Parsed(message, json))).response;
      r.status == status &&
      r.body == StatusErrorBody(if message.Some? && message.value != "" then message.value else "Shipsgo API error", status)
  {
  }

  /** A 2xx provider answer is forwarded unchanged with the default success status. */
  lemma SuccessForwarded<B>(containerNumber: string, apiKey: Option<string>, status: nat, message: Option<string>, json: B)
    requires containerNumber != "" && IsOk(status)
    ensures Get(Some(containerNumber), apiKey, Replied(status, Parsed(message, json))).response == Response(200, Forwarded(json))
  {
  }

  /**
   * Transport and parse failures give 500 and a fixed body; the failure detail
   * does not reach the response, and an unreadable body wins over the provider's status.
   */
  lemma FailureHidesDetail<B>(containerNumber: string, apiKey: Option<string>, detail: string, status: nat)
    requires containerNumber != ""
    ensures Get(Some(containerNumber), apiKey, ProviderOutcome<B>.TransportFailure(detail)).response
         == Response(500, ErrorBody("Failed to fetch container data"))
    ensures Get(Some(containerNumber), apiKey, ProviderOutcome<B>.Replied(status, Malformed(detail))).response
         == Response(500, ErrorBody("Failed to fetch container data"))
  {
  }

  /** The response status is 400, 500, 200 or the provider's own failure status. */
  lemma ResponseStatuses<B>(containerNumber: Option<string>, apiKey: Option<string>, outcome: ProviderOutcome<B>)
    ensures var s := Get(containerNumber, apiKey, outcome).response.status;
      s == 400 || s == 500 || s == 200 || (outcome.Replied? && outcome.body.Parsed? && !IsOk(outcome.status) && s == outcome.status)
  {
  }

  /** Two lookups that differ only in the failure's detail give the same exchange. */
  lemma DetailIrrelevant<B>(containerNumber: Option<string>, apiKey: Option<string>, outcome1: ProviderOutcome<B>, outcome2: ProviderOutcome<B>)
    requires outcome1.TransportFailure? || (outcome1.Replied? && outcome1.body.Malformed?)
    requires outcome2.TransportFailure? || (outcome2.Replied? && outcome2.body.Malformed?)
    ensures Get(containerNumber, apiKey, outcome1) == Get(containerNumber, apiKey, outcome2)
  {
  }
}
