/**
 * The round trip of one lookup: the form sends the normalised identifier to the
 * proxy endpoint, the endpoint answers, and the form turns the answer into its
 * `data` or `error`. The form's own request can fail before any response of
 * the endpoint reaches it; what became of that hop is a parameter. The query
 * string is assumed to carry the identifier through unchanged (it is an
 * 11-character string the form built).
 */
module Lookup {
  import opened Wrappers
  import opened Container
  import ContainerRoute
  import Hero

  /** What became of the form's own request to the endpoint. */
  datatype ClientHop =
    | Delivered                        // `fetch` resolved and `res.json()` parsed the endpoint's body
    | ClientFailure(message: string)   // `fetch` rejected or `res.json()` threw, with the error's message

  /** What the form's `fetch` and `res.json()` make of a response of the endpoint. */
  function Deliver(hop: ClientHop, r: ContainerRoute.Response<ContainerInfo>): (reply: Hero.Reply)
    requires ContainerRoute.IsOk(r.status) <==> r.body.Forwarded?
    ensures reply.Exception? <==> hop.ClientFailure?
    ensures hop.ClientFailure? ==> reply.message == hop.message
    ensures reply.Ok? <==> hop.Delivered? && r.body.Forwarded?
    ensures reply.Ok? ==> r.body == ContainerRoute.Forwarded(reply.body)
    ensures reply.NotOk? ==> reply.status == r.status && reply.errorField == Some(r.body.error)
  {
    match hop
    case ClientFailure(m) => Hero.Exception(m)
    case Delivered =>
      match r.body
      case Forwarded(info) => Hero.Ok(info)
      case ErrorBody(e) => Hero.NotOk(r.status, Some(e))
      case StatusErrorBody(e, _) => Hero.NotOk(r.status, Some(e))
  }

  /** The endpoint's answer to the request a submission of `raw` sends. */
  function Answer(raw: string, apiKey: Option<string>, outcome: ContainerRoute.ProviderOutcome<ContainerInfo>): (x: ContainerRoute.Exchange<ContainerInfo>)
    requires |Hero.Normalize(raw)| == Hero.IdentifierLength
    ensures x.outbound.Some?
    ensures ContainerRoute.IsOk(x.response.status) <==> x.response.body.Forwarded?
  {
    ContainerRoute.Get(Some(Hero.Normalize(raw)), apiKey, outcome)
  }

  /**
   * After a valid submission, the form shows the error of its own failed request
   * (or "Something went wrong" when that error has no message); otherwise the
   * provider's result, the provider's own message, the provider fallback, or the
   * fixed fetch-failure text, and never the detail of the endpoint's failure.
   */
  lemma ShownMessage(raw: string, apiKey: Option<string>, hop: ClientHop, outcome: ContainerRoute.ProviderOutcome<ContainerInfo>)
    requires |Hero.Normalize(raw)| == Hero.IdentifierLength
    ensures Hero.FailureMessage(Deliver(hop, Answer(raw, apiKey, outcome).response))
         == if hop.ClientFailure? then
              Some(if hop.message != "" then hop.message else "Something went wrong")
            else match outcome
              case TransportFailure(_) => Some("Failed to fetch container data")
              case Replied(_, Malformed(_)) => Some("Failed to fetch container data")
              case Replied(status, Parsed(message, _)) =>
                if ContainerRoute.IsOk(status) then None
                else Some(if message.Some? && message.value != "" then message.value else "Shipsgo API error")
  {
    ForwardsResponse(raw, apiKey, outcome);
    if hop.ClientFailure? {
      Hero.ExceptionMessage(hop.message);
    } else {
      ShownMessageOf(outcome);
    }
  }

  lemma ShownMessageOf(outcome: ContainerRoute.ProviderOutcome<ContainerInfo>)
    ensures Hero.FailureMessage(Deliver(Delivered, ContainerRoute.Respond(outcome)))
         == match outcome
            case TransportFailure(_) => Some("Failed to fetch container data")
            case Replied(_, Malformed(_)) => Some("Failed to fetch container data")
            case Replied(status, Parsed(message, _)) =>
              if ContainerRoute.IsOk(status) then None
              else Some(if message.Some? && message.value != "" then message.value else "Shipsgo API error")
  {
  }

  /**
   * Through this endpoint the form's own fallbacks never apply to a delivered
   * response: every failure response carries a non-empty `error` field, so
   * neither "Error: <status>" nor "Something went wrong" is produced from it.
   */
  lemma ClientFallbacksUnused(raw: string, apiKey: Option<string>, outcome: ContainerRoute.ProviderOutcome<ContainerInfo>)
    requires |Hero.Normalize(raw)| == Hero.IdentifierLength
    ensures var reply := Deliver(Delivered, Answer(raw, apiKey, outcome).response);
      reply.Ok? || (reply.NotOk? && reply.errorField.Some? && reply.errorField.value != ""
                    && Hero.FailureMessage(reply) == reply.errorField)
  {
    ForwardsResponse(raw, apiKey, outcome);
    FallbacksUnusedOf(outcome);
  }

  lemma FallbacksUnusedOf(outcome: ContainerRoute.ProviderOutcome<ContainerInfo>)
    ensures var reply := Deliver(Delivered, ContainerRoute.Respond(outcome));
      reply.Ok? || (reply.NotOk? && reply.errorField.Some? && reply.errorField.value != ""
                    && Hero.FailureMessage(reply) == reply.errorField)
  {
  }

  /** A good provider answer reaches the form's `data` exactly as the provider sent it. */
  lemma ResultPassedThrough(raw: string, apiKey: Option<string>, status: nat, message: Option<string>, info: ContainerInfo)
    requires |Hero.Normalize(raw)| == Hero.IdentifierLength && ContainerRoute.IsOk(status)
    ensures Deliver(Delivered, Answer(raw, apiKey, ContainerRoute.Replied(status, ContainerRoute.Parsed(message, info))).response) == Hero.Ok(info)
  {
    ForwardsResponse(raw, apiKey, ContainerRoute.Replied(status, ContainerRoute.Parsed(message, info)));
  }

  /** A valid submission is answered with the endpoint's response to the provider's outcome. */
  lemma ForwardsResponse(raw: string, apiKey: Option<string>, outcome: ContainerRoute.ProviderOutcome<ContainerInfo>)
    requires |Hero.Normalize(raw)| == Hero.IdentifierLength
    ensures Answer(raw, apiKey, outcome).response == ContainerRoute.Respond(outcome)
  {
    var id := Hero.Normalize(raw);
    assert id != "";
    ContainerRoute.OneOutboundRequest(id, apiKey, outcome);
  }
}
