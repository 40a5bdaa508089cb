/**
  How the client reads the service's answers. The transport and the JSON
  decoder are outside the model: a reply is either a transport failure or a
  status code with a body, and the body is given as what the two decoders
  the client uses make of it (an error response, a heartbeat), each `None`
  when the body does not decode.
 */
module Responses {
  import opened Wrappers

  /** The projection of a remote heartbeat the client reads. */
  datatype Heartbeat = Heartbeat(id: string)

  /** The service's error schema: {"code": <int>, "error": <string>}. */
  datatype ErrorResponse = ErrorResponse(code: int, message: string)

  /** A response body as seen through the two decoders. */
  datatype Body = Body(asError: Option<ErrorResponse>, asHeartbeat: Option<Heartbeat>)

  /** The outcome of one HTTP exchange. */
  datatype Reply =
    | TransportFailure(reason: string)
    | Received(status: int, body: Body)

  /** Why a request failed. */
  datatype Fault =
    | Transport(reason: string)       // the request could not be sent or its answer not read
    | Malformed                       // a body that does not decode
    | Rejected(response: ErrorResponse)  // a non-200 answer in the service's error schema

  /** The status code and error code with which the service says a heartbeat does not exist. */
  const NotFoundStatus := 400
  const NotFoundCode := 17

  /** Decoding an error body. */
  function CreateErrorResponse(body: Body): (r: Result<ErrorResponse, Fault>)
    ensures r.Success? <==> body.asError.Some?
    ensures r.Success? ==> r.value == body.asError.value
    ensures r.Failure? ==> r.error == Malformed
  {
    match body.asError
    case Some(e) => Success(e)
    case None => Failure(Malformed)
  }

  /** Decoding a fetched heartbeat. */
  function CreateHeartbeat(body: Body): (r: Result<Option<Heartbeat>, Fault>)
    ensures r.Success? <==> body.asHeartbeat.Some?
    ensures r.Success? ==> r.value == Some(body.asHeartbeat.value)
    ensures r.Failure? ==> r.error == Malformed
  {
    match body.asHeartbeat
    case Some(h) => Success(Some(h))
    case None => Failure(Malformed)
  }

  /**
    The generic request path: the body is handed back for status 200 only;
    every other status is an error, a rejection when the body is in the
    error schema and a malformed answer otherwise.
   */
  function DoOpsGenieHTTPRequest(reply: Reply): (r: Result<Body, Fault>)
    ensures r.Success? <==> reply.Received? && reply.status == 200
    ensures r.Success? ==> r.value == reply.body
    ensures reply.TransportFailure? ==> r == Failure(Transport(reply.reason))
    ensures reply.Received? && reply.status != 200 ==>
              r == (if reply.body.asError.Some? then Failure(Rejected(reply.body.asError.value)) else Failure(Malformed))
  {
    match reply
    case TransportFailure(reason) => Failure(Transport(reason))
    case Received(status, body) =>
      if status != 200 then
        match CreateErrorResponse(body)
        case Failure(f) => Failure(f)
        case Success(e) => Failure(Rejected(e))
      else
        Success(body)
  }

  /**
    The fetch path's reading of a non-200 answer: status 400 with error code
    17 means the heartbeat does not exist (no heartbeat and no error); any
    other answer is an error.
   */
  function CheckHeartbeatError(status: int, body: Body): (r: Result<Option<Heartbeat>, Fault>)
    ensures r.Success? <==> status == NotFoundStatus && body.asError.Some? && body.asError.value.code == NotFoundCode
    ensures r.Success? ==> r.value == None
    ensures body.asError.None? ==> r == Failure(Malformed)
    ensures r.Failure? && body.asError.Some? ==> r == Failure(Rejected(body.asError.value))
  {
    match CreateErrorResponse(body)
    case Failure(f) => Failure(f)
    case Success(e) =>
      if status == 400 && e.code == 17 then Success(None)
      else Failure(Rejected(e))
  }

  /**
    What getHeartbeat makes of the fetch reply: `Success(Some(h))` for a
    found heartbeat, `Success(None)` for an absent one, `Failure` otherwise.
   */
  function FetchResult(reply: Reply): (r: Result<Option<Heartbeat>, Fault>)
    ensures r.Success? && r.value.Some? <==>
              reply.Received? && reply.status == 200 && reply.body.asHeartbeat.Some?
    ensures r.Success? && r.value.Some? ==> r.value.value == reply.body.asHeartbeat.value
    ensures r == Success(None) <==>
              reply.Received? && reply.status == NotFoundStatus && reply.body.asError.Some?
              && reply.body.asError.value.code == NotFoundCode
  {
    match reply
    case TransportFailure(reason) => Failure(Transport(reason))
    case Received(status, body) =>
      if status != 200 then CheckHeartbeatError(status, body)
      else CreateHeartbeat(body)
  }

  /**
    The fetch path classifies exactly as the generic path, except that the
    not-found rejection reads as an absent heartbeat and a 200 answer whose
    body is not a heartbeat reads as malformed.
   */
  lemma FetchAgreesWithGeneric(reply: Reply)
    ensures var generic := DoOpsGenieHTTPRequest(reply);
            var fetched := FetchResult(reply);
            && (fetched == Success(None) <==>
                  reply.Received? && reply.status == NotFoundStatus
                  && generic.Failure? && generic.error.Rejected? && generic.error.response.code == NotFoundCode)
            && (generic.Failure? && fetched.Failure? ==> fetched.error == generic.error)
            && (generic.Failure? ==> !(fetched.Success? && fetched.value.Some?))
            && (generic.Success? ==> fetched.Success? || fetched == Failure(Malformed))
  {
  }
}
