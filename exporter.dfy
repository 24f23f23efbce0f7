/**
 * `sendBatch` (main.go:191-281): wrap a batch in the envelope of one resource
 * and one scope, serialise it, POST it to `<endpoint>/v1/logs`, and classify
 * what happened. Each step that fails ends the call; nothing is retried.
 *
 * JSON encoding, request construction and the HTTP round trip are library
 * code: they are the abstract collaborators gathered in `Transport`.
 */
module Exporter {
  import opened Otlp

  /** The process identity every batch carries (main.go:192-213). */
  const ServiceResource := Resource([
    KeyValue("service.name", StringAttribute("my-go-app")),
    KeyValue("service.version", StringAttribute("1.0.0")),
    KeyValue("telemetry.sdk.language", StringAttribute("go"))])

  /** The instrumentation scope every batch carries (main.go:214-217). */
  const LoggerScope := Scope("custom-logger", "1.0")

  /** The resource's attributes are three string values under distinct keys. */
  lemma ServiceResourceWellFormed()
    ensures |ServiceResource.attributes| == 3
    ensures ServiceResource.attributes[0] == KeyValue("service.name", StringAttribute("my-go-app"))
    ensures ServiceResource.attributes[1] == KeyValue("service.version", StringAttribute("1.0.0"))
    ensures ServiceResource.attributes[2] == KeyValue("telemetry.sdk.language", StringAttribute("go"))
    ensures forall i, j :: 0 <= i < j < 3 ==>
              ServiceResource.attributes[i].key != ServiceResource.attributes[j].key
    ensures forall i :: 0 <= i < 3 ==>
              ExactlyOne(ServiceResource.attributes[i].value)
              && ServiceResource.attributes[i].value.stringValue.Some?
  {
  }

  /** The records of a payload holding one resource with one scope. */
  function RecordsOf(p: Payload): Option<seq<LogRecord>> {
    if |p.resourceLogs| == 1 && |p.resourceLogs[0].scopeLogs| == 1
    then Some(p.resourceLogs[0].scopeLogs[0].logRecords)
    else None
  }

  /**
   * The payload for a batch: one resource, the fixed one, with one scope, the
   * fixed one, whose records are the batch unchanged.
   */
  function Envelope(batch: seq<LogRecord>): (p: Payload)
    ensures |p.resourceLogs| == 1 && p.resourceLogs[0].resource == ServiceResource
    ensures |p.resourceLogs[0].scopeLogs| == 1 && p.resourceLogs[0].scopeLogs[0].scope == LoggerScope
    ensures RecordsOf(p) == Some(batch)
  {
    Payload([ResourceLogs(ServiceResource, [ScopeLogs(LoggerScope, batch)])])
  }

  /** Different batches give different payloads. */
  lemma EnvelopeInjective(a: seq<LogRecord>, b: seq<LogRecord>)
    requires Envelope(a) == Envelope(b)
    ensures a == b
  {
  }

  datatype HttpRequest = HttpRequest(verb: string, url: string, contentType: string, body: seq<uint8>)

  datatype HttpResponse = HttpResponse(statusCode: goInt, body: seq<uint8>)

  /**
   * The library calls `sendBatch` relies on: `json.Marshal` of the payload,
   * the error `http.NewRequest` reports for a method and URL (if any), and the
   * client's round trip.
   */
  datatype Transport = Transport(
    marshal: Payload -> Result<seq<uint8>, string>,
    requestError: (string, string) -> Option<string>,
    roundTrip: HttpRequest -> Result<HttpResponse, string>)

  datatype Outcome =
    | EncodeFailure(reason: string)
    | RequestFailure(reason: string)
    | TransportFailure(reason: string)
    | Rejected(status: goInt)
    | Delivered(status: goInt)

  /** What one call did: its outcome, and every request it handed to the client. */
  datatype Attempt = Attempt(outcome: Outcome, sent: seq<HttpRequest>)

  function LogsUrl(endpoint: string): string { endpoint + "/v1/logs" }

  /** The request for a serialised payload. */
  function PostRequest(endpoint: string, body: seq<uint8>): HttpRequest {
    HttpRequest("POST", LogsUrl(endpoint), "application/json", body)
  }

  /**
   * One delivery attempt. At most one request is ever sent, and one is sent
   * exactly when serialising and building the request both succeed; it carries
   * the serialised envelope of the batch. A sent request counts as rejected when
   * the status is 400 or more, as delivered when it is less, and as a transport
   * failure when no response came back.
   */
  function SendBatch(endpoint: string, batch: seq<LogRecord>, io: Transport): (a: Attempt)
    ensures |a.sent| <= 1
    ensures io.marshal(Envelope(batch)).Err? ==>
              a == Attempt(EncodeFailure(io.marshal(Envelope(batch)).error), [])
    ensures a.outcome.RequestFailure? <==>
              io.marshal(Envelope(batch)).Ok? && io.requestError("POST", LogsUrl(endpoint)).Some?
    ensures a.sent != [] <==>
              io.marshal(Envelope(batch)).Ok? && io.requestError("POST", LogsUrl(endpoint)).None?
    ensures a.sent != [] ==> a.sent[0] == PostRequest(endpoint, io.marshal(Envelope(batch)).value)
    ensures a.outcome.TransportFailure? <==> a.sent != [] && io.roundTrip(a.sent[0]).Err?
    ensures a.outcome.Rejected? <==>
              a.sent != [] && io.roundTrip(a.sent[0]).Ok? && io.roundTrip(a.sent[0]).value.statusCode >= 400
    ensures a.outcome.Delivered? <==>
              a.sent != [] && io.roundTrip(a.sent[0]).Ok? && io.roundTrip(a.sent[0]).value.statusCode < 400
    ensures (a.outcome.Rejected? || a.outcome.Delivered?) ==>
              a.outcome.status == io.roundTrip(a.sent[0]).value.statusCode
  {
    match io.marshal(Envelope(batch))
    case Err(e) => Attempt(EncodeFailure(e), [])
    case Ok(body) =>
      match io.requestError("POST", LogsUrl(endpoint))
      case Some(e) => Attempt(RequestFailure(e), [])
      case None =>
        var request := PostRequest(endpoint, body);
        match io.roundTrip(request)
        case Err(e) => Attempt(TransportFailure(e), [request])
        case Ok(response) =>
          if response.statusCode >= 400
          then Attempt(Rejected(response.statusCode), [request])
          else Attempt(Delivered(response.statusCode), [request])
  }

  /** A 422 from the collector is a rejection, and the batch is not sent again. */
  lemma UnprocessableIsRejectedOnce(endpoint: string, batch: seq<LogRecord>, io: Transport, body: seq<uint8>)
    requires io.marshal(Envelope(batch)) == Ok(body)
    requires io.requestError("POST", LogsUrl(endpoint)).None?
    requires io.roundTrip(PostRequest(endpoint, body)).Ok?
    requires io.roundTrip(PostRequest(endpoint, body)).value.statusCode == 422
    ensures SendBatch(endpoint, batch, io) == Attempt(Rejected(422), [PostRequest(endpoint, body)])
  {
  }
}
