/** The relay endpoint (`POST /api/proxy`): it reads a request description, issues
    the outbound request and normalises what comes back into a JSON envelope.
    The outbound `fetch` and the clock are not part of the model: the outcome of the
    outbound call, including the elapsed milliseconds, is an input, and the relay
    returns the call it would make so that "no call is made" can be stated. */
module ProxyRoute {
  import opened JsValues

  const UrlRequired := "URL is required"
  const UnknownError := "Unknown error"
  const UnreadableBody := "Could not read response body"
  const NoStore := "no-store"
  const DefaultMethod := "GET"

  const XRequestUrl := "x-request-url"
  const XRequestMethod := "x-request-method"
  const XResponseTime := "x-response-time"

  /** The fields destructured from the parsed JSON body; each may be absent. */
  datatype RequestFields = RequestFields(
    url: Option<string>,
    httpMethod: Option<string>,
    headers: Option<map<string, string>>,
    body: Option<string>)

  /** What `await request.json()` yields: the fields, or the exception it throws. */
  datatype Incoming = Parsed(fields: RequestFields) | Unparsable(thrown: Thrown)

  /** The `RequestInit` handed to the outbound `fetch`. */
  datatype FetchOptions = FetchOptions(
    httpMethod: string,
    headers: map<string, string>,
    cache: string,
    body: Option<string>)

  datatype FetchCall = FetchCall(url: string, options: FetchOptions)

  /** `await response.text()`: the decoded text, or a failure to read it. */
  datatype BodyRead = Decoded(text: string) | DecodeFailed

  /** What the outbound call produced: an exception from `fetch`, or a response
      with the milliseconds between the two clock readings around the call
      (possibly negative: the wall clock is not monotonic). */
  datatype FetchOutcome =
    | NetworkFailure(thrown: Thrown)
    | Completed(status: int, statusText: string, headers: map<string, string>, body: BodyRead, elapsed: int)

  datatype Envelope = Envelope(status: int, statusText: string, headers: map<string, string>, body: string)

  /** The JSON the endpoint answers with. */
  datatype Payload = EnvelopePayload(envelope: Envelope) | ErrorPayload(error: string)

  /** `NextResponse.json(payload, { status })`; the status defaults to 200. */
  datatype Reply = Reply(httpStatus: int, payload: Payload)

  /** One invocation: the outbound call it made, if any, and its reply. */
  datatype Handled = Handled(call: Option<FetchCall>, reply: Reply)

  predicate IsSynthetic(name: string) {
    name == XRequestUrl || name == XRequestMethod || name == XResponseTime
  }

  /** The method that goes out: `method || "GET"`. */
  function ResolvedMethod(httpMethod: Option<string>): (m: string)
    ensures m != ""
    ensures Truthy(httpMethod) ==> m == httpMethod.value
    ensures !Truthy(httpMethod) ==> m == DefaultMethod
  {
    OrElse(httpMethod, DefaultMethod)
  }

  /** The body guard; it tests the method as received, not the resolved one. */
  predicate AttachesBody(fields: RequestFields) {
    Truthy(fields.body) && fields.httpMethod != Some("GET") && fields.httpMethod != Some("HEAD")
  }

  /** The options object: built with the resolved method, the given headers (or none)
      and caching disabled, then given the body when the guard lets it through. */
  function OutboundOptions(fields: RequestFields): (o: FetchOptions)
    ensures o.httpMethod == ResolvedMethod(fields.httpMethod)
    ensures fields.headers.Some? ==> o.headers == fields.headers.value
    ensures fields.headers.None? ==> o.headers == map[]
    ensures o.cache == NoStore
    ensures o.body.Some? <==> Truthy(fields.body) && fields.httpMethod != Some("GET") && fields.httpMethod != Some("HEAD")
    ensures o.body.Some? ==> o.body == fields.body
  {
    var options := FetchOptions(
      ResolvedMethod(fields.httpMethod),
      if fields.headers.Some? then fields.headers.value else map[],
      NoStore,
      None);
    if AttachesBody(fields) then options.(body := fields.body) else options
  }

  /** The header record of the envelope: every response header, then the three
      synthetic headers written over it. */
  function ResponseHeaders(received: map<string, string>, url: string, httpMethod: string, elapsed: int): (r: map<string, string>)
    ensures r.Keys == received.Keys + {XRequestUrl, XRequestMethod, XResponseTime}
    ensures r[XRequestUrl] == url && r[XRequestMethod] == httpMethod
    ensures r[XResponseTime] == NumberToString(elapsed) + "ms"
    ensures forall name :: name in received && !IsSynthetic(name) ==> r[name] == received[name]
  {
    received[XRequestUrl := url][XRequestMethod := httpMethod][XResponseTime := NumberToString(elapsed) + "ms"]
  }

  /** The header loop of the handler: copies every response header one at a time,
      in no particular order, then assigns the three synthetic headers. */
  method CollectHeaders(received: map<string, string>, url: string, httpMethod: string, elapsed: int)
    returns (collected: map<string, string>)
    ensures collected == ResponseHeaders(received, url, httpMethod, elapsed)
  {
    collected := map[];
    var pending := received.Keys;
    while pending != {}
      invariant pending <= received.Keys
      invariant collected.Keys == received.Keys - pending
      invariant forall name :: name in collected ==> collected[name] == received[name]
      decreases pending
    {
      var name :| name in pending;
      collected := collected[name := received[name]];
      pending := pending - {name};
    }
    assert collected == received;
    collected := collected[XRequestUrl := url];
    collected := collected[XRequestMethod := httpMethod];
    collected := collected[XResponseTime := NumberToString(elapsed) + "ms"];
  }

  /** The response body, or the placeholder when it cannot be read. */
  function BodyText(read: BodyRead): (s: string)
    ensures read.Decoded? ==> s == read.text
    ensures read.DecodeFailed? ==> s == UnreadableBody
  {
    match read
    case Decoded(text) => text
    case DecodeFailed => UnreadableBody
  }

  function ErrorReply(httpStatus: int, message: string): Reply {
    Reply(httpStatus, ErrorPayload(message))
  }

  /** The `POST` handler. */
  function Relay(incoming: Incoming, outcome: FetchOutcome): (h: Handled)
    // an unparsable body is an execution error, before any outbound call
    ensures incoming.Unparsable? ==>
      h == Handled(None, ErrorReply(500, MessageOr(incoming.thrown, UnknownError)))
    // a missing or empty url is a client error, before any outbound call
    ensures incoming.Parsed? && !Truthy(incoming.fields.url) ==>
      h == Handled(None, ErrorReply(400, UrlRequired))
    // exactly one outbound call when the url is present, to that url with those options
    ensures h.call.Some? <==> incoming.Parsed? && Truthy(incoming.fields.url)
    ensures h.call.Some? ==>
      h.call.value == FetchCall(incoming.fields.url.value, OutboundOptions(incoming.fields))
    // a failed call gives a 500 error with the failure's message and no envelope
    ensures h.call.Some? && outcome.NetworkFailure? ==>
      h.reply == ErrorReply(500, MessageOr(outcome.thrown, UnknownError))
    // a completed call gives an envelope, whatever the target's status
    ensures h.call.Some? && outcome.Completed? ==>
      && h.reply.httpStatus == 200
      && h.reply.payload.EnvelopePayload?
      && h.reply.payload.envelope.status == outcome.status
      && h.reply.payload.envelope.statusText == outcome.statusText
      && h.reply.payload.envelope.body == BodyText(outcome.body)
      && h.reply.payload.envelope.headers ==
           ResponseHeaders(outcome.headers, h.call.value.url, h.call.value.options.httpMethod, outcome.elapsed)
    // an envelope exactly on a 200 reply; an error payload exactly on 400 or 500
    ensures h.reply.payload.EnvelopePayload? <==> h.reply.httpStatus == 200
    ensures h.reply.httpStatus in {200, 400, 500}
  {
    match incoming
    case Unparsable(thrown) => Handled(None, ErrorReply(500, MessageOr(thrown, UnknownError)))
    case Parsed(fields) =>
      if !Truthy(fields.url) then
        Handled(None, ErrorReply(400, UrlRequired))
      else
        var call := FetchCall(fields.url.value, OutboundOptions(fields));
        match outcome
        case NetworkFailure(thrown) =>
          Handled(Some(call), ErrorReply(500, MessageOr(thrown, UnknownError)))
        case Completed(status, statusText, received, read, elapsed) =>
          var headers := ResponseHeaders(received, call.url, call.options.httpMethod, elapsed);
          Handled(Some(call), Reply(200, EnvelopePayload(Envelope(status, statusText, headers, BodyText(read)))))
  }

  // ---------------------------------------------------------------------------
  // Properties of the handler

  /** The milliseconds in `x-response-time`, read back from its value. */
  function ElapsedOf(value: string): Option<int> {
    if |value| >= 2 && value[|value| - 2..] == "ms" then ParseInteger(value[..|value| - 2]) else None
  }

  /** A successful envelope echoes the call it made: `x-request-url` is the url fetched,
      `x-request-method` the method it went out with, and `x-response-time` reads back
      as the measured milliseconds. */
  lemma EnvelopeDescribesCall(incoming: Incoming, outcome: FetchOutcome)
    requires Relay(incoming, outcome).reply.payload.EnvelopePayload?
    ensures var h := Relay(incoming, outcome);
      && h.call.Some?
      && outcome.Completed?
      && h.reply.payload.envelope.headers[XRequestUrl] == h.call.value.url
      && h.reply.payload.envelope.headers[XRequestMethod] == h.call.value.options.httpMethod
      && ElapsedOf(h.reply.payload.envelope.headers[XResponseTime]) == Some(outcome.elapsed)
  {
    var h := Relay(incoming, outcome);
    var value := h.reply.payload.envelope.headers[XResponseTime];
    var text := NumberToString(outcome.elapsed);
    assert value == text + "ms";
    assert value[|value| - 2..] == "ms";
    assert value[..|value| - 2] == text;
    NumberToStringRoundTrip(outcome.elapsed);
  }

  /** Given a method, the guard agrees with the resolved method: GET and HEAD never
      carry a body, every other method carries the body unchanged when it is non-empty. */
  lemma BodyFollowsGivenMethod(fields: RequestFields)
    requires Truthy(fields.httpMethod)
    ensures var o := OutboundOptions(fields);
      o.body.Some? <==> Truthy(fields.body) && o.httpMethod != "GET" && o.httpMethod != "HEAD"
  {
  }

  /** Without a method the outbound options name GET and still carry a non-empty body:
      the guard reads the method as received. */
  lemma AbsentMethodKeepsBody(fields: RequestFields)
    requires !Truthy(fields.httpMethod) && Truthy(fields.body)
    ensures var o := OutboundOptions(fields);
      o.httpMethod == "GET" && o.body == fields.body
  {
  }

  /** The relay is transparent to the target's status: two outcomes that differ only in
      status give envelopes that differ only in status. */
  lemma StatusPassesThrough(incoming: Incoming, outcome: FetchOutcome, status: int)
    requires outcome.Completed?
    ensures var h1 := Relay(incoming, outcome);
      var h2 := Relay(incoming, outcome.(status := status));
      h1.call == h2.call &&
      (h1.reply.payload.EnvelopePayload? ==>
        h2.reply == Reply(200, EnvelopePayload(h1.reply.payload.envelope.(status := status))))
  {
  }
}
