/** The page and the relay endpoint together: the payload the page posts, as the
    endpoint parses it, and the endpoint's reply, as the page decodes it. */
module ClientRelay {
  import opened JsValues
  import Page
  import ProxyRoute

  /** The relay's view of a posted payload: every field the page sends is present,
      and the body is absent exactly when the page left it `undefined`. */
  function AsIncoming(p: Page.Payload): ProxyRoute.Incoming {
    ProxyRoute.Parsed(ProxyRoute.RequestFields(Some(p.url), Some(p.httpMethod), Some(p.headers), p.body))
  }

  /** The page's view of a relay reply: an envelope supplies all four fields, an error
      object supplies none of them (the page does not read `error`). */
  function AsReplyData(reply: ProxyRoute.Reply): (d: Page.ReplyData)
    ensures reply.payload.EnvelopePayload? ==>
      d == Page.ReplyData(Some(reply.payload.envelope.status), Some(reply.payload.envelope.statusText),
                          Some(reply.payload.envelope.headers), Some(reply.payload.envelope.body))
    ensures reply.payload.ErrorPayload? ==> d == Page.ReplyData(None, None, None, None)
  {
    match reply.payload
    case EnvelopePayload(e) => Page.ReplyData(Some(e.status), Some(e.statusText), Some(e.headers), Some(e.body))
    case ErrorPayload(_) => Page.ReplyData(None, None, None, None)
  }

  /** A request composed on the page: an empty url is refused with no outbound call;
      otherwise the outbound call goes to that url with the selected method and the
      serialised headers, and carries the body exactly when it is non-empty and the
      method is neither GET nor HEAD. The selector never offers an empty method, so
      the guard's reading of the raw method cannot attach a body to a GET from here. */
  lemma ComposedRequest(url: string, httpMethod: string, rows: seq<Page.HeaderPair>, body: string,
                        outcome: ProxyRoute.FetchOutcome)
    requires httpMethod in Page.Methods
    ensures var h := ProxyRoute.Relay(AsIncoming(Page.BuildPayload(url, httpMethod, rows, body)), outcome);
      && (url == "" ==> h == ProxyRoute.Handled(None, ProxyRoute.Reply(400, ProxyRoute.ErrorPayload(ProxyRoute.UrlRequired))))
      && (url != "" ==>
            && h.call.Some?
            && h.call.value.url == url
            && h.call.value.options.httpMethod == httpMethod
            && h.call.value.options.headers == Page.SerializeHeaders(rows)
            && h.call.value.options.cache == ProxyRoute.NoStore
            && (h.call.value.options.body.Some? <==> body != "" && httpMethod != "GET" && httpMethod != "HEAD")
            && (h.call.value.options.body.Some? ==> h.call.value.options.body.value == body))
  {
  }

  /** The badge shows success exactly when the relay completed the call and the target
      answered 2xx; relay errors (400, 500) and target errors are both shown as failures. */
  lemma BadgeOfRelayedReply(incoming: ProxyRoute.Incoming, outcome: ProxyRoute.FetchOutcome)
    ensures var h := ProxyRoute.Relay(incoming, outcome);
      Page.IsSuccessBadge(AsReplyData(h.reply).status) <==>
        h.call.Some? && outcome.Completed? && 200 <= outcome.status < 300
  {
  }
}
