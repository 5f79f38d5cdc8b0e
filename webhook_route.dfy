/** `POST` of app/api/twitch/webhook/route.ts: header presence check (400),
    signature check on the raw body (403), JSON parse, then dispatch on the
    message type; every exception becomes 500. */
module WebhookRoute {
  import opened Wrappers
  import opened EventSubHttp
  import WebhookVerification

  predicate AllHeadersPresent(h: Headers) {
    && WebhookVerification.Present(h.messageId)
    && WebhookVerification.Present(h.timestamp)
    && WebhookVerification.Present(h.messageType)
    && WebhookVerification.Present(h.signature)
  }

  /** The signature matches the digest of the raw body exactly as received. */
  predicate SignatureMatches(hmac: WebhookVerification.Digest, h: Headers, body: string)
    requires AllHeadersPresent(h)
  {
    h.signature.value == WebhookVerification.ExpectedSignature(hmac, h.messageId.value, h.timestamp.value, body)
  }

  /** Dispatch after the signature has been accepted and the body parsed. */
  function Dispatch(messageType: string, data: Json): (r: Response)
    ensures r.status in {200, 204, 500}
    ensures r.status == 200 <==> messageType == VerificationType && data.JsonObject?
    ensures r.status == 200 ==> r.plainText && r.body == data.challenge
    ensures messageType !in {VerificationType, NotificationType, RevocationType} ==> r.status == 204
    ensures messageType in {NotificationType, RevocationType} ==>
              (r.status == 204 <==> data.JsonObject? && data.subscription.Some?)
  {
    if messageType == VerificationType then
      // `data.challenge` throws on null
      if data.JsonNull? then Response(500, Some("Internal Server Error"), false)
      else Response(200, data.challenge, true)
    else if messageType == NotificationType then
      // `data.subscription.type` throws unless `subscription` is there;
      // stream.online and stream.offline are only logged
      if data.JsonNull? || data.subscription.None? then Response(500, Some("Internal Server Error"), false)
      else Response(204, None, false)
    else if messageType == RevocationType then
      // `data.subscription.status` is read for the log line
      if data.JsonNull? || data.subscription.None? then Response(500, Some("Internal Server Error"), false)
      else Response(204, None, false)
    else
      Response(204, None, false)
  }

  function Post(hmac: WebhookVerification.Digest, parse: Parser, h: Headers, body: string): (r: Response)
    ensures r.status in {200, 204, 400, 403, 500}
    ensures r.status == 400 <==> !AllHeadersPresent(h)
    ensures r.status == 403 <==> AllHeadersPresent(h) && !SignatureMatches(hmac, h, body)
    ensures r.status == 200 ==> r.plainText && h.messageType == Some(VerificationType)
    ensures AllHeadersPresent(h) && SignatureMatches(hmac, h, body) && parse(body).None? ==> r.status == 500
  {
    if !AllHeadersPresent(h) then
      Response(400, Some("Missing required headers"), false)
    else if !SignatureMatches(hmac, h, body) then
      Response(403, Some("Invalid signature"), false)
    else
      match parse(body)
      case None => Response(500, Some("Internal Server Error"), false)
      case Some(data) => Dispatch(h.messageType.value, data)
  }

  /** With a header missing the body is never looked at: any two bodies (and
      any parser) give the same 400. */
  lemma MissingHeadersIgnoreBody(hmac: WebhookVerification.Digest, p1: Parser, p2: Parser, h: Headers,
                                 body1: string, body2: string)
    requires !AllHeadersPresent(h)
    ensures Post(hmac, p1, h, body1) == Post(hmac, p2, h, body2)
    ensures Post(hmac, p1, h, body1).status == 400
  {
  }

  /** A bad signature is decided before `JSON.parse`: the parser cannot
      influence the 403. */
  lemma RejectedBeforeParse(hmac: WebhookVerification.Digest, p1: Parser, p2: Parser, h: Headers, body: string)
    requires AllHeadersPresent(h) && !SignatureMatches(hmac, h, body)
    ensures Post(hmac, p1, h, body) == Post(hmac, p2, h, body) == Response(403, Some("Invalid signature"), false)
  {
  }

  /** The route's accept decision is the verifier's of
      utils/twitch/webhook-verification.ts once all four headers are present. */
  lemma AgreesWithVerifier(hmac: WebhookVerification.Digest, parse: Parser, h: Headers, body: string)
    requires AllHeadersPresent(h)
    ensures Post(hmac, parse, h, body).status != 403 <==>
              WebhookVerification.VerifyWebhookSignature(hmac, h.messageId, h.timestamp, h.signature, body)
  {
  }

  /** A verified notification is acknowledged with 204 whatever its
      subscription type, once its envelope carries a subscription object. */
  lemma NotificationAcknowledged(hmac: WebhookVerification.Digest, parse: Parser, h: Headers, body: string,
                                 info: SubscriptionInfo, challenge: Option<string>)
    requires AllHeadersPresent(h) && SignatureMatches(hmac, h, body)
    requires h.messageType == Some(NotificationType)
    requires parse(body) == Some(JsonObject(challenge, Some(info)))
    ensures Post(hmac, parse, h, body) == Response(204, None, false)
  {
  }
}
