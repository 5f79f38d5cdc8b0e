/** `verifyTwitchSignature` and `POST` of app/api/twitch/eventsub/route.ts.
    Unlike the webhook route, a missing header is a 403, a signature of the
    wrong length throws, the message type is read only after the signature
    check, `JSON.parse` is outside any try/catch, and a message type it does
    not know yields no response at all. */
module EventSubRoute {
  import opened Wrappers
  import opened EventSubHttp
  import WebhookVerification

  /** What the handler does: return a response, fall off the end of `POST`
      (`undefined`), or let an exception escape. */
  datatype Outcome = Respond(response: Response) | NoResponse | Threw

  /** `verifyTwitchSignature`: fail-closed on a missing header, then
      `crypto.timingSafeEqual`, which throws (`None`) when the two buffers
      differ in length and otherwise compares them. */
  function VerifyTwitchSignature(hmac: WebhookVerification.Digest, h: Headers, body: string): (ok: Option<bool>)
    ensures ok.None? <==>
              && WebhookVerification.Present(h.messageId) && WebhookVerification.Present(h.timestamp)
              && WebhookVerification.Present(h.signature)
              && |WebhookVerification.ExpectedSignature(hmac, h.messageId.value, h.timestamp.value, body)| != |h.signature.value|
    ensures ok == Some(true) <==> WebhookVerification.VerifyWebhookSignature(hmac, h.messageId, h.timestamp, h.signature, body)
  {
    if !WebhookVerification.Present(h.messageId) || !WebhookVerification.Present(h.timestamp)
       || !WebhookVerification.Present(h.signature)
    then Some(false)
    else
      var expected := WebhookVerification.ExpectedSignature(hmac, h.messageId.value, h.timestamp.value, body);
      if |expected| != |h.signature.value| then None
      else Some(expected == h.signature.value)
  }

  function Post(hmac: WebhookVerification.Digest, parse: Parser, h: Headers, body: string): (r: Outcome)
    ensures r == Respond(Response(403, Some("Invalid signature"), false)) <==> VerifyTwitchSignature(hmac, h, body) == Some(false)
    ensures VerifyTwitchSignature(hmac, h, body).None? ==> r == Threw
    ensures r.Respond? ==> r.response.status in {200, 204, 403}
    ensures r.Respond? && r.response.status == 200 ==>
              h.messageType == Some(VerificationType) && r.response.plainText
    ensures VerifyTwitchSignature(hmac, h, body) == Some(true) && parse(body).None? ==> r == Threw
    ensures (&& VerifyTwitchSignature(hmac, h, body) == Some(true) && parse(body).Some? && parse(body).value.JsonObject?
             && h.messageType == Some(VerificationType))
            ==> r == Respond(Response(200, parse(body).value.challenge, true))
    ensures (&& VerifyTwitchSignature(hmac, h, body) == Some(true) && parse(body).Some? && parse(body).value.JsonObject?
             && h.messageType == Some(RevocationType))
            ==> r == Respond(Response(204, None, false))
    ensures (&& VerifyTwitchSignature(hmac, h, body) == Some(true) && parse(body).Some?
             && h.messageType !in {Some(VerificationType), Some(NotificationType), Some(RevocationType)})
            ==> r == NoResponse
  {
    match VerifyTwitchSignature(hmac, h, body)
    case None => Threw
    case Some(false) => Respond(Response(403, Some("Invalid signature"), false))
    case Some(true) =>
      match parse(body)
      case None => Threw
      case Some(data) =>
        if h.messageType == Some(VerificationType) then
          if data.JsonNull? then Threw else Respond(Response(200, data.challenge, true))
        else if h.messageType == Some(RevocationType) then
          // `data.subscription` is logged; only a null envelope throws
          if data.JsonNull? then Threw else Respond(Response(204, None, false))
        else if h.messageType == Some(NotificationType) then
          // inside try/catch: a failed `data.subscription.type` is logged and
          // the handler falls off the end
          if data.JsonNull? || data.subscription.None? then NoResponse
          else Respond(Response(204, None, false))
        else
          NoResponse
  }

  /** A missing id, timestamp or signature header is a 403 here (the webhook
      route answers 400), and the body is never parsed. */
  lemma MissingHeaderForbidden(hmac: WebhookVerification.Digest, p1: Parser, p2: Parser, h: Headers, body: string)
    requires !WebhookVerification.Present(h.messageId) || !WebhookVerification.Present(h.timestamp)
             || !WebhookVerification.Present(h.signature)
    ensures Post(hmac, p1, h, body) == Post(hmac, p2, h, body) == Respond(Response(403, Some("Invalid signature"), false))
  {
  }

  /** A rejected or throwing signature check does not depend on the message
      type header, which is read only after it. */
  lemma TypeReadAfterSignature(hmac: WebhookVerification.Digest, parse: Parser, h: Headers, t: Option<string>, body: string)
    requires VerifyTwitchSignature(hmac, h, body) != Some(true)
    ensures Post(hmac, parse, h.(messageType := t), body) == Post(hmac, parse, h, body)
  {
  }

  /** A verified notification is acknowledged with 204 whatever its
      subscription type. */
  lemma NotificationAcknowledged(hmac: WebhookVerification.Digest, parse: Parser, h: Headers, body: string,
                                 info: SubscriptionInfo, challenge: Option<string>)
    requires VerifyTwitchSignature(hmac, h, body) == Some(true)
    requires h.messageType == Some(NotificationType)
    requires parse(body) == Some(JsonObject(challenge, Some(info)))
    ensures Post(hmac, parse, h, body) == Respond(Response(204, None, false))
  {
  }
}
