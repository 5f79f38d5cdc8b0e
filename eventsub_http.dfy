/** The request and response shapes shared by the two EventSub webhook
    routes: the four Twitch-Eventsub-* headers, the JSON envelope as far as
    the routes read it, and the HTTP response. */
module EventSubHttp {
  import opened Wrappers

  const VerificationType: string := "webhook_callback_verification"
  const NotificationType: string := "notification"
  const RevocationType: string := "revocation"

  /** Twitch-Eventsub-Message-{Id, Timestamp, Type, Signature}; `None` when the
      header is absent. */
  datatype Headers = Headers(messageId: Option<string>, timestamp: Option<string>,
                             messageType: Option<string>, signature: Option<string>)

  /** The `subscription` object of the envelope. */
  datatype SubscriptionInfo = SubscriptionInfo(subType: Option<string>, status: Option<string>)

  /** What `JSON.parse` yields, as far as the routes look at it: `null`, on
      which every property access throws, or a value whose `challenge` and
      `subscription` properties may be absent (a number, string or array
      behaves as an object without these properties). */
  datatype Json =
    | JsonNull
    | JsonObject(challenge: Option<string>, subscription: Option<SubscriptionInfo>)

  /** `JSON.parse` on the raw body: `None` when it throws. */
  type Parser = string -> Option<Json>

  /** An HTTP response: status, body (`None` for `null`/`undefined`) and
      whether the Content-Type is text/plain. */
  datatype Response = Response(status: int, body: Option<string>, plainText: bool)
}
