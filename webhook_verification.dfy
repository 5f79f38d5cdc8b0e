/** The EventSub signature check of utils/twitch/webhook-verification.ts.
    The HMAC-SHA256 digest (section 2 of RFC 2104), keyed with the webhook
    secret and hex-encoded, is not modelled: it is a parameter `hmac`, so
    every property below holds for any digest function. */
module WebhookVerification {
  import opened Wrappers

  /** Hex HMAC-SHA256 of a message under the webhook secret. */
  type Digest = string -> string

  const HmacPrefix: string := "sha256="

  /** A header value JavaScript treats as truthy: present and non-empty. */
  predicate Present(h: Option<string>) {
    h.Some? && h.value != ""
  }

  /** The signature Twitch sends for a genuine message: the prefix followed by
      the digest of the id, the timestamp and the raw body, concatenated. */
  function ExpectedSignature(hmac: Digest, messageId: string, timestamp: string, body: string): (sig: string)
    ensures HmacPrefix <= sig
    ensures sig[|HmacPrefix|..] == hmac(messageId + timestamp + body)
  {
    HmacPrefix + hmac(messageId + timestamp + body)
  }

  /** `verifyWebhookSignature`: fails closed on a missing id, timestamp or
      signature, before anything is hashed; otherwise accepts exactly the
      expected signature. */
  function VerifyWebhookSignature(hmac: Digest, messageId: Option<string>, timestamp: Option<string>,
                                  signature: Option<string>, body: string): (ok: bool)
    ensures !Present(messageId) || !Present(timestamp) || !Present(signature) ==> !ok
    ensures ok ==> HmacPrefix <= signature.value
    ensures Present(messageId) && Present(timestamp) && Present(signature) ==>
              (ok <==> signature.value == ExpectedSignature(hmac, messageId.value, timestamp.value, body))
  {
    if !Present(messageId) || !Present(timestamp) || !Present(signature) then false
    else ExpectedSignature(hmac, messageId.value, timestamp.value, body) == signature.value
  }

  /** A signature without the "sha256=" prefix is rejected whatever the digest. */
  lemma UnprefixedRejected(hmac: Digest, messageId: Option<string>, timestamp: Option<string>,
                           signature: string, body: string)
    requires !(HmacPrefix <= signature)
    ensures !VerifyWebhookSignature(hmac, messageId, timestamp, Some(signature), body)
  {
  }

  /** Only the concatenation id + timestamp + body is hashed: moving the first
      `k` characters of the timestamp onto the end of the id leaves the verdict
      unchanged (as long as both headers stay non-empty). */
  lemma {:induction false} BoundaryIrrelevant(hmac: Digest, messageId: string, timestamp: string,
                                              signature: Option<string>, body: string, k: nat)
    requires messageId != "" && k < |timestamp|
    ensures VerifyWebhookSignature(hmac, Some(messageId + timestamp[..k]), Some(timestamp[k..]), signature, body)
         == VerifyWebhookSignature(hmac, Some(messageId), Some(timestamp), signature, body)
  {
    assert (messageId + timestamp[..k]) + timestamp[k..] + body == messageId + timestamp + body by {
      assert timestamp[..k] + timestamp[k..] == timestamp;
    }
  }
}
