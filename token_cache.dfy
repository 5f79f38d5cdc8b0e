/** The app access token route, app/api/twitch/token/route.ts: a
    module-level slot `{value, expiresAt}` served while `expiresAt > now`,
    otherwise refreshed from the OAuth endpoint with a 60 s safety margin.
    The two `Date.now()` readings are `now` (the hit test) and `later` (the
    new expiry). */
module TokenCache {
  import opened Wrappers

  const BufferTimeSeconds: int := 60

  datatype CachedToken = CachedToken(value: string, expiresAt: int)

  /** The OAuth endpoint's reply: a token with its lifetime in seconds, a
      non-OK response, or a request or body that throws. */
  datatype FetchReply = Granted(accessToken: string, expiresIn: int) | Refused | Unreachable

  datatype TokenResponse = AccessToken(token: string) | Failure500

  datatype Served = Served(slot: Option<CachedToken>, response: TokenResponse)

  predicate IsHit(slot: Option<CachedToken>, now: int) {
    slot.Some? && slot.value.expiresAt > now
  }

  /** One `GET`: the new slot and the response. */
  function Serve(slot: Option<CachedToken>, now: int, later: int, reply: FetchReply): (s: Served)
    ensures IsHit(slot, now) ==> s == Served(slot, AccessToken(slot.value.value))
    ensures !IsHit(slot, now) && reply.Granted? ==>
              s == Served(Some(CachedToken(reply.accessToken, later + (reply.expiresIn - BufferTimeSeconds) * 1000)),
                          AccessToken(reply.accessToken))
    ensures !IsHit(slot, now) && !reply.Granted? ==> s == Served(slot, Failure500)
    ensures s.response.AccessToken? ==> s.slot.Some? && s.response.token == s.slot.value.value
  {
    if IsHit(slot, now) then Served(slot, AccessToken(slot.value.value))
    else match reply
      case Granted(token, expiresIn) =>
        var entry := CachedToken(token, later + (expiresIn - BufferTimeSeconds) * 1000);
        Served(Some(entry), AccessToken(token))
      case _ => Served(slot, Failure500)
  }

  /** `GET` as the repository spells it: `TWITCH` is not exported by
      config/constants.ts, so it is `undefined` and `TWITCH.SCOPES` throws
      inside the `try` before any fetch. A hit is still served from the slot;
      every miss answers 500 and keeps the slot, whatever Twitch would have
      said. */
  function ServeUnboundScopes(slot: Option<CachedToken>, now: int): (s: Served)
    ensures IsHit(slot, now) ==> s == Served(slot, AccessToken(slot.value.value))
    ensures !IsHit(slot, now) ==> s == Served(slot, Failure500)
  {
    if IsHit(slot, now) then Served(slot, AccessToken(slot.value.value))
    else Served(slot, Failure500)
  }

  /** With the import unbound, a miss behaves as a refused fetch under the
      bound import, so the slot is never filled: an empty slot stays empty
      and every request answers 500. */
  lemma UnboundScopesAsRefused(slot: Option<CachedToken>, now: int, later: int)
    ensures ServeUnboundScopes(slot, now) == Serve(slot, now, later, Refused)
    ensures slot.None? ==> ServeUnboundScopes(slot, now) == Served(None, Failure500)
  {
  }

  /** The route module's state. */
  class TokenRoute {
    var cachedToken: Option<CachedToken>

    constructor ()
      ensures cachedToken.None?
    {
      cachedToken := None;
    }

    method Get(now: int, later: int, reply: FetchReply) returns (response: TokenResponse)
      modifies this
      ensures IsHit(old(cachedToken), now) ==> cachedToken == old(cachedToken) && response == AccessToken(cachedToken.value.value)
      ensures !IsHit(old(cachedToken), now) ==>
                match reply
                case Granted(token, expiresIn) =>
                  && cachedToken == Some(CachedToken(token, later + (expiresIn - BufferTimeSeconds) * 1000))
                  && response == AccessToken(token)
                case _ => cachedToken == old(cachedToken) && response == Failure500
      ensures Served(cachedToken, response) == Serve(old(cachedToken), now, later, reply)
    {
      if cachedToken.Some? && cachedToken.value.expiresAt > now {
        return AccessToken(cachedToken.value.value);
      }
      match reply {
        case Granted(token, expiresIn) =>
          cachedToken := Some(CachedToken(token, later + (expiresIn - BufferTimeSeconds) * 1000));
          response := AccessToken(token);
        case _ =>
          response := Failure500;
      }
    }
  }

  /** The hit path never consults the endpoint: any two replies give the same
      result. */
  lemma HitIgnoresFetch(slot: Option<CachedToken>, now: int, later: int, reply1: FetchReply, reply2: FetchReply)
    requires IsHit(slot, now)
    ensures Serve(slot, now, later, reply1) == Serve(slot, now, later, reply2)
  {
  }

  /** The comparison is strict: a token whose expiry equals `now` is
      refetched, so a refused refresh then answers 500. */
  lemma ExpiryIsStrict(token: string, now: int, later: int)
    ensures Serve(Some(CachedToken(token, now)), now, later, Refused).response == Failure500
  {
  }

  /** A token granted for at most 60 s is stored already expired: the next
      request, at any time not before the store, refetches. */
  lemma ShortLivedRefetch(slot: Option<CachedToken>, now: int, later: int, token: string, expiresIn: int,
                          next: int, nextLater: int, reply: FetchReply)
    requires !IsHit(slot, now) && expiresIn <= BufferTimeSeconds && next >= later
    ensures var stored := Serve(slot, now, later, Granted(token, expiresIn)).slot;
            !IsHit(stored, next) && Serve(stored, next, nextLater, reply).response == (if reply.Granted? then AccessToken(reply.accessToken) else Failure500)
  {
  }

  /** A token granted for more than 60 s is served from the slot until its
      expiry without a new fetch. */
  lemma LongLivedServedFromSlot(slot: Option<CachedToken>, now: int, later: int, token: string, expiresIn: int,
                                next: int, nextLater: int, reply: FetchReply)
    requires !IsHit(slot, now) && next < later + (expiresIn - BufferTimeSeconds) * 1000
    ensures var stored := Serve(slot, now, later, Granted(token, expiresIn)).slot;
            Serve(stored, next, nextLater, reply) == Served(stored, AccessToken(token))
  {
  }
}
