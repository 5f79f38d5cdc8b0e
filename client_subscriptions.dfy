/** `manageTwitchSubscriptions` of utils/twitch/client.ts: the callback is
    /api/twitch/eventsub and no response status is ever checked. Enabling
    posts both creates; disabling deletes every listed subscription of the
    user. Only a failed list throws, because `data.data` is then undefined
    and cannot be iterated. */
module ClientSubscriptions {
  import opened Wrappers
  import opened EventSub
  import opened Ordering

  function PairRequest(subType: string, userId: string): (req: SubRequest)
    ensures req.subType == subType && req.condition.broadcasterUserId == userId && req.callback == EventSubCallback
  {
    SubRequest(subType, Condition(userId, None), EventSubCallback)
  }

  /** The requests the remote accepts, in the order they are posted. */
  function Accepted(userId: string, createReply: string -> int): seq<SubRequest> {
    (if IsOk(createReply(StreamOnline)) then [PairRequest(StreamOnline, userId)] else [])
    + (if IsOk(createReply(StreamOffline)) then [PairRequest(StreamOffline, userId)] else [])
  }

  method Enable(api: Remote, userId: string, createReply: string -> int)
    requires api.Valid()
    modifies api
    ensures api.Valid()
    ensures api.subs == old(api.subs) + Materialize(Accepted(userId, createReply), old(api.nextId))
  {
    var online := PairRequest(StreamOnline, userId);
    var onlineCreated := api.Create(online, createReply(StreamOnline));
    ghost var first := if onlineCreated then [online] else [];
    var offline := PairRequest(StreamOffline, userId);
    var offlineCreated := api.Create(offline, createReply(StreamOffline));
    if offlineCreated {
      MaterializeAppend(first, offline, old(api.nextId));
    }
  }

  method ManageTwitchSubscriptions(api: Remote, userId: string, botEnabled: bool, createReply: string -> int,
                                   listOk: bool, deleteOk: nat -> bool)
    returns (c: Call)
    requires api.Valid()
    modifies api
    ensures api.Valid()
    ensures botEnabled ==>
              c == Completed && api.subs == old(api.subs) + Materialize(Accepted(userId, createReply), old(api.nextId))
    ensures !botEnabled && !listOk ==> c == Threw && api.subs == old(api.subs)
    ensures !botEnabled && listOk ==>
              c == Completed && api.subs == WithoutIds(old(api.subs), AcceptedDeletes(ListForUser(old(api.subs), userId), deleteOk))
  {
    if botEnabled {
      Enable(api, userId, createReply);
      return Completed;
    }
    if !listOk {
      return Threw;
    }
    var listed := ListForUser(api.subs, userId);
    DeleteEach(api, listed, deleteOk);
    return Completed;
  }

  /** A failed online create does not stop the offline create. */
  lemma OfflineDespiteOnlineFailure(subs: seq<Subscription>, userId: string, createReply: string -> int, nextId: nat)
    requires !IsOk(createReply(StreamOnline)) && IsOk(createReply(StreamOffline))
    ensures Materialize(Accepted(userId, createReply), nextId)
              == [Subscription(nextId, StreamOffline, "1", Condition(userId, None), EventSubCallback, VerificationPending)]
  {
  }

  /** Every listed subscription whose delete is accepted is gone, whatever
      its type. */
  lemma DisableRemovesAccepted(subs: seq<Subscription>, userId: string, deleteOk: nat -> bool, s: Subscription)
    requires s in subs && s.condition.broadcasterUserId == userId && deleteOk(s.id)
    ensures s !in WithoutIds(subs, AcceptedDeletes(ListForUser(subs, userId), deleteOk))
  {
    var ids := AcceptedDeletes(ListForUser(subs, userId), deleteOk);
    FilterMembers(subs, (t: Subscription) => t.condition.broadcasterUserId == userId || t.condition.userId == Some(userId));
    FilterMembers(subs, (t: Subscription) => t.id !in ids);
  }
}
