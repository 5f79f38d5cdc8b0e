/** `manageTwitchSubscriptions` of utils/twitch/server.ts: enabling posts
    stream.online then stream.offline without looking at what exists and
    throws at the first non-OK reply (a 409 included); disabling lists the
    user's subscriptions, throws if the list fails, and deletes every listed
    subscription in order, throwing at the first refused delete. */
module ServerSubscriptions {
  import opened Wrappers
  import opened EventSub
  import opened Ordering

  function PairRequest(subType: string, userId: string): (req: SubRequest)
    ensures req.subType == subType && req.condition.broadcasterUserId == userId && req.callback == WebhookCallback
  {
    SubRequest(subType, Condition(userId, None), WebhookCallback)
  }

  /** The delete loop selects every listed subscription, whatever its type. */
  function Everything(): Subscription -> bool {
    (s: Subscription) => true
  }

  method ManageTwitchSubscriptions(api: Remote, userId: string, botEnabled: bool, createReply: string -> int,
                                   listOk: bool, deleteOk: nat -> bool)
    returns (c: Call)
    requires api.Valid()
    modifies api
    ensures api.Valid()
    ensures botEnabled && !IsOk(createReply(StreamOnline)) ==> c == Threw && api.subs == old(api.subs)
    ensures botEnabled && IsOk(createReply(StreamOnline)) ==>
              && api.subs == old(api.subs) + Materialize([PairRequest(StreamOnline, userId)]
                                                         + (if IsOk(createReply(StreamOffline)) then [PairRequest(StreamOffline, userId)] else []),
                                                         old(api.nextId))
              && (c == Completed <==> IsOk(createReply(StreamOffline)))
    ensures !botEnabled && !listOk ==> c == Threw && api.subs == old(api.subs)
    ensures !botEnabled && listOk ==>
              var run := RunDeletes(ListForUser(old(api.subs), userId), Everything(), deleteOk);
              && api.subs == WithoutIds(old(api.subs), run.deleted)
              && (c == Threw <==> run.failed)
  {
    if botEnabled {
      var online := PairRequest(StreamOnline, userId);
      var onlineCreated := api.Create(online, createReply(StreamOnline));
      if !onlineCreated {
        return Threw;
      }
      var offline := PairRequest(StreamOffline, userId);
      var offlineCreated := api.Create(offline, createReply(StreamOffline));
      MaterializeAppend([online], offline, old(api.nextId));
      if !offlineCreated {
        return Threw;
      }
      return Completed;
    } else {
      if !listOk {
        return Threw;
      }
      var listed := ListForUser(api.subs, userId);
      c := DeleteUntilFailure(api, listed, Everything(), deleteOk);
    }
  }

  /** When every delete is accepted, no subscription naming the user is left,
      chat subscriptions included. */
  lemma DisableClearsUser(subs: seq<Subscription>, userId: string, deleteOk: nat -> bool)
    requires forall t :: t in subs ==> deleteOk(t.id)
    ensures var run := RunDeletes(ListForUser(subs, userId), Everything(), deleteOk);
            && !run.failed
            && forall t :: t in WithoutIds(subs, run.deleted) ==>
                 t.condition.broadcasterUserId != userId && t.condition.userId != Some(userId)
  {
    var listed := ListForUser(subs, userId);
    FilterMembers(subs, (t: Subscription) => t.condition.broadcasterUserId == userId || t.condition.userId == Some(userId));
    RunDeletesAllOk(listed, Everything(), deleteOk);
    var run := RunDeletes(listed, Everything(), deleteOk);
    FilterMembers(subs, (t: Subscription) => t.id !in run.deleted);
  }
}
