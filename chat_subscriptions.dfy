/** `subscribeToChatMessages` and `unsubscribeFromChatMessages`, which
    app/api/twitch/subscriptions/service.ts and utils/twitch/subscriptions.ts
    both define. The two unsubscribe loops are the same code; the subscribe
    requests differ only in whether the condition carries a `user_id`
    (service.ts passes the bot's id, subscriptions.ts passes none). */
module ChatSubscriptions {
  import opened Wrappers
  import opened EventSub
  import opened Ordering

  /** The create request for chat messages of `broadcasterId`. */
  function ChatRequest(broadcasterId: string, userId: Option<string>): (req: SubRequest)
    ensures req.subType == ChannelChatMessage && req.condition.broadcasterUserId == broadcasterId
  {
    SubRequest(ChannelChatMessage, Condition(broadcasterId, userId), WebhookCallback)
  }

  /** Create one channel.chat.message subscription; a non-OK reply throws
      (`None`), an OK reply returns the created subscription. */
  method SubscribeToChatMessages(api: Remote, broadcasterId: string, userId: Option<string>, reply: int)
    returns (r: Option<Subscription>)
    requires api.Valid()
    modifies api
    ensures api.Valid()
    ensures r.Some? <==> IsOk(reply)
    ensures api.subs == old(api.subs) + Materialize(if IsOk(reply) then [ChatRequest(broadcasterId, userId)] else [],
                                                    old(api.nextId))
    ensures r.Some? ==> r.value == Materialize([ChatRequest(broadcasterId, userId)], old(api.nextId))[0]
  {
    var req := ChatRequest(broadcasterId, userId);
    var id := api.nextId;
    var created := api.Create(req, reply);
    if !created {
      return None;
    }
    r := Some(Subscription(id, req.subType, "1", req.condition, req.callback, VerificationPending));
  }

  /** The delete loop selects the chat subscriptions of this broadcaster. */
  function OfBroadcaster(broadcasterId: string): Subscription -> bool {
    (s: Subscription) => s.condition.broadcasterUserId == broadcasterId
  }

  /** List every channel.chat.message subscription (a failed list leaves
      `data` undefined, so the loop throws before deleting anything), then
      delete those of `broadcasterId` in list order, throwing at the first
      refused delete. */
  method UnsubscribeFromChatMessages(api: Remote, broadcasterId: string, listOk: bool, deleteOk: nat -> bool)
    returns (c: Call)
    requires api.Valid()
    modifies api
    ensures api.Valid()
    ensures !listOk ==> c == Threw && api.subs == old(api.subs)
    ensures listOk ==>
              var run := RunDeletes(ListByType(old(api.subs), ChannelChatMessage), OfBroadcaster(broadcasterId), deleteOk);
              && api.subs == WithoutIds(old(api.subs), run.deleted)
              && (c == Threw <==> run.failed)
  {
    if !listOk {
      return Threw;
    }
    var list := ListByType(api.subs, ChannelChatMessage);
    c := DeleteUntilFailure(api, list, OfBroadcaster(broadcasterId), deleteOk);
  }

  /** Another broadcaster's subscription, and any subscription that is not a
      chat subscription, survives the unsubscribe loop. */
  lemma UnsubscribeSparesOthers(subs: seq<Subscription>, broadcasterId: string, deleteOk: nat -> bool, s: Subscription)
    requires IdsDetermine(subs) && s in subs
    requires s.condition.broadcasterUserId != broadcasterId || s.subType != ChannelChatMessage
    ensures s in WithoutIds(subs, RunDeletes(ListByType(subs, ChannelChatMessage), OfBroadcaster(broadcasterId), deleteOk).deleted)
  {
    var run := RunDeletes(ListByType(subs, ChannelChatMessage), OfBroadcaster(broadcasterId), deleteOk);
    var p := (t: Subscription) => t.subType == ChannelChatMessage && t.condition.broadcasterUserId == broadcasterId;
    RunDeletesSelected(ListByType(subs, ChannelChatMessage), OfBroadcaster(broadcasterId), deleteOk);
    FilterMembers(subs, (t: Subscription) => t.subType == ChannelChatMessage);
    forall id | id in run.deleted ensures exists t :: t in subs && p(t) && t.id == id {
      var t :| t in ListByType(subs, ChannelChatMessage) && OfBroadcaster(broadcasterId)(t) && t.id == id;
      assert p(t);
    }
    SparesUnselected(subs, run.deleted, p, s);
  }

  /** When every delete is accepted, no chat subscription of the broadcaster
      is left. */
  lemma UnsubscribeAllOkClears(subs: seq<Subscription>, broadcasterId: string, deleteOk: nat -> bool)
    requires forall t :: t in subs && t.subType == ChannelChatMessage && t.condition.broadcasterUserId == broadcasterId
                         ==> deleteOk(t.id)
    ensures var run := RunDeletes(ListByType(subs, ChannelChatMessage), OfBroadcaster(broadcasterId), deleteOk);
            && !run.failed
            && forall t :: t in WithoutIds(subs, run.deleted) ==>
                 t.subType != ChannelChatMessage || t.condition.broadcasterUserId != broadcasterId
  {
    var list := ListByType(subs, ChannelChatMessage);
    FilterMembers(subs, (t: Subscription) => t.subType == ChannelChatMessage);
    RunDeletesAllOk(list, OfBroadcaster(broadcasterId), deleteOk);
    var run := RunDeletes(list, OfBroadcaster(broadcasterId), deleteOk);
    FilterMembers(subs, (t: Subscription) => t.id !in run.deleted);
  }
}
