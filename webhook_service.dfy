/** app/api/twitch/webhook/service.ts: the `processMessage` variant that
    saves first, records the interaction before gating and gates on the
    settings read at entry, with its completion request answered by the
    `/api/openai/chat` route of this model; and the stream-start and
    stream-end handlers. The completion service behind that route is the
    parameter `complete`; the other collaborators are parameters as in
    utils/messages/service.ts. */
module WebhookService {
  import opened Wrappers
  import opened Store
  import opened Cooldown
  import opened ContextFormatter
  import opened Interaction
  import opened EventSub
  import opened ChatSubscriptions

  /** `generateAIResponse`: the `/api/openai/chat` answer, null unless OK. */
  function GenerateReply(request: AiRequest, settings: seq<SettingsRow>, botUserId: string,
                         complete: seq<Turn> -> Completion): (content: Option<string>)
    ensures var response := ChatRoute(request.messages, Some(request.priority.text), settings, botUserId, complete);
              && (response.Content? ==> content == response.content)
              && (response.Error500? ==> content.None?)
  {
    match ChatRoute(request.messages, Some(request.priority.text), settings, botUserId, complete)
    case Error500 => None
    case Content(c) => c
  }

  /** The effect of this `processMessage` on the tables and the chat. */
  function ProcessMessageOutcome(t: Tables, ev: MessageEvent, botUserId: string, timestamp: int, now: int,
                                 complete: seq<Turn> -> Completion, sendOk: bool): Outcome
  {
    if ev.userId == "" || ev.broadcasterId == "" then Outcome(t, [], MissingUserData, None)
    else
      var entry := SettingsOf(t.settings, ev.broadcasterId);
      if entry.None? then Outcome(t, [], NoSettings, None)
      else
        var saved := t.(messages := t.messages + [SavedRow(ev, timestamp)]);
        if ev.chatterId == botUserId then Outcome(saved, [], BotMessage, None)
        else
          var stamped := saved.(settings := SetLastInteraction(t.settings, ev.broadcasterId, timestamp));
          var recent := GetRecentMessagesWithUserData(stamped.messages, t.users, ev.broadcasterId, MessageContextSize);
          if recent == [] then Outcome(stamped, [], NoContext, None)
          else if !GateOpen(entry.value.lastInteraction, entry.value.cooldownSeconds, now) then Outcome(stamped, [], OnCooldown, None)
          else
            var request := AiRequest(FormatMessagesForAI(recent), PriorityFor(ev, timestamp));
            var content := GenerateReply(request, stamped.settings, botUserId, complete);
            if !IsTruthy(content) then Outcome(stamped, [], NoContent, Some(request))
            else Outcome(stamped, [ChatSend(ev.broadcasterId, content)], if sendOk then Replied else Aborted, Some(request))
  }

  /** This `processMessage`, run against the store and the chat outbox. */
  method ProcessMessage(db: Database, outbox: Outbox, ev: MessageEvent, botUserId: string, timestamp: int, now: int,
                        complete: seq<Turn> -> Completion, sendOk: bool)
    returns (stop: Stop, request: Option<AiRequest>)
    requires db.Valid()
    modifies db, outbox
    ensures db.Valid()
    ensures var o := ProcessMessageOutcome(old(db.Snapshot()), ev, botUserId, timestamp, now, complete, sendOk);
            && db.Snapshot() == o.tables && outbox.sent == old(outbox.sent) + o.sends
            && stop == o.stop && request == o.request
  {
    request := None;
    if ev.userId == "" || ev.broadcasterId == "" {
      return MissingUserData, None;
    }
    var entry := SettingsOf(db.settings, ev.broadcasterId);
    if entry.None? {
      return NoSettings, None;
    }
    db.InsertMessage(SavedRow(ev, timestamp));
    if ev.chatterId == botUserId {
      return BotMessage, None;
    }
    db.RecordInteraction(ev.broadcasterId, timestamp);
    var recent := GetRecentMessagesWithUserData(db.messages, db.users, ev.broadcasterId, MessageContextSize);
    if recent == [] {
      return NoContext, None;
    }
    if !GateOpen(entry.value.lastInteraction, entry.value.cooldownSeconds, now) {
      return OnCooldown, None;
    }
    request := Some(AiRequest(FormatMessagesForAI(recent), PriorityFor(ev, timestamp)));
    var content := GenerateReply(request.value, db.settings, botUserId, complete);
    if !IsTruthy(content) {
      return NoContent, request;
    }
    var threw := outbox.Send(ev.broadcasterId, content, sendOk);
    stop := if threw then Aborted else Replied;
  }

  /** Every message that has settings is saved before the bot check and the
      gate, and every one that is not the bot's overwrites
      `last_interaction` before the gate, even when the gate then closes. */
  lemma SavedAndStampedBeforeGate(t: Tables, ev: MessageEvent, botUserId: string, timestamp: int, now: int,
                                  complete: seq<Turn> -> Completion, sendOk: bool)
    requires ev.userId != "" && ev.broadcasterId != "" && SettingsOf(t.settings, ev.broadcasterId).Some?
    ensures var o := ProcessMessageOutcome(t, ev, botUserId, timestamp, now, complete, sendOk);
            && o.tables.messages == t.messages + [SavedRow(ev, timestamp)]
            && (ev.chatterId == botUserId <==> o.stop == BotMessage)
            && (ev.chatterId == botUserId ==> o.tables.settings == t.settings && o.sends == [])
            && (ev.chatterId != botUserId ==> o.tables.settings == SetLastInteraction(t.settings, ev.broadcasterId, timestamp))
  {
    var o := ProcessMessageOutcome(t, ev, botUserId, timestamp, now, complete, sendOk);
    var saved := t.(messages := t.messages + [SavedRow(ev, timestamp)]);
    if ev.chatterId == botUserId {
      assert o == Outcome(saved, [], BotMessage, None);
    } else {
      assert o.tables == saved.(settings := SetLastInteraction(t.settings, ev.broadcasterId, timestamp));
      assert o.stop != BotMessage;
    }
  }

  /** The gate reads the settings fetched at entry, so the stamp this
      message just wrote never closes its own gate; a closed gate still
      leaves the message saved and the stamp written. */
  lemma GateUsesEntrySettings(t: Tables, ev: MessageEvent, botUserId: string, timestamp: int, now: int,
                              complete: seq<Turn> -> Completion, sendOk: bool)
    requires ev.userId != "" && ev.broadcasterId != "" && ev.chatterId != botUserId
    requires var entry := SettingsOf(t.settings, ev.broadcasterId);
             entry.Some? && GetRecentMessagesWithUserData(t.messages + [SavedRow(ev, timestamp)], t.users, ev.broadcasterId,
                                                          MessageContextSize) != []
    ensures var o := ProcessMessageOutcome(t, ev, botUserId, timestamp, now, complete, sendOk);
            var entry := SettingsOf(t.settings, ev.broadcasterId).value;
            && (o.stop == OnCooldown <==> !GateOpen(entry.lastInteraction, entry.cooldownSeconds, now))
            && (o.stop == OnCooldown ==> o.sends == [] && o.tables.messages == t.messages + [SavedRow(ev, timestamp)]
                                         && o.tables.settings == SetLastInteraction(t.settings, ev.broadcasterId, timestamp))
  {
  }

  /** Every non-bot message restarts the stream's cooldown: the next
      message within it is stopped at the gate, though it is still saved
      and stamps `last_interaction` again. */
  lemma NextMessageWithinCooldownGated(t: Tables, ev: MessageEvent, botUserId: string, timestamp: int, now: int,
                                       complete: seq<Turn> -> Completion, sendOk: bool,
                                       next: MessageEvent, timestamp2: int, now2: int,
                                       complete2: seq<Turn> -> Completion, sendOk2: bool)
    requires ev.userId != "" && ev.broadcasterId != "" && ev.chatterId != botUserId
    requires next.userId != "" && next.broadcasterId == ev.broadcasterId && next.chatterId != botUserId
    requires var entry := SettingsOf(t.settings, ev.broadcasterId);
             entry.Some? && timestamp <= now2 < timestamp + entry.value.cooldownSeconds.GetOr(DefaultCooldownSeconds) * 1000
    ensures var o := ProcessMessageOutcome(t, ev, botUserId, timestamp, now, complete, sendOk);
            var o2 := ProcessMessageOutcome(o.tables, next, botUserId, timestamp2, now2, complete2, sendOk2);
            o2.sends == [] && o2.stop in {NoContext, OnCooldown}
  {
    var entry := SettingsOf(t.settings, ev.broadcasterId).value;
    var o := ProcessMessageOutcome(t, ev, botUserId, timestamp, now, complete, sendOk);
    SavedAndStampedBeforeGate(t, ev, botUserId, timestamp, now, complete, sendOk);
    var f := (s: SettingsRow) => s.(lastInteraction := Some(timestamp));
    SettingsOfAfterUpdate(t.settings, ev.broadcasterId, f, ev.broadcasterId);
    var entry2 := SettingsOf(o.tables.settings, next.broadcasterId);
    assert entry2 == Some(entry.(lastInteraction := Some(timestamp)));
    assert !GateOpen(entry2.value.lastInteraction, entry2.value.cooldownSeconds, now2);
  }

  /** A reply is posted exactly when the route answered OK with non-empty
      content, and it is that content. */
  lemma ReplyOnlyWithContent(t: Tables, ev: MessageEvent, botUserId: string, timestamp: int, now: int,
                             complete: seq<Turn> -> Completion, sendOk: bool)
    ensures var o := ProcessMessageOutcome(t, ev, botUserId, timestamp, now, complete, sendOk);
            && (o.sends != [] <==> o.request.Some? && IsTruthy(GenerateReply(o.request.value, o.tables.settings, botUserId, complete)))
            && (o.sends != [] ==> o.sends == [ChatSend(ev.broadcasterId, GenerateReply(o.request.value, o.tables.settings, botUserId, complete))])
  {
    var o := ProcessMessageOutcome(t, ev, botUserId, timestamp, now, complete, sendOk);
    var entry := SettingsOf(t.settings, ev.broadcasterId);
    if ev.userId != "" && ev.broadcasterId != "" && entry.Some? && ev.chatterId != botUserId {
      var stamped := t.(messages := t.messages + [SavedRow(ev, timestamp)],
                        settings := SetLastInteraction(t.settings, ev.broadcasterId, timestamp));
      assert o.tables == stamped;
      var recent := GetRecentMessagesWithUserData(stamped.messages, t.users, ev.broadcasterId, MessageContextSize);
      if recent != [] && GateOpen(entry.value.lastInteraction, entry.value.cooldownSeconds, now) {
        var request := AiRequest(FormatMessagesForAI(recent), PriorityFor(ev, timestamp));
        assert o.request == Some(request);
        var content := GenerateReply(request, stamped.settings, botUserId, complete);
        assert o.sends == if IsTruthy(content) then [ChatSend(ev.broadcasterId, content)] else [];
      } else {
        assert o.sends == [] && o.request.None?;
      }
    } else {
      assert o.sends == [] && o.request.None?;
    }
  }

  /** `handleStreamStart`: mark the stream live, then subscribe the bot to
      its chat. When no user has the broadcaster's Twitch id the status
      update throws and no subscription is attempted. The app token fetched
      in between is not modelled; `createReply` is the create call's status. */
  method HandleStreamStart(db: Database, api: Remote, broadcasterId: string, botUserId: string, now: int, createReply: int)
    returns (c: Call)
    requires db.Valid() && api.Valid()
    modifies db, api
    ensures db.Valid() && api.Valid()
    ensures var user := UserByTwitchId(old(db.users), broadcasterId);
            && db.messages == old(db.messages) && db.users == old(db.users)
            && (user.None? ==> c == Threw && db.settings == old(db.settings) && api.subs == old(api.subs))
            && (user.Some? ==>
                  && db.settings == UpsertStatus(old(db.settings), user.value.id, broadcasterId, true, now)
                  && api.subs == old(api.subs) + Materialize(if IsOk(createReply) then [ChatRequest(broadcasterId, Some(botUserId))] else [],
                                                             old(api.nextId))
                  && (c == Completed <==> IsOk(createReply)))
  {
    var user := db.UpdateStreamStatus(broadcasterId, true, now);
    if user.None? {
      return Threw;
    }
    var created := SubscribeToChatMessages(api, broadcasterId, Some(botUserId), createReply);
    c := if created.Some? then Completed else Threw;
  }

  /** `handleStreamEnd`: mark the stream offline, then unsubscribe from its
      chat; a failed status update attempts no unsubscribe. */
  method HandleStreamEnd(db: Database, api: Remote, broadcasterId: string, now: int, listOk: bool, deleteOk: nat -> bool)
    returns (c: Call)
    requires db.Valid() && api.Valid()
    modifies db, api
    ensures db.Valid() && api.Valid()
    ensures var user := UserByTwitchId(old(db.users), broadcasterId);
            && db.messages == old(db.messages) && db.users == old(db.users)
            && (user.None? ==> c == Threw && db.settings == old(db.settings) && api.subs == old(api.subs))
            && (user.Some? ==>
                  && db.settings == UpsertStatus(old(db.settings), user.value.id, broadcasterId, false, now)
                  && (!listOk ==> c == Threw && api.subs == old(api.subs))
                  && (listOk ==>
                        var run := RunDeletes(ListByType(old(api.subs), ChannelChatMessage), OfBroadcaster(broadcasterId), deleteOk);
                        && api.subs == WithoutIds(old(api.subs), run.deleted)
                        && (c == Threw <==> run.failed)))
  {
    var user := db.UpdateStreamStatus(broadcasterId, false, now);
    if user.None? {
      return Threw;
    }
    c := UnsubscribeFromChatMessages(api, broadcasterId, listOk, deleteOk);
  }
}
