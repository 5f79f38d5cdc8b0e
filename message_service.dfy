/** `processMessage` of utils/messages/service.ts: validate, look up the
    stream settings, gate on the stream's cooldown, save the message, stop
    for the bot's own messages, record the interaction, fetch the context,
    ask `/api/chat` for a reply and post it. The two clock readings are the
    parameters `timestamp` (the saved stamp) and `now` (the gate's), the
    `/api/chat` route is the parameter `reply`, and the outcome of posting to
    Twitch chat is `sendOk`. */
module MessageService {
  import opened Wrappers
  import opened Store
  import opened Cooldown
  import opened ContextFormatter
  import opened Interaction

  /** The effect of `processMessage` on the tables and the chat. */
  function ProcessMessageOutcome(t: Tables, ev: MessageEvent, botUserId: string, timestamp: int, now: int,
                                 reply: AiRequest -> AiReply, sendOk: bool): Outcome
  {
    if ev.userId == "" || ev.broadcasterId == "" then Outcome(t, [], MissingUserData, None)
    else
      var entry := SettingsOf(t.settings, ev.broadcasterId);
      if entry.None? then Outcome(t, [], NoSettings, None)
      else if !GateOpen(entry.value.lastInteraction, entry.value.cooldownSeconds, now) then Outcome(t, [], OnCooldown, None)
      else
        var saved := t.(messages := t.messages + [SavedRow(ev, timestamp)]);
        if ev.chatterId == botUserId then Outcome(saved, [], BotMessage, None)
        else
          var stamped := saved.(settings := SetLastInteraction(t.settings, ev.broadcasterId, timestamp));
          var recent := GetRecentMessagesWithUserData(stamped.messages, t.users, ev.broadcasterId, MessageContextSize);
          if recent == [] then Outcome(stamped, [], NoContext, None)
          else
            var request := AiRequest(FormatMessagesForAI(recent), PriorityFor(ev, timestamp));
            var content := ReplyContent(reply(request));
            if !IsTruthy(content) then Outcome(stamped, [], NoContent, Some(request))
            else Outcome(stamped, [ChatSend(ev.broadcasterId, content)], if sendOk then Replied else Aborted, Some(request))
  }

  /** `processMessage`, run against the store and the chat outbox. */
  method ProcessMessage(db: Database, outbox: Outbox, ev: MessageEvent, botUserId: string, timestamp: int, now: int,
                        reply: AiRequest -> AiReply, sendOk: bool)
    returns (stop: Stop, request: Option<AiRequest>)
    requires db.Valid()
    modifies db, outbox
    ensures db.Valid()
    ensures var o := ProcessMessageOutcome(old(db.Snapshot()), ev, botUserId, timestamp, now, reply, sendOk);
            && db.Snapshot() == o.tables && outbox.sent == old(outbox.sent) + o.sends
            && stop == o.stop && request == o.request
  {
    request := None;
    if ev.userId == "" || ev.broadcasterId == "" {
      return MissingUserData, None;
    }
    var entry := SettingsOf(db.settings, ev.broadcasterId);
    if entry.None? {
      return NoSettings, None;
    }
    if !GateOpen(entry.value.lastInteraction, entry.value.cooldownSeconds, now) {
      return OnCooldown, None;
    }
    db.InsertMessage(SavedRow(ev, timestamp));
    if ev.chatterId == botUserId {
      return BotMessage, None;
    }
    db.RecordInteraction(ev.broadcasterId, timestamp);
    var recent := GetRecentMessagesWithUserData(db.messages, db.users, ev.broadcasterId, MessageContextSize);
    if recent == [] {
      return NoContext, None;
    }
    request := Some(AiRequest(FormatMessagesForAI(recent), PriorityFor(ev, timestamp)));
    var content := ReplyContent(reply(request.value));
    if !IsTruthy(content) {
      return NoContent, request;
    }
    var threw := outbox.Send(ev.broadcasterId, content, sendOk);
    stop := if threw then Aborted else Replied;
  }

  /** Missing user data and missing settings stop the path before any write;
      a closed gate does too, so a message that arrives during the cooldown
      is not even saved. A saved message is exactly `SavedRow`. */
  lemma NothingSavedBeforeGate(t: Tables, ev: MessageEvent, botUserId: string, timestamp: int, now: int,
                               reply: AiRequest -> AiReply, sendOk: bool)
    ensures var o := ProcessMessageOutcome(t, ev, botUserId, timestamp, now, reply, sendOk);
            var entry := SettingsOf(t.settings, ev.broadcasterId);
            && (o.stop in {MissingUserData, NoSettings, OnCooldown} ==> o.tables == t && o.sends == [])
            && (o.tables.messages != t.messages <==>
                  ev.userId != "" && ev.broadcasterId != "" && entry.Some?
                  && GateOpen(entry.value.lastInteraction, entry.value.cooldownSeconds, now))
            && (o.tables.messages != t.messages ==> o.tables.messages == t.messages + [SavedRow(ev, timestamp)])
            && o.tables.users == t.users
  {
    var o := ProcessMessageOutcome(t, ev, botUserId, timestamp, now, reply, sendOk);
    var entry := SettingsOf(t.settings, ev.broadcasterId);
    var saved := t.(messages := t.messages + [SavedRow(ev, timestamp)]);
    if ev.userId != "" && ev.broadcasterId != "" && entry.Some?
       && GateOpen(entry.value.lastInteraction, entry.value.cooldownSeconds, now) {
      assert o.tables == saved || o.tables == saved.(settings := SetLastInteraction(t.settings, ev.broadcasterId, timestamp));
      assert |o.tables.messages| != |t.messages|;
    } else {
      assert o.tables == t && o.sends == [];
    }
  }

  /** The bot's own message is saved but changes no settings and gets no
      reply. */
  lemma BotMessageSavedSilently(t: Tables, ev: MessageEvent, botUserId: string, timestamp: int, now: int,
                                reply: AiRequest -> AiReply, sendOk: bool)
    requires ev.chatterId == botUserId
    ensures var o := ProcessMessageOutcome(t, ev, botUserId, timestamp, now, reply, sendOk);
            o.sends == [] && o.request.None? && o.tables.settings == t.settings
  {
  }

  /** Once past the bot check, `last_interaction` holds this message's
      timestamp whether or not a reply follows, and the next lookup of the
      stream's settings sees it. */
  lemma InteractionRecordedBeforeReply(t: Tables, ev: MessageEvent, botUserId: string, timestamp: int, now: int,
                                       reply: AiRequest -> AiReply, sendOk: bool)
    ensures var o := ProcessMessageOutcome(t, ev, botUserId, timestamp, now, reply, sendOk);
            var entry := SettingsOf(t.settings, ev.broadcasterId);
            o.stop in {NoContext, NoContent, Replied, Aborted} ==>
              && o.tables.settings == SetLastInteraction(t.settings, ev.broadcasterId, timestamp)
              && SettingsOf(o.tables.settings, ev.broadcasterId) == Some(entry.value.(lastInteraction := Some(timestamp)))
  {
    SettingsOfAfterUpdate(t.settings, ev.broadcasterId, (s: SettingsRow) => s.(lastInteraction := Some(timestamp)),
                          ev.broadcasterId);
  }

  /** A reply is posted exactly when the completion route answered OK with
      non-empty content, and it is that content, to the message's
      broadcaster. */
  lemma ReplyOnlyWithContent(t: Tables, ev: MessageEvent, botUserId: string, timestamp: int, now: int,
                             reply: AiRequest -> AiReply, sendOk: bool)
    ensures var o := ProcessMessageOutcome(t, ev, botUserId, timestamp, now, reply, sendOk);
            && (o.sends != [] <==> o.request.Some? && IsTruthy(ReplyContent(reply(o.request.value))))
            && (o.sends != [] ==> o.sends == [ChatSend(ev.broadcasterId, ReplyContent(reply(o.request.value)))])
            && (o.request.Some? ==> o.request.value.priority == PriorityFor(ev, timestamp))
  {
    var o := ProcessMessageOutcome(t, ev, botUserId, timestamp, now, reply, sendOk);
    var entry := SettingsOf(t.settings, ev.broadcasterId);
    if ev.userId != "" && ev.broadcasterId != "" && entry.Some?
       && GateOpen(entry.value.lastInteraction, entry.value.cooldownSeconds, now) && ev.chatterId != botUserId {
      var recent := GetRecentMessagesWithUserData(t.messages + [SavedRow(ev, timestamp)], t.users, ev.broadcasterId,
                                                  MessageContextSize);
      if recent != [] {
        var request := AiRequest(FormatMessagesForAI(recent), PriorityFor(ev, timestamp));
        assert o.request == Some(request);
        var content := ReplyContent(reply(request));
        assert o.sends == if IsTruthy(content) then [ChatSend(ev.broadcasterId, content)] else [];
      } else {
        assert o.sends == [] && o.request.None?;
      }
    } else {
      assert o.sends == [] && o.request.None?;
    }
  }

  /** The gate works across messages: after a non-bot message of a stream
      passed the gate, any message to the same stream within the cooldown is
      stopped by the gate and not saved. */
  lemma SecondMessageWithinCooldownGated(t: Tables, ev: MessageEvent, botUserId: string, timestamp: int, now: int,
                                         reply: AiRequest -> AiReply, sendOk: bool,
                                         next: MessageEvent, timestamp2: int, now2: int, reply2: AiRequest -> AiReply,
                                         sendOk2: bool)
    requires ev.userId != "" && ev.broadcasterId != "" && ev.chatterId != botUserId
    requires next.userId != "" && next.broadcasterId == ev.broadcasterId
    requires var entry := SettingsOf(t.settings, ev.broadcasterId);
             && entry.Some? && GateOpen(entry.value.lastInteraction, entry.value.cooldownSeconds, now)
             && timestamp <= now2 < timestamp + entry.value.cooldownSeconds.GetOr(DefaultCooldownSeconds) * 1000
    ensures var o := ProcessMessageOutcome(t, ev, botUserId, timestamp, now, reply, sendOk);
            var o2 := ProcessMessageOutcome(o.tables, next, botUserId, timestamp2, now2, reply2, sendOk2);
            o2.stop == OnCooldown && o2.tables == o.tables && o2.sends == []
  {
    InteractionRecordedBeforeReply(t, ev, botUserId, timestamp, now, reply, sendOk);
  }
}
