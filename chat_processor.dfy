/** `processNewChatMessage` and `generateAndSendResponse` of
    utils/twitch/chat-processor.ts: save every chat event, stop for the
    bot's own messages, read the stream's settings (a missing or ambiguous
    row makes `.single()` fail and the path throw), gate on
    `shouldInteract`, fetch the context, ask `/api/chat`, and on an OK
    answer post its content and call `updateLastInteraction`. The clock
    readings are `insertedAt` (the row's stamp), `now` (the gate's) and
    `touchedAt` (the `updated_at` write). */
module ChatProcessor {
  import opened Wrappers
  import opened Store
  import opened Cooldown
  import opened ContextFormatter
  import opened Interaction

  /** The `channel.chat.message` event fields the path reads. */
  datatype ChatEvent = ChatEvent(text: string, broadcasterUserId: string, chatterUserName: string, chatterUserId: string)

  /** The `priorityMessage` of `generateAndSendResponse`: no chatter id and no
      stamp, and always of type 'twitch'. */
  function PriorityOf(ev: ChatEvent): (m: PriorityMessage)
    ensures m.text == ev.text && m.chatterUserName == ev.chatterUserName && m.kind == Twitch
    ensures m.broadcasterTwitchId == ev.broadcasterUserId && m.twitchUserId.None? && m.createdAt.None?
  {
    PriorityMessage(ev.text, ev.chatterUserName, Twitch, ev.broadcasterUserId, None, None)
  }

  /** The effect of `processNewChatMessage` on the tables and the chat. */
  function ProcessNewChatMessageOutcome(t: Tables, ev: ChatEvent, botUserId: string, insertedAt: int, now: int,
                                        touchedAt: int, reply: AiRequest -> AiReply, sendOk: bool): Outcome
  {
    var row := ChatMessageRow(ev.text, ev.broadcasterUserId, ev.chatterUserName, ev.chatterUserId, insertedAt);
    var saved := t.(messages := t.messages + [row]);
    if ev.chatterUserId == botUserId then Outcome(saved, [], BotMessage, None)
    else
      var entry := SettingsOf(t.settings, ev.broadcasterUserId);
      if entry.None? then Outcome(saved, [], Aborted, None)
      else if !ShouldInteract(entry.value.lastInteraction, now) then Outcome(saved, [], OnCooldown, None)
      else
        var recent := GetRecentMessagesWithUserData(saved.messages, t.users, ev.broadcasterUserId, MessageContextSize);
        if recent == [] then Outcome(saved, [], NoContext, None)
        else
          var request := AiRequest(FormatMessagesForAI(recent), PriorityOf(ev));
          var answer := reply(request);
          if answer.NotOk? then Outcome(saved, [], NoContent, Some(request))
          else
            var sends := [ChatSend(ev.broadcasterUserId, answer.content)];
            if !sendOk then Outcome(saved, sends, Aborted, Some(request))
            else Outcome(saved.(settings := TouchUpdatedAt(t.settings, ev.broadcasterUserId, touchedAt)), sends, Replied,
                         Some(request))
  }

  /** `processNewChatMessage`, run against the store and the chat outbox. */
  method ProcessNewChatMessage(db: Database, outbox: Outbox, ev: ChatEvent, botUserId: string, insertedAt: int, now: int,
                               touchedAt: int, reply: AiRequest -> AiReply, sendOk: bool)
    returns (stop: Stop, request: Option<AiRequest>)
    requires db.Valid()
    modifies db, outbox
    ensures db.Valid()
    ensures var o := ProcessNewChatMessageOutcome(old(db.Snapshot()), ev, botUserId, insertedAt, now, touchedAt, reply, sendOk);
            && db.Snapshot() == o.tables && outbox.sent == old(outbox.sent) + o.sends
            && stop == o.stop && request == o.request
  {
    request := None;
    db.InsertChatMessage(ev.text, ev.broadcasterUserId, ev.chatterUserName, ev.chatterUserId, insertedAt);
    if ev.chatterUserId == botUserId {
      return BotMessage, None;
    }
    var entry := SettingsOf(db.settings, ev.broadcasterUserId);
    if entry.None? {
      return Aborted, None;
    }
    if !ShouldInteract(entry.value.lastInteraction, now) {
      return OnCooldown, None;
    }
    var recent := GetRecentMessagesWithUserData(db.messages, db.users, ev.broadcasterUserId, MessageContextSize);
    if recent == [] {
      return NoContext, None;
    }
    stop, request := GenerateAndSendResponse(db, outbox, recent, ev, touchedAt, reply, sendOk);
  }

  /** `generateAndSendResponse`: on an OK answer, post its content (null
      included) and then touch the stream's settings. */
  method GenerateAndSendResponse(db: Database, outbox: Outbox, recent: seq<JoinedMessage>, ev: ChatEvent, touchedAt: int,
                                 reply: AiRequest -> AiReply, sendOk: bool)
    returns (stop: Stop, request: Option<AiRequest>)
    requires db.Valid()
    modifies db, outbox
    ensures db.Valid()
    ensures request == Some(AiRequest(FormatMessagesForAI(recent), PriorityOf(ev)))
    ensures db.messages == old(db.messages) && db.users == old(db.users)
    ensures reply(request.value).NotOk? ==> stop == NoContent && db.settings == old(db.settings) && outbox.sent == old(outbox.sent)
    ensures reply(request.value).Ok? ==>
              && outbox.sent == old(outbox.sent) + [ChatSend(ev.broadcasterUserId, reply(request.value).content)]
              && (sendOk ==> stop == Replied && db.settings == TouchUpdatedAt(old(db.settings), ev.broadcasterUserId, touchedAt))
              && (!sendOk ==> stop == Aborted && db.settings == old(db.settings))
  {
    request := Some(AiRequest(FormatMessagesForAI(recent), PriorityOf(ev)));
    var answer := reply(request.value);
    if answer.NotOk? {
      return NoContent, request;
    }
    var threw := outbox.Send(ev.broadcasterUserId, answer.content, sendOk);
    if threw {
      return Aborted, request;
    }
    TouchKeepsKeysUnique(db.settings, ev.broadcasterUserId, touchedAt);
    db.UpdateLastInteraction(ev.broadcasterUserId, touchedAt);
    stop := Replied;
  }

  /** Every event is saved first, the bot's own included, as the row
      `insertChatMessage` builds; the bot's own messages get no reply and
      touch no settings. */
  lemma EveryEventSaved(t: Tables, ev: ChatEvent, botUserId: string, insertedAt: int, now: int, touchedAt: int,
                        reply: AiRequest -> AiReply, sendOk: bool)
    ensures var o := ProcessNewChatMessageOutcome(t, ev, botUserId, insertedAt, now, touchedAt, reply, sendOk);
            && o.tables.messages == t.messages + [ChatMessageRow(ev.text, ev.broadcasterUserId, ev.chatterUserName,
                                                                 ev.chatterUserId, insertedAt)]
            && o.tables.users == t.users
            && (ev.chatterUserId == botUserId ==> o.sends == [] && o.request.None? && o.tables.settings == t.settings)
  {
    var o := ProcessNewChatMessageOutcome(t, ev, botUserId, insertedAt, now, touchedAt, reply, sendOk);
    var row := ChatMessageRow(ev.text, ev.broadcasterUserId, ev.chatterUserName, ev.chatterUserId, insertedAt);
    assert o.tables == t.(messages := t.messages + [row]) || o.tables == t.(messages := t.messages + [row],
            settings := TouchUpdatedAt(t.settings, ev.broadcasterUserId, touchedAt));
  }

  /** No reply without settings, with a closed gate or without context; a
      post and the settings touch happen only after an OK answer, and the
      touch only after the post. */
  lemma ReplyNeedsGateContextAndOk(t: Tables, ev: ChatEvent, botUserId: string, insertedAt: int, now: int, touchedAt: int,
                                   reply: AiRequest -> AiReply, sendOk: bool)
    ensures var o := ProcessNewChatMessageOutcome(t, ev, botUserId, insertedAt, now, touchedAt, reply, sendOk);
            var entry := SettingsOf(t.settings, ev.broadcasterUserId);
            && (o.sends != [] ==>
                  && ev.chatterUserId != botUserId && entry.Some? && ShouldInteract(entry.value.lastInteraction, now)
                  && o.request.Some? && o.request.value.messages != [] && reply(o.request.value).Ok?
                  && o.sends == [ChatSend(ev.broadcasterUserId, reply(o.request.value).content)])
            && (o.tables.settings != t.settings ==> o.sends != [] && sendOk)
            && (o.request.Some? ==> o.request.value.priority == PriorityOf(ev))
  {
  }

  /** `updateLastInteraction` writes `updated_at`, but the gate reads
      `last_interaction`: this path never changes the column its own gate
      reads. */
  lemma CooldownNeverAdvances(t: Tables, ev: ChatEvent, botUserId: string, insertedAt: int, now: int, touchedAt: int,
                              reply: AiRequest -> AiReply, sendOk: bool, key: string)
    ensures var o := ProcessNewChatMessageOutcome(t, ev, botUserId, insertedAt, now, touchedAt, reply, sendOk);
            var before := SettingsOf(t.settings, key);
            var after := SettingsOf(o.tables.settings, key);
            && (before.Some? <==> after.Some?)
            && (before.Some? ==> after.value.lastInteraction == before.value.lastInteraction)
  {
    var o := ProcessNewChatMessageOutcome(t, ev, botUserId, insertedAt, now, touchedAt, reply, sendOk);
    assert o.tables.settings == t.settings || o.tables.settings == TouchUpdatedAt(t.settings, ev.broadcasterUserId, touchedAt);
    SettingsOfAfterUpdate(t.settings, ev.broadcasterUserId, (s: SettingsRow) => s.(updatedAt := touchedAt), key);
  }

  /** So a reply never closes the gate: after a reply, the next event to
      the same stream at a later time passes the gate again. */
  lemma ReplyLeavesGateOpen(t: Tables, ev: ChatEvent, botUserId: string, insertedAt: int, now: int, touchedAt: int,
                            reply: AiRequest -> AiReply, sendOk: bool,
                            next: ChatEvent, insertedAt2: int, now2: int, touchedAt2: int, reply2: AiRequest -> AiReply,
                            sendOk2: bool)
    requires ProcessNewChatMessageOutcome(t, ev, botUserId, insertedAt, now, touchedAt, reply, sendOk).stop == Replied
    requires next.broadcasterUserId == ev.broadcasterUserId && next.chatterUserId != botUserId && now <= now2
    ensures var o := ProcessNewChatMessageOutcome(t, ev, botUserId, insertedAt, now, touchedAt, reply, sendOk);
            ProcessNewChatMessageOutcome(o.tables, next, botUserId, insertedAt2, now2, touchedAt2, reply2, sendOk2).stop != OnCooldown
  {
    var o := ProcessNewChatMessageOutcome(t, ev, botUserId, insertedAt, now, touchedAt, reply, sendOk);
    var entry := SettingsOf(t.settings, ev.broadcasterUserId);
    assert entry.Some? && ShouldInteract(entry.value.lastInteraction, now);
    CooldownNeverAdvances(t, ev, botUserId, insertedAt, now, touchedAt, reply, sendOk, ev.broadcasterUserId);
    var entry2 := SettingsOf(o.tables.settings, next.broadcasterUserId);
    assert entry2.Some? && entry2.value.lastInteraction == entry.value.lastInteraction;
    ShouldInteractMonotone(entry.value.lastInteraction, now, now2);
    assert ShouldInteract(entry2.value.lastInteraction, now2);
    PassedGate(o.tables, next, botUserId, insertedAt2, now2, touchedAt2, reply2, sendOk2);
  }

  /** An event from someone else to a stream whose settings row exists and
      whose gate is open is not stopped by the gate. */
  lemma PassedGate(t: Tables, ev: ChatEvent, botUserId: string, insertedAt: int, now: int, touchedAt: int,
                   reply: AiRequest -> AiReply, sendOk: bool)
    requires ev.chatterUserId != botUserId
    requires var entry := SettingsOf(t.settings, ev.broadcasterUserId);
             entry.Some? && ShouldInteract(entry.value.lastInteraction, now)
    ensures ProcessNewChatMessageOutcome(t, ev, botUserId, insertedAt, now, touchedAt, reply, sendOk).stop != OnCooldown
  {
  }
}
