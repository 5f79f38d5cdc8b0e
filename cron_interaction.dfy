/** `POST` of app/api/cron/chat-interaction.ts: for each live stream, in the
    order the store returns them, when `shouldInteract` allows it, build a
    prompt from the stream's chat history, ask the completion service, post
    a non-empty answer, and call `updateLastInteraction`. An exception ends
    the run with 500. The completion service is the parameter `complete`
    (keyed by the prompt), the chat route's answer per broadcaster is
    `sendOk`, and one clock reading `now` serves the whole run. */
module CronInteraction {
  import opened Wrappers
  import opened Text
  import opened Ordering
  import opened Store
  import opened Cooldown
  import opened ContextFormatter
  import opened Interaction

  /** The route's own MESSAGE_CONTEXT_SIZE. */
  const CronContextSize: nat := 10

  const PromptHeader: string :=
    "You are a friendly chat bot engaging with Twitch chat. \n"
    + "        Based on the recent messages, generate a natural, engaging response.\n"
    + "        Recent context: "

  /** The route's `ChatMessage`. */
  datatype CronMessage = CronMessage(text: string, chatterUserName: string)

  /** The history filter: a chatter name and a text, both non-empty. */
  predicate HasNameAndText(m: MessageRow) {
    IsTruthy(m.chatterUserName) && IsTruthy(m.text)
  }

  function ToCronMessage(m: MessageRow): CronMessage {
    CronMessage(m.text.GetOr(""), m.chatterUserName.GetOr(""))
  }

  /** `formattedMessages`. */
  function CronContext(history: seq<MessageRow>): seq<CronMessage> {
    Map(Filter(history, HasNameAndText), ToCronMessage)
  }

  function Line(m: CronMessage): string {
    m.chatterUserName + ": " + m.text
  }

  /** The system prompt of `generateAIResponse`. */
  function CronPrompt(context: seq<CronMessage>): string {
    PromptHeader + Join(Map(context, Line), "\n")
  }

  /** The prompt for the stream `id`: its chat history, filtered. */
  function StreamPrompt(messages: seq<MessageRow>, id: string): string {
    CronPrompt(CronContext(GetChatHistory(messages, id, CronContextSize)))
  }

  /** What `generateAIResponse` answers for each stream, given the messages
      table the run reads. A null `platform_user_id` is looked up as the
      empty id. */
  function Answers(messages: seq<MessageRow>, complete: string -> Completion): SettingsRow -> Completion {
    (s: SettingsRow) => complete(StreamPrompt(messages, s.platformUserId.GetOr("")))
  }

  /** What a run does: the ids `updateLastInteraction` was called with, in
      order, the chat posts, and whether it ended in an exception. */
  datatype CronRun = CronRun(touched: seq<string>, sends: seq<ChatSend>, aborted: bool)

  /** One stream of the loop, with `answer` what the completion service
      answers for it. The gate reads the stream row fetched at the start. */
  function CronStep(s: SettingsRow, answer: Completion, now: int, sendOk: string -> bool): CronRun {
    if !ShouldInteract(s.lastInteraction, now) then CronRun([], [], false)
    else if answer.CompletionFailed? then CronRun([], [], true)
    else
      var id := s.platformUserId.GetOr("");
      var post := s.platformUserId.Some? && id != "" && IsTruthy(answer.content);
      var sends := if post then [ChatSend(id, answer.content)] else [];
      if post && !sendOk(id) then CronRun([], sends, true)
      else CronRun([id], sends, false)
  }

  /** The per-stream loop over `streams`; an exception ends it. */
  function CronLoop(streams: seq<SettingsRow>, answers: SettingsRow -> Completion, now: int,
                    sendOk: string -> bool): CronRun
  {
    if streams == [] then CronRun([], [], false)
    else
      var step := CronStep(streams[0], answers(streams[0]), now, sendOk);
      if step.aborted then step
      else
        var rest := CronLoop(streams[1..], answers, now, sendOk);
        CronRun(step.touched + rest.touched, step.sends + rest.sends, rest.aborted)
  }

  /** The settings after `updateLastInteraction(id)` for each id in turn. */
  function TouchAll(settings: seq<SettingsRow>, ids: seq<string>, now: int): seq<SettingsRow>
    decreases |ids|
  {
    if ids == [] then settings else TouchAll(TouchUpdatedAt(settings, ids[0], now), ids[1..], now)
  }

  /** The body of the `for` loop for one stream; `answer` is the completion
      for its prompt, asked for only once the gate is open. */
  method HandleStream(db: Database, outbox: Outbox, s: SettingsRow, answer: Completion, now: int, sendOk: string -> bool)
    returns (threw: bool)
    modifies db, outbox
    ensures var step := CronStep(s, answer, now, sendOk);
            && db.settings == (if step.touched == [] then old(db.settings) else TouchUpdatedAt(old(db.settings), step.touched[0], now))
            && |step.touched| <= 1
            && outbox.sent == old(outbox.sent) + step.sends && threw == step.aborted
            && db.messages == old(db.messages) && db.users == old(db.users)
  {
    threw := false;
    if ShouldInteract(s.lastInteraction, now) {
      if answer.CompletionFailed? {
        return true;
      }
      var id := s.platformUserId.GetOr("");
      if s.platformUserId.Some? && id != "" && IsTruthy(answer.content) {
        threw := outbox.Send(id, answer.content, sendOk(id));
        if threw {
          return;
        }
      }
      db.UpdateLastInteraction(id, now);
    }
  }

  /** The route: status 200, or 500 when an exception ended the run. */
  method Post(db: Database, outbox: Outbox, now: int, complete: string -> Completion, sendOk: string -> bool)
    returns (status: int)
    requires db.Valid()
    modifies db, outbox
    ensures db.Valid()
    ensures var run := CronLoop(GetActiveStreamSettings(old(db.settings)), Answers(old(db.messages), complete), now, sendOk);
            && db.settings == TouchAll(old(db.settings), run.touched, now) && outbox.sent == old(outbox.sent) + run.sends
            && db.messages == old(db.messages) && db.users == old(db.users)
            && status == (if run.aborted then 500 else 200)
  {
    var streams := GetActiveStreamSettings(db.settings);
    var answers := Answers(db.messages, complete);
    var aborted := HandleStreams(db, outbox, streams, answers, now, sendOk);
    TouchAllKeepsKeysUnique(old(db.settings), CronLoop(streams, answers, now, sendOk).touched, now);
    status := if aborted then 500 else 200;
  }

  /** The `for` loop over the live streams. */
  method HandleStreams(db: Database, outbox: Outbox, streams: seq<SettingsRow>, answers: SettingsRow -> Completion,
                       now: int, sendOk: string -> bool)
    returns (aborted: bool)
    modifies db, outbox
    ensures var run := CronLoop(streams, answers, now, sendOk);
            && db.settings == TouchAll(old(db.settings), run.touched, now)
            && outbox.sent == old(outbox.sent) + run.sends && aborted == run.aborted
            && db.messages == old(db.messages) && db.users == old(db.users)
  {
    ghost var goal := CronFrom(db.settings, outbox.sent, streams, answers, now, sendOk);
    CronFromLoop(db.settings, outbox.sent, streams, answers, now, sendOk);
    var rest := streams;
    while rest != []
      invariant db.messages == old(db.messages) && db.users == old(db.users)
      invariant CronFrom(db.settings, outbox.sent, rest, answers, now, sendOk) == goal
    {
      var threw := HandleStream(db, outbox, rest[0], answers(rest[0]), now, sendOk);
      if threw {
        return true;
      }
      rest := rest[1..];
    }
    return false;
  }

  /** The state a run leaves: the settings, the chat, and whether it threw. */
  datatype CronState = CronState(settings: seq<SettingsRow>, sent: seq<ChatSend>, aborted: bool)

  /** The loop run step by step against the settings and the chat. */
  function CronFrom(settings: seq<SettingsRow>, sent: seq<ChatSend>, streams: seq<SettingsRow>,
                    answers: SettingsRow -> Completion, now: int, sendOk: string -> bool): CronState
    decreases |streams|
  {
    if streams == [] then CronState(settings, sent, false)
    else
      var step := CronStep(streams[0], answers(streams[0]), now, sendOk);
      var touched := if step.touched == [] then settings else TouchUpdatedAt(settings, step.touched[0], now);
      if step.aborted then CronState(touched, sent + step.sends, true)
      else CronFrom(touched, sent + step.sends, streams[1..], answers, now, sendOk)
  }

  /** Running the loop step by step touches the ids and posts the messages
      `CronLoop` collects. */
  lemma {:induction false} CronFromLoop(settings: seq<SettingsRow>, sent: seq<ChatSend>, streams: seq<SettingsRow>,
                                        answers: SettingsRow -> Completion, now: int, sendOk: string -> bool)
    ensures var run := CronLoop(streams, answers, now, sendOk);
            CronFrom(settings, sent, streams, answers, now, sendOk)
              == CronState(TouchAll(settings, run.touched, now), sent + run.sends, run.aborted)
    decreases |streams|
  {
    if streams == [] {
      assert sent + [] == sent;
    } else {
      var step := CronStep(streams[0], answers(streams[0]), now, sendOk);
      var touched := if step.touched == [] then settings else TouchUpdatedAt(settings, step.touched[0], now);
      if !step.aborted {
        CronFromLoop(touched, sent + step.sends, streams[1..], answers, now, sendOk);
        var rest := CronLoop(streams[1..], answers, now, sendOk);
        if step.touched != [] {
          var ids := step.touched + rest.touched;
          assert step.touched == [step.touched[0]];
          assert ids[0] == step.touched[0] && ids[1..] == rest.touched;
        } else {
          assert step.touched + rest.touched == rest.touched;
        }
        ConcatAssoc(sent, step.sends, rest.sends);
      }
    }
  }

  /** The history filter keeps exactly the rows with a chatter name and a
      text, and keeps their order. */
  lemma CronContextExact(a: seq<MessageRow>, b: seq<MessageRow>)
    ensures forall m :: m in Filter(a, HasNameAndText) <==> m in a && HasNameAndText(m)
    ensures CronContext(a + b) == CronContext(a) + CronContext(b)
    ensures forall c :: c in CronContext(a) ==> c.text != "" && c.chatterUserName != ""
  {
    FilterMembers(a, HasNameAndText);
    FilterConcat(a, b, HasNameAndText);
    MapConcat(Filter(a, HasNameAndText), Filter(b, HasNameAndText), ToCronMessage);
    var kept := Filter(a, HasNameAndText);
    forall c | c in CronContext(a) ensures c.text != "" && c.chatterUserName != "" {
      var i :| 0 <= i < |kept| && CronContext(a)[i] == c;
      assert kept[i] in kept;
    }
  }

  /** Each further message adds one newline and one "name: text" line. */
  lemma CronPromptAppend(context: seq<CronMessage>, m: CronMessage)
    ensures CronPrompt([m]) == PromptHeader + m.chatterUserName + ": " + m.text
    ensures context != [] ==> CronPrompt(context + [m]) == CronPrompt(context) + "\n" + Line(m)
  {
    var parts := Map(context + [m], Line);
    if context != [] {
      assert parts[..|parts| - 1] == Map(context, Line);
    }
  }

  /** `updateLastInteraction` writes `updated_at` only, so however many
      streams a run touches it never changes the `last_interaction` its own
      gate reads: the same streams pass the gate on every later run. */
  lemma {:induction false} TouchAllKeepsLastInteraction(settings: seq<SettingsRow>, ids: seq<string>, now: int)
    ensures var r := TouchAll(settings, ids, now);
            |r| == |settings| && forall i :: 0 <= i < |r| ==> r[i].lastInteraction == settings[i].lastInteraction
    decreases |ids|
  {
    if ids != [] {
      TouchKeepsLastInteraction(settings, ids[0], now);
      TouchAllKeepsLastInteraction(TouchUpdatedAt(settings, ids[0], now), ids[1..], now);
    }
  }

  /** Touching keeps the settings' `(user_id, platform)` keys unique. */
  lemma {:induction false} TouchAllKeepsKeysUnique(settings: seq<SettingsRow>, ids: seq<string>, now: int)
    requires KeysUnique(settings)
    ensures KeysUnique(TouchAll(settings, ids, now))
    decreases |ids|
  {
    if ids != [] {
      TouchKeepsKeysUnique(settings, ids[0], now);
      TouchAllKeepsKeysUnique(TouchUpdatedAt(settings, ids[0], now), ids[1..], now);
    }
  }

  /** `updateLastInteraction` runs for every stream that passed the gate,
      in stream order, whether or not anything was posted, unless an
      exception ended the run. */
  lemma {:induction false} CronTouchesEveryOpenStream(streams: seq<SettingsRow>, answers: SettingsRow -> Completion,
                                                      now: int, sendOk: string -> bool)
    ensures var run := CronLoop(streams, answers, now, sendOk);
            !run.aborted ==>
              run.touched == Map(Filter(streams, (s: SettingsRow) => ShouldInteract(s.lastInteraction, now)),
                                 (s: SettingsRow) => s.platformUserId.GetOr(""))
  {
    if streams != [] {
      CronTouchesEveryOpenStream(streams[1..], answers, now, sendOk);
      var open := (s: SettingsRow) => ShouldInteract(s.lastInteraction, now);
      var id := (s: SettingsRow) => s.platformUserId.GetOr("");
      var head := if open(streams[0]) then [streams[0]] else [];
      var step := CronStep(streams[0], answers(streams[0]), now, sendOk);
      var run := CronLoop(streams, answers, now, sendOk);
      if !run.aborted {
        assert !step.aborted;
        assert run.touched == step.touched + CronLoop(streams[1..], answers, now, sendOk).touched;
        assert step.touched == Map(head, id);
        assert Filter(streams, open) == head + Filter(streams[1..], open);
        MapConcat(head, Filter(streams[1..], open), id);
      }
    }
  }

  /** A post goes only to a non-empty broadcaster id and carries a
      non-empty answer. */
  lemma {:induction false} CronPostsNeedIdAndContent(streams: seq<SettingsRow>, answers: SettingsRow -> Completion,
                                                     now: int, sendOk: string -> bool)
    ensures forall c :: c in CronLoop(streams, answers, now, sendOk).sends ==> c.broadcasterId != "" && IsTruthy(c.message)
  {
    if streams != [] {
      CronPostsNeedIdAndContent(streams[1..], answers, now, sendOk);
    }
  }

  /** Streams are handled one after another: a run over `a + b` is the run
      over `a` followed, unless it threw, by the run over `b`. */
  lemma {:induction false} CronLoopSequential(a: seq<SettingsRow>, b: seq<SettingsRow>, answers: SettingsRow -> Completion,
                                              now: int, sendOk: string -> bool)
    ensures var first := CronLoop(a, answers, now, sendOk);
            var whole := CronLoop(a + b, answers, now, sendOk);
            && (first.aborted ==> whole == first)
            && (!first.aborted ==>
                  var second := CronLoop(b, answers, now, sendOk);
                  whole == CronRun(first.touched + second.touched, first.sends + second.sends, second.aborted))
  {
    if a == [] {
      assert a + b == b;
    } else {
      assert (a + b)[0] == a[0] && (a + b)[1..] == a[1..] + b;
      var step := CronStep(a[0], answers(a[0]), now, sendOk);
      if !step.aborted {
        CronLoopSequential(a[1..], b, answers, now, sendOk);
        var first' := CronLoop(a[1..], answers, now, sendOk);
        var second := CronLoop(b, answers, now, sendOk);
        ConcatAssoc(step.touched, first'.touched, second.touched);
        ConcatAssoc(step.sends, first'.sends, second.sends);
      }
    }
  }

  /** A run where no stream passes the gate changes nothing and succeeds. */
  lemma {:induction false} CronIdleWhenGated(streams: seq<SettingsRow>, answers: SettingsRow -> Completion, now: int,
                                             sendOk: string -> bool)
    requires forall s :: s in streams ==> !ShouldInteract(s.lastInteraction, now)
    ensures CronLoop(streams, answers, now, sendOk) == CronRun([], [], false)
  {
    if streams != [] {
      assert streams[0] in streams;
      CronIdleWhenGated(streams[1..], answers, now, sendOk);
    }
  }
}
