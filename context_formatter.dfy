/** The LLM context built from stored messages: `formatMessagesForAI` of
    utils/messages/service.ts (defaults for missing columns), and the
    filter/format/prompt assembly of app/api/openai/chat/route.ts (spam and
    bot filter, role and speaker tags, system prompt, priority prompt, the
    last three turns). The bot's Twitch id is the parameter `botUserId`. */
module ContextFormatter {
  import opened Wrappers
  import opened Text
  import opened Ordering
  import opened Store

  /** CHAT.CONTEXT_SIZE. */
  const ContextSize: nat := 3

  const GlobalPrompt: string :=
    "Based on the recent messages, generate a natural, engaging response. Respond naturally as a Twitch chat bot. "
    + "Keep responses short (1-3 lines). Do not respond to yourself. Prioritize responding to the most recent messages first. "
    + "Avoid any metadata formatting aside from the response, and do not repeat your own name or prefix responses with your name (ViewerAIBot). "

  const SpamKeywords: seq<string> := ["cheap viewers", "followers.online", "followers.ru"]

  /** One element of `formattedMessages` as posted to the chat route. */
  datatype AiMessage = AiMessage(text: string, kind: MessageKind, chatterUserName: string, twitchUserId: string,
                                 createdAt: int, broadcasterTwitchId: Option<string>)

  function FormatMessage(j: JoinedMessage): (m: AiMessage)
    ensures m.text == j.row.text.GetOr("") && m.chatterUserName == j.row.chatterUserName.GetOr("anonymous")
    ensures m.twitchUserId == j.twitchUserId.GetOr("unknown")
    ensures m.kind == j.row.kind && m.createdAt == j.row.createdAt && m.broadcasterTwitchId == j.row.broadcasterTwitchId
  {
    AiMessage(j.row.text.GetOr(""), j.row.kind, j.row.chatterUserName.GetOr("anonymous"), j.twitchUserId.GetOr("unknown"),
              j.row.createdAt, j.row.broadcasterTwitchId)
  }

  /** `formatMessagesForAI`: one formatted message per row, in order. */
  function FormatMessagesForAI(messages: seq<JoinedMessage>): (r: seq<AiMessage>)
    ensures |r| == |messages|
    ensures forall i :: 0 <= i < |messages| ==> r[i] == FormatMessage(messages[i])
  {
    Map(messages, FormatMessage)
  }

  // ----- app/api/openai/chat/route.ts -----

  datatype Role = System | User | Assistant

  datatype Turn = Turn(role: Role, content: string)

  predicate IsSpam(text: string) {
    exists k :: k in SpamKeywords && Contains(ToLower(text), k)
  }

  predicate Keep(m: AiMessage, botUserId: string) {
    !IsSpam(m.text) && m.twitchUserId != botUserId
  }

  /** `filteredMessages`. */
  function KeptMessages(messages: seq<AiMessage>, botUserId: string): seq<AiMessage> {
    Filter(messages, (m: AiMessage) => Keep(m, botUserId))
  }

  function Speaker(m: AiMessage): string {
    if m.kind == Transcript then "streamer" else m.chatterUserName
  }

  function ToTurn(m: AiMessage, botUserId: string): (t: Turn)
    ensures t.content == Speaker(m) + ": " + m.text
    ensures t.role == User <==> m.twitchUserId != botUserId
  {
    Turn(if m.twitchUserId == botUserId then Assistant else User, Speaker(m) + ": " + m.text)
  }

  /** `formattedMessages`. */
  function FormattedTurns(messages: seq<AiMessage>, botUserId: string): seq<Turn> {
    Map(KeptMessages(messages, botUserId), (m: AiMessage) => ToTurn(m, botUserId))
  }

  /** The stored `bot_prompt` lookup: no row, a null prompt, or a prompt. */
  datatype PromptSetting = NoSettingsRow | NullPrompt | Prompt(text: string)

  function PromptFor(settings: seq<SettingsRow>, broadcasterId: string): PromptSetting {
    var row := Single(settings, (s: SettingsRow) => s.platformUserId == Some(broadcasterId) && s.platform == Platform);
    if row.None? then NoSettingsRow
    else if row.value.botPrompt.None? then NullPrompt
    else Prompt(row.value.botPrompt.value)
  }

  /** `streamSettings?.bot_prompt + GLOBAL_PROMPT`: a missing row or prompt
      is spelled out by JavaScript's string conversion. */
  function SystemPrompt(prompt: PromptSetting): string {
    match prompt
    case NoSettingsRow => "undefined" + GlobalPrompt
    case NullPrompt => "null" + GlobalPrompt
    case Prompt(t) => t + GlobalPrompt
  }

  function PriorityPrompt(text: string): string {
    "Respond specifically to this message: \"" + text + "\""
  }

  /** The completion request's `messages`, or `None` when the route throws
      because the first message has no broadcaster id. */
  function CompletionMessages(messages: seq<AiMessage>, priorityText: Option<string>, settings: seq<SettingsRow>,
                              botUserId: string): (r: Option<seq<Turn>>)
    ensures r.None? <==> messages == [] || !(messages[0].broadcasterTwitchId.Some? && messages[0].broadcasterTwitchId.value != "")
    ensures r.Some? ==> |r.value| >= 1 && r.value[0].role == System
    ensures r.Some? ==> |r.value| <= 1 + (if priorityText.Some? then 1 else 0) + ContextSize
  {
    if messages == [] || messages[0].broadcasterTwitchId.None? || messages[0].broadcasterTwitchId.value == "" then None
    else
      var prompt := PromptFor(settings, messages[0].broadcasterTwitchId.value);
      Some([Turn(System, SystemPrompt(prompt))]
           + (if priorityText.Some? then [Turn(System, PriorityPrompt(priorityText.value))] else [])
           + LastN(FormattedTurns(messages, botUserId), ContextSize))
  }

  /** What the completion service answers for a list of turns: its
      content, which may be null, or an error. */
  datatype Completion = Answered(content: Option<string>) | CompletionFailed

  datatype RouteResponse = Content(content: Option<string>) | Error500

  /** `POST`: the completion's content, or 500 when the route throws, either
      for want of a broadcaster id or because the completion failed. */
  function ChatRoute(messages: seq<AiMessage>, priorityText: Option<string>, settings: seq<SettingsRow>, botUserId: string,
                     complete: seq<Turn> -> Completion): (r: RouteResponse)
    ensures var turns := CompletionMessages(messages, priorityText, settings, botUserId);
            && (r == Error500 <==> turns.None? || complete(turns.value) == CompletionFailed)
            && (r.Content? ==> Answered(r.content) == complete(turns.value))
  {
    var turns := CompletionMessages(messages, priorityText, settings, botUserId);
    if turns.None? then Error500
    else match complete(turns.value)
      case CompletionFailed => Error500
      case Answered(content) => Content(content)
  }

  /** A message survives the filter exactly when it is not spam and not the
      bot's; survivors keep their relative order. */
  lemma KeptMessagesExact(a: seq<AiMessage>, b: seq<AiMessage>, botUserId: string)
    ensures forall m :: m in KeptMessages(a, botUserId) <==> m in a && !IsSpam(m.text) && m.twitchUserId != botUserId
    ensures KeptMessages(a + b, botUserId) == KeptMessages(a, botUserId) + KeptMessages(b, botUserId)
  {
    FilterMembers(a, (m: AiMessage) => Keep(m, botUserId));
    FilterConcat(a, b, (m: AiMessage) => Keep(m, botUserId));
  }

  /** Since the bot's messages are filtered out first, every context turn
      has the role `user`. */
  lemma ContextTurnsAreUser(messages: seq<AiMessage>, botUserId: string)
    ensures forall t :: t in FormattedTurns(messages, botUserId) ==> t.role == User
  {
    var kept := KeptMessages(messages, botUserId);
    FilterMembers(messages, (m: AiMessage) => Keep(m, botUserId));
    forall t | t in FormattedTurns(messages, botUserId) ensures t.role == User {
      var i :| 0 <= i < |kept| && FormattedTurns(messages, botUserId)[i] == t;
      assert kept[i] in kept;
    }
  }

  /** The shape of the request: system prompt, the priority prompt exactly
      when a priority message is given, then the last three context turns. */
  lemma CompletionLayout(messages: seq<AiMessage>, priorityText: Option<string>, settings: seq<SettingsRow>, botUserId: string)
    requires CompletionMessages(messages, priorityText, settings, botUserId).Some?
    ensures var r := CompletionMessages(messages, priorityText, settings, botUserId).value;
            var head := if priorityText.Some? then 2 else 1;
            && r[0] == Turn(System, SystemPrompt(PromptFor(settings, messages[0].broadcasterTwitchId.value)))
            && (priorityText.Some? ==> r[1] == Turn(System, PriorityPrompt(priorityText.value)))
            && r[head..] == LastN(FormattedTurns(messages, botUserId), ContextSize)
            && (forall t :: t in r[head..] ==> t.role == User)
  {
    ContextTurnsAreUser(messages, botUserId);
  }

  /** The context is fetched newest first, so `slice(-3)` keeps the three
      oldest surviving messages: none of the kept ones is newer than a
      surviving message that was cut. */
  lemma ContextKeepsOldest(messages: seq<AiMessage>, botUserId: string)
    requires forall i, j :: 0 <= i < j < |messages| ==> messages[i].createdAt >= messages[j].createdAt
    ensures var kept := KeptMessages(messages, botUserId);
            var last := LastN(kept, ContextSize);
            && Map(last, (m: AiMessage) => ToTurn(m, botUserId)) == LastN(FormattedTurns(messages, botUserId), ContextSize)
            && forall i, k :: 0 <= i < |last| && 0 <= k < |kept| - |last| ==> last[i].createdAt <= kept[k].createdAt
  {
    var key := (m: AiMessage) => -m.createdAt;
    assert SortedBy(messages, key);
    FilterSorted(messages, (m: AiMessage) => Keep(m, botUserId), key);
  }

  // ----- utils/messages/service.ts -----

  /** The `priorityMessage` the message services post. */
  datatype PriorityMessage = PriorityMessage(text: string, chatterUserName: string, kind: MessageKind,
                                             broadcasterTwitchId: string, twitchUserId: Option<string>,
                                             createdAt: Option<int>)

  /** The body posted to a chat-completion route. */
  datatype AiRequest = AiRequest(messages: seq<AiMessage>, priority: PriorityMessage)
}
