/** What the four chat-interaction paths share: how a path ends, the
    message row and priority message the message services build from an
    incoming message, the reply of a completion route, and the Twitch chat
    outbox that `sendTwitchMessage` posts to. */
module Interaction {
  import opened Wrappers
  import opened Store
  import opened ContextFormatter

  /** CHAT.MESSAGE_CONTEXT_SIZE. */
  const MessageContextSize: nat := 10

  /** Where a path stopped; `Aborted` is an exception out of the path. */
  datatype Stop =
    | MissingUserData
    | NoSettings
    | OnCooldown
    | BotMessage
    | NoContext
    | NoContent
    | Replied
    | Aborted

  /** The HTTP answer of a completion route: not OK, or OK with the JSON
      `content`, which may be null. */
  datatype AiReply = NotOk | Ok(content: Option<string>)

  /** `generateAIResponse`: null for a non-OK reply, otherwise the content. */
  function ReplyContent(reply: AiReply): (r: Option<string>)
    ensures reply.NotOk? ==> r.None?
    ensures reply.Ok? ==> r == reply.content
  {
    if reply.NotOk? then None else reply.content
  }

  /** JavaScript truthiness of a string that may be null. */
  predicate IsTruthy(s: Option<string>) {
    s.Some? && s.value != ""
  }

  /** The arguments of `processMessage`. */
  datatype MessageEvent = MessageEvent(text: string, kind: MessageKind, userId: string, broadcasterId: string,
                                       chatterName: string, chatterId: string)

  /** The `messages` row both message services insert. */
  function SavedRow(ev: MessageEvent, timestamp: int): (row: MessageRow)
    ensures row.respondedTo == Some(false) && row.timestamp == timestamp && row.createdAt == timestamp
    ensures row.text == Some(ev.text) && row.kind == ev.kind && row.userId == ev.userId
    ensures row.chatterUserId == Some(ev.chatterId) && row.chatterUserName == Some(ev.chatterName)
    ensures row.broadcasterTwitchId == Some(ev.broadcasterId) && row.broadcasterUserId.None?
  {
    MessageRow(Some(ev.text), ev.kind, ev.userId, Some(ev.chatterId), Some(ev.chatterName), Some(ev.broadcasterId),
               None, timestamp, timestamp, Some(false))
  }

  /** The `priorityMessage` both message services post. */
  function PriorityFor(ev: MessageEvent, timestamp: int): (m: PriorityMessage)
    ensures m.text == ev.text && m.chatterUserName == ev.chatterName && m.kind == ev.kind
    ensures m.broadcasterTwitchId == ev.broadcasterId && m.twitchUserId == Some(ev.chatterId) && m.createdAt == Some(timestamp)
  {
    PriorityMessage(ev.text, ev.chatterName, ev.kind, ev.broadcasterId, Some(ev.chatterId), Some(timestamp))
  }

  /** One `sendTwitchMessage` call; a null message is posted as is. */
  datatype ChatSend = ChatSend(broadcasterId: string, message: Option<string>)

  /** The effect of one run of a path: the tables after it, the chat sends
      it attempted, where it stopped and the completion request it made. */
  datatype Outcome = Outcome(tables: Tables, sends: seq<ChatSend>, stop: Stop, request: Option<AiRequest>)

  /** The chat messages posted to `/api/twitch/message`, in order. */
  class Outbox {
    var sent: seq<ChatSend>

    constructor ()
      ensures sent == []
    {
      sent := [];
    }

    /** `sendTwitchMessage`: the message is posted; a non-OK answer (`ok`
        false) throws. */
    method Send(broadcasterId: string, message: Option<string>, ok: bool) returns (threw: bool)
      modifies this
      ensures sent == old(sent) + [ChatSend(broadcasterId, message)]
      ensures threw == !ok
    {
      sent := sent + [ChatSend(broadcasterId, message)];
      threw := !ok;
    }
  }
}
