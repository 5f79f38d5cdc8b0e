# stream-pal-ai chat bot core, modelled in Dafny

stream-pal-ai is a Twitch chat bot. Twitch pushes signed EventSub
notifications to the bot's webhook routes. The bot checks each signature,
stores chat messages in Supabase and decides whether to answer. The
decision uses a per-stream cooldown. An answer comes from a completion
service that gets recent chat as context, and is posted back to the
channel. Beside that chat path the project has:

- a cron route that talks to every live stream;
- the routes and services that keep a broadcaster's EventSub
  subscriptions (`stream.online`, `stream.offline`,
  `channel.chat.message`) in step with their settings;
- a cached app-access-token route;
- a typing-delay calculator;
- a retrying price upsert;
- a debounced buffer that turns speech-to-text fragments into chat
  messages.

The model has one module per source component:

- `WebhookVerification`, `WebhookRoute`, `EventSubRoute`, `EventSubHttp`:
  HMAC signature check and the two webhook routes.
- `Store`: the Supabase tables as sequences of rows, their queries as
  functions, and a `Database` class whose methods update the tables in
  place.
- `Cooldown`, `ContextFormatter`, `Interaction`: the cooldown gates, the
  `/api/openai/chat` prompt assembly, and the request, row and send
  helpers the orchestrators share.
- `MessageService`, `WebhookService`, `ChatProcessor`, `CronInteraction`:
  the four chat orchestrators. Each is a pure `...Outcome` function (or a
  `CronLoop`) and a method over `Database`/`Outbox` proved equal to it.
- `EventSub`, `SubscriptionService`, `ChatSubscriptions`,
  `ServerSubscriptions`, `ClientSubscriptions`: the Helix subscription
  list as a `Remote` object, and every subscription manager of the
  repository.
- `TokenCache`, `MessageTiming`, `PriceRetry`, `TranscriptBuffer`: the
  token route, the delay calculator, the price upsert retry loop and the
  transcript debouncer.
- `Text`, `Ordering`, `Wrappers`: string, sequence and option helpers.

Collaborators the code calls are parameters of the model:

- the HMAC digest;
- the JSON parser;
- the completion service and the `/api/chat` reply;
- the statuses Twitch answers to create, list and delete requests;
- whether a chat send succeeds;
- the clock;
- the random draw of the delay calculator.

Where the intended design and the code differ, the model
follows the code:

- Chat rows are inserted on every delivery. There is no deduplication on
  the Twitch message id.
- `responded_to` is written as `false` and never set to `true`.
- The message services compare against the stream's own cooldown, and
  read a missing `last_interaction` as time zero rather than as "always
  allowed".
- The webhook service stamps `last_interaction` before the cooldown check,
  so every accepted non-bot message restarts the cooldown, whether or not
  the bot answers.
- The chat processor and the cron route call `updateLastInteraction`,
  which only writes `updated_at`, so their cooldown never advances.
- `insertChatMessage` leaves `broadcaster_user_id` unset while
  `getChatHistory` filters on it, so the cron never sees those rows.
- The chat route drops the bot's own messages from the context instead of
  sending them as assistant turns, so every context turn has the user
  role.
- A missing `Twitch-Eventsub-Message-*` header is a 400 in
  `app/api/twitch/webhook/route.ts` and a 403 in
  `app/api/twitch/eventsub/route.ts`, where a signature of the wrong length
  makes `crypto.timingSafeEqual` throw instead of answering 403.

One exception: three imports in the source do not resolve (see "## Left
out"). The model binds `formatMessagesForAI` and `shouldInteract` to the
only definitions the repository has, in utils/messages/service.ts, and
takes the token route's `TWITCH.SCOPES` to be some scope string; the token
route as written is modelled beside it (`TokenCache.ServeUnboundScopes`).

## Model

| member | source | states |
|---|---|---|
| WebhookVerification.ExpectedSignature | utils/twitch/webhook-verification.ts:13-17 | the expected signature is "sha256=" followed by the digest of id, timestamp and body concatenated |
| WebhookVerification.VerifyWebhookSignature | utils/twitch/webhook-verification.ts:3-20 | a missing or empty id, timestamp or signature is rejected; otherwise the verdict is true exactly when the signature equals the expected one; an accepted signature carries the "sha256=" prefix |
| WebhookVerification.UnprefixedRejected | utils/twitch/webhook-verification.ts:14-19 | a signature without the "sha256=" prefix is never accepted, whatever the headers and body |
| WebhookVerification.BoundaryIrrelevant | utils/twitch/webhook-verification.ts:13 | moving characters from the timestamp to the end of the id leaves the verdict unchanged, because only the concatenation is signed |
| WebhookRoute.AllHeadersPresent | app/api/twitch/webhook/route.ts:19-23 | the id, timestamp, type and signature headers are all present and non-empty |
| WebhookRoute.SignatureMatches | app/api/twitch/webhook/route.ts:29-44 | the received signature equals the route's own "sha256=" digest of id, timestamp and raw body |
| WebhookRoute.Dispatch | app/api/twitch/webhook/route.ts:47-86 | a parsed verification envelope gets 200 with its challenge as text/plain, and nothing else gets 200; an unknown message type gets 204; a notification or revocation gets 204 exactly when the envelope has a subscription; everything else is 500 |
| WebhookRoute.Post | app/api/twitch/webhook/route.ts:9-87 | 400 exactly when a header is missing; 403 exactly when all headers are present and the signature does not match; a signed body that does not parse is 500; 200 only for a verification message, as text/plain |
| WebhookRoute.MissingHeadersIgnoreBody | app/api/twitch/webhook/route.ts:19-26 | with a header missing the answer is 400 and does not depend on the body or the parser |
| WebhookRoute.RejectedBeforeParse | app/api/twitch/webhook/route.ts:29-47 | a bad signature gives the 403 "Invalid signature" answer before the body is parsed, whatever the parser does |
| WebhookRoute.AgreesWithVerifier | app/api/twitch/webhook/route.ts:30-44 | with all headers present, the route answers something other than 403 exactly when the shared verifier accepts |
| WebhookRoute.NotificationAcknowledged | app/api/twitch/webhook/route.ts:58-71 | a signed notification whose envelope has a subscription is acknowledged with an empty 204 |
| EventSubRoute.VerifyTwitchSignature | app/api/twitch/eventsub/route.ts:8-25 | a missing header is a rejection; with all headers present the check throws exactly when the signature's length differs from the expected one; it accepts exactly what the shared webhook verifier accepts |
| EventSubRoute.Post | app/api/twitch/eventsub/route.ts:27-68 | the 403 "Invalid signature" answer comes exactly when verification rejects, and a throwing check makes the handler throw; a signed body that does not parse throws; an unknown message type produces no response; a signed verification message whose body is an object is answered 200 with its challenge as text/plain, a signed revocation with an empty 204, and 200 comes only for a verification message |
| EventSubRoute.MissingHeaderForbidden | app/api/twitch/eventsub/route.ts:8-33 | a missing header is a 403, whatever the body and parser |
| EventSubRoute.TypeReadAfterSignature | app/api/twitch/eventsub/route.ts:28-36 | when the signature check rejects or throws, the message type header cannot change the outcome |
| EventSubRoute.NotificationAcknowledged | app/api/twitch/eventsub/route.ts:53-63 | a signed notification with a subscription is acknowledged with an empty 204 |
| TokenCache.IsHit | app/api/twitch/token/route.ts:8 | the slot is served only when it holds a token whose expiry is strictly after now |
| TokenCache.ServeUnboundScopes | app/api/twitch/token/route.ts:1-41 | as written, with `TWITCH` unbound: a live slot is served, and every miss answers 500 before fetching and keeps the slot |
| TokenCache.UnboundScopesAsRefused | app/api/twitch/token/route.ts:1-41 | with `TWITCH` unbound, a miss behaves as a refused fetch under the bound import, so an empty slot is never filled |
| TokenCache.Serve | app/api/twitch/token/route.ts:6-41 | a live slot is served unchanged; otherwise a granted fetch is stored with expiry `expires_in` less 60 s and served; a refused fetch is a 500 that keeps the old slot; a served token is always the one in the slot |
| TokenCache.TokenRoute.Get | app/api/twitch/token/route.ts:4-41 | the module-level slot and the response after one GET are what `Serve` gives for the slot before it |
| TokenCache.TokenRoute.constructor | app/api/twitch/token/route.ts:4 | the cache starts empty |
| TokenCache.HitIgnoresFetch | app/api/twitch/token/route.ts:8-10 | while the slot is live, what Twitch would answer makes no difference |
| TokenCache.ExpiryIsStrict | app/api/twitch/token/route.ts:8 | a token whose expiry equals the current time is no longer served |
| TokenCache.ShortLivedRefetch | app/api/twitch/token/route.ts:29-35 | a token granted for at most the 60 s buffer is stored already expired, so the next request fetches again |
| TokenCache.LongLivedServedFromSlot | app/api/twitch/token/route.ts:8-37 | a freshly stored token is served from the slot until its buffered expiry |
| MessageTiming.BaseDelay | utils/message-timing.ts:19-26 | typing time (length over characters per second, in ms) plus thinking time scaled by one percent per character |
| MessageTiming.Jittered | utils/message-timing.ts:28-30 | the total moved by `r` times the variation minus half the variation, the variation being the total times `randomVariation` |
| MessageTiming.Clamp | utils/message-timing.ts:33-36 | the delay never exceeds the maximum; it is at least the minimum when the bounds are ordered; an in-range delay is kept; crossed bounds yield the maximum |
| MessageTiming.CalculateMessageDelay | utils/message-timing.ts:9-37 | the delay is at most `maxDelay`, and at least `minDelay` when `minDelay <= maxDelay` |
| MessageTiming.JitterRange | utils/message-timing.ts:29-30 | the random variation moves the delay by at most half the variation either way |
| MessageTiming.BaseDelayMonotone | utils/message-timing.ts:20-26 | a longer message never has a shorter delay before jitter |
| MessageTiming.EmptyMessageDefault | utils/message-timing.ts:11-30 | with the default configuration an empty message waits between 450 and 550 ms |
| PriceRetry.IsForeignKeyError | utils/supabase/admin.ts:63 | an upsert error is retried only when its message contains "foreign key constraint" |
| PriceRetry.UpsertPriceRecord | utils/supabase/admin.ts:40-78 | every call makes at least one attempt and at most `maxRetries + 1` attempts counted from zero; exhausted retries end at the last permitted attempt |
| PriceRetry.OnlyForeignKeyRetried | utils/supabase/admin.ts:63-72 | every attempt before the last failed with a foreign-key error |
| PriceRetry.LastAttemptDecides | utils/supabase/admin.ts:63-77 | the upsert succeeds exactly when the last attempt had no error; it throws without retrying exactly when that error is not a foreign-key error; exhaustion follows a foreign-key error at the retry limit |
| PriceRetry.DefaultAtMostFourAttempts | utils/supabase/admin.ts:40-72 | with the default limit there are at most four attempts, and four foreign-key errors end in an exhausted throw |
| TranscriptBuffer.Debouncer.constructor | components/ui/AccountForms/MessagesForm.tsx:14-51 | the buffer is empty, no save is pending, nothing is submitted, and the caption reads "Powered by Deepgram" |
| TranscriptBuffer.Debouncer.OnTranscript | components/ui/AccountForms/MessagesForm.tsx:53-73 | a blank transcript changes nothing; an interim one only sets the caption; a final one is appended to the buffer with one space, restarts the save timer and is shown as the caption |
| TranscriptBuffer.Debouncer.ShowInterim | components/ui/AccountForms/MessagesForm.tsx:59-62 | an interim transcript replaces the caption and leaves the buffer, the pending save and the submitted messages as they were |
| TranscriptBuffer.Debouncer.Append | components/ui/AccountForms/MessagesForm.tsx:64-91 | appending a fragment keeps the buffer equal to all buffered fragments joined by spaces, and restarts the save timer |
| TranscriptBuffer.Debouncer.Tick | components/ui/AccountForms/MessagesForm.tsx:75-88 | before the timer is due nothing happens; when it is due the whole buffer is submitted as one message, and the buffer is cleared unless processing threw |
| TranscriptBuffer.AppendFragment | components/ui/AccountForms/MessagesForm.tsx:73 | adding a fragment with the source's separator rule equals joining the longer fragment list |
| TranscriptBuffer.JoinSnoc | components/ui/AccountForms/MessagesForm.tsx:73 | joining one more non-empty fragment adds a space only when the joined text is not empty |
| TranscriptBuffer.JoinNonEmpty | components/ui/AccountForms/MessagesForm.tsx:76 | joined non-empty fragments are empty exactly when there are none, so a pending save always has text |
| TranscriptBuffer.TwoFragmentsOneMessage | components/ui/AccountForms/MessagesForm.tsx:64-88 | starting from an empty buffer, two final fragments followed by the due save submit exactly one message `a + " " + b` and leave the buffer empty with no save pending |
| Text.ContainsIffOccurs | app/api/openai/chat/route.ts:46-48 | the substring test holds exactly when the needle occurs at some index |
| Text.ToLower | app/api/openai/chat/route.ts:47 | lower-casing keeps the length and maps each character through ASCII case folding |
| Text.TrimStart | components/ui/AccountForms/MessagesForm.tsx:55 | the result is the suffix of the input left after removing exactly its leading white space: it does not start with white space and everything dropped is white space |
| Text.TrimEnd | components/ui/AccountForms/MessagesForm.tsx:55 | the result is the prefix of the input left after removing exactly its trailing white space: it does not end with white space and everything dropped is white space |
| Text.Trim | components/ui/AccountForms/MessagesForm.tsx:55 | the result is no longer than the input, neither starts nor ends with white space, and is empty exactly when the input is all white space |
| Text.TrimIsInfix | components/ui/AccountForms/MessagesForm.tsx:55 | the trimmed text occurs inside the original at a position with only white space before and after it |
| Cooldown.ShouldInteract | utils/messages/service.ts:155-160 | no recorded interaction allows one; less than the 10 s cooldown since the last one forbids it |
| Cooldown.ShouldInteractBoundary | app/api/cron/chat-interaction.ts:14-26 | exactly 10 s after the last interaction the bot may interact; 1 ms earlier it may not |
| Cooldown.ShouldInteractMonotone | utils/messages/service.ts:155-160 | once the gate is open it stays open as time goes on |
| Cooldown.GateOpen | utils/messages/service.ts:56-65 | with no stream cooldown set, the gate opens exactly 6 s after the last interaction, with a missing one read as time zero |
| Cooldown.GateClosesAfterInteraction | app/api/twitch/webhook/service.ts:99-108 | an interaction stamped at t closes a positive cooldown of c seconds until t + 1000c and opens it exactly then |
| Cooldown.NonPositiveCooldownNeverGates | utils/messages/service.ts:59-62 | a zero or negative stream cooldown never holds the bot back once the last interaction is past |
| Store.GetChatHistory | utils/supabase/admin.ts:377-400 | the rows whose `broadcaster_user_id` is the id, newest first by `created_at`, cut to `limit`, then reversed to oldest first |
| Store.GetRecentMessagesWithUserData | utils/supabase/admin.ts:438-457 | the rows inner-joined with their user whose `broadcaster_twitch_id` is the id, newest first by `created_at`, cut to `limit`, not reversed |
| Store.GetActiveStreamSettings | utils/supabase/admin.ts:353-372 | the settings rows with `is_live`, ordered by `updated_at` ascending |
| Store.SettingsOf | utils/messages/service.ts:44-48 | the settings row whose `platform_user_id` is the broadcaster, when exactly one row has it |
| Store.UserByTwitchId | utils/supabase/admin.ts:294-298 | the user whose `twitch_user_id` is the id, when exactly one user has it |
| Store.UpsertStatus | utils/supabase/admin.ts:305-316 | the `(user_id, platform)` row gets the new `is_live` and `platform_user_id`; with no such row, a new one with only those columns and `updated_at` is appended |
| Store.TouchUpdatedAt | utils/supabase/admin.ts:405-409 | every row whose `platform_user_id` is the broadcaster gets `updated_at` set to now, and nothing else changes |
| Store.SetLastInteraction | utils/messages/service.ts:87-91 | every row whose `platform_user_id` is the broadcaster gets `last_interaction` set to the stamp, and nothing else changes |
| Store.GetChatHistoryShape | utils/supabase/admin.ts:377-400 | chat history returns exactly `min(limit, n)` rows, `n` being the number of the stream's own rows; they are the stream's own rows, oldest first, as a sub-multiset of the table |
| Store.GetChatHistoryKeepsNewest | utils/supabase/admin.ts:386-399 | every row the limit drops is no newer than every row returned |
| Store.JoinUsers | utils/supabase/admin.ts:441-446 | the inner join returns no more rows than there are messages |
| Store.JoinUsersMembers | utils/supabase/admin.ts:441-446 | each joined row pairs a stored message with a user of the same id and that user's Twitch id; every message with a matching user appears |
| Store.GetRecentShape | utils/supabase/admin.ts:438-457 | recent messages number exactly `min(limit, n)`, `n` being the number of the broadcaster's joined rows; they belong to the broadcaster, come from the table, and are newest first |
| Store.GetRecentKeepsNewest | utils/supabase/admin.ts:438-457 | every joined row of the broadcaster the limit drops is no newer than every row returned |
| Store.GetActiveStreamSettingsExact | utils/supabase/admin.ts:353-372 | active settings are exactly the live rows, in ascending `updated_at` order |
| Store.Single | utils/supabase/admin.ts:294-298 | `.single()` finds a row exactly when exactly one row matches |
| Store.SingleFound | utils/supabase/admin.ts:420-425 | a row `.single()` finds is a stored row satisfying the filter |
| Store.UpdateWhere | utils/supabase/admin.ts:405-409 | an update keeps the row count and rewrites exactly the matching rows |
| Store.UpdateKeepsKeysUnique | utils/supabase/admin.ts:306-316 | an update that keeps `user_id` and `platform` keeps that pair a unique key |
| Store.SettingsOfAfterUpdate | utils/supabase/admin.ts:405-409 | after updating one broadcaster's settings, the next lookup finds the updated row for them and the old row for everyone else |
| Store.TouchKeepsKeysUnique | utils/supabase/admin.ts:405-409 | stamping `updated_at` keeps the settings key unique |
| Store.TouchKeepsLastInteraction | utils/supabase/admin.ts:405-415 | `updateLastInteraction` leaves every row's `last_interaction` as it was |
| Store.UpsertStatusKeyed | utils/supabase/admin.ts:305-316 | the status upsert leaves exactly one row for the user on Twitch, with the new status and platform id; an existing row of that key keeps every other column; without one, exactly one new row is appended with only the key, status, platform id and `updated_at` set; rows of other keys are untouched |
| Store.UpsertStatusTwice | utils/supabase/admin.ts:306-316 | a second upsert for the same user adds no row |
| Store.Database.InsertChatMessage | utils/supabase/admin.ts:326-348 | the messages table gains exactly the chat row and the other tables are unchanged |
| Store.Database.InsertMessage | utils/messages/service.ts:68-80 | the messages table gains exactly the given row and the other tables are unchanged |
| Store.Database.UpdateLastInteraction | utils/supabase/admin.ts:405-415 | only the broadcaster's `updated_at` is stamped; the other tables are unchanged |
| Store.Database.RecordInteraction | utils/messages/service.ts:88-91 | the broadcaster's `last_interaction` is set to the stamp and the table invariant is kept |
| Store.Database.UpdateStreamStatus | utils/supabase/admin.ts:289-324 | an unknown Twitch user changes nothing; a known one gets the status upsert; the invariant is kept |
| Store.ChatMessageRow | utils/supabase/admin.ts:326-342 | a stored chat message is a Twitch row whose user and broadcaster Twitch id are the broadcaster |
| Store.ChatHistoryMissesInsertedRows | utils/supabase/admin.ts:386-391 | rows stored by `insertChatMessage` never appear in `getChatHistory` |
| Ordering.SortBy | utils/supabase/admin.ts:390 | ordering yields a sorted permutation of the input |
| Ordering.Take | utils/supabase/admin.ts:391 | the limit yields a prefix of length `min(n, size)` |
| Ordering.Reverse | utils/supabase/admin.ts:399 | reversal keeps the length and mirrors every index |
| Ordering.LastN | app/api/openai/chat/route.ts:77 | `slice(-n)` yields the last `min(n, size)` elements in order |
| Ordering.FilterConcat | app/api/openai/chat/route.ts:43-54 | filtering distributes over concatenation, so it keeps relative order |
| Ordering.FilterSorted | utils/supabase/admin.ts:386-390 | filtering a sorted sequence leaves it sorted |
| ContextFormatter.IsSpam | app/api/openai/chat/route.ts:45-48 | a text is spam when its lower-cased form contains one of the three spam keywords |
| ContextFormatter.Keep | app/api/openai/chat/route.ts:43-54 | a message is kept when it is not spam and its `twitch_user_id` is not the bot |
| ContextFormatter.KeptMessages | app/api/openai/chat/route.ts:43-54 | the kept messages, in their original order |
| ContextFormatter.Speaker | app/api/openai/chat/route.ts:59 | "streamer" for a transcript, otherwise the chatter name |
| ContextFormatter.FormattedTurns | app/api/openai/chat/route.ts:56-60 | one turn per kept message, in order |
| ContextFormatter.PromptFor | app/api/openai/chat/route.ts:33-40 | the `.single()` lookup of `bot_prompt` on the broadcaster's Twitch row: no row, a null prompt, or the prompt |
| ContextFormatter.SystemPrompt | app/api/openai/chat/route.ts:64 | the stored prompt, or "undefined" or "null" as JavaScript spells a missing row or prompt, followed by the global prompt |
| ContextFormatter.PriorityPrompt | app/api/openai/chat/route.ts:70-73 | the instruction to respond to the quoted priority text |
| ContextFormatter.FormatMessage | utils/messages/service.ts:145-152 | a joined row becomes a message with its text (or ""), its chatter name (or "anonymous"), the user's Twitch id (or "unknown"), and its kind, time and broadcaster |
| ContextFormatter.FormatMessagesForAI | utils/messages/service.ts:144-153 | formatting keeps the number and order of the messages |
| ContextFormatter.ToTurn | app/api/openai/chat/route.ts:57-60 | a turn reads "speaker: text", with "streamer" for transcripts, and has the user role exactly when the author is not the bot |
| ContextFormatter.CompletionMessages | app/api/openai/chat/route.ts:27-78 | the request is refused exactly when there is no first message with a broadcaster id; otherwise it starts with a system turn and has at most the system turns plus 3 context turns |
| ContextFormatter.ChatRoute | app/api/openai/chat/route.ts:12-89 | the route answers 500 exactly when the request is refused or the completion fails; otherwise it answers the completion |
| ContextFormatter.KeptMessagesExact | app/api/openai/chat/route.ts:43-54 | exactly the non-spam messages not written by the bot are kept, in order |
| ContextFormatter.ContextTurnsAreUser | app/api/openai/chat/route.ts:50-58 | every context turn has the user role |
| ContextFormatter.CompletionLayout | app/api/openai/chat/route.ts:64-78 | the request is the stream prompt, then the priority instruction when there is one, then the last 3 formatted turns |
| ContextFormatter.ContextKeepsOldest | app/api/openai/chat/route.ts:74-77 | on newest-first input the kept window is the oldest messages: nothing dropped is older than anything kept |
| Interaction.ReplyContent | utils/messages/service.ts:139-141 | a failed reply gives no content; a successful reply gives exactly its content |
| Interaction.SavedRow | utils/messages/service.ts:68-80 | a saved event is an unanswered row carrying its text, kind, author, chatter and broadcaster, stamped with the save time |
| Interaction.PriorityFor | utils/messages/service.ts:111-118 | the priority message carries the event's text, chatter, kind, broadcaster and save time |
| Interaction.Outbox.Send | utils/twitch/chat.ts:1-24 | every send is recorded once, in order, and throws exactly when Twitch refuses it |
| MessageService.ProcessMessageOutcome | utils/messages/service.ts:8-124 | in source order: missing ids stop; no single settings row stops; a closed gate stops; the event is saved; a bot message stops; `last_interaction` is stamped; no recent rows stop; the reply is asked for; truthy content is posted |
| MessageService.ProcessMessage | utils/messages/service.ts:8-124 | the tables, the sends, the stop reason and the completion request are those of the pipeline outcome |
| MessageService.NothingSavedBeforeGate | utils/messages/service.ts:35-80 | the event is saved exactly when it has a user, a broadcaster with settings, and an open gate; a stop before that changes nothing and sends nothing |
| MessageService.BotMessageSavedSilently | utils/messages/service.ts:82-85 | a message from the bot is never answered and never moves the cooldown |
| MessageService.InteractionRecordedBeforeReply | utils/messages/service.ts:87-91 | every run past the bot check stamps the broadcaster's `last_interaction` before asking for a reply |
| MessageService.ReplyOnlyWithContent | utils/messages/service.ts:106-123 | one chat post is made exactly when the reply has non-empty content, and it is that content; the request's priority is the event |
| MessageService.SecondMessageWithinCooldownGated | utils/messages/service.ts:56-91 | after an interaction, a second message for the same stream within its cooldown is stopped at the gate and changes nothing |
| WebhookService.GenerateReply | app/api/twitch/webhook/service.ts:129-144 | generated content is exactly the content the chat route answers for the request, and none when the route fails with 500 |
| WebhookService.ProcessMessageOutcome | app/api/twitch/webhook/service.ts:9-126 | in source order: missing ids stop; no single settings row stops; the event is saved; a bot message stops; `last_interaction` is stamped; no recent rows stop; the gate on the settings read at entry stops; the reply is generated; truthy content is posted |
| WebhookService.ProcessMessage | app/api/twitch/webhook/service.ts:9-126 | the tables, the sends, the stop reason and the completion request are those of the pipeline outcome |
| WebhookService.SavedAndStampedBeforeGate | app/api/twitch/webhook/service.ts:56-80 | with a user and settings, the message is always saved; a bot message stops there; any other message stamps `last_interaction` before the gate |
| WebhookService.GateUsesEntrySettings | app/api/twitch/webhook/service.ts:98-108 | the gate reads the settings fetched before the stamp, and a closed gate ends the run with nothing sent |
| WebhookService.NextMessageWithinCooldownGated | app/api/twitch/webhook/service.ts:76-108 | a later message for the same stream within the cooldown of the earlier one gets no reply |
| WebhookService.ReplyOnlyWithContent | app/api/twitch/webhook/service.ts:110-125 | one chat post is made exactly when the generated reply has non-empty content, and it posts that content |
| WebhookService.HandleStreamStart | app/api/twitch/webhook/service.ts:174-188 | an unknown broadcaster throws and changes nothing; otherwise the stream is marked live and a chat subscription is created when Twitch accepts it |
| WebhookService.HandleStreamEnd | app/api/twitch/webhook/service.ts:190-200 | an unknown broadcaster throws; otherwise the stream is marked offline and the broadcaster's chat subscriptions are deleted in list order until one is refused |
| ChatProcessor.PriorityOf | utils/twitch/chat-processor.ts:43-48 | the priority message carries the chat text, chatter and broadcaster, with no Twitch id and no time |
| ChatProcessor.ProcessNewChatMessageOutcome | utils/twitch/chat-processor.ts:6-57 | in source order: the event is saved; a bot message stops; a failed settings lookup aborts; a closed `shouldInteract` gate stops; no recent rows stop; a failed reply sends nothing; an OK reply is posted, and only a delivered post stamps `updated_at` |
| ChatProcessor.ProcessNewChatMessage | utils/twitch/chat-processor.ts:6-33 | the tables, the sends, the stop reason and the completion request are those of the pipeline outcome |
| ChatProcessor.GenerateAndSendResponse | utils/twitch/chat-processor.ts:35-57 | the request is the formatted context with the event as priority; a failed reply sends nothing; a reply is posted, and only a delivered post stamps `updated_at` |
| ChatProcessor.EveryEventSaved | utils/twitch/chat-processor.ts:7-18 | every chat event is stored first; a bot message is never answered and changes no settings |
| ChatProcessor.ReplyNeedsGateContextAndOk | utils/twitch/chat-processor.ts:20-56 | a post needs a non-bot author, settings, an open gate, context and a successful reply; settings change only after a delivered post |
| ChatProcessor.CooldownNeverAdvances | utils/supabase/admin.ts:405-425 | no run of the chat processor changes any stream's `last_interaction` |
| ChatProcessor.ReplyLeavesGateOpen | utils/twitch/chat-processor.ts:20-56 | after a reply, the next non-bot message for the same stream is not stopped by the cooldown |
| ChatProcessor.PassedGate | utils/twitch/chat-processor.ts:20-23 | a non-bot message for a stream with settings and an open gate is not stopped by the cooldown |
| CronInteraction.CronContext | app/api/cron/chat-interaction.ts:40-45 | the history rows with a truthy chatter name and text, as name and text, in order |
| CronInteraction.CronPrompt | app/api/cron/chat-interaction.ts:75-77 | the fixed header followed by the "name: text" lines joined by newlines |
| CronInteraction.CronStep | app/api/cron/chat-interaction.ts:35-60 | a closed gate does nothing; a failed completion throws; otherwise truthy content is posted to a truthy id, a refused post throws, and otherwise the stream's id is touched |
| CronInteraction.CronLoop | app/api/cron/chat-interaction.ts:34-61 | the steps over the streams in order, their touches and posts concatenated, ending at the first step that throws |
| CronInteraction.TouchAll | app/api/cron/chat-interaction.ts:59 | the settings after `updateLastInteraction` for each touched id in turn |
| CronInteraction.CronFrom | app/api/cron/chat-interaction.ts:34-61 | the settings, the posts and the abort flag after running the loop one stream at a time from a given state |
| CronInteraction.HandleStream | app/api/cron/chat-interaction.ts:35-60 | one stream's run touches, posts and throws as the specified step says, touching at most one stream |
| CronInteraction.Post | app/api/cron/chat-interaction.ts:28-68 | the route runs the loop over the live streams; settings, posts and status 200 or 500 are those of the run |
| CronInteraction.HandleStreams | app/api/cron/chat-interaction.ts:34-61 | the loop leaves settings and posts as the specified run over the streams says, and stops at the first exception |
| CronInteraction.CronFromLoop | app/api/cron/chat-interaction.ts:34-61 | the step-by-step state of the loop equals the whole run's effect applied to the starting state |
| CronInteraction.CronContextExact | app/api/cron/chat-interaction.ts:40-45 | the context keeps exactly the rows with a chatter name and text, in order, and none of its lines is empty |
| CronInteraction.CronPromptAppend | app/api/cron/chat-interaction.ts:75-77 | the prompt is the header followed by one "name: text" line per message, separated by newlines |
| CronInteraction.TouchAllKeepsLastInteraction | app/api/cron/chat-interaction.ts:37-59 | the cron never changes any stream's `last_interaction` |
| CronInteraction.TouchAllKeepsKeysUnique | app/api/cron/chat-interaction.ts:59 | the cron's updates keep the settings key unique |
| CronInteraction.CronTouchesEveryOpenStream | app/api/cron/chat-interaction.ts:37-59 | a run that does not abort touches exactly the streams whose gate is open, in order |
| CronInteraction.CronPostsNeedIdAndContent | app/api/cron/chat-interaction.ts:51-56 | every cron post goes to a non-empty broadcaster id with non-empty content |
| CronInteraction.CronLoopSequential | app/api/cron/chat-interaction.ts:34-61 | a run over two stream lists is the first run, then, if it did not abort, the second |
| CronInteraction.CronIdleWhenGated | app/api/cron/chat-interaction.ts:37-60 | when every stream is within the cooldown the cron does nothing |
| EventSub.ListForUser | app/api/twitch/subscriptions/service.ts:107-110 | the `GET ?user_id=` listing: the subscriptions whose condition names the user as broadcaster or user |
| EventSub.ListByType | utils/twitch/subscriptions.ts:60-70 | the `GET ?type=` listing: the subscriptions of that type |
| EventSub.WithoutIds | app/api/twitch/subscriptions/service.ts:195-203 | the remote list after the given ids are deleted, in order |
| EventSub.Materialize | app/api/twitch/subscriptions/service.ts:162-169 | the accepted requests as subscriptions pending webhook verification, with consecutive fresh ids; one per request |
| EventSub.Confirm | app/api/twitch/webhook/route.ts:50-57 | once the callback has echoed the challenge, Twitch turns a pending subscription into an enabled one and leaves any other unchanged |
| EventSub.Confirmed | app/api/twitch/webhook/route.ts:50-57 | the remote set after every pending subscription has been verified, in the same order |
| EventSub.RunDeletes | utils/twitch/subscriptions.ts:74-93 | the ids a sequential delete loop removes, skipping what the filter rejects, and whether it stopped at a refused delete |
| EventSub.Remote.Create | app/api/twitch/subscriptions/service.ts:162-174 | a create adds one subscription, pending verification, with a fresh id exactly when Twitch accepts it |
| EventSub.Remote.Delete | app/api/twitch/subscriptions/service.ts:196-200 | an accepted delete removes exactly that id; a refused one changes nothing |
| EventSub.AcceptedDeletes | app/api/twitch/subscriptions/service.ts:190-203 | every target whose delete is accepted is removed |
| EventSub.AcceptedDeletesOnlyTargets | app/api/twitch/subscriptions/service.ts:190-203 | only targets whose delete is accepted are removed |
| EventSub.RunDeletesSelected | utils/twitch/subscriptions.ts:74-75 | a delete loop only removes listed subscriptions that match its filter |
| EventSub.RunDeletesStopsAtFailure | utils/twitch/subscriptions.ts:74-92 | the first refused delete ends the loop with an error, after removing exactly the matching ones listed before it |
| EventSub.RunDeletesAllOk | utils/twitch/subscriptions.ts:74-93 | when every delete is accepted, every matching subscription is removed and nothing is thrown |
| EventSub.SparesUnselected | utils/twitch/subscriptions.ts:75 | a subscription the filter does not select survives the delete loop |
| EventSub.DeleteUntilFailure | utils/twitch/subscriptions.ts:74-93 | the sequential delete loop leaves the remote list and the error as the specified run says |
| EventSub.DeleteEach | app/api/twitch/subscriptions/service.ts:190-203 | deleting every target leaves the remote list without exactly the accepted ones |
| SubscriptionService.Existing | app/api/twitch/subscriptions/service.ts:107-110 | the listing for the user, or nothing when the list request failed |
| SubscriptionService.HasEnabled | app/api/twitch/subscriptions/service.ts:114-123 | an enabled subscription of the type whose broadcaster is the user is listed |
| SubscriptionService.MissingRequests | app/api/twitch/subscriptions/service.ts:134-159 | the online request unless present and enabled, then the offline request unless present and enabled |
| SubscriptionService.CreateRun | app/api/twitch/subscriptions/service.ts:161-180 | the requests accepted in order; a 409 is skipped and any other refusal ends the run as failed |
| SubscriptionService.CreateFrom | app/api/twitch/subscriptions/service.ts:162-180 | the remote list, next id and failure flag after running the create loop one request at a time |
| SubscriptionService.DisableTargets | app/api/twitch/subscriptions/service.ts:190-194 | the listed online and offline subscriptions whose broadcaster is the user |
| SubscriptionService.StreamRequest | app/api/twitch/subscriptions/service.ts:137-158 | a stream request has the given type, the user as broadcaster and the webhook callback |
| SubscriptionService.MissingRequestsExact | app/api/twitch/subscriptions/service.ts:134-159 | exactly the stream events without an enabled subscription are requested, each once, online first |
| SubscriptionService.CreateRunSubsequence | app/api/twitch/subscriptions/service.ts:161-180 | only requested subscriptions that Twitch accepted are created |
| SubscriptionService.ConflictIsSuccess | app/api/twitch/subscriptions/service.ts:171-174 | a 409 conflict does not fail the run, and every accepted request is created |
| SubscriptionService.CreateRunFailsOnError | app/api/twitch/subscriptions/service.ts:172-178 | any other refused create fails the run |
| SubscriptionService.CreateFromRun | app/api/twitch/subscriptions/service.ts:162-180 | the step-by-step create loop adds exactly the accepted requests with consecutive fresh ids |
| SubscriptionService.CreateEach | app/api/twitch/subscriptions/service.ts:161-180 | creating each missing request adds the accepted ones and keeps the remote list valid |
| SubscriptionService.CreateLoop | app/api/twitch/subscriptions/service.ts:162-180 | the create loop adds the accepted requests in order, advances the id counter by their number, and reports the failure |
| SubscriptionService.ManageTwitchSubscriptions | app/api/twitch/subscriptions/service.ts:91-219 | enabling with both stream events present changes nothing and reports them active; otherwise the missing ones are created; disabling after a failed list fails; otherwise the listed online/offline pair is deleted |
| SubscriptionService.ReenableBeforeVerification | app/api/twitch/subscriptions/service.ts:112-159 | until Twitch verifies them, the subscriptions an enable created are not enabled, so a second enable requests exactly what the first requested |
| SubscriptionService.ConflictingReenable | app/api/twitch/subscriptions/service.ts:160-178 | when Twitch answers both stream events with 409, an enable creates nothing and does not fail |
| SubscriptionService.EnableIdempotent | app/api/twitch/subscriptions/service.ts:112-159 | after an enable whose creates are accepted and whose new subscriptions Twitch has since verified, both stream events have an enabled subscription, so a second enable finds nothing missing and creates nothing |
| SubscriptionService.DisableSparesOthers | app/api/twitch/subscriptions/service.ts:188-209 | disabling never removes a subscription outside the user's online/offline pair |
| SubscriptionService.DisableRemovesPair | app/api/twitch/subscriptions/service.ts:188-203 | disabling removes each of the pair whose delete is accepted |
| ChatSubscriptions.ChatRequest | app/api/twitch/subscriptions/service.ts:5-17 | the chat request is a channel.chat.message subscription on the broadcaster |
| ChatSubscriptions.SubscribeToChatMessages | app/api/twitch/subscriptions/service.ts:2-49 | a subscription is created and returned exactly when Twitch accepts; this is also the body of `subscribeToChatMessages` in utils/twitch/subscriptions.ts |
| ChatSubscriptions.UnsubscribeFromChatMessages | utils/twitch/subscriptions.ts:56-94 | a failed list throws and changes nothing; otherwise the broadcaster's chat subscriptions are deleted in list order until one is refused |
| ChatSubscriptions.UnsubscribeSparesOthers | utils/twitch/subscriptions.ts:74-75 | other broadcasters' chat subscriptions and all other types survive an unsubscribe |
| ChatSubscriptions.UnsubscribeAllOkClears | app/api/twitch/subscriptions/service.ts:69-88 | when every delete is accepted, the broadcaster has no chat subscription left |
| ServerSubscriptions.PairRequest | utils/twitch/server.ts:18-31 | a request has the given type, the user as broadcaster and the webhook callback |
| ServerSubscriptions.ManageTwitchSubscriptions | utils/twitch/server.ts:1-89 | enabling throws, having created nothing, if the online create fails; it adds the offline one when that is accepted; disabling deletes the user's subscriptions in order until one is refused |
| ServerSubscriptions.DisableClearsUser | utils/twitch/server.ts:59-83 | when every delete is accepted, no subscription of the user is left |
| ClientSubscriptions.PairRequest | utils/twitch/client.ts:4-26 | a request has the given type, the user as broadcaster and the EventSub callback |
| ClientSubscriptions.Enable | utils/twitch/client.ts:12-43 | each stream event is created independently of the other |
| ClientSubscriptions.ManageTwitchSubscriptions | utils/twitch/client.ts:2-59 | enabling always completes, adding the accepted events; disabling after a failed list throws; otherwise every listed subscription of the user whose delete is accepted is removed |
| ClientSubscriptions.OfflineDespiteOnlineFailure | utils/twitch/client.ts:14-43 | a refused online create does not stop the offline one |
| ClientSubscriptions.DisableRemovesAccepted | utils/twitch/client.ts:44-57 | disabling removes each of the user's subscriptions whose delete is accepted |

## Left out

- The HMAC-SHA256 computation and hex encoding are a parameter `Digest`; the model proves what is signed, not the cryptography.
- EventSubRoute.VerifyTwitchSignature: compares the lengths of the two signatures in characters, whereas `Buffer.from` counts UTF-8 bytes, so a signature with non-ASCII characters may throw in the source where the model rejects; constant-time behaviour is not modelled.
- `toLowerCase` folds only ASCII letters in the model; other Unicode case mappings are not modelled.
- The `Promise.all` deletes of the subscription service run concurrently in the source; the model performs them one after another, which gives the same final list but not the interleaving.
- Concurrency between requests, and async interleaving in general, are not modelled: each request runs to completion against the tables it reads.
- Pagination of Helix subscription lists is not modelled; a list returns every matching subscription.
- WebhookService.ProcessMessage: app/api/twitch/webhook/service.ts:4 imports `formatMessagesForAI` from utils/twitch/chat.ts, which exports only `sendTwitchMessage`, so the import does not resolve; the model binds it to `formatMessagesForAI` of utils/messages/service.ts:144-153 (`ContextFormatter.FormatMessagesForAI`).
- ChatProcessor.ProcessNewChatMessage: utils/twitch/chat-processor.ts:1 imports `formatMessagesForAI` and `shouldInteract` from utils/messages.ts, which exports neither, so the import does not resolve; the model binds them to utils/messages/service.ts:144-160 (`ContextFormatter.FormatMessagesForAI` and `Cooldown.ShouldInteract`).
- TokenCache.Serve: app/api/twitch/token/route.ts:1 imports `TWITCH` from config/constants.ts, which exports only `TRANSCRIPTION`, `DEEPGRAM`, `CHAT`, `STREAM_SETTINGS` and `OPENAI`, so `TWITCH.SCOPES` (route.ts:19) throws inside the `try` and every miss answers 500 without fetching; `Serve` binds the import to a configuration whose scope is an opaque string and fetches, and `TokenCache.ServeUnboundScopes` models the route as written.
- TokenCache.TokenRoute.Get: follows `Serve`, with the `TWITCH` import bound as above.
- Store.ChatMessageRow: `insertChatMessage` sets only `timestamp` and leaves `created_at` to the database default; the model takes that default to be the insert time.
- Supabase write and read errors are not modelled, except two `.single()` failures: the settings lookup, which aborts the pipeline, and the user lookup of `updateStreamStatus` (utils/supabase/admin.ts:294-303), which makes `Store.Database.UpdateStreamStatus` return no user and leaves the settings unchanged.
- The order of rows with equal `created_at` or `updated_at` after `order` is whatever the sort produces; SQL leaves it unspecified.
- MessageTiming.CalculateMessageDelay: requires a non-zero `typeSpeed`, because a zero speed makes JavaScript produce `Infinity` or `NaN`, which the model does not represent.
- MessageTiming.CalculateMessageDelay: takes the length of the message as the number of characters of a Dafny string (Unicode scalar values), where `message.length` counts UTF-16 code units; the two differ for characters outside the Basic Multilingual Plane, such as most emoji.
- Floating-point numbers are modelled as exact reals, without rounding.
- The caption-clearing timeout of the transcript form is not modelled; only the caption's value is.
- Access tokens, the app-token fetch in the stream handlers and the `Authorization` headers are not modelled; the calls' outcomes are parameters.
- The texts of the error messages in the subscription managers' results are not modelled; only success, failure and the status are.
- The 2 s pause between price-upsert retries is not modelled; only the attempt count is.
- Time is an integer number of milliseconds supplied by the caller, and the cron uses one `now` for the whole run.
- `TWITCH_BOT_USER_ID` and the other environment settings are parameters such as `botUserId`.
- A stream row with a null `platform_user_id` is looked up by the cron as the empty id.
- The `/api/chat` reply used by the message services and the OpenAI completion are oracles (`reply`, `complete`); their network calls are not modelled.
- The duplicate handlers in utils/twitch/event-handlers.ts and app/api/twitch/handlers/service.ts, and the thin routes that only forward to the modelled services, are not part of this model.
- Stripe billing, apart from the retrying price upsert, the UI components and the audio capture are not part of this model.
- A transcript fragment that arrives while `processMessage` is awaited is not modelled: a tick runs to completion before the next fragment.
