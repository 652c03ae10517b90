# TechStore support chat: a Dafny model of the chat core

This project models the server-side core of a small customer-support chat
for an electronics store. There are three parts:

- The reply generator, `LLMService.generateReply`. It builds a prompt from
  a system preamble, the ten most recent stored messages and the user's
  text, cut to 1000 characters. It sends the prompt to a hosted language
  model. It turns the completion, or the error the call throws, into a
  reply for the customer.
- The chat service, `ChatService.processMessage` and
  `getConversationHistory`. One turn resolves the conversation: it creates a
  new one, adopts the client's unknown id, or reuses a known one. It then
  reads the history, saves the trimmed user text, generates the reply from
  the history as it was before the turn, saves the reply and touches the
  conversation. A statement that throws ends the turn with a fixed apology,
  and whatever was written before it stays.
- The validation middleware, `validateChatMessage` and
  `validateSessionId`.

The modules are:

- `Types`: the records shared by the services.
- `JsStrings`: JavaScript's `trim`, on which every emptiness check rests.
- `LlmService`: pure functions. The remote call is a function parameter
  `complete` from the prompt to a `Completion`, which is either the first
  choice's content (possibly absent) or a thrown `ApiError`.
- `ChatService`: two layers.
  - A value-level specification: the `Store` datatype and the function
    `Turn`, which gives the store and the response after a turn.
  - The class `ChatStore`: the two tables as fields, updated in place
    statement by statement by `ProcessMessage`.

  The turn takes the reply generator as a parameter `generate`. The
  service's own generator, `Generate(complete)`, is the as-written
  `GenerateReply` over the remote call, and `ChatStore.ProcessMessage`
  calls `GenerateReply` directly. `GenerateCorrected(complete)` is the
  same with the corrected reply handling described under Findings. The id the database generates for a new conversation (`dbId`), the
  `uuidv4()` used in fallback responses (`uuid`) and the store statement
  that throws, if any (`fault`), are parameters.
- `Validation`: the two middlewares as functions from a JSON field to
  `Next` or a 400 rejection.

## Model

| member | source | states |
|---|---|---|
| JsStrings.TrimStart | src/services/chatService.ts:66 | The result is a suffix of the input. Everything dropped is ECMAScript whitespace. What is left does not start with whitespace. |
| JsStrings.TrimEnd | src/services/chatService.ts:66 | The result is a prefix of the input. Everything dropped is whitespace. What is left does not end with whitespace. |
| JsStrings.Trim | src/services/llmService.ts:126 | `trim` returns the slice between the leading and the trailing whitespace. Both are all whitespace, and the result neither starts nor ends with whitespace. |
| JsStrings.BlankIffAllWhitespace | src/services/llmService.ts:80 | `!s.trim()` holds exactly when every character of `s` is whitespace. |
| JsStrings.VisibleFirstCharNotBlank | src/services/chatService.ts:14 | A string whose first character is not whitespace passes the emptiness test. |
| JsStrings.TrimIdempotent | src/services/chatService.ts:66 | Trimming the stored, already trimmed text again changes nothing. |
| JsStrings.TrimOfNonBlankIsNonBlank | src/services/chatService.ts:66 | The trimmed text of a non-blank message is non-empty and non-blank. |
| JsStrings.TrimIgnoresTrailingWhitespace | src/middleware/validation.ts:11 | Appending whitespace never changes the trimmed text. |
| JsStrings.TrimEndIgnoresTrailingWhitespace | src/middleware/validation.ts:11 | Appending whitespace never changes the right-trimmed text. |
| LlmService.Truncate | src/services/llmService.ts:88-91 | Text of at most 1000 characters is sent unchanged. Longer text becomes its first 1000 characters followed by the marker. The sent text is never longer than 1000 plus the marker. |
| LlmService.TruncateIdempotent | src/services/llmService.ts:88-91 | Truncating an already truncated text yields it again. |
| LlmService.RecentHistory | src/services/llmService.ts:94-95 | The context is the last min(10, history length) entries, in stored order. |
| LlmService.ToChatMessage | src/services/llmService.ts:96-100 | A history entry has role user iff its sender is the user, otherwise assistant, never system. Its content is the text unchanged. |
| LlmService.BuildPrompt | src/services/llmService.ts:103-107 | The prompt has 2 + min(10, history length) entries: the system preamble first, the user's truncated text last, and entry `i` in between mapping the matching recent history entry in order. |
| LlmService.OutboundPrompt | src/services/llmService.ts:80-114 | The remote call is skipped exactly when the message is blank. Otherwise it receives exactly the built prompt. |
| LlmService.InterpretReplyAsWritten | src/services/llmService.ts:116-126 | As written: an absent or empty completion gives the fixed apology with "No response from LLM". Any other completion is returned trimmed, with no error. |
| LlmService.WhitespaceCompletionAsWrittenIsEmpty | src/services/llmService.ts:116-126 | As written, the completion `" "` gives an empty content with no error label. |
| LlmService.InterpretReply | src/services/llmService.ts:116-126 | Corrected: the content is never blank. There is no error label exactly when the completion has visible text, and then the content is that text trimmed. Otherwise the result is the fixed apology with "No response from LLM". |
| LlmService.InterpretReplyAgreesExceptOnWhitespace | src/services/llmService.ts:116-126 | The corrected and the as-written handling agree on every completion except a non-empty, all-whitespace one. |
| LlmService.ClassifyError | src/services/llmService.ts:127-161 | Checks run in order: quota code, then rate-limit code, then timeout name (each an iff, with its label), and the first match wins. Anything else gives the generic text, labelled with the error's message or "Unknown LLM error". Every branch has a label and a non-blank content. |
| LlmService.Respond | src/services/llmService.ts:116-161 | As written: a thrown error always carries a label. The content is blank exactly when the completion is non-empty but all whitespace, and then it is the empty text with no label. |
| LlmService.RespondCorrected | src/services/llmService.ts:116-161 | Corrected: the content is non-blank for every outcome of the remote call, and a thrown error always carries a label. |
| LlmService.RespondAgreesExceptOnWhitespace | src/services/llmService.ts:116-161 | The as-written and the corrected reply differ exactly on a whitespace-only completion. |
| LlmService.GenerateReply | src/services/llmService.ts:74-162 | As written: a blank message gives the fixed "I didn't receive your message" reply with "Empty message" and makes no remote call. Otherwise the reply is the handling of what the remote call returns for the built prompt. The content is blank exactly when the message was not blank and the model answered with whitespace only. |
| LlmService.GenerateReplyCorrected | src/services/llmService.ts:74-162 | Corrected: the same paths, with the content non-blank on every one of them. |
| ChatService.Store.AddConversation | src/services/chatService.ts:27-28 | The id joins the conversation set, every history is unchanged and validity is kept. |
| ChatService.Store.Append | src/services/chatService.ts:64-67 | The message goes at the end of its conversation. Other conversations and the conversation set are unchanged. |
| ChatService.Resolve | src/services/chatService.ts:25-44 | After resolution the working conversation exists and no history changed. |
| ChatService.Persist | src/services/chatService.ts:47-95 | After resolution the conversation set is unchanged and the other histories are unchanged. The working history only grows, by at most two. The reported id is the working id or the fallback id. |
| ChatService.Turn | src/services/chatService.ts:11-106 | Blank input leaves the store unchanged and answers "Please enter a message…" with "Empty message". A supplied session id is returned on every path. Only the working conversation may be created or written, and only by appending at most two messages. Validity is preserved. |
| ChatService.CompletedTurn | src/services/chatService.ts:47-95 | With no failing statement, exactly two messages are appended: the trimmed user text, then the reply. The reply is generated from the pre-turn history and the untrimmed text. The response carries its content, its label and the working id. |
| ChatService.CompletedTurnStoresVisibleTexts | src/services/chatService.ts:63-83 | With the corrected generator, a completed turn ends the working conversation with a non-blank user message followed by a non-blank reply. |
| ChatService.WhitespaceCompletionStoresEmptyReply | src/services/chatService.ts:63-95 | With the service's own generator and a model that answers `" "`, a completed turn stores an empty ai message and answers with the empty text and no error label. |
| ChatService.FailedTurn | src/services/chatService.ts:96-105 | When a statement the turn issues throws, the response is the apology, the supplied or a fresh id, and the error's message or "Unknown chat service error". |
| ChatService.NewSessionTurn | src/services/chatService.ts:25-30 | Without a session id, exactly one conversation is created, under the database id, and that id is returned. |
| ChatService.GivenSessionTurn | src/services/chatService.ts:31-44 | With a session id, that id is returned. An unknown id is adopted; a known one leaves the conversation set unchanged. |
| ChatService.DanglingUserMessage | src/services/chatService.ts:79-83 | When saving the reply throws, the user message stays without a reply, because there is no transaction. |
| ChatService.SessionTurn | src/services/chatService.ts:31-83 | A completed turn on a given session appends the trimmed text and the reply generated from the prior history to that session. |
| ChatService.AlternatingExtends | src/services/chatService.ts:64-83 | Appending whole turns keeps a history alternating between user and reply. |
| ChatService.ReplayHistory | src/services/chatService.ts:11-95 | After N completed turns on one session, the history grows by exactly 2N messages, each trimmed user text followed by an ai message of the same conversation. |
| ChatService.ReplayKeepsAlternation | src/services/chatService.ts:11-95 | A history that alternates between user messages and replies still alternates after any number of completed turns on its session. |
| ChatService.ChatStore.constructor | src/services/chatService.ts:10 | The store starts with no conversations and no messages. |
| ChatService.ChatStore.GetConversationHistory | src/services/chatService.ts:108-131 | It reads only. It returns the stored messages in order, an empty list for an unknown id or an unreachable store, and only messages of that conversation. |
| ChatService.ChatStore.CreateConversation | src/services/chatService.ts:40-42 | The new state is the old one with the conversation added. |
| ChatService.ChatStore.SaveMessage | src/services/chatService.ts:80-83 | The new state is the old one with the message appended. |
| ChatService.ChatStore.ProcessMessage | src/services/chatService.ts:11-106 | The new tables and the response are exactly what `Turn` gives for the old tables, so every property proved about `Turn` holds. Validity is preserved. |
| Validation.ValidateChatMessage | src/middleware/validation.ts:3-27 | `next()` is called iff the message is a non-blank string of at most 2000 characters. "Valid message is required" iff it is not a non-blank string. "Message too long" iff it is a non-blank string longer than 2000. |
| Validation.ValidateSessionId | src/middleware/validation.ts:29-44 | `next()` is called iff the session id is falsy or a string. Any other value gets "Invalid session ID format". |
| Validation.LimitIsInclusive | src/middleware/validation.ts:19-24 | Every visible message of exactly 2000 characters passes. |
| Validation.PaddingCountsTowardsLimit | src/middleware/validation.ts:19 | Trailing whitespace pushes visible text over the limit, although its trimmed text, the one stored, is unchanged. |
| Validation.BlankBeforeLength | src/middleware/validation.ts:11-16 | A whitespace-only message is refused as missing at any length, because the emptiness check comes first. |

## Left out

- The system prompt: only its opening sentence is written out. The rest of its text is a constant that nothing in the service inspects.
- The OpenAI client, the model name, the temperature and `max_tokens` are left out. The remote call is the parameter `complete`, so its outcome is arbitrary.
- String length: JavaScript counts UTF-16 code units, and the model counts characters. The two differ only for characters outside the Basic Multilingual Plane, so the 1000 and 2000 limits are stated in characters.
- Message row ids and timestamps are left out. History order is append order, which is what `ORDER BY timestamp ASC` returns unless two rows share a timestamp.
- The conversation's `updated_at` is left out. The update statement appears only as a point where the turn can fail.
- ChatService.ChatStore.ProcessMessage: a session id that is present but not a string, and a missing (`undefined`) message, are not modelled, because the request fields are typed as strings. An empty string is modelled and counts as absent or blank, as JavaScript truthiness says.
- A thrown value that is not an object is left out. Errors are records of optional `code`, `name` and `message`.
- Concurrent turns on the same session are left out. Each turn runs alone against the store.
- Console logging is left out.
- The SQLite driver, the migration and seed scripts, the HTTP routes, the server wiring and the browser client are left out. The service sends every query to the PostgreSQL pool.
- The validation middleware is not mounted by the chat route. It is modelled on its own.

## Findings

| source | as written | input that shows it | evidently intended | confidence | as-written member | corrected member |
|---|---|---|---|---|---|---|
| src/services/llmService.ts:116-126 | `if (!reply)` tests the untrimmed completion, and `reply.trim()` is returned afterwards | a completion whose content is `" "` | a completion with no visible text is treated like a missing one, so the customer never gets an empty reply without an error label | not executed | LlmService.InterpretReplyAsWritten, used by LlmService.Respond and LlmService.GenerateReply (shown by LlmService.WhitespaceCompletionAsWrittenIsEmpty and ChatService.WhitespaceCompletionStoresEmptyReply) | LlmService.InterpretReply, used by LlmService.RespondCorrected and LlmService.GenerateReplyCorrected |
