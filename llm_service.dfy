/** The reply generator (`LLMService.generateReply`): it builds the prompt
    for the hosted language model from a bounded window of the conversation's
    history and the new user text, and turns whatever the remote call yields,
    a completion or a thrown error, into a reply that is always shown to the
    customer. The remote call itself is the parameter `complete`. */
module LlmService {
  import opened Types
  import opened JsStrings

  /** How many stored messages of the conversation are sent as context. */
  const MAX_HISTORY_MESSAGES := 10
  /** Longer user text is cut to this many characters before it is sent. */
  const TRUNCATE_AT := 1000
  const TRUNCATION_MARKER := "... (message truncated)"

  /** The persona and policy preamble sent as the first prompt entry. Only
      its opening sentence is written out here: the rest of the text (store
      policies, topic boundary and formatting rules) plays no part in what
      the service does with it. */
  const SYSTEM_PROMPT := "You are a helpful customer support agent for \"TechStore\", a small e-commerce store specializing in electronics and gadgets. "

  // The fixed reply texts. Each is written as its first letter followed by
  // the rest, which lets the verifier see that it does not start with
  // whitespace.
  const EMPTY_MESSAGE_TEXT := "I" + " didn't receive your message. Could you please try again?"
  const NO_RESPONSE_TEXT := "I" + " apologize, but I'm having trouble generating a response right now. Please try again or contact our support team."
  const QUOTA_TEXT := "I" + "'m temporarily unavailable due to high demand. Please try again in a few minutes or contact our support team at support@techstore.com."
  const RATE_LIMIT_TEXT := "I" + "'m receiving a lot of messages right now. Please wait a moment and try again."
  const TIMEOUT_TEXT := "I" + "'m taking longer than usual to respond. Please try again or contact our support team."
  const GENERIC_ERROR_TEXT := "I" + " apologize, but I'm experiencing technical difficulties. Please try again or contact our support team at support@techstore.com for immediate assistance."

  const INSUFFICIENT_QUOTA := "insufficient_quota"
  const RATE_LIMIT_EXCEEDED := "rate_limit_exceeded"
  const API_TIMEOUT_ERROR := "APITimeoutError"

  /** The roles of the chat-completion protocol. */
  datatype Role = SystemRole | UserRole | AssistantRole

  /** One entry of the prompt sent to the model. */
  datatype ChatMessage = ChatMessage(role: Role, content: string)

  /** The fields of a thrown error that the generator inspects; an absent
      field is `None`. */
  datatype ApiError = ApiError(code: Option<string>, name: Option<string>, message: Option<string>)

  /** What the remote call yields: the content of its first choice (absent
      when there is no choice, no message or no content), or an error. */
  datatype Completion = Completed(reply: Option<string>) | Threw(error: ApiError)

  function Min(a: int, b: int): int { if a <= b then a else b }

  /** The text sent for the user's turn: unchanged up to the limit, and
      otherwise its first `TRUNCATE_AT` characters and the marker. */
  function Truncate(s: string): (r: string)
    ensures |r| <= TRUNCATE_AT + |TRUNCATION_MARKER|
    ensures |s| <= TRUNCATE_AT ==> r == s
    ensures |s| > TRUNCATE_AT ==>
      && |r| == TRUNCATE_AT + |TRUNCATION_MARKER|
      && r[..TRUNCATE_AT] == s[..TRUNCATE_AT]
      && r[TRUNCATE_AT..] == TRUNCATION_MARKER
  {
    if |s| > TRUNCATE_AT then s[..TRUNCATE_AT] + TRUNCATION_MARKER else s
  }

  /** Truncating an already truncated text changes nothing: the marker
      makes it longer than the limit, and it is cut back to the same text. */
  lemma TruncateIdempotent(s: string)
    ensures Truncate(Truncate(s)) == Truncate(s)
  {
    var r := Truncate(s);
    if |s| > TRUNCATE_AT {
      assert r[..TRUNCATE_AT] + TRUNCATION_MARKER == r;
    }
  }

  /** `history.slice(-MAX_HISTORY_MESSAGES)`: the most recent entries, in
      their stored order. */
  function RecentHistory(history: seq<Message>): (r: seq<Message>)
    ensures |r| == Min(MAX_HISTORY_MESSAGES, |history|)
    ensures history == history[..|history| - |r|] + r
  {
    if |history| <= MAX_HISTORY_MESSAGES then history
    else history[|history| - MAX_HISTORY_MESSAGES..]
  }

  /** A stored message as a prompt entry: the user's messages speak as the
      user, everything else as the assistant; the text is kept. */
  function ToChatMessage(m: Message): (r: ChatMessage)
    ensures r.role == UserRole <==> m.sender == User
    ensures r.role != SystemRole
    ensures r.content == m.text
  {
    ChatMessage(if m.sender == User then UserRole else AssistantRole, m.text)
  }

  /** The prompt layout: the preamble, the history entries in order, and the
      user's turn last. */
  function Layout(preamble: string, recent: seq<Message>, text: string): (p: seq<ChatMessage>)
    ensures |p| == |recent| + 2
    ensures p[0] == ChatMessage(SystemRole, preamble)
    ensures p[|p| - 1] == ChatMessage(UserRole, text)
    ensures forall i :: 1 <= i < |p| - 1 ==> p[i] == ToChatMessage(recent[i - 1])
  {
    [ChatMessage(SystemRole, preamble)]
      + seq(|recent|, i requires 0 <= i < |recent| => ToChatMessage(recent[i]))
      + [ChatMessage(UserRole, text)]
  }

  /** The prompt: the system preamble, the most recent history entries in
      their stored order, and the user's (possibly truncated) text last. */
  function BuildPrompt(history: seq<Message>, userMessage: string): (p: seq<ChatMessage>)
    ensures |p| == 2 + Min(MAX_HISTORY_MESSAGES, |history|)
    ensures p[0] == ChatMessage(SystemRole, SYSTEM_PROMPT)
    ensures p[|p| - 1] == ChatMessage(UserRole, Truncate(userMessage))
    ensures forall i :: 1 <= i < |p| - 1 ==>
      p[i] == ToChatMessage(history[|history| - (|p| - 2) + (i - 1)])
  {
    var recent := RecentHistory(history);
    var p := Layout(SYSTEM_PROMPT, recent, Truncate(userMessage));
    var k := |history| - |recent|;
    forall i | 1 <= i < |p| - 1
      ensures p[i] == ToChatMessage(history[k + (i - 1)])
    {
      assert history[k + (i - 1)] == (history[..k] + recent)[k + (i - 1)];
    }
    p
  }

  /** What is sent to the remote call: nothing for a blank message, which is
      answered locally, and the prompt otherwise. */
  function OutboundPrompt(history: seq<Message>, userMessage: string): (p: Option<seq<ChatMessage>>)
    ensures p.None? <==> IsBlank(userMessage)
    ensures p.Some? ==> p.value == BuildPrompt(history, userMessage)
  {
    if IsBlank(userMessage) then None else Some(BuildPrompt(history, userMessage))
  }

  /** The reply handling as the source writes it: `!reply` catches only an
      absent or empty completion, and the text is trimmed afterwards. */
  function InterpretReplyAsWritten(reply: Option<string>): (r: LlmResponse)
    ensures reply.None? || reply == Some("") ==> r == LlmResponse(NO_RESPONSE_TEXT, Some("No response from LLM"))
    ensures reply.Some? && reply.value != "" ==> r == LlmResponse(Trim(reply.value), None)
  {
    match reply
    case None => LlmResponse(NO_RESPONSE_TEXT, Some("No response from LLM"))
    case Some(s) =>
      if s == "" then LlmResponse(NO_RESPONSE_TEXT, Some("No response from LLM"))
      else LlmResponse(Trim(s), None)
  }

  /** A completion made only of whitespace passes the `!reply` test and is
      trimmed to the empty string: the customer gets an empty reply and no
      error label. */
  lemma WhitespaceCompletionAsWrittenIsEmpty()
    ensures InterpretReplyAsWritten(Some(" ")).content == ""
    ensures InterpretReplyAsWritten(Some(" ")).error.None?
  {
    assert IsWhitespace(" "[0]);
    BlankIffAllWhitespace(" ");
  }

  /** The reply handling with the emptiness test applied to the trimmed
      text: the content shown is never blank, and there is no error label
      exactly when the model produced visible text, which is then shown
      trimmed. */
  function InterpretReply(reply: Option<string>): (r: LlmResponse)
    ensures !IsBlank(r.content)
    ensures r.error.None? <==> reply.Some? && !IsBlank(reply.value)
    ensures r.error.None? ==> r.content == Trim(reply.value)
    ensures r.error.Some? ==> r == LlmResponse(NO_RESPONSE_TEXT, Some("No response from LLM"))
  {
    VisibleFirstCharNotBlank(NO_RESPONSE_TEXT);
    match reply
    case None => LlmResponse(NO_RESPONSE_TEXT, Some("No response from LLM"))
    case Some(s) =>
      if IsBlank(s) then LlmResponse(NO_RESPONSE_TEXT, Some("No response from LLM"))
      else
        TrimOfNonBlankIsNonBlank(s);
        LlmResponse(Trim(s), None)
  }

  /** The two agree on every completion except one that is non-empty but all
      whitespace. */
  lemma InterpretReplyAgreesExceptOnWhitespace(reply: Option<string>)
    ensures InterpretReply(reply) == InterpretReplyAsWritten(reply)
        <==> !(reply.Some? && reply.value != "" && IsBlank(reply.value))
  {
    VisibleFirstCharNotBlank(NO_RESPONSE_TEXT);
  }

  /** The handler for a thrown error: a quota code first, then a rate-limit
      code, then a timeout by error name, and a generic reply otherwise; the
      first match wins and every branch carries an error label. */
  function ClassifyError(e: ApiError): (r: LlmResponse)
    ensures r.error.Some? && !IsBlank(r.content)
    ensures r.content == QUOTA_TEXT <==> e.code == Some(INSUFFICIENT_QUOTA)
    ensures r.content == RATE_LIMIT_TEXT <==> e.code == Some(RATE_LIMIT_EXCEEDED)
    ensures r.content == TIMEOUT_TEXT <==>
      e.code != Some(INSUFFICIENT_QUOTA) && e.code != Some(RATE_LIMIT_EXCEEDED) && e.name == Some(API_TIMEOUT_ERROR)
    ensures r.content == QUOTA_TEXT ==> r.error == Some("API quota exceeded")
    ensures r.content == RATE_LIMIT_TEXT ==> r.error == Some("Rate limit exceeded")
    ensures r.content == TIMEOUT_TEXT ==> r.error == Some("API timeout")
    ensures r.content !in {QUOTA_TEXT, RATE_LIMIT_TEXT, TIMEOUT_TEXT} ==>
      && r.content == GENERIC_ERROR_TEXT
      && r.error == Some(if IsPresent(e.message) then e.message.value else "Unknown LLM error")
  {
    VisibleFirstCharNotBlank(QUOTA_TEXT);
    VisibleFirstCharNotBlank(RATE_LIMIT_TEXT);
    VisibleFirstCharNotBlank(TIMEOUT_TEXT);
    VisibleFirstCharNotBlank(GENERIC_ERROR_TEXT);
    if e.code == Some(INSUFFICIENT_QUOTA) then
      LlmResponse(QUOTA_TEXT, Some("API quota exceeded"))
    else if e.code == Some(RATE_LIMIT_EXCEEDED) then
      LlmResponse(RATE_LIMIT_TEXT, Some("Rate limit exceeded"))
    else if e.name == Some(API_TIMEOUT_ERROR) then
      LlmResponse(TIMEOUT_TEXT, Some("API timeout"))
    else
      LlmResponse(GENERIC_ERROR_TEXT, Some(if IsPresent(e.message) then e.message.value else "Unknown LLM error"))
  }

  /** A completion that is non-empty but has no visible character: the
      case the source's `!reply` test lets through. */
  predicate WhitespaceOnly(c: Completion) {
    c.Completed? && c.reply.Some? && c.reply.value != "" && IsBlank(c.reply.value)
  }

  /** The reply for whatever the remote call yielded, as the source handles
      it: a thrown error always carries a label, and the content is blank
      exactly for a whitespace-only completion, which yields the empty
      content with no label. */
  function Respond(c: Completion): (r: LlmResponse)
    ensures c.Threw? ==> r.error.Some?
    ensures IsBlank(r.content) <==> WhitespaceOnly(c)
    ensures WhitespaceOnly(c) ==> r == LlmResponse("", None)
  {
    VisibleFirstCharNotBlank(NO_RESPONSE_TEXT);
    match c
    case Completed(reply) =>
      if reply.Some? && reply.value != "" && !IsBlank(reply.value) then
        TrimOfNonBlankIsNonBlank(reply.value);
        InterpretReplyAsWritten(reply)
      else
        InterpretReplyAsWritten(reply)
    case Threw(e) => ClassifyError(e)
  }

  /** The reply with the corrected handling of the completion: the content
      is non-blank for every outcome of the remote call. */
  function RespondCorrected(c: Completion): (r: LlmResponse)
    ensures !IsBlank(r.content)
    ensures c.Threw? ==> r.error.Some?
  {
    match c
    case Completed(reply) => InterpretReply(reply)
    case Threw(e) => ClassifyError(e)
  }

  /** The source's handling and the corrected one differ exactly on a
      whitespace-only completion. */
  lemma RespondAgreesExceptOnWhitespace(c: Completion)
    ensures Respond(c) == RespondCorrected(c) <==> !WhitespaceOnly(c)
  {
    if c.Completed? {
      InterpretReplyAgreesExceptOnWhitespace(c.reply);
    }
  }

  /** `generateReply`: a blank message is answered locally without the
      remote call; otherwise the remote call receives exactly the prompt
      built from the recent history and the truncated text, and no error
      escapes. The content is blank exactly when the message was not and
      the model answered with whitespace only. */
  function GenerateReply(history: seq<Message>, userMessage: string,
                         complete: seq<ChatMessage> -> Completion): (r: LlmResponse)
    ensures IsBlank(userMessage) ==> r == LlmResponse(EMPTY_MESSAGE_TEXT, Some("Empty message"))
    ensures !IsBlank(userMessage) ==> r == Respond(complete(BuildPrompt(history, userMessage)))
    ensures IsBlank(r.content) <==>
      !IsBlank(userMessage) && WhitespaceOnly(complete(BuildPrompt(history, userMessage)))
  {
    VisibleFirstCharNotBlank(EMPTY_MESSAGE_TEXT);
    match OutboundPrompt(history, userMessage)
    case None => LlmResponse(EMPTY_MESSAGE_TEXT, Some("Empty message"))
    case Some(prompt) => Respond(complete(prompt))
  }

  /** `generateReply` with the corrected handling of the completion: every
      path returns a non-blank content. */
  function GenerateReplyCorrected(history: seq<Message>, userMessage: string,
                                  complete: seq<ChatMessage> -> Completion): (r: LlmResponse)
    ensures !IsBlank(r.content)
    ensures IsBlank(userMessage) ==> r == LlmResponse(EMPTY_MESSAGE_TEXT, Some("Empty message"))
    ensures !IsBlank(userMessage) ==> r == RespondCorrected(complete(BuildPrompt(history, userMessage)))
  {
    VisibleFirstCharNotBlank(EMPTY_MESSAGE_TEXT);
    match OutboundPrompt(history, userMessage)
    case None => LlmResponse(EMPTY_MESSAGE_TEXT, Some("Empty message"))
    case Some(prompt) => RespondCorrected(complete(prompt))
  }
}
