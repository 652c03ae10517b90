/** The request-validation middleware for the chat endpoint: a check of the
    body's `message` field and a check of its `sessionId` field. Each either
    passes the request on (`next()`) or answers it with status 400. */
module Validation {
  import opened Types
  import opened JsStrings

  /** The longest message accepted, counted on the untrimmed text. */
  const MAX_MESSAGE_LENGTH := 2000

  /** A field of the parsed JSON body as JavaScript sees it; a missing field
      is `Undefined`, arrays and objects are `Object`. */
  datatype JsValue = Undefined | Null | Bool(b: bool) | Number(x: real) | Str(s: string) | Object

  /** JavaScript truthiness. */
  predicate Truthy(v: JsValue) {
    match v
    case Undefined => false
    case Null => false
    case Bool(b) => b
    case Number(x) => x != 0.0
    case Str(s) => s != ""
    case Object => true
  }

  /** What a middleware does with the request: pass it on, or answer with a
      status, an error label and possibly a reply text. */
  datatype Verdict = Next | Reject(status: int, error: string, reply: Option<string>)

  const MESSAGE_REQUIRED := Reject(400, "Valid message is required", Some("Please provide a message to send."))
  const MESSAGE_TOO_LONG := Reject(400, "Message too long", Some("Please keep your message under 2000 characters."))
  const INVALID_SESSION_ID := Reject(400, "Invalid session ID format", None)

  /** `validateChatMessage`: the message must be a string with visible
      characters, and then at most `MAX_MESSAGE_LENGTH` characters long,
      whitespace included; the first check wins. */
  function ValidateChatMessage(message: JsValue): (v: Verdict)
    ensures v == Next <==> message.Str? && !IsBlank(message.s) && |message.s| <= MAX_MESSAGE_LENGTH
    ensures v == MESSAGE_REQUIRED <==> !message.Str? || IsBlank(message.s)
    ensures v == MESSAGE_TOO_LONG <==> message.Str? && !IsBlank(message.s) && |message.s| > MAX_MESSAGE_LENGTH
  {
    if !Truthy(message) || !message.Str? || IsBlank(message.s) then MESSAGE_REQUIRED
    else if |message.s| > MAX_MESSAGE_LENGTH then MESSAGE_TOO_LONG
    else Next
  }

  /** `validateSessionId`: only a session id that is present (truthy) and not
      a string is refused; the format of a string id is not checked. */
  function ValidateSessionId(sessionId: JsValue): (v: Verdict)
    ensures v == Next <==> !Truthy(sessionId) || sessionId.Str?
    ensures v != Next ==> v == INVALID_SESSION_ID
  {
    if Truthy(sessionId) && !sessionId.Str? then INVALID_SESSION_ID else Next
  }

  /** Every message of exactly the limit, with visible text, passes: the
      test is "longer than", not "at least". */
  lemma LimitIsInclusive(s: string)
    requires !IsBlank(s) && |s| == MAX_MESSAGE_LENGTH
    ensures ValidateChatMessage(Str(s)) == Next
  {
  }

  /** The length is measured before trimming: any visible text padded with
      trailing whitespace past the limit is refused as too long, although
      its trimmed text, the one the chat service stores, is unchanged by the
      padding and may be short. */
  lemma PaddingCountsTowardsLimit(s: string, pad: string)
    requires !IsBlank(s) && AllWhitespace(pad)
    requires |s| + |pad| > MAX_MESSAGE_LENGTH
    ensures Trim(s + pad) == Trim(s)
    ensures ValidateChatMessage(Str(s + pad)) == MESSAGE_TOO_LONG
  {
    TrimIgnoresTrailingWhitespace(s, pad);
  }

  /** A blank message fails the first check whatever its length: the checks
      run in order, and an over-long blank message is reported as missing. */
  lemma BlankBeforeLength(s: string)
    requires AllWhitespace(s)
    ensures ValidateChatMessage(Str(s)) == MESSAGE_REQUIRED
  {
    BlankIffAllWhitespace(s);
  }
}
