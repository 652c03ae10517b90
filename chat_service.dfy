/** The chat service (`ChatService`): one conversation turn against the
    conversation store, and the history query. The store is the pair of
    tables `conversations` and `messages`, kept as the set of conversation
    ids and, per conversation, its messages in the order they were written.
    The reply generator is the parameter `generate` (the service passes
    `LLMService.generateReply` over the remote call `complete`), the id the
    database generates for a new conversation is `dbId`, a fresh `uuidv4()`
    is `uuid`, and a store statement that throws is named by `fault`. */
module ChatService {
  import opened Types
  import opened JsStrings
  import LlmService

  // Each fixed text is written as its first letter followed by the rest,
  // which lets the verifier see that it does not start with whitespace.
  const EMPTY_MESSAGE_REPLY := "P" + "lease enter a message to continue our conversation."
  const SERVICE_ERROR_REPLY := "I" + " apologize, but I'm experiencing technical difficulties. Please try again or contact our support team at support@techstore.com."
  const UNKNOWN_SERVICE_ERROR := "Unknown chat service error"

  /** The statements a turn issues against the store. */
  datatype StoreOp =
    | InsertConversation        // a new conversation, id generated by the database
    | SelectConversation        // does the client's conversation exist?
    | InsertConversationWithId  // adopt the client's unknown id
    | SelectHistory
    | InsertUserMessage
    | InsertAiMessage
    | UpdateConversation        // the conversation's last-update timestamp

  /** A store statement that throws, and the thrown error's message. */
  datatype StoreFault = StoreFault(op: StoreOp, message: Option<string>)

  /** The contents of the two tables. */
  datatype Store = Store(conversations: set<string>, messages: map<string, seq<Message>>) {

    /** Messages exist only for known conversations (the foreign key), every
        conversation has its (possibly empty) list, and each message is filed
        under the conversation it names. */
    ghost predicate Valid() {
      && messages.Keys == conversations
      && forall c, i :: c in messages && 0 <= i < |messages[c]| ==> messages[c][i].conversationId == c
    }

    /** The history query: the conversation's messages in stored order, and
        none for an unknown conversation. */
    function History(id: string): seq<Message> {
      if id in messages then messages[id] else []
    }

    /** A new conversation, with no messages yet. */
    function AddConversation(id: string): (s: Store)
      requires id !in conversations
      ensures s.conversations == conversations + {id}
      ensures forall c :: s.History(c) == History(c)
      ensures Valid() ==> s.Valid()
    {
      Store(conversations + {id}, if id in messages then messages else messages[id := []])
    }

    /** A message appended to a conversation; the others are untouched. */
    function Append(id: string, sender: Sender, text: string): (s: Store)
      ensures s.conversations == conversations
      ensures s.History(id) == History(id) + [Message(id, sender, text)]
      ensures forall c :: c != id ==> s.History(c) == History(c)
      ensures Valid() && id in conversations ==> s.Valid()
    {
      Store(conversations, messages[id := History(id) + [Message(id, sender, text)]])
    }
  }

  datatype TurnResult = TurnResult(store: Store, response: ChatResponse)

  /** The client named a conversation: `request.sessionId` is truthy. */
  predicate SessionGiven(request: ChatRequest) {
    IsPresent(request.sessionId)
  }

  /** The id the turn works under: the client's, or the one the database
      generated for the new conversation. */
  function WorkingId(request: ChatRequest, dbId: string): string {
    if SessionGiven(request) then request.sessionId.value else dbId
  }

  /** The id reported when the turn does not complete:
      `request.sessionId || uuidv4()`. */
  function FallbackId(request: ChatRequest, uuid: string): string {
    if SessionGiven(request) then request.sessionId.value else uuid
  }

  /** Whether a turn on a non-blank message issues the statement `op`:
      either the insert of a new conversation, or the lookup of the client's
      conversation followed, when it is unknown, by its insert; then always
      the history query, the two message inserts and the timestamp update. */
  predicate Issues(s: Store, request: ChatRequest, op: StoreOp) {
    match op
    case InsertConversation => !SessionGiven(request)
    case SelectConversation => SessionGiven(request)
    case InsertConversationWithId => SessionGiven(request) && request.sessionId.value !in s.conversations
    case _ => true
  }

  /** No statement the turn issues throws. */
  predicate Completes(s: Store, request: ChatRequest, fault: Option<StoreFault>) {
    fault.None? || !Issues(s, request, fault.value.op)
  }

  predicate FailsAt(fault: Option<StoreFault>, op: StoreOp) {
    fault.Some? && fault.value.op == op
  }

  /** The catch block: the store keeps what was written before the fault. */
  function Failed(s: Store, request: ChatRequest, uuid: string, fault: Option<StoreFault>): TurnResult
    requires fault.Some?
  {
    var message := fault.value.message;
    TurnResult(s, ChatResponse(SERVICE_ERROR_REPLY, FallbackId(request, uuid),
                               Some(if IsPresent(message) then message.value else UNKNOWN_SERVICE_ERROR)))
  }

  /** A statement of the session-resolution step throws. */
  predicate ResolutionFails(s: Store, request: ChatRequest, fault: Option<StoreFault>) {
    if !SessionGiven(request) then FailsAt(fault, InsertConversation)
    else
      || FailsAt(fault, SelectConversation)
      || (request.sessionId.value !in s.conversations && FailsAt(fault, InsertConversationWithId))
  }

  /** Session resolution: the working conversation exists afterwards, and
      nothing else changes. */
  function Resolve(s: Store, id: string): (s1: Store)
    ensures s1.conversations == s.conversations + {id}
    ensures forall c :: s1.History(c) == s.History(c)
    ensures s.Valid() ==> s1.Valid()
  {
    if id in s.conversations then s else s.AddConversation(id)
  }

  /** The reply generator as the chat service calls it: the history read
      before the turn and the untrimmed user text in, the reply out. */
  type Generator = (seq<Message>, string) -> LlmResponse

  /** The service's own generator: `LLMService.generateReply` over the
      remote call `complete`. */
  function Generate(complete: seq<LlmService.ChatMessage> -> LlmService.Completion): Generator {
    (history: seq<Message>, text: string) => LlmService.GenerateReply(history, text, complete)
  }

  /** The generator with the corrected handling of a whitespace-only
      completion. */
  function GenerateCorrected(complete: seq<LlmService.ChatMessage> -> LlmService.Completion): Generator {
    (history: seq<Message>, text: string) => LlmService.GenerateReplyCorrected(history, text, complete)
  }

  /** The rest of the turn on an existing conversation `id`: read the
      history, save the trimmed user text, generate the reply from the
      history as it was before this turn and the untrimmed text, save the
      reply, and touch the conversation. */
  function Persist(s1: Store, id: string, request: ChatRequest, uuid: string,
                   generate: Generator, fault: Option<StoreFault>): (t: TurnResult)
    ensures t.store.conversations == s1.conversations
    ensures forall c :: c != id ==> t.store.History(c) == s1.History(c)
    ensures var h := s1.History(id);
      |h| <= |t.store.History(id)| <= |h| + 2 && t.store.History(id)[..|h|] == h
    ensures s1.Valid() && id in s1.conversations ==> t.store.Valid()
    ensures t.response.sessionId in {id, FallbackId(request, uuid)}
  {
    if FailsAt(fault, SelectHistory) then Failed(s1, request, uuid, fault)
    else
      var history := s1.History(id);
      if FailsAt(fault, InsertUserMessage) then Failed(s1, request, uuid, fault)
      else
        var s2 := s1.Append(id, User, Trim(request.message));
        var llm := generate(history, request.message);
        if FailsAt(fault, InsertAiMessage) then Failed(s2, request, uuid, fault)
        else
          var s3 := s2.Append(id, Ai, llm.content);
          if FailsAt(fault, UpdateConversation) then Failed(s3, request, uuid, fault)
          else TurnResult(s3, ChatResponse(llm.content, id, llm.error))
  }

  /** `processMessage`, as a function of the store before the turn. */
  function Turn(s: Store, request: ChatRequest, dbId: string, uuid: string,
                generate: Generator, fault: Option<StoreFault>): (t: TurnResult)
    // A blank message is answered without touching the store.
    ensures IsBlank(request.message) ==>
      && t.store == s
      && t.response == ChatResponse(EMPTY_MESSAGE_REPLY, FallbackId(request, uuid), Some("Empty message"))
    // A session id the client supplied comes back on every path.
    ensures SessionGiven(request) ==> t.response.sessionId == request.sessionId.value
    // Only the working conversation may be created or written to.
    ensures t.store.conversations == s.conversations
         || t.store.conversations == s.conversations + {WorkingId(request, dbId)}
    ensures forall c :: c != WorkingId(request, dbId) ==> t.store.History(c) == s.History(c)
    // Writes are appended and never undone: the working conversation gains
    // at most the turn's two messages.
    ensures var id := WorkingId(request, dbId);
      var h := s.History(id);
      |h| <= |t.store.History(id)| <= |h| + 2 && t.store.History(id)[..|h|] == h
    ensures s.Valid() ==> t.store.Valid()
  {
    if IsBlank(request.message) then
      TurnResult(s, ChatResponse(EMPTY_MESSAGE_REPLY, FallbackId(request, uuid), Some("Empty message")))
    else if ResolutionFails(s, request, fault) then
      Failed(s, request, uuid, fault)
    else
      var id := WorkingId(request, dbId);
      Persist(Resolve(s, id), id, request, uuid, generate, fault)
  }

  /** Past the blank check and the session resolution, a turn is the rest of
      the turn on the resolved store. */
  lemma TurnProceeds(s: Store, request: ChatRequest, dbId: string, uuid: string,
                     generate: Generator, fault: Option<StoreFault>)
    requires !IsBlank(request.message) && !ResolutionFails(s, request, fault)
    ensures var id := WorkingId(request, dbId);
      Turn(s, request, dbId, uuid, generate, fault) == Persist(Resolve(s, id), id, request, uuid, generate, fault)
  {
  }

  /** No statement the turn issues throws: neither one of the resolution nor
      one of the four that follow it. */
  lemma CompletesAvoidsFaults(s: Store, request: ChatRequest, fault: Option<StoreFault>)
    requires Completes(s, request, fault)
    ensures !ResolutionFails(s, request, fault)
    ensures !FailsAt(fault, SelectHistory) && !FailsAt(fault, InsertUserMessage)
    ensures !FailsAt(fault, InsertAiMessage) && !FailsAt(fault, UpdateConversation)
  {
  }

  /** The rest of the turn when none of its statements throws. */
  lemma PersistCompletes(s1: Store, id: string, request: ChatRequest, uuid: string,
                         generate: Generator, fault: Option<StoreFault>)
    requires !FailsAt(fault, SelectHistory) && !FailsAt(fault, InsertUserMessage)
    requires !FailsAt(fault, InsertAiMessage) && !FailsAt(fault, UpdateConversation)
    ensures var llm := generate(s1.History(id), request.message);
      Persist(s1, id, request, uuid, generate, fault)
        == TurnResult(s1.Append(id, User, Trim(request.message)).Append(id, Ai, llm.content),
                      ChatResponse(llm.content, id, llm.error))
  {
  }

  /** A user message and a reply appended one after the other. */
  lemma AppendTurn(s: Store, id: string, user: string, reply: string)
    ensures var t := s.Append(id, User, user).Append(id, Ai, reply);
      && t.conversations == s.conversations
      && t.History(id) == s.History(id) + [Message(id, User, user), Message(id, Ai, reply)]
  {
    var h := s.History(id);
    assert h + [Message(id, User, user)] + [Message(id, Ai, reply)] == h + [Message(id, User, user), Message(id, Ai, reply)];
  }

  /** A turn in which no statement throws appends exactly two messages to
      the working conversation, the user's trimmed text and then the reply,
      which was generated from the history as it stood before the turn and
      the untrimmed text; the response carries the reply, its error label
      and the working id. */
  lemma CompletedTurn(s: Store, request: ChatRequest, dbId: string, uuid: string,
                      generate: Generator, fault: Option<StoreFault>)
    requires !IsBlank(request.message) && Completes(s, request, fault)
    ensures var t := Turn(s, request, dbId, uuid, generate, fault);
      var id := WorkingId(request, dbId);
      var h := s.History(id);
      var llm := generate(h, request.message);
      && t.store.conversations == s.conversations + {id}
      && t.store.History(id) == h + [Message(id, User, Trim(request.message)), Message(id, Ai, llm.content)]
      && t.response == ChatResponse(llm.content, id, llm.error)
  {
    var id := WorkingId(request, dbId);
    var s1 := Resolve(s, id);
    CompletesAvoidsFaults(s, request, fault);
    TurnProceeds(s, request, dbId, uuid, generate, fault);
    PersistCompletes(s1, id, request, uuid, generate, fault);
    AppendTurn(s1, id, Trim(request.message), generate(s1.History(id), request.message).content);
  }

  /** With the corrected generator, both texts a completed turn stores are
      non-blank. */
  lemma CompletedTurnStoresVisibleTexts(s: Store, request: ChatRequest, dbId: string, uuid: string,
                                        complete: seq<LlmService.ChatMessage> -> LlmService.Completion,
                                        fault: Option<StoreFault>)
    requires !IsBlank(request.message) && Completes(s, request, fault)
    ensures var t := Turn(s, request, dbId, uuid, GenerateCorrected(complete), fault);
      var h := t.store.History(WorkingId(request, dbId));
      && |h| >= 2
      && h[|h| - 2].sender == User && !IsBlank(h[|h| - 2].text)
      && h[|h| - 1].sender == Ai && !IsBlank(h[|h| - 1].text)
  {
    CompletedTurn(s, request, dbId, uuid, GenerateCorrected(complete), fault);
    var h := s.History(WorkingId(request, dbId));
    var llm := LlmService.GenerateReplyCorrected(h, request.message, complete);
    assert GenerateCorrected(complete)(h, request.message) == llm;
    TrimOfNonBlankIsNonBlank(request.message);
  }

  /** With the service's own generator, a model that answers with a single
      space makes a completed turn store an empty reply and answer with the
      empty text and no error label. */
  lemma WhitespaceCompletionStoresEmptyReply(s: Store, request: ChatRequest, dbId: string, uuid: string,
                                             fault: Option<StoreFault>)
    requires !IsBlank(request.message) && Completes(s, request, fault)
    ensures var complete := (p: seq<LlmService.ChatMessage>) => LlmService.Completed(Some(" "));
      var t := Turn(s, request, dbId, uuid, Generate(complete), fault);
      var id := WorkingId(request, dbId);
      var h := t.store.History(id);
      && |h| >= 2
      && h[|h| - 1] == Message(id, Ai, "")
      && t.response == ChatResponse("", id, None)
  {
    var complete := (p: seq<LlmService.ChatMessage>) => LlmService.Completed(Some(" "));
    CompletedTurn(s, request, dbId, uuid, Generate(complete), fault);
    var h := s.History(WorkingId(request, dbId));
    var llm := LlmService.GenerateReply(h, request.message, complete);
    assert Generate(complete)(h, request.message) == llm;
    var c := complete(LlmService.BuildPrompt(h, request.message));
    assert c == LlmService.Completed(Some(" "));
    assert LlmService.WhitespaceOnly(c) by {
      assert IsWhitespace(" "[0]);
      BlankIffAllWhitespace(" ");
    }
  }

  /** The rest of the turn when one of its statements throws: the response
      does not depend on which one. */
  lemma PersistFails(s1: Store, id: string, request: ChatRequest, uuid: string,
                     generate: Generator, fault: Option<StoreFault>)
    requires || FailsAt(fault, SelectHistory) || FailsAt(fault, InsertUserMessage)
             || FailsAt(fault, InsertAiMessage) || FailsAt(fault, UpdateConversation)
    ensures Persist(s1, id, request, uuid, generate, fault).response == Failed(s1, request, uuid, fault).response
  {
  }

  /** A turn in which a statement throws answers with the apology, the
      client's id (or a fresh one) and the error's message as its label. */
  lemma FailedTurn(s: Store, request: ChatRequest, dbId: string, uuid: string,
                   generate: Generator, fault: Option<StoreFault>)
    requires !IsBlank(request.message) && !Completes(s, request, fault)
    ensures var t := Turn(s, request, dbId, uuid, generate, fault);
      var message := fault.value.message;
      t.response == ChatResponse(SERVICE_ERROR_REPLY, FallbackId(request, uuid),
                                 Some(if IsPresent(message) then message.value else UNKNOWN_SERVICE_ERROR))
  {
    if !ResolutionFails(s, request, fault) {
      var id := WorkingId(request, dbId);
      TurnProceeds(s, request, dbId, uuid, generate, fault);
      PersistFails(Resolve(s, id), id, request, uuid, generate, fault);
    }
  }

  /** Without a session id, a completed turn creates exactly one
      conversation, under the id the database generated, and reports it. */
  lemma NewSessionTurn(s: Store, request: ChatRequest, dbId: string, uuid: string,
                       generate: Generator, fault: Option<StoreFault>)
    requires !IsBlank(request.message) && !SessionGiven(request) && Completes(s, request, fault)
    requires dbId !in s.conversations
    ensures var t := Turn(s, request, dbId, uuid, generate, fault);
      && t.store.conversations == s.conversations + {dbId}
      && |t.store.conversations| == |s.conversations| + 1
      && t.response.sessionId == dbId
  {
    CompletedTurn(s, request, dbId, uuid, generate, fault);
    FreshIdGrowsSet(s.conversations, dbId);
  }

  lemma FreshIdGrowsSet(ids: set<string>, id: string)
    requires id !in ids
    ensures |ids + {id}| == |ids| + 1
  {
  }

  /** With a session id, a completed turn reports that id; an unknown id is
      adopted as a new conversation, a known one leaves the set as it was. */
  lemma GivenSessionTurn(s: Store, request: ChatRequest, dbId: string, uuid: string,
                         generate: Generator, fault: Option<StoreFault>)
    requires !IsBlank(request.message) && SessionGiven(request) && Completes(s, request, fault)
    ensures var t := Turn(s, request, dbId, uuid, generate, fault);
      var id := request.sessionId.value;
      && t.response.sessionId == id
      && id in t.store.conversations
      && (id in s.conversations ==> t.store.conversations == s.conversations)
      && (id !in s.conversations ==> t.store.conversations == s.conversations + {id})
  {
    CompletedTurn(s, request, dbId, uuid, generate, fault);
  }

  /** There is no transaction: when saving the reply throws, the user's
      message stays in the conversation without a reply. */
  lemma DanglingUserMessage(s: Store, request: ChatRequest, dbId: string, uuid: string,
                            generate: Generator, message: Option<string>)
    requires !IsBlank(request.message)
    ensures var t := Turn(s, request, dbId, uuid, generate, Some(StoreFault(InsertAiMessage, message)));
      var id := WorkingId(request, dbId);
      && t.store.History(id) == s.History(id) + [Message(id, User, Trim(request.message))]
      && t.response.reply == SERVICE_ERROR_REPLY
  {
    var fault := Some(StoreFault(InsertAiMessage, message));
    var id := WorkingId(request, dbId);
    assert !ResolutionFails(s, request, fault);
    TurnProceeds(s, request, dbId, uuid, generate, fault);
    PersistFailsAtReply(Resolve(s, id), id, request, uuid, generate, message);
  }

  /** The rest of the turn when saving the reply throws: the store keeps the
      user's message. */
  lemma PersistFailsAtReply(s1: Store, id: string, request: ChatRequest, uuid: string,
                            generate: Generator, message: Option<string>)
    ensures var t := Persist(s1, id, request, uuid, generate, Some(StoreFault(InsertAiMessage, message)));
      && t.store == s1.Append(id, User, Trim(request.message))
      && t.response.reply == SERVICE_ERROR_REPLY
  {
  }

  /** Successive turns on one session in which no statement throws. */
  function Replay(s: Store, id: string, texts: seq<string>, generate: Generator): Store
    decreases |texts|
  {
    if texts == [] then s
    else
      var t := Turn(s, ChatRequest(texts[0], Some(id)), id, id, generate, None);
      Replay(t.store, id, texts[1..], generate)
  }

  /** A user message at every even position and a reply at every odd one. */
  predicate Alternating(h: seq<Message>) {
    && |h| % 2 == 0
    && forall i :: 0 <= i < |h| ==> h[i].sender == (if i % 2 == 0 then User else Ai)
  }

  /** `r` is `h` followed by one turn per text: the trimmed text as a user
      message of conversation `id`, then a reply. */
  predicate ExtendsByTurns(h: seq<Message>, r: seq<Message>, id: string, texts: seq<string>) {
    && |r| == |h| + 2 * |texts|
    && r[..|h|] == h
    && forall k :: 0 <= k < |texts| ==>
         && r[|h| + 2 * k] == Message(id, User, Trim(texts[k]))
         && r[|h| + 2 * k + 1].sender == Ai && r[|h| + 2 * k + 1].conversationId == id
  }

  /** One turn in front of the rest. */
  lemma ExtendsByTurnsStep(h: seq<Message>, h': seq<Message>, r: seq<Message>,
                           id: string, texts: seq<string>, ai: Message)
    requires texts != [] && ai.sender == Ai && ai.conversationId == id
    requires h' == h + [Message(id, User, Trim(texts[0])), ai]
    requires ExtendsByTurns(h', r, id, texts[1..])
    ensures ExtendsByTurns(h, r, id, texts)
  {
    assert r[..|h|] == r[..|h'|][..|h|];
    forall k | 0 <= k < |texts|
      ensures && r[|h| + 2 * k] == Message(id, User, Trim(texts[k]))
              && r[|h| + 2 * k + 1].sender == Ai && r[|h| + 2 * k + 1].conversationId == id
    {
      if k == 0 {
        assert r[|h|] == r[..|h'|][|h|] && r[|h| + 1] == r[..|h'|][|h| + 1];
      } else {
        assert texts[1..][k - 1] == texts[k];
        assert |h| + 2 * k == |h'| + 2 * (k - 1);
      }
    }
  }

  /** Position `i` past an even offset `a` falls in pair `k`: first or
      second of the pair according to its parity. */
  lemma PairIndex(a: int, i: int, n: int) returns (k: int)
    requires a % 2 == 0 && a <= i < a + 2 * n
    ensures 0 <= k < n
    ensures (i == a + 2 * k && i % 2 == 0) || (i == a + 2 * k + 1 && i % 2 == 1)
  {
    k := (i - a) / 2;
  }

  /** One position of a history extended by whole turns: it holds a user
      message at an even position and a reply at an odd one. */
  lemma AlternatingAt(h: seq<Message>, r: seq<Message>, id: string, texts: seq<string>, i: int)
    requires ExtendsByTurns(h, r, id, texts) && Alternating(h) && 0 <= i < |r|
    ensures r[i].sender == (if i % 2 == 0 then User else Ai)
  {
    if i < |h| {
      assert r[i] == r[..|h|][i];
    } else {
      var k := PairIndex(|h|, i, |texts|);
      assert r[|h| + 2 * k] == Message(id, User, Trim(texts[k]));
    }
  }

  /** Whole turns appended to an alternating history keep it alternating. */
  lemma AlternatingExtends(h: seq<Message>, r: seq<Message>, id: string, texts: seq<string>)
    requires ExtendsByTurns(h, r, id, texts) && Alternating(h)
    ensures Alternating(r)
  {
    forall i | 0 <= i < |r| ensures r[i].sender == (if i % 2 == 0 then User else Ai) {
      AlternatingAt(h, r, id, texts, i);
    }
    EvenAfterPairs(|h|, |texts|);
  }

  lemma EvenAfterPairs(a: int, n: int)
    requires a % 2 == 0
    ensures (a + 2 * n) % 2 == 0
  {
  }

  /** A turn on session `id` in which no statement throws. */
  lemma SessionTurn(s: Store, id: string, text: string, generate: Generator)
    requires id != "" && !IsBlank(text)
    ensures Turn(s, ChatRequest(text, Some(id)), id, id, generate, None).store.History(id)
         == s.History(id) + [Message(id, User, Trim(text)), Message(id, Ai, generate(s.History(id), text).content)]
  {
    var request := ChatRequest(text, Some(id));
    assert request.message == text && WorkingId(request, id) == id;
    assert Completes(s, request, None);
    CompletedTurn(s, request, id, id, generate, None);
  }

  /** After N turns on one session the history has grown by exactly 2N
      messages: each turn's trimmed user text followed by its reply. */
  lemma {:induction false} ReplayHistory(s: Store, id: string, texts: seq<string>, generate: Generator)
    requires id != ""
    requires forall k :: 0 <= k < |texts| ==> !IsBlank(texts[k])
    ensures ExtendsByTurns(s.History(id), Replay(s, id, texts, generate).History(id), id, texts)
    decreases |texts|
  {
    var h := s.History(id);
    var r := Replay(s, id, texts, generate).History(id);
    if texts != [] {
      var s' := Turn(s, ChatRequest(texts[0], Some(id)), id, id, generate, None).store;
      SessionTurn(s, id, texts[0], generate);
      ReplayHistory(s', id, texts[1..], generate);
      ExtendsByTurnsStep(h, s'.History(id), r, id, texts, Message(id, Ai, generate(h, texts[0]).content));
    } else {
      assert r[..|h|] == h;
    }
  }

  /** A history that alternated before (an empty one does) still alternates
      after any number of turns on its session. */
  lemma ReplayKeepsAlternation(s: Store, id: string, texts: seq<string>, generate: Generator)
    requires id != ""
    requires forall k :: 0 <= k < |texts| ==> !IsBlank(texts[k])
    requires Alternating(s.History(id))
    ensures Alternating(Replay(s, id, texts, generate).History(id))
  {
    ReplayHistory(s, id, texts, generate);
    AlternatingExtends(s.History(id), Replay(s, id, texts, generate).History(id), id, texts);
  }

  /** The database behind the service: the two tables, which each statement
      of a turn updates in place. */
  class ChatStore {
    var conversations: set<string>
    var messages: map<string, seq<Message>>

    /** The contents of the tables as a value. */
    function State(): Store
      reads this
    {
      Store(conversations, messages)
    }

    ghost predicate Valid()
      reads this
    {
      State().Valid()
    }

    /** An empty database. */
    constructor ()
      ensures State() == Store({}, map[]) && Valid()
    {
      conversations := {};
      messages := map[];
    }

    /** `getConversationHistory`: the conversation's messages in stored
        order; an unknown conversation and an unreachable store both give the
        empty list. It only reads, so two calls with no turn in between give
        the same list. */
    function GetConversationHistory(conversationId: string, reachable: bool): (r: seq<Message>)
      reads this
      ensures !reachable ==> r == []
      ensures reachable ==> r == State().History(conversationId)
      ensures Valid() && conversationId !in conversations ==> r == []
      ensures Valid() ==> forall i :: 0 <= i < |r| ==> r[i].conversationId == conversationId
    {
      if reachable && conversationId in messages then messages[conversationId] else []
    }

    /** `INSERT INTO conversations`: a new conversation with no messages. */
    method CreateConversation(id: string)
      requires id !in conversations
      modifies this
      ensures State() == old(State()).AddConversation(id)
    {
      conversations := conversations + {id};
      if id !in messages {
        messages := messages[id := []];
      }
    }

    /** `INSERT INTO messages`: a message appended to the conversation. */
    method SaveMessage(id: string, sender: Sender, text: string)
      modifies this
      ensures State() == old(State()).Append(id, sender, text)
    {
      var stored := if id in messages then messages[id] else [];
      messages := messages[id := stored + [Message(id, sender, text)]];
    }

    /** `processMessage`: one turn, statement by statement. The database
        generates `dbId` for a new conversation, so it is not in use yet. */
    method ProcessMessage(request: ChatRequest, dbId: string, uuid: string,
                          complete: seq<LlmService.ChatMessage> -> LlmService.Completion,
                          fault: Option<StoreFault>) returns (response: ChatResponse)
      requires dbId !in conversations
      modifies this
      ensures TurnResult(State(), response) == Turn(old(State()), request, dbId, uuid, Generate(complete), fault)
      ensures old(Valid()) ==> Valid()
    {
      if IsBlank(request.message) {
        return ChatResponse(EMPTY_MESSAGE_REPLY, FallbackId(request, uuid), Some("Empty message"));
      }
      var conversationId := FallbackId(request, uuid);
      if !SessionGiven(request) {
        if FailsAt(fault, InsertConversation) {
          return Failed(State(), request, uuid, fault).response;
        }
        CreateConversation(dbId);
        conversationId := dbId;
      } else {
        if FailsAt(fault, SelectConversation) {
          return Failed(State(), request, uuid, fault).response;
        }
        if conversationId !in conversations {
          if FailsAt(fault, InsertConversationWithId) {
            return Failed(State(), request, uuid, fault).response;
          }
          CreateConversation(conversationId);
        }
      }
      if FailsAt(fault, SelectHistory) {
        return Failed(State(), request, uuid, fault).response;
      }
      var history := GetConversationHistory(conversationId, true);
      if FailsAt(fault, InsertUserMessage) {
        return Failed(State(), request, uuid, fault).response;
      }
      SaveMessage(conversationId, User, Trim(request.message));
      var llmResponse := LlmService.GenerateReply(history, request.message, complete);
      if FailsAt(fault, InsertAiMessage) {
        return Failed(State(), request, uuid, fault).response;
      }
      SaveMessage(conversationId, Ai, llmResponse.content);
      if FailsAt(fault, UpdateConversation) {
        return Failed(State(), request, uuid, fault).response;
      }
      response := ChatResponse(llmResponse.content, conversationId, llmResponse.error);
    }
  }
}
