/** The conversation store: its state, the payloads its three async thunks produce,
    and every reducer case as one transition function `Step`. Identifiers and
    timestamps are parameters. */
module ChatSlice {
  import opened Wrappers
  import opened Types
  import opened Tokens
  import opened ProviderUsage
  import opened Actions
  import Find

  /** The request status of the store. `Analyzing` belongs to the declared type but
      no transition sets it. */
  datatype Status = Idle | Loading | Failed | Analyzing

  /** The analysis a conversation holds: none until an analysis arrives, then the
      message `analyze` returned. */
  datatype Analysis = NoAnalysis | Analyzed(message: AnalysisMessage)

  datatype Conversation = Conversation(
    id: int,
    title: string,
    messages: seq<Message>,
    totalTokens: int,
    tokensIn: int,
    tokensOut: int,
    tokenLimit: int,
    warnTokenLimit: bool,
    analysis: Analysis,
    createdAt: string,
    updatedAt: string)

  datatype Conversations = Conversations(data: seq<Conversation>, error: Option<string>)

  datatype ChatState = ChatState(conversations: Conversations, status: Status, activeConversation: Option<int>)

  const InitialState: ChatState := ChatState(Conversations([], None), Idle, None)

  /** The limit every new conversation gets. */
  const ConversationTokenLimit: int := 4000

  /** A conversation as created: no messages, zero counters, the default limit, no
      warning and no analysis. */
  predicate IsFresh(c: Conversation)
  {
    && c.messages == []
    && c.totalTokens == 0 && c.tokensIn == 0 && c.tokensOut == 0
    && c.tokenLimit == ConversationTokenLimit
    && !c.warnTokenLimit
    && c.analysis == NoAnalysis
  }

  // ---------------------------------------------------------------- thunks

  /** The outcome of an async thunk: its payload, or the message of the error it threw. */
  datatype Settled<T> = Fulfilled(payload: T) | Rejected(message: Option<string>)

  /** The payload of `createConversation`, with the clock's id and its two timestamp
      reads as parameters. */
  function CreateConversation(id: int, title: string, createdAt: string, updatedAt: string): (c: Conversation)
    ensures IsFresh(c)
    ensures c.id == id && c.title == title && c.createdAt == createdAt && c.updatedAt == updatedAt
  {
    Conversation(id, title, [], 0, 0, 0, ConversationTokenLimit, false, NoAnalysis, createdAt, updatedAt)
  }

  datatype AnalysisPayload = AnalysisPayload(analysis: AnalysisMessage, conversationId: int)

  /** `generateAnalysis`: the analysis of the images, tagged with the conversation. */
  function GenerateAnalysis(enc: Encoder, systemText: string, userText: string,
                            image1: string, image2: Option<string>, conversationId: int,
                            provider: Provider): (r: Settled<AnalysisPayload>)
    ensures r.Fulfilled? <==> Analyze(enc, systemText, userText, image1, image2, provider).Success?
    ensures r.Fulfilled? ==> r.payload.conversationId == conversationId
                             && r.payload.analysis == Analyze(enc, systemText, userText, image1, image2, provider).value
    ensures r.Rejected? ==>
              r.message == Some(ErrorMessage(Analyze(enc, systemText, userText, image1, image2, provider).error))
  {
    match Analyze(enc, systemText, userText, image1, image2, provider)
    case Success(analysis) => Fulfilled(AnalysisPayload(analysis, conversationId))
    case Failure(e) => Rejected(Some(ErrorMessage(e)))
  }

  datatype SendPayload = SendPayload(
    conversationId: int,
    tokensIn: Option<int>,
    tokensOut: Option<int>,
    totalTokens: Option<int>,
    messages: seq<Message>)

  /** The payload of a successful send: the usage fields and the user/assistant pair. */
  function SendPayloadFrom(conversation: int, message: string, response: ChatResponse): SendPayload
  {
    SendPayload(conversation, response.usage.promptTokens, response.usage.completionTokens,
                response.usage.totalTokens,
                [Message(User, message), Message(Assistant, response.content)])
  }

  /** `sendMessage`: the history with the new user message goes through
      `getChatResponse` (with no caller maximum); a successful reply becomes the
      payload, any thrown error the rejection message. */
  function SendMessage(cfg: Config, enc: Encoder, conversation: int, message: string,
                       history: seq<Message>, provider: Provider): (r: Settled<SendPayload>)
    requires ValidConfig(cfg)
    ensures r.Fulfilled? ==>
              && r.payload.conversationId == conversation
              && |r.payload.messages| == 2
              && r.payload.messages[0] == Message(User, message)
              && r.payload.messages[1].role == Assistant
              && GetChatResponse(cfg, enc, history + [Message(User, message)], None, provider).Success?
              && r.payload.messages[1].content
                   == GetChatResponse(cfg, enc, history + [Message(User, message)], None, provider).value.content
              && var usage := GetChatResponse(cfg, enc, history + [Message(User, message)], None, provider).value.usage;
                 r.payload.tokensIn == usage.promptTokens && r.payload.tokensOut == usage.completionTokens
                 && r.payload.totalTokens == usage.totalTokens
    ensures r.Rejected? ==>
              && GetChatResponse(cfg, enc, history + [Message(User, message)], None, provider).Failure?
              && r.message == Some(ErrorMessage(
                   GetChatResponse(cfg, enc, history + [Message(User, message)], None, provider).error))
    ensures MessagesTokenCount(enc, history + [Message(User, message)]) >= cfg.maxTokensPerConversation ==>
              r == Rejected(Some(ErrorMessage(LimitExceeded(
                     MessagesTokenCount(enc, history + [Message(User, message)]), cfg.maxTokensPerConversation))))
  {
    match GetChatResponse(cfg, enc, history + [Message(User, message)], None, provider)
    case Success(response) => Fulfilled(SendPayloadFrom(conversation, message, response))
    case Failure(e) => Rejected(Some(ErrorMessage(e)))
  }

  // ---------------------------------------------------------------- events

  /** The actions the reducer handles: the synchronous reducers, and the pending,
      fulfilled and rejected cases of the three thunks. */
  datatype Event =
    | SetActiveConversation(activeId: int)
    | ClearError
    | SetTokenWarning(warnId: int, warn: bool)
    | CreateConversationPending
    | CreateConversationFulfilled(conversation: Conversation)
    | CreateConversationRejected(createError: Option<string>)
    | GenerateAnalysisPending
    | GenerateAnalysisFulfilled(analysisPayload: AnalysisPayload)
    | GenerateAnalysisRejected(analysisError: Option<string>)
    | SendMessagePending
    | SendMessageFulfilled(sendPayload: SendPayload, now: string)
    | SendMessageRejected(sendError: Option<string>)

  /** The action dispatched when `generateAnalysis` settles. */
  function AnalysisSettled(r: Settled<AnalysisPayload>): Event
  {
    match r
    case Fulfilled(p) => GenerateAnalysisFulfilled(p)
    case Rejected(m) => GenerateAnalysisRejected(m)
  }

  /** The action dispatched when `sendMessage` settles; `now` is the reducer's clock. */
  function SendSettled(r: Settled<SendPayload>, now: string): Event
  {
    match r
    case Fulfilled(p) => SendMessageFulfilled(p, now)
    case Rejected(m) => SendMessageRejected(m)
  }

  // ---------------------------------------------------------------- reducer

  function IdOf(c: Conversation): int { c.id }

  /** Where `data.find(c => c.id === id)` lands: the first conversation with the id,
      or `|data|` when none has it. */
  function FindConversation(data: seq<Conversation>, id: int): nat
  {
    Find.FirstIndex(data, IdOf, id)
  }

  /** The conversation after `sendMessage.fulfilled`: the payload's messages appended,
      `tokensIn` added to itself, the reported output and total added (0 when absent),
      and the update time refreshed. */
  function ApplyReply(c: Conversation, p: SendPayload, now: string): Conversation
  {
    c.(messages := c.messages + p.messages,
       tokensIn := c.tokensIn + c.tokensIn,
       tokensOut := c.tokensOut + OrZero(p.tokensOut),
       totalTokens := c.totalTokens + OrZero(p.totalTokens),
       updatedAt := now)
  }

  /** Replaces the conversation at index `k`, if there is one. */
  function ReplaceAt(data: seq<Conversation>, k: nat, c: Conversation): seq<Conversation>
  {
    if k < |data| then data[k := c] else data
  }

  function WithData(s: ChatState, data: seq<Conversation>): ChatState
  {
    s.(conversations := s.conversations.(data := data))
  }

  /** A thunk's rejection: failed status, and the error's message or the case's default. */
  function Fail(s: ChatState, message: Option<string>, fallback: string): ChatState
  {
    s.(status := Failed, conversations := s.conversations.(error := Some(OrElse(message, fallback))))
  }

  const CreateFailedMessage: string := "Failed to create conversation"
  const AnalysisFailedMessage: string := "Failed to generate analysis conversation"
  const SendFailedMessage: string := "Failed to send message"

  /** The reducer. No action drops or renumbers a conversation or shortens a history,
      and none enters the `Analyzing` status. */
  function Step(s: ChatState, e: Event): (t: ChatState)
    ensures |s.conversations.data| <= |t.conversations.data|
    ensures forall i :: 0 <= i < |s.conversations.data| ==>
              && t.conversations.data[i].id == s.conversations.data[i].id
              && s.conversations.data[i].messages <= t.conversations.data[i].messages
    ensures t.status == Analyzing ==> s.status == Analyzing
  {
    var data := s.conversations.data;
    match e
    case SetActiveConversation(id) => s.(activeConversation := Some(id))
    case ClearError => s.(conversations := s.conversations.(error := None))
    case SetTokenWarning(id, warn) =>
      var k := FindConversation(data, id);
      WithData(s, if k < |data| then ReplaceAt(data, k, data[k].(warnTokenLimit := warn)) else data)
    case CreateConversationPending => s.(status := Loading)
    case CreateConversationFulfilled(c) =>
      ChatState(s.conversations.(data := data + [c]), Idle, Some(c.id))
    case CreateConversationRejected(m) => Fail(s, m, CreateFailedMessage)
    case GenerateAnalysisPending => s.(status := Loading)
    case GenerateAnalysisFulfilled(p) =>
      var k := FindConversation(data, p.conversationId);
      WithData(s.(status := Idle),
               if k < |data| then ReplaceAt(data, k, data[k].(analysis := Analyzed(p.analysis))) else data)
    case GenerateAnalysisRejected(m) => Fail(s, m, AnalysisFailedMessage)
    case SendMessagePending => s.(status := Loading)
    case SendMessageFulfilled(p, now) =>
      var k := FindConversation(data, p.conversationId);
      WithData(s.(status := Idle),
               if k < |data| then ReplaceAt(data, k, ApplyReply(data[k], p, now)) else data)
    case SendMessageRejected(m) => Fail(s, m, SendFailedMessage)
  }

  /** The state after a sequence of actions. */
  function Run(s: ChatState, es: seq<Event>): ChatState
    decreases |es|
  {
    if es == [] then s else Run(Step(s, es[0]), es[1..])
  }

  // ------------------------------------------------------- single transitions

  predicate IsPending(e: Event)
  {
    e.CreateConversationPending? || e.GenerateAnalysisPending? || e.SendMessagePending?
  }

  predicate IsRejected(e: Event)
  {
    e.CreateConversationRejected? || e.GenerateAnalysisRejected? || e.SendMessageRejected?
  }

  /** Every pending case sets the status to loading and nothing else. */
  lemma PendingSetsLoading(s: ChatState, e: Event)
    requires IsPending(e)
    ensures Step(s, e).status == Loading
    ensures Step(s, e).conversations == s.conversations
    ensures Step(s, e).activeConversation == s.activeConversation
  {
  }

  /** Every rejected case sets the status to failed and records the error's message,
      or the case's default when the message is absent or empty; the conversations
      and the selection are untouched. */
  lemma RejectedSetsFailed(s: ChatState, e: Event, message: Option<string>)
    requires IsRejected(e)
    requires message == (match e
                         case CreateConversationRejected(m) => m
                         case GenerateAnalysisRejected(m) => m
                         case SendMessageRejected(m) => m
                         case _ => None)
    ensures Step(s, e).status == Failed
    ensures Step(s, e).conversations.data == s.conversations.data
    ensures Step(s, e).activeConversation == s.activeConversation
    ensures message.Some? && message.value != [] ==> Step(s, e).conversations.error == message
    ensures message.None? || message.value == [] ==>
              Step(s, e).conversations.error == Some(
                if e.CreateConversationRejected? then "Failed to create conversation"
                else if e.GenerateAnalysisRejected? then "Failed to generate analysis conversation"
                else "Failed to send message")
  {
  }

  /** Fulfilling `createConversation` appends the fresh conversation and selects it. */
  lemma CreateAppendsAndSelects(s: ChatState, id: int, title: string, createdAt: string, updatedAt: string)
    ensures var t := Step(s, CreateConversationFulfilled(CreateConversation(id, title, createdAt, updatedAt)));
            && t.conversations.data[..|s.conversations.data|] == s.conversations.data
            && |t.conversations.data| == |s.conversations.data| + 1
            && IsFresh(t.conversations.data[|s.conversations.data|])
            && t.conversations.data[|s.conversations.data|].id == id
            && t.activeConversation == Some(id)
            && t.status == Idle
            && t.conversations.error == s.conversations.error
  {
    var t := Step(s, CreateConversationFulfilled(CreateConversation(id, title, createdAt, updatedAt)));
    assert t.conversations.data == s.conversations.data + [CreateConversation(id, title, createdAt, updatedAt)];
  }

  /** Fulfilling `sendMessage` sets the status idle and changes only the first
      conversation with the payload's id: the payload's messages are appended, the
      reported output and total are added (0 when absent), `tokensIn` is added to
      itself and the update time is refreshed. Every other conversation, and the
      whole list when no id matches, is unchanged. */
  lemma SendFulfilledUpdatesFirstMatch(s: ChatState, p: SendPayload, now: string)
    ensures var data := s.conversations.data;
            var t := Step(s, SendMessageFulfilled(p, now));
            var k := FindConversation(data, p.conversationId);
            && t.status == Idle
            && t.conversations.error == s.conversations.error
            && t.activeConversation == s.activeConversation
            && |t.conversations.data| == |data|
            && (forall i :: 0 <= i < |data| && i != k ==> t.conversations.data[i] == data[i])
            && (forall i :: 0 <= i < |data| && data[i].id != p.conversationId ==> t.conversations.data[i] == data[i])
            && (k == |data| ==> t.conversations.data == data)
            && (k < |data| ==>
                  var c, c' := data[k], t.conversations.data[k];
                  && c'.messages == c.messages + p.messages
                  && c'.totalTokens == c.totalTokens + OrZero(p.totalTokens)
                  && c'.tokensOut == c.tokensOut + OrZero(p.tokensOut)
                  && c'.tokensIn == 2 * c.tokensIn
                  && c'.updatedAt == now
                  && c'.id == c.id && c'.title == c.title && c'.tokenLimit == c.tokenLimit
                  && c'.warnTokenLimit == c.warnTokenLimit && c'.analysis == c.analysis
                  && c'.createdAt == c.createdAt)
  {
  }

  /** Fulfilling `generateAnalysis` sets the status idle and changes only the analysis
      of the first conversation with the payload's id; messages and counters stay. */
  lemma AnalysisFulfilledSetsOnlyAnalysis(s: ChatState, p: AnalysisPayload)
    ensures var data := s.conversations.data;
            var t := Step(s, GenerateAnalysisFulfilled(p));
            var k := FindConversation(data, p.conversationId);
            && t.status == Idle
            && t.conversations.error == s.conversations.error
            && t.activeConversation == s.activeConversation
            && |t.conversations.data| == |data|
            && (forall i :: 0 <= i < |data| && i != k ==> t.conversations.data[i] == data[i])
            && (k == |data| ==> t.conversations.data == data)
            && (k < |data| ==> t.conversations.data[k] == data[k].(analysis := Analyzed(p.analysis)))
  {
  }

  /** `setTokenWarning` changes only the warning flag of the first conversation with
      the id, and nothing else of the state. */
  lemma SetTokenWarningSetsOnlyFlag(s: ChatState, id: int, warn: bool)
    ensures var data := s.conversations.data;
            var t := Step(s, SetTokenWarning(id, warn));
            var k := FindConversation(data, id);
            && t.status == s.status
            && t.conversations.error == s.conversations.error
            && t.activeConversation == s.activeConversation
            && |t.conversations.data| == |data|
            && (forall i :: 0 <= i < |data| && i != k ==> t.conversations.data[i] == data[i])
            && (k < |data| ==> t.conversations.data[k] == data[k].(warnTokenLimit := warn))
  {
  }

  /** `clearError` only clears the error; `setActiveConversation` only selects. */
  lemma SynchronousReducersAreLocal(s: ChatState, id: int)
    ensures Step(s, ClearError) == s.(conversations := s.conversations.(error := None))
    ensures Step(s, SetActiveConversation(id)) == s.(activeConversation := Some(id))
  {
  }

  /** Sending a message whose history would reach the limit fails before any reply:
      after the pending and rejected actions the store is failed with the
      limit-exceeded message, and no conversation changed, its warning flag included. */
  lemma SendOverLimitLeavesConversationsUnchanged(cfg: Config, enc: Encoder, s: ChatState, conversation: int,
                                                  message: string, history: seq<Message>,
                                                  provider: Provider, now: string)
    requires ValidConfig(cfg)
    requires MessagesTokenCount(enc, history + [Message(User, message)]) >= cfg.maxTokensPerConversation
    ensures var t := Step(Step(s, SendMessagePending),
                          SendSettled(SendMessage(cfg, enc, conversation, message, history, provider), now));
            && t.conversations.data == s.conversations.data
            && t.status == Failed
            && t.conversations.error == Some(ErrorMessage(LimitExceeded(
                 MessagesTokenCount(enc, history + [Message(User, message)]), cfg.maxTokensPerConversation)))
  {
  }

  /** An analysis whose estimate is above the ceiling fails before any reply: after the
      pending and rejected actions the store is failed with the sizing message, and no
      conversation changed. */
  lemma AnalysisOverCeilingLeavesConversationsUnchanged(enc: Encoder, s: ChatState, systemText: string,
                                                        userText: string, image1: string, image2: Option<string>,
                                                        conversationId: int, provider: Provider)
    requires AnalysisEstimate(enc, systemText, userText, image1, image2) > AnalysisTokenCeiling
    ensures var t := Step(Step(s, GenerateAnalysisPending),
                          AnalysisSettled(GenerateAnalysis(enc, systemText, userText, image1, image2,
                                                           conversationId, provider)));
            && t.conversations.data == s.conversations.data
            && t.status == Failed
            && t.conversations.error == Some(ErrorMessage(SizingError))
  {
  }

  /** As written, a reported usage reaches the reducer as undefined fields, so a
      successful send leaves the conversation's totals where they were. */
  lemma AsWrittenUsageLeavesTotals(s: ChatState, conversation: int, message: string,
                                   content: string, raw: RawUsage, now: string)
    requires FindConversation(s.conversations.data, conversation) < |s.conversations.data|
    ensures var k := FindConversation(s.conversations.data, conversation);
            var p := SendPayloadFrom(conversation, message, ChatResponse(content, ReadUsageAsWritten(raw)));
            var c' := Step(s, SendMessageFulfilled(p, now)).conversations.data[k];
            && c'.totalTokens == s.conversations.data[k].totalTokens
            && c'.tokensOut == s.conversations.data[k].tokensOut
  {
    ReadUsageAsWrittenLosesCounts(raw);
  }
}
