/** The earlier conversation store, kept beside the current one but not wired into
    the application store. Its messages carry their own fractional token estimate,
    and its status lives inside the conversations record. */
module LegacyChatSlice {
  import opened Wrappers
  import Find
  import Types

  datatype Role = User | Assistant

  /** A stored message with its optional token estimate. */
  datatype Message = Message(role: Role, message: string, tokens: Option<real>)

  datatype Conversation = Conversation(
    id: int,
    title: string,
    messages: seq<Message>,
    totalTokens: real,
    tokenLimit: int,
    createdAt: string,
    updatedAt: string)

  datatype Status = Idle | Loading | Failed

  datatype Conversations = Conversations(data: seq<Conversation>, status: Status, error: Option<string>)

  datatype ChatState = ChatState(conversations: Conversations, activeConversation: Option<int>)

  const InitialState: ChatState := ChatState(Conversations([], Idle, None), None)

  const ConversationTokenLimit: int := 4000

  /** `tokens || 0` on an optional estimate. */
  function TokensOf(m: Message): real
  {
    match m.tokens
    case Some(t) => t
    case None => 0.0
  }

  /** The tokens recorded by a message history. */
  function MessageTokens(ms: seq<Message>): real
  {
    if ms == [] then 0.0 else TokensOf(ms[0]) + MessageTokens(ms[1..])
  }

  lemma {:induction false} MessageTokensAppend(ms: seq<Message>, m: Message)
    ensures MessageTokens(ms + [m]) == MessageTokens(ms) + TokensOf(m)
  {
    if ms == [] {
      assert ms + [m] == [m];
      assert [m][1..] == [];
    } else {
      assert (ms + [m])[1..] == ms[1..] + [m];
      MessageTokensAppend(ms[1..], m);
    }
  }

  /** A conversation as created: no messages, no tokens, the default limit. */
  predicate IsFresh(c: Conversation)
  {
    c.messages == [] && c.totalTokens == 0.0 && c.tokenLimit == ConversationTokenLimit
  }

  /** The payload of `createConversation`, with the clock's id and its two timestamp
      reads as parameters. */
  function CreateConversation(id: int, title: string, createdAt: string, updatedAt: string): (c: Conversation)
    ensures IsFresh(c) && c.id == id && c.title == title
    ensures c.createdAt == createdAt && c.updatedAt == updatedAt
  {
    Conversation(id, title, [], 0.0, ConversationTokenLimit, createdAt, updatedAt)
  }

  datatype SendPayload = SendPayload(conversationId: int, message: Message)

  /** The payload of `sendMessage`: one user message whose estimate is a quarter of its
      UTF-16 length, not rounded. */
  function SendMessage(conversation: int, message: string): (p: SendPayload)
    ensures p.conversationId == conversation
    ensures p.message.role == User && p.message.message == message
    ensures p.message.tokens.Some? && 4.0 * p.message.tokens.value == Types.Utf16Length(message) as real
  {
    SendPayload(conversation, Message(User, message, Some(Types.Utf16Length(message) as real / 4.0)))
  }

  /** The estimate is fractional: a five-character message is worth 1.25 tokens. */
  lemma SendEstimateIsFractional(conversation: int)
    ensures SendMessage(conversation, "hello").message.tokens == Some(1.25)
    ensures SendMessage(conversation, "\U{1F600}").message.tokens == Some(0.5)
  {
  }

  datatype Event =
    | SetActiveConversation(activeId: int)
    | ClearError
    | CreateConversationPending
    | CreateConversationFulfilled(conversation: Conversation)
    | CreateConversationRejected(createError: Option<string>)
    | SendMessagePending
    | SendMessageFulfilled(sendPayload: SendPayload, now: string)
    | SendMessageRejected(sendError: Option<string>)

  function IdOf(c: Conversation): int { c.id }

  /** Where `data.find(c => c.id === id)` lands, or `|data|` when none has the id. */
  function FindConversation(data: seq<Conversation>, id: int): nat
  {
    Find.FirstIndex(data, IdOf, id)
  }

  /** The conversation after `sendMessage.fulfilled`: the message appended, its tokens
      added, the update time refreshed. */
  function ApplyMessage(c: Conversation, m: Message, now: string): Conversation
  {
    c.(messages := c.messages + [m], totalTokens := c.totalTokens + TokensOf(m), updatedAt := now)
  }

  function WithStatus(s: ChatState, status: Status): ChatState
  {
    s.(conversations := s.conversations.(status := status))
  }

  function Fail(s: ChatState, message: Option<string>, fallback: string): ChatState
  {
    s.(conversations := s.conversations.(status := Failed, error := Some(OrElse(message, fallback))))
  }

  /** The reducer. No action drops or renumbers a conversation or shortens a history. */
  function Step(s: ChatState, e: Event): (t: ChatState)
    ensures |s.conversations.data| <= |t.conversations.data|
    ensures forall i :: 0 <= i < |s.conversations.data| ==>
              && t.conversations.data[i].id == s.conversations.data[i].id
              && s.conversations.data[i].messages <= t.conversations.data[i].messages
  {
    var data := s.conversations.data;
    match e
    case SetActiveConversation(id) => s.(activeConversation := Some(id))
    case ClearError => s.(conversations := s.conversations.(error := None))
    case CreateConversationPending => WithStatus(s, Loading)
    case CreateConversationFulfilled(c) =>
      ChatState(s.conversations.(status := Idle, data := data + [c]), Some(c.id))
    case CreateConversationRejected(m) => Fail(s, m, "Failed to create conversation")
    case SendMessagePending => WithStatus(s, Loading)
    case SendMessageFulfilled(p, now) =>
      var k := FindConversation(data, p.conversationId);
      var data' := if k < |data| then data[k := ApplyMessage(data[k], p.message, now)] else data;
      s.(conversations := s.conversations.(status := Idle, data := data'))
    case SendMessageRejected(m) => Fail(s, m, "Failed to send message")
  }

  function Run(s: ChatState, es: seq<Event>): ChatState
    decreases |es|
  {
    if es == [] then s else Run(Step(s, es[0]), es[1..])
  }

  /** Fulfilling `createConversation` appends the fresh conversation and selects it. */
  lemma CreateAppendsAndSelects(s: ChatState, id: int, title: string, createdAt: string, updatedAt: string)
    ensures var t := Step(s, CreateConversationFulfilled(CreateConversation(id, title, createdAt, updatedAt)));
            && t.conversations.data == s.conversations.data + [CreateConversation(id, title, createdAt, updatedAt)]
            && t.activeConversation == Some(id)
            && t.conversations.status == Idle
            && t.conversations.error == s.conversations.error
  {
  }

  /** Both pending cases set the status to loading and nothing else. */
  lemma PendingSetsLoading(s: ChatState)
    ensures Step(s, CreateConversationPending) == Step(s, SendMessagePending)
         == s.(conversations := s.conversations.(status := Loading))
  {
  }

  /** Both rejected cases set the status to failed and record the message, or the
      case's default when it is absent or empty; data and selection stay. */
  lemma RejectedSetsFailed(s: ChatState, message: Option<string>)
    ensures var c, m := Step(s, CreateConversationRejected(message)), Step(s, SendMessageRejected(message));
            && c.conversations.status == Failed && m.conversations.status == Failed
            && c.conversations.data == s.conversations.data && m.conversations.data == s.conversations.data
            && c.activeConversation == s.activeConversation && m.activeConversation == s.activeConversation
            && (message.Some? && message.value != [] ==>
                  c.conversations.error == message && m.conversations.error == message)
            && (message.None? || message.value == [] ==>
                  c.conversations.error == Some("Failed to create conversation")
                  && m.conversations.error == Some("Failed to send message"))
  {
  }

  /** Fulfilling `sendMessage` sets the status idle and changes only the first
      conversation with the payload's id: one message appended and its tokens (0 when
      absent) added. With no matching id the data is unchanged. */
  lemma SendFulfilledAppendsOne(s: ChatState, p: SendPayload, now: string)
    ensures var data := s.conversations.data;
            var t := Step(s, SendMessageFulfilled(p, now));
            var k := FindConversation(data, p.conversationId);
            && t.conversations.status == Idle
            && t.conversations.error == s.conversations.error
            && t.activeConversation == s.activeConversation
            && |t.conversations.data| == |data|
            && (forall i :: 0 <= i < |data| && i != k ==> t.conversations.data[i] == data[i])
            && (k == |data| ==> t.conversations.data == data)
            && (k < |data| ==>
                  var c, c' := data[k], t.conversations.data[k];
                  && c'.messages == c.messages + [p.message]
                  && c'.totalTokens == c.totalTokens + TokensOf(p.message)
                  && c'.updatedAt == now
                  && c'.id == c.id && c'.title == c.title && c'.tokenLimit == c.tokenLimit
                  && c'.createdAt == c.createdAt)
  {
  }

  /** `clearError` only clears the error; `setActiveConversation` only selects. */
  lemma SynchronousReducersAreLocal(s: ChatState, id: int)
    ensures Step(s, ClearError) == s.(conversations := s.conversations.(error := None))
    ensures Step(s, SetActiveConversation(id)) == s.(activeConversation := Some(id))
  {
  }

  // ------------------------------------------------------------------- runs

  /** An action the thunks can produce: a fresh conversation, and a message with a
      non-negative estimate. */
  predicate WellFormed(e: Event)
  {
    match e
    case CreateConversationFulfilled(c) => IsFresh(c)
    case SendMessageFulfilled(p, _) => TokensOf(p.message) >= 0.0
    case _ => true
  }

  predicate AllWellFormed(es: seq<Event>)
  {
    forall i :: 0 <= i < |es| ==> WellFormed(es[i])
  }

  /** What the thunks produce is well-formed. */
  lemma ThunkPayloadsWellFormed(id: int, title: string, createdAt: string, updatedAt: string,
                                conversation: int, message: string, now: string)
    ensures WellFormed(CreateConversationFulfilled(CreateConversation(id, title, createdAt, updatedAt)))
    ensures WellFormed(SendMessageFulfilled(SendMessage(conversation, message), now))
  {
  }

  /** Every conversation's total equals the tokens its messages record. */
  predicate TotalsMatchMessages(s: ChatState)
  {
    forall i :: 0 <= i < |s.conversations.data| ==>
      s.conversations.data[i].totalTokens == MessageTokens(s.conversations.data[i].messages)
  }

  /** `t` extends `s` with no total decreasing and no history rewritten. */
  predicate Grows(s: ChatState, t: ChatState)
  {
    var a, b := s.conversations.data, t.conversations.data;
    && |a| <= |b|
    && forall i :: 0 <= i < |a| ==>
         b[i].id == a[i].id && a[i].messages <= b[i].messages && a[i].totalTokens <= b[i].totalTokens
  }

  lemma StepKeepsTotalsMatched(s: ChatState, e: Event)
    requires WellFormed(e) && TotalsMatchMessages(s)
    ensures TotalsMatchMessages(Step(s, e))
    ensures Grows(s, Step(s, e))
  {
    var data := s.conversations.data;
    match e
    case SendMessageFulfilled(p, now) =>
      SendFulfilledAppendsOne(s, p, now);
      var k := FindConversation(data, p.conversationId);
      if k < |data| {
        MessageTokensAppend(data[k].messages, p.message);
      }
    case CreateConversationFulfilled(c) =>
      assert Step(s, e).conversations.data == data + [c];
    case _ =>
  }

  /** Over any sequence of well-formed actions the totals never decrease, histories are
      append-only, and every total keeps matching the tokens of its messages. */
  lemma {:induction false} RunKeepsTotals(s: ChatState, es: seq<Event>)
    requires AllWellFormed(es) && TotalsMatchMessages(s)
    ensures TotalsMatchMessages(Run(s, es))
    ensures Grows(s, Run(s, es))
    decreases |es|
  {
    if es != [] {
      var t := Step(s, es[0]);
      StepKeepsTotalsMatched(s, es[0]);
      assert AllWellFormed(es[1..]) by {
        forall i | 0 <= i < |es[1..]| ensures WellFormed(es[1..][i]) {
          assert es[1..][i] == es[i + 1];
        }
      }
      RunKeepsTotals(t, es[1..]);
      var u := Run(t, es[1..]);
      forall i | 0 <= i < |s.conversations.data|
        ensures s.conversations.data[i].messages <= u.conversations.data[i].messages
      {
        var m1, m2, m3 := s.conversations.data[i].messages, t.conversations.data[i].messages,
                          u.conversations.data[i].messages;
        assert m1 == m2[..|m1|] && m2 == m3[..|m2|];
        assert m1 == m3[..|m1|];
      }
    }
  }

  /** From the initial state, totals never decrease along any well-formed run. */
  lemma TotalTokensNeverDecrease(es: seq<Event>, more: seq<Event>)
    requires AllWellFormed(es + more)
    ensures Grows(Run(InitialState, es), Run(Run(InitialState, es), more))
  {
    assert AllWellFormed(es) by {
      forall i | 0 <= i < |es| ensures WellFormed(es[i]) { assert (es + more)[i] == es[i]; }
    }
    assert AllWellFormed(more) by {
      forall i | 0 <= i < |more| ensures WellFormed(more[i]) { assert (es + more)[|es| + i] == more[i]; }
    }
    RunKeepsTotals(InitialState, es);
    RunKeepsTotals(Run(InitialState, es), more);
  }
}
