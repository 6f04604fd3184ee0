/** Properties of the conversation store over whole sequences of actions. */
module ChatSliceRuns {
  import opened Wrappers
  import opened ChatSlice
  import Find

  /** A created conversation is fresh, as every `createConversation` payload is. */
  predicate CreatesFresh(e: Event)
  {
    e.CreateConversationFulfilled? ==> IsFresh(e.conversation)
  }

  /** A send reports no negative usage. */
  predicate ReportsNonNegative(e: Event)
  {
    e.SendMessageFulfilled? ==> OrZero(e.sendPayload.tokensOut) >= 0 && OrZero(e.sendPayload.totalTokens) >= 0
  }

  /** An action the thunks can produce with a provider that reports no negative usage. */
  predicate WellFormed(e: Event)
  {
    CreatesFresh(e) && ReportsNonNegative(e)
  }

  predicate AllWellFormed(es: seq<Event>)
  {
    forall i :: 0 <= i < |es| ==> WellFormed(es[i])
  }

  predicate AllCreateFresh(es: seq<Event>)
  {
    forall i :: 0 <= i < |es| ==> CreatesFresh(es[i])
  }

  /** `t` extends `s`: no conversation is dropped or renumbered, messages are only
      appended, and the total and output counters do not decrease. */
  predicate Grows(s: ChatState, t: ChatState)
  {
    var a, b := s.conversations.data, t.conversations.data;
    && |a| <= |b|
    && forall i :: 0 <= i < |a| ==>
         && b[i].id == a[i].id
         && a[i].messages <= b[i].messages
         && a[i].totalTokens <= b[i].totalTokens
         && a[i].tokensOut <= b[i].tokensOut
  }

  lemma StepGrows(s: ChatState, e: Event)
    requires WellFormed(e)
    ensures Grows(s, Step(s, e))
  {
    if e.SendMessageFulfilled? {
      SendFulfilledUpdatesFirstMatch(s, e.sendPayload, e.now);
    }
  }

  /** Over any sequence of well-formed actions the store only grows: `totalTokens`
      and `tokensOut` never decrease and message histories are append-only. */
  lemma {:induction false} RunGrows(s: ChatState, es: seq<Event>)
    requires AllWellFormed(es)
    ensures Grows(s, Run(s, es))
    decreases |es|
  {
    if es != [] {
      var t := Step(s, es[0]);
      StepGrows(s, es[0]);
      assert AllWellFormed(es[1..]) by {
        forall i | 0 <= i < |es[1..]| ensures WellFormed(es[1..][i]) {
          assert es[1..][i] == es[i + 1];
        }
      }
      RunGrows(t, es[1..]);
      var u := Run(t, es[1..]);
      forall i | 0 <= i < |s.conversations.data|
        ensures s.conversations.data[i].messages <= u.conversations.data[i].messages
      {
        var m1, m2, m3 := s.conversations.data[i].messages, t.conversations.data[i].messages,
                          u.conversations.data[i].messages;
        assert m1 == m2[..|m1|] && m2 == m3[..|m2|];
        assert m1 == m3[..|m1|];
      }
    }
  }

  predicate TokensInZero(s: ChatState)
  {
    forall i :: 0 <= i < |s.conversations.data| ==> s.conversations.data[i].tokensIn == 0
  }

  /** `tokensIn` starts at 0 and is only ever added to itself, so it stays 0 along
      any run whose created conversations are fresh. */
  lemma {:induction false} TokensInStaysZero(s: ChatState, es: seq<Event>)
    requires TokensInZero(s)
    requires AllCreateFresh(es)
    ensures TokensInZero(Run(s, es))
    decreases |es|
  {
    if es != [] {
      var t := Step(s, es[0]);
      if es[0].SendMessageFulfilled? {
        SendFulfilledUpdatesFirstMatch(s, es[0].sendPayload, es[0].now);
      }
      assert TokensInZero(t);
      assert AllCreateFresh(es[1..]) by {
        forall i | 0 <= i < |es[1..]| ensures CreatesFresh(es[1..][i]) {
          assert es[1..][i] == es[i + 1];
        }
      }
      TokensInStaysZero(t, es[1..]);
    }
  }

  /** From the initial state, `tokensIn` is 0 in every conversation, always. */
  lemma TokensInAlwaysZero(es: seq<Event>)
    requires AllCreateFresh(es)
    ensures TokensInZero(Run(InitialState, es))
  {
    TokensInStaysZero(InitialState, es);
  }

  /** No action sets the `Analyzing` status: a store that is not analyzing never becomes so. */
  lemma {:induction false} NeverAnalyzing(s: ChatState, es: seq<Event>)
    requires s.status != Analyzing
    ensures Run(s, es).status != Analyzing
    decreases |es|
  {
    if es != [] {
      NeverAnalyzing(Step(s, es[0]), es[1..]);
    }
  }

  /** Only `setTokenWarning` touches a warning flag; no other action recomputes it,
      however close the totals come to the limit. */
  lemma StepKeepsWarnings(s: ChatState, e: Event)
    requires !e.SetTokenWarning?
    ensures forall i :: 0 <= i < |s.conversations.data| ==>
              Step(s, e).conversations.data[i].warnTokenLimit == s.conversations.data[i].warnTokenLimit
  {
    if e.SendMessageFulfilled? {
      SendFulfilledUpdatesFirstMatch(s, e.sendPayload, e.now);
    }
  }

  predicate NoWarnings(s: ChatState)
  {
    forall i :: 0 <= i < |s.conversations.data| ==> !s.conversations.data[i].warnTokenLimit
  }

  /** Without `setTokenWarning`, every conversation created keeps its warning off. */
  lemma {:induction false} WarningsStayOff(s: ChatState, es: seq<Event>)
    requires NoWarnings(s)
    requires AllCreateFresh(es)
    requires forall i :: 0 <= i < |es| ==> !es[i].SetTokenWarning?
    ensures NoWarnings(Run(s, es))
    decreases |es|
  {
    if es != [] {
      var t := Step(s, es[0]);
      StepKeepsWarnings(s, es[0]);
      assert NoWarnings(t);
      assert AllCreateFresh(es[1..]) && forall i :: 0 <= i < |es[1..]| ==> !es[1..][i].SetTokenWarning? by {
        forall i | 0 <= i < |es[1..]| ensures CreatesFresh(es[1..][i]) && !es[1..][i].SetTokenWarning? {
          assert es[1..][i] == es[i + 1];
        }
      }
      WarningsStayOff(t, es[1..]);
    }
  }

  /** The total one action reports for a conversation id. */
  function Reported(e: Event, id: int): int
  {
    if e.SendMessageFulfilled? && e.sendPayload.conversationId == id
    then OrZero(e.sendPayload.totalTokens) else 0
  }

  /** The total a sequence of actions reports for one conversation id: the sum of the
      `totalTokens` of its `sendMessage` payloads (0 when absent). */
  function ReportedTotal(es: seq<Event>, id: int): int
  {
    if es == [] then 0 else Reported(es[0], id) + ReportedTotal(es[1..], id)
  }

  /** One action adds what it reports to the conversation the id finds, and the id
      keeps finding it. */
  lemma StepConservesTotal(s: ChatState, e: Event, id: int)
    requires FindConversation(s.conversations.data, id) < |s.conversations.data|
    ensures var k := FindConversation(s.conversations.data, id);
            var t := Step(s, e);
            && k < |t.conversations.data|
            && FindConversation(t.conversations.data, id) == k
            && t.conversations.data[k].totalTokens == s.conversations.data[k].totalTokens + Reported(e, id)
  {
    var data := s.conversations.data;
    var k := FindConversation(data, id);
    var t := Step(s, e);
    if e.SendMessageFulfilled? {
      SendFulfilledUpdatesFirstMatch(s, e.sendPayload, e.now);
      if e.sendPayload.conversationId != id {
        assert data[k].id == id;
      }
    } else if e.GenerateAnalysisFulfilled? {
      AnalysisFulfilledSetsOnlyAnalysis(s, e.analysisPayload);
    } else if e.SetTokenWarning? {
      SetTokenWarningSetsOnlyFlag(s, e.warnId, e.warn);
    }
    assert forall i :: 0 <= i < |data| ==> IdOf(t.conversations.data[i]) == IdOf(data[i]);
    Find.FirstIndexStable(data, t.conversations.data, IdOf, id);
  }

  /** Counter conservation: once a conversation with the id exists, its `totalTokens`
      after any sequence of actions is what it was plus the totals those actions
      reported for the id; it also stays the conversation the id finds. */
  lemma {:induction false} TotalTokensConserved(s: ChatState, es: seq<Event>, id: int)
    requires FindConversation(s.conversations.data, id) < |s.conversations.data|
    ensures var k := FindConversation(s.conversations.data, id);
            && k < |Run(s, es).conversations.data|
            && FindConversation(Run(s, es).conversations.data, id) == k
            && Run(s, es).conversations.data[k].totalTokens
               == s.conversations.data[k].totalTokens + ReportedTotal(es, id)
    decreases |es|
  {
    if es != [] {
      StepConservesTotal(s, es[0], id);
      TotalTokensConserved(Step(s, es[0]), es[1..], id);
    }
  }
}
