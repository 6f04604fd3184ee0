# Token budget of the wine-pairing chat client

This project models the token-budget core of a chat client. The client sends food and
wine menu images to a vision model for a pairing analysis, then carries on a text
conversation about the result. The model has four layers, one module each:

- **Token accounting** (`Tokens`): the token count of a text, with an uninterpreted
  subword encoder that may fail and a length-based fallback. The count of a chat
  message list adds 4 tokens per message and 2 for the reply.
- **Server actions** (`Actions`, `ProviderUsage`): the pre-flight checks of `analyze`
  and `getChatResponse`, the request each sends, and the usage each returns.
  - `analyze` estimates the prompts plus 85 tokens per started 4096-character image tile, and rejects an estimate above 6000.
  - `getChatResponse` rejects a history at or above the conversation limit. It also rejects when no completion allowance is left after a 100-token buffer.
  - The provider is a function from the request to its reply. "Rejected before the remote call" is stated as "the result does not depend on the provider".
- **Conversation store** (`ChatSlice`, `ChatSliceRuns`): the Redux slice as a pure
  transition `Step(state, action)`. It covers the synchronous reducers and the pending, fulfilled and rejected cases of
  `createConversation`, `generateAnalysis` and `sendMessage`. It also covers the payloads those thunks build, and
  properties of whole runs of actions.
- **Legacy store** (`LegacyChatSlice`): the earlier slice. It is not wired into the
  application store, but it is a state machine of its own with a fractional (`real`) token estimate per message.

`Wrappers` (Option, Result, JavaScript's `||` on optional values), `Types` (the
message shape) and `Find` (`Array.prototype.find` by id) are shared helpers.

Where the intended design of the system differs from the code, the model follows the code. The one exception is the reading of a reported usage: the model reads it the corrected way, as the Findings row below explains. The differences it follows:
- The computed `actualMaxTokens` is never sent. The request asks for the caller's maximum, or the configured one (`Actions.AllowanceNotSent`).
- The requested maximum is `maxCompletionTokens ?? MAX_COMPLETION_TOKENS`. It is not a minimum of the two.
- `tokensIn` is added to itself on every reply, so it stays 0.
- No action recomputes `warnTokenLimit`. A hard-limit rejection does not set it either.
- There is no delete action.
- The `Analyzing` status is declared but never set; `generateAnalysis.pending` sets `Loading`.

`MAX_TOKENS_PER_CONVERSATION` and `MAX_COMPLETION_TOKENS` are imported by the actions
but are not defined in src/lib/openai.ts. They are the fields of `Actions.Config`, and the limit is required to be positive.
The encoder, the provider, ids and timestamps are parameters.

## Model

| member | source | states |
|---|---|---|
| `Find.FirstIndex` | src/store/chatSlice.ts:167-169 | the index `find` lands on: no earlier conversation has the id, and the one found has it; `|data|` when none does |
| `Types.Utf16Length` | src/lib/tokens.ts:26 | JavaScript's `length`: one character counts 2 outside the Basic Multilingual Plane and 1 inside it; between the number of characters and twice it, and equal to it when every character is in the plane |
| `Types.Utf16LengthConcat` | src/lib/tokens.ts:26 | code units add up over concatenation, so with the one-character case the length of every string is fixed |
| `Types.MixedPlaneLength` | src/lib/tokens.ts:26 | "a" followed by one emoji is 3 code units |
| `Tokens.CeilDiv` | src/lib/tokens.ts:26 | `Math.ceil(n/d)` characterised without division: `d*(q-1) < n <= d*q` |
| `Tokens.CountTokens` | src/lib/tokens.ts:16-28 | empty text counts 0; the encoding's length when the encoder succeeds; on encoder failure a quarter of the UTF-16 length (JavaScript's `length`) rounded up; never fails, never negative |
| `Tokens.FallbackCountsCodeUnits` | src/lib/tokens.ts:26 | when the encoder fails, five emoji (ten code units) count 3 tokens |
| `Tokens.MessagesTokenCount` | src/lib/tokens.ts:36-58 | the count of a list is at least `4*|ms| + 2`, and the empty list counts 2 |
| `Tokens.ContentTokensConcat` | src/lib/tokens.ts:47-52 | content tokens add up over concatenation |
| `Tokens.MessagesTokenCountAppend` | src/lib/tokens.ts:47-52 | appending a message adds exactly its content tokens plus 4, so the count strictly grows |
| `Tokens.MessagesTokenCountConcat` | src/lib/tokens.ts:45-57 | counting two lists apart charges the 2-token reply overhead twice |
| `Tokens.GetMessagesTokenCount` | src/lib/tokens.ts:36-58 | the accumulating loop of `getMessagesTokenCount` computes the reference count: content tokens, plus 4 per message, plus 2 |
| `Tokens.IsWithinTokenLimit` | src/lib/tokens.ts:67-74 | a list that fits leaves the limit above its framing `4*|ms| + 2` |
| `Tokens.WithinTokenLimitPrefixClosed` | src/lib/tokens.ts:67-74 | if a list with one more message fits, the shorter list fits |
| `Tokens.WithinTokenLimitStrict` | src/lib/tokens.ts:67-74 | a list fits exactly when its count is strictly below the limit, and the call without a limit uses 4000: never under its own count, always under count + 1 |
| `ProviderUsage.Decamelize` | src/actions/chat.ts:151 | no upper-case letter survives decamelizing |
| `ProviderUsage.DecamelizeKeys` | src/actions/chat.ts:151 | the parsed object has as many entries as the raw one, each keeps its value, and no key holds an upper-case letter |
| `ProviderUsage.Lookup` | src/actions/chat.ts:150-152 | a property is absent exactly when no entry has the key, else it is the value of the last such entry |
| `ProviderUsage.CamelKeyAbsent` | src/actions/chat.ts:151 | a key holding an upper-case letter is never found in a decamelized object |
| `ProviderUsage.ReadUsageAsWrittenLosesCounts` | src/actions/chat.ts:150-152 | as written, every field of a reported usage reads as `undefined` |
| `ProviderUsage.ReadUsageKeepsCounts` | src/actions/chat.ts:150-152 | the intended reading returns the prompt, completion and total the provider reported |
| `ProviderUsage.UsageReadingCounterexample` | src/actions/chat.ts:150-152 | for a reported 10/5/15 usage the as-written reading sees nothing and the intended reading sees all three |
| `Actions.ErrorMessage` | src/actions/chat.ts:46-140 | a provider error's message is passed on unchanged; the sizing, limit and no-room messages open with "Image analysis", "Token limit exceeded." and "Not enough tokens" |
| `Actions.CheckMessagesDiffer` | src/actions/chat.ts:46-140 | the messages of two different checks differ, whatever counts the limit message carries |
| `Actions.ImageTokens` | src/actions/chat.ts:41 | the image estimate is a multiple of 85, one 85 per started tile of 4096 UTF-16 code units, and 0 for an empty image |
| `Actions.SecondImageTokens` | src/actions/chat.ts:42-44 | an absent second image contributes 0, a present one its tile estimate |
| `Actions.AnalysisPreflight` | src/actions/chat.ts:46-53 | a sizing error exactly when prompts plus images exceed 6000; exactly 6000 is admitted with the estimate |
| `Actions.AnalysisUsage` | src/actions/chat.ts:88-100 | a reported usage is read; otherwise prompt = estimate, completion = a quarter of the content's UTF-16 length rounded up (0 for none), total = their sum |
| `Actions.BackfillCountsCodeUnits` | src/actions/chat.ts:88-100 | with no reported usage, a reply of three emoji (six code units) is backfilled as 2 completion tokens |
| `Actions.Analyze` | src/actions/chat.ts:33-112 | an oversized request fails with the sizing error; an admitted request the provider answers succeeds; an admitted request the provider fails is that failure, with the provider's message unchanged; success means the provider answered the analysis request, and its content is returned with the (backfilled) usage; no other failure occurs |
| `Actions.AnalyzeRejectsBeforeCall` | src/actions/chat.ts:46-53 | an oversized analysis gives the same sizing error whatever the provider would answer |
| `Actions.TwoLargeImagesRejected` | src/actions/chat.ts:41-53 | two images of 409600 code units are 8500 tokens each and are rejected |
| `Actions.ChatPreflight` | src/actions/chat.ts:120-140 | limit exceeded exactly when count >= limit; no room exactly when count < limit and the allowance `min(requested, limit - count - 100)` is <= 0; when admitted `0 < actual <= requested`, `count + actual + 100 <= limit`, and actual is one of the two bounds |
| `Actions.ChatUsage` | src/actions/chat.ts:150-152 | no reported usage gives all three fields 0 |
| `Actions.GetChatResponse` | src/actions/chat.ts:114-165 | a pre-flight rejection is the result; an admitted request the provider answers succeeds; success means the provider answered the chat request, with its content (empty when absent) and usage; a provider error is passed on unmodified |
| `Actions.ChatRejectsBeforeCall` | src/actions/chat.ts:120-140 | a rejected chat request gives the same result whatever the provider would answer |
| `Actions.AllowanceNotSent` | src/actions/chat.ts:146 | the request asks for the requested maximum, never less than the allowance and strictly more whenever the buffer capped it |
| `Actions.ShortMessageAdmitted` | src/actions/chat.ts:120-140 | a one-token message in an empty conversation under 4000 costs 7 and is admitted with allowance 500 |
| `Actions.NearlyFullHistoryRejected` | src/actions/chat.ts:134-140 | a history counting 3950 under 4000 is rejected for lack of room |
| `Actions.FullHistoryRejected` | src/actions/chat.ts:123-127 | a history counting 4010 under 4000 is rejected as over the limit, carrying the count |
| `ChatSlice.CreateConversation` | src/store/chatSlice.ts:38-57 | a created conversation has no messages, zero counters, limit 4000, no warning and no analysis; its creation and update times are the two clock reads |
| `ChatSlice.GenerateAnalysis` | src/store/chatSlice.ts:59-73 | fulfilled exactly when the analysis succeeds, with its message and the conversation id; otherwise rejected with the error's message |
| `ChatSlice.SendMessage` | src/store/chatSlice.ts:75-108 | a fulfilled send carries exactly the user message and the assistant reply, plus the reply's usage fields; a history at or above the limit is rejected with the limit-exceeded message |
| `ChatSlice.Step` | src/store/chatSlice.ts:110-184 | the reducer: no action drops or renumbers a conversation or shortens a history, and none enters `Analyzing`; the single-action lemmas below characterise each case |
| `ChatSlice.PendingSetsLoading` | src/store/chatSlice.ts:134-164 | every pending case sets `Loading` and changes nothing else |
| `ChatSlice.RejectedSetsFailed` | src/store/chatSlice.ts:142-182 | every rejected case sets `Failed` and stores the error's message, or the case's default when it is absent or empty |
| `ChatSlice.CreateAppendsAndSelects` | src/store/chatSlice.ts:137-141 | fulfilment appends the fresh conversation, selects it and sets `Idle` |
| `ChatSlice.SendFulfilledUpdatesFirstMatch` | src/store/chatSlice.ts:165-177 | only the first conversation with the id changes: the messages are appended, total and output grow by the reported values (0 if absent), `tokensIn` doubles. Other ids are untouched, and with no match `data` is unchanged |
| `ChatSlice.AnalysisFulfilledSetsOnlyAnalysis` | src/store/chatSlice.ts:150-156 | only the analysis of the first matching conversation changes; with no match `data` is unchanged |
| `ChatSlice.SetTokenWarningSetsOnlyFlag` | src/store/chatSlice.ts:120-130 | only the warning flag of the first matching conversation changes |
| `ChatSlice.SynchronousReducersAreLocal` | src/store/chatSlice.ts:114-119 | `clearError` only nulls the error; `setActiveConversation` only sets the selection |
| `ChatSlice.SendOverLimitLeavesConversationsUnchanged` | src/actions/chat.ts:123-127 | a send over the limit ends `Failed` with the limit message, and no conversation changes, warning flags included |
| `ChatSlice.AnalysisOverCeilingLeavesConversationsUnchanged` | src/store/chatSlice.ts:147-161 | an analysis over the ceiling ends `Failed` with the sizing message, and no conversation changes |
| `ChatSlice.AsWrittenUsageLeavesTotals` | src/store/chatSlice.ts:91-95 | with the usage read as written, a successful send adds nothing to `totalTokens` or `tokensOut` |
| `ChatSliceRuns.StepGrows` | src/store/chatSlice.ts:165-177 | one well-formed action drops no conversation, changes no id, only appends messages and decreases no total or output |
| `ChatSliceRuns.RunGrows` | src/store/chatSlice.ts:173-174 | over any run of well-formed actions `totalTokens` and `tokensOut` never decrease and histories are append-only |
| `ChatSliceRuns.TokensInStaysZero` | src/store/chatSlice.ts:172 | self-addition keeps `tokensIn` at 0 along any run whose created conversations are fresh |
| `ChatSliceRuns.TokensInAlwaysZero` | src/store/chatSlice.ts:47 | from the initial state `tokensIn` is 0 in every conversation, after any run whose created conversations are fresh |
| `ChatSliceRuns.NeverAnalyzing` | src/store/types.ts:8 | no action sets the `Analyzing` status |
| `ChatSliceRuns.StepKeepsWarnings` | src/store/chatSlice.ts:120-130 | no action but `setTokenWarning` changes a warning flag |
| `ChatSliceRuns.WarningsStayOff` | src/store/chatSlice.ts:50 | without `setTokenWarning` every warning flag stays off, along any run whose created conversations are fresh |
| `ChatSliceRuns.StepConservesTotal` | src/store/chatSlice.ts:174 | one action adds exactly what it reports for the id, and the id keeps finding the same conversation |
| `ChatSliceRuns.TotalTokensConserved` | src/store/chatSlice.ts:165-177 | after any run, a conversation's total is its earlier total plus the totals reported for its id |
| `LegacyChatSlice.MessageTokensAppend` | src/store/features/chat/chatSlice.ts:103-104 | the tokens recorded by a history add up under append |
| `LegacyChatSlice.CreateConversation` | src/store/features/chat/chatSlice.ts:37-52 | a created conversation has no messages, total 0 and limit 4000; its creation and update times are the two clock reads |
| `LegacyChatSlice.SendMessage` | src/store/features/chat/chatSlice.ts:54-67 | the payload is one user message whose estimate times 4 is its UTF-16 length |
| `LegacyChatSlice.SendEstimateIsFractional` | src/store/features/chat/chatSlice.ts:63 | a five-character message is estimated at 1.25 tokens, and one emoji (two code units) at 0.5 |
| `LegacyChatSlice.CreateAppendsAndSelects` | src/store/features/chat/chatSlice.ts:85-89 | fulfilment appends the conversation, selects it and sets `Idle` |
| `LegacyChatSlice.Step` | src/store/features/chat/chatSlice.ts:69-113 | the legacy reducer: no action drops or renumbers a conversation or shortens a history; the single-action lemmas below characterise each case |
| `LegacyChatSlice.PendingSetsLoading` | src/store/features/chat/chatSlice.ts:82-96 | both pending cases set `Loading` and nothing else |
| `LegacyChatSlice.RejectedSetsFailed` | src/store/features/chat/chatSlice.ts:90-111 | both rejected cases set `Failed` and store the message or the case's default |
| `LegacyChatSlice.SendFulfilledAppendsOne` | src/store/features/chat/chatSlice.ts:97-107 | only the first matching conversation changes: one message appended and its tokens (0 if absent) added; with no match `data` is unchanged and the status is `Idle` |
| `LegacyChatSlice.SynchronousReducersAreLocal` | src/store/features/chat/chatSlice.ts:73-78 | `clearError` only nulls the error; `setActiveConversation` only sets the selection |
| `LegacyChatSlice.ThunkPayloadsWellFormed` | src/store/features/chat/chatSlice.ts:41-65 | the thunks' payloads are fresh conversations and non-negative estimates |
| `LegacyChatSlice.StepKeepsTotalsMatched` | src/store/features/chat/chatSlice.ts:97-106 | one well-formed action keeps every total equal to the tokens of its messages and decreases none |
| `LegacyChatSlice.RunKeepsTotals` | src/store/features/chat/chatSlice.ts:97-106 | along any well-formed run totals never decrease, histories are append-only, and totals match their messages |
| `LegacyChatSlice.TotalTokensNeverDecrease` | src/store/features/chat/chatSlice.ts:103-104 | from the initial state, continuing any well-formed run never lowers a total |

## Left out

- The remote provider (`openai.chat.completions.create`, `getOpenAIClient`): it is the `Provider` parameter. The request records the model name and the maximum tokens; the `0.7` temperature is not modelled (floating point).
- How the analysis request is serialized into data URLs. When the second image is absent, the code sends the URL `data:image/jpeg;base64,undefined`; the model's request keeps the image as optional instead.
- A reply without `choices[0]` throws a `TypeError`; this is folded into `ProviderError`.
- The usage object is modelled by its top-level numeric entries only. Nested detail objects are left out.
- `revalidatePath` and the `conversationId` argument of `getChatResponse`, which is only passed to it: page-cache I/O.
- The `model` argument of `getMessagesTokenCount` and `isWithinTokenLimit`: `countTokens` ignores it, so it has no effect and is not a parameter.
- The prompt strings: their token counts come from the encoder, so they are the `systemText`/`userText` parameters.
- Error transport and logging. A rejection carries the message the action throws, as `ErrorMessage` builds it. The actions run as server actions called from client components, and a production build may replace a thrown message with a generic one on the way back; that transport is not modelled. The `console.error` logging (src/lib/tokens.ts:24, src/actions/chat.ts:109 and 162) is I/O and is left out.
- The HTTP route, persistence (localStorage and its middleware), and every React component: transport, I/O and rendering.
- `Date.now()` ids and ISO timestamps are parameters. Id uniqueness is not guaranteed by the code and is not claimed.
- Async thunk scheduling and overlapping requests: each pending, fulfilled or rejected case is a discrete action.
- The `user` argument of the legacy `createConversation`: it is destructured but unused.
- JavaScript numbers are doubles. Counts are modelled as unbounded integers (the legacy estimate as `real`), and NaN and non-integer maxima are not modelled.
- `Chat.images` and the structured `Analysis` type of the shared types: the slice's conversations never carry images, and the analysis the store holds is the message `analyze` returns.
- `setTokenWarning` is a case of the slice but is not among the exported action creators; it is modelled as a case of `Step`.
- `ChatSliceRuns.RunGrows`: it holds only for actions with non-negative reported usage (`WellFormed`), because the code adds whatever the provider reports.
- `LegacyChatSlice.RunKeepsTotals`: it assumes non-negative estimates (`WellFormed`), which every payload the thunk builds has (`ThunkPayloadsWellFormed`).
- `Actions.AnalysisUsage`: a reported usage is read with the corrected `ReadUsage` (see Findings), not as written, where every field reads `undefined`.
- `Actions.ChatUsage`: a reported usage is read with the corrected `ReadUsage` (see Findings), not as written.
- `Actions.Analyze`: its usage is the corrected reading of a reported usage (see Findings), not the as-written one.
- `Actions.GetChatResponse`: its usage is the corrected reading of a reported usage (see Findings), not the as-written one.
- `ChatSlice.GenerateAnalysis`: the analysis it carries holds the corrected reading of a reported usage (see Findings).
- `ChatSlice.SendMessage`: its reported output and total come from the corrected reading (see Findings); as written they are absent and the counters do not move (`ChatSlice.AsWrittenUsageLeavesTotals`).

## Findings

| source | as written | input that shows it | evidently intended | confidence | as-written member | corrected member |
|---|---|---|---|---|---|---|
| src/actions/chat.ts:150-152 | the reported usage goes through `humps.decamelize`, which lower-cases everything, and then its camelCase fields `promptTokens`, `completionTokens` and `totalTokens` are read. None of them exists, so each reads `undefined`, and `sendMessage.fulfilled` adds 0 to the counters. The same reading is at lines 88-89 | the provider reports `{prompt_tokens: 10, completion_tokens: 5, total_tokens: 15}` | the fields carry 10, 5 and 15, as camelizing the keys would give | not executed; relies on `humps.decamelize` lower-casing its output | `ProviderUsage.ReadUsageAsWrittenLosesCounts` | `ProviderUsage.ReadUsageKeepsCounts` |

The rest of the model reads usage with the corrected `ProviderUsage.ReadUsage`.
`ChatSlice.AsWrittenUsageLeavesTotals` shows the effect of the as-written reading on the store.
