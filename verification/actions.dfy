/** The server actions' pre-flight budget checks and usage backfill. The remote
    provider is a parameter: a function from the request the action would send to
    the reply it gets back. */
module Actions {
  import opened Wrappers
  import opened Types
  import opened Tokens
  import opened ProviderUsage

  /** The two limits the actions import, which src/lib/openai.ts does not define. */
  datatype Config = Config(maxTokensPerConversation: int, maxCompletionTokens: int)

  predicate ValidConfig(cfg: Config) { cfg.maxTokensPerConversation > 0 }

  /** Base64 characters per image tile of the estimate. */
  const ImageTileLength: nat := 4096
  /** Estimated tokens per image tile. */
  const TokensPerImageTile: nat := 85
  /** The largest estimate an analysis request may have. */
  const AnalysisTokenCeiling: nat := 6000
  /** Tokens held back from the completion allowance. */
  const CompletionBuffer: int := 100
  const AnalysisModel: string := "gpt-4-turbo"
  const AnalysisMaxTokens: int := 500
  const DefaultModel: string := "gpt-4-turbo"

  /** What an action asks of the provider. */
  datatype Request =
    | AnalysisRequest(model: string, systemText: string, userText: string,
                      image1: string, image2: Option<string>, maxTokens: int)
    | ChatRequest(model: string, messages: seq<Message>, maxTokens: int)

  /** What the provider answers: a thrown error, or the first choice's content and
      the usage object when one is reported. */
  datatype Reply =
    | ProviderError(message: string)
    | Completion(content: Option<string>, usage: Option<RawUsage>)

  type Provider = Request -> Reply

  /** The errors the actions throw. */
  datatype ChatError =
    | SizingError
    | LimitExceeded(tokenCount: int, limit: int)
    | NoCompletionRoom
    | ProviderFailed(message: string)

  function Digit(d: nat): char
    requires d < 10
  {
    "0123456789"[d]
  }

  /** A number written in decimal, as a template literal writes it. */
  function IntToString(n: int): string
    decreases if n < 0 then 1 - n else n
  {
    if n < 0 then "-" + IntToString(-n)
    else if n < 10 then [Digit(n)]
    else IntToString(n / 10) + [Digit(n % 10)]
  }

  /** The message of the thrown error: the provider's own message is passed on, and
      each check's message opens with words that tell it apart from the others. */
  function ErrorMessage(e: ChatError): (m: string)
    ensures e.ProviderFailed? ==> m == e.message
    ensures e.SizingError? ==> "Image analysis" <= m
    ensures e.LimitExceeded? ==> "Token limit exceeded." <= m
    ensures e.NoCompletionRoom? ==> "Not enough tokens" <= m
  {
    match e
    case SizingError =>
      "Image analysis" + " would exceed token limits. Please use smaller images."
    case LimitExceeded(count, limit) =>
      "Token limit exceeded. The conversation has reached " + IntToString(count)
      + " tokens, which exceeds the limit of " + IntToString(limit) + "."
    case NoCompletionRoom =>
      "Not enough tokens" + " remaining for a meaningful response. Please start a new conversation."
    case ProviderFailed(m) => m
  }

  /** The three checks' messages differ, whatever counts the limit message carries. */
  lemma CheckMessagesDiffer(e1: ChatError, e2: ChatError)
    requires !e1.ProviderFailed? && !e2.ProviderFailed?
    requires e1.SizingError? != e2.SizingError? || e1.LimitExceeded? != e2.LimitExceeded?
    ensures ErrorMessage(e1) != ErrorMessage(e2)
  {
    assert ErrorMessage(e1)[0] != ErrorMessage(e2)[0];
  }

  // ---------------------------------------------------------------- analyze

  /** The estimate for one base64 image: 85 tokens per started 4096-character tile. */
  function ImageTokens(image: string): (t: nat)
    ensures t % TokensPerImageTile == 0
    ensures ImageTileLength * (t / TokensPerImageTile - 1) < Utf16Length(image)
            <= ImageTileLength * (t / TokensPerImageTile)
    ensures image == [] ==> t == 0
  {
    CeilDiv(Utf16Length(image), ImageTileLength) * TokensPerImageTile
  }

  /** The estimate for the optional second image: nothing when it is absent or empty. */
  function SecondImageTokens(image2: Option<string>): (t: nat)
    ensures image2.None? ==> t == 0
    ensures image2.Some? ==> t == ImageTokens(image2.value)
  {
    match image2
    case Some(s) => if s == [] then 0 else ImageTokens(s)
    case None => 0
  }

  /** The pre-flight estimate of an analysis request: both prompts and both images. */
  function AnalysisEstimate(enc: Encoder, systemText: string, userText: string,
                            image1: string, image2: Option<string>): nat
  {
    CountTokens(enc, systemText) + CountTokens(enc, userText)
    + ImageTokens(image1) + SecondImageTokens(image2)
  }

  /** The ceiling check of `analyze`: a sizing error exactly when the estimate exceeds
      6000; an estimate of exactly 6000 is admitted. */
  function AnalysisPreflight(enc: Encoder, systemText: string, userText: string,
                             image1: string, image2: Option<string>): (r: Result<nat, ChatError>)
    ensures r.Failure? <==> AnalysisEstimate(enc, systemText, userText, image1, image2) > 6000
    ensures r.Failure? ==> r.error == SizingError
    ensures r.Success? ==> r.value == AnalysisEstimate(enc, systemText, userText, image1, image2)
                           && r.value <= AnalysisTokenCeiling
  {
    var estimated := AnalysisEstimate(enc, systemText, userText, image1, image2);
    if estimated > AnalysisTokenCeiling then Failure(SizingError) else Success(estimated)
  }

  /** The request `analyze` sends: both images, both prompts, at most 500 tokens. */
  function AnalysisRequestFor(systemText: string, userText: string,
                              image1: string, image2: Option<string>): Request
  {
    AnalysisRequest(AnalysisModel, systemText, userText, image1, image2, AnalysisMaxTokens)
  }

  /** The message `analyze` returns: the reply's content with a usage object. */
  datatype AnalysisMessage = AnalysisMessage(content: Option<string>, usage: Usage)

  /** The usage of an analysis reply. When the provider reports none it is backfilled:
      the prompt is the estimate, the completion a quarter of the content's UTF-16
      length rounded up (0 for no content), and the total their sum. */
  function AnalysisUsage(estimated: nat, content: Option<string>, reported: Option<RawUsage>): (u: Usage)
    ensures reported.Some? ==> u == ReadUsage(reported.value)
    ensures reported.None? ==> u.promptTokens == Some(estimated) && u.completionTokens.Some?
                               && u.totalTokens == Some(estimated + u.completionTokens.value)
    ensures reported.None? && (content.None? || content.value == []) ==> u.completionTokens == Some(0)
    ensures reported.None? && content.Some? && content.value != [] ==>
              var c := u.completionTokens.value; 4 * (c - 1) < Utf16Length(content.value) <= 4 * c
  {
    match reported
    case Some(raw) => ReadUsage(raw)
    case None =>
      var completion := if content.Some? && content.value != [] then CeilDiv(Utf16Length(content.value), 4) else 0;
      Usage(Some(estimated), Some(completion), Some(estimated + completion))
  }

  /** `analyze`: the ceiling check, then the remote call, then the usage. */
  function Analyze(enc: Encoder, systemText: string, userText: string,
                   image1: string, image2: Option<string>, provider: Provider): (r: Result<AnalysisMessage, ChatError>)
    ensures AnalysisPreflight(enc, systemText, userText, image1, image2).Failure? ==> r == Failure(SizingError)
    ensures r.Success? ==>
              && provider(AnalysisRequestFor(systemText, userText, image1, image2)).Completion?
              && r.value.content == provider(AnalysisRequestFor(systemText, userText, image1, image2)).content
              && r.value.usage == AnalysisUsage(AnalysisEstimate(enc, systemText, userText, image1, image2),
                                                r.value.content,
                                                provider(AnalysisRequestFor(systemText, userText, image1, image2)).usage)
    ensures (AnalysisPreflight(enc, systemText, userText, image1, image2).Success?
             && provider(AnalysisRequestFor(systemText, userText, image1, image2)).Completion?) ==> r.Success?
    ensures (AnalysisPreflight(enc, systemText, userText, image1, image2).Success?
             && provider(AnalysisRequestFor(systemText, userText, image1, image2)).ProviderError?) ==>
              r == Failure(ProviderFailed(provider(AnalysisRequestFor(systemText, userText, image1, image2)).message))
    ensures r.Failure? ==> r.error.SizingError? || r.error.ProviderFailed?
    ensures r.Failure? && r.error.ProviderFailed? ==>
              provider(AnalysisRequestFor(systemText, userText, image1, image2))
                == ProviderError(r.error.message)
  {
    match AnalysisPreflight(enc, systemText, userText, image1, image2)
    case Failure(e) => Failure(e)
    case Success(estimated) =>
      match provider(AnalysisRequestFor(systemText, userText, image1, image2))
      case ProviderError(m) => Failure(ProviderFailed(m))
      case Completion(content, reported) =>
        Success(AnalysisMessage(content, AnalysisUsage(estimated, content, reported)))
  }

  /** An oversized analysis is rejected before the provider is asked: any two
      providers give the same sizing error. */
  lemma AnalyzeRejectsBeforeCall(enc: Encoder, systemText: string, userText: string,
                                 image1: string, image2: Option<string>, p1: Provider, p2: Provider)
    requires AnalysisEstimate(enc, systemText, userText, image1, image2) > AnalysisTokenCeiling
    ensures Analyze(enc, systemText, userText, image1, image2, p1)
         == Analyze(enc, systemText, userText, image1, image2, p2)
         == Failure(SizingError)
  {
  }

  /** Two 400 KiB (base64, so one code unit per character) images alone are estimated
      at 8500 tokens each, far above the ceiling. */
  lemma TwoLargeImagesRejected(enc: Encoder, systemText: string, userText: string,
                               image1: string, image2: string, provider: Provider)
    requires Utf16Length(image1) == 409600 && Utf16Length(image2) == 409600
    ensures ImageTokens(image1) == 8500 && SecondImageTokens(Some(image2)) == 8500
    ensures Analyze(enc, systemText, userText, image1, Some(image2), provider) == Failure(SizingError)
  {
  }

  /** The backfilled completion counts UTF-16 code units: three characters outside the
      Basic Multilingual Plane are six units, so two tokens. */
  lemma BackfillCountsCodeUnits(estimated: nat)
    ensures AnalysisUsage(estimated, Some("\U{1F600}\U{1F600}\U{1F600}"), None)
         == Usage(Some(estimated), Some(2), Some(estimated + 2))
  {
  }

  // -------------------------------------------------------- getChatResponse

  /** The budget `getChatResponse` computes for an admitted request. */
  datatype Admission = Admission(tokenCount: int, availableTokens: int,
                                 requestedTokens: int, actualMaxTokens: int)

  function Min(a: int, b: int): int { if a <= b then a else b }

  /** The admission check of `getChatResponse`. The history must count strictly below
      the conversation limit; then the completion allowance is the requested maximum
      capped by what is left after the buffer, and it must be positive. The two
      rejections exclude each other. */
  function ChatPreflight(cfg: Config, enc: Encoder, messages: seq<Message>,
                         maxCompletionTokens: Option<int>): (r: Result<Admission, ChatError>)
    requires ValidConfig(cfg)
    ensures var count := MessagesTokenCount(enc, messages);
            var limit := cfg.maxTokensPerConversation;
            var requested := maxCompletionTokens.GetOr(cfg.maxCompletionTokens);
            && (r == Failure(LimitExceeded(count, limit)) <==> count >= limit)
            && (r == Failure(NoCompletionRoom) <==>
                  count < limit && (requested <= 0 || limit - count - CompletionBuffer <= 0))
            && (r.Failure? ==> r == Failure(LimitExceeded(count, limit)) || r == Failure(NoCompletionRoom))
            && (r.Success? ==>
                  && r.value.tokenCount == count
                  && r.value.availableTokens == limit - count
                  && r.value.requestedTokens == requested
                  && 0 < r.value.actualMaxTokens <= requested
                  && count + r.value.actualMaxTokens + CompletionBuffer <= limit
                  && (r.value.actualMaxTokens == requested
                      || r.value.actualMaxTokens == limit - count - CompletionBuffer))
  {
    var tokenCount := MessagesTokenCount(enc, messages);
    if !IsWithinTokenLimit(enc, messages, cfg.maxTokensPerConversation) then
      Failure(LimitExceeded(tokenCount, cfg.maxTokensPerConversation))
    else
      var availableTokens := cfg.maxTokensPerConversation - tokenCount;
      var requestedTokens := maxCompletionTokens.GetOr(cfg.maxCompletionTokens);
      var actualMaxTokens := Min(requestedTokens, availableTokens - CompletionBuffer);
      if actualMaxTokens <= 0 then Failure(NoCompletionRoom)
      else Success(Admission(tokenCount, availableTokens, requestedTokens, actualMaxTokens))
  }

  /** The request `getChatResponse` sends: the caller's maximum or the configured one,
      not the computed allowance. */
  function ChatRequestFor(cfg: Config, messages: seq<Message>, maxCompletionTokens: Option<int>): Request
  {
    ChatRequest(DefaultModel, messages, maxCompletionTokens.GetOr(cfg.maxCompletionTokens))
  }

  /** The usage of a chat reply: all zero when the provider reports none. */
  function ChatUsage(reported: Option<RawUsage>): (u: Usage)
    ensures reported.None? ==> u == Usage(Some(0), Some(0), Some(0))
    ensures reported.Some? ==> u == ReadUsage(reported.value)
  {
    match reported
    case Some(raw) => ReadUsage(raw)
    case None => Usage(Some(0), Some(0), Some(0))
  }

  /** What `getChatResponse` returns: the reply text (empty when there is none) and the usage. */
  datatype ChatResponse = ChatResponse(content: string, usage: Usage)

  /** `getChatResponse`: the admission check, then the remote call. */
  function GetChatResponse(cfg: Config, enc: Encoder, messages: seq<Message>,
                           maxCompletionTokens: Option<int>, provider: Provider): (r: Result<ChatResponse, ChatError>)
    requires ValidConfig(cfg)
    ensures ChatPreflight(cfg, enc, messages, maxCompletionTokens).Failure? ==>
              r == Failure(ChatPreflight(cfg, enc, messages, maxCompletionTokens).error)
    ensures r.Success? ==>
              && ChatPreflight(cfg, enc, messages, maxCompletionTokens).Success?
              && provider(ChatRequestFor(cfg, messages, maxCompletionTokens)).Completion?
              && r.value.content == provider(ChatRequestFor(cfg, messages, maxCompletionTokens)).content.GetOr([])
              && r.value.usage == ChatUsage(provider(ChatRequestFor(cfg, messages, maxCompletionTokens)).usage)
    ensures (ChatPreflight(cfg, enc, messages, maxCompletionTokens).Success?
             && provider(ChatRequestFor(cfg, messages, maxCompletionTokens)).Completion?) ==> r.Success?
    ensures ChatPreflight(cfg, enc, messages, maxCompletionTokens).Success?
            && provider(ChatRequestFor(cfg, messages, maxCompletionTokens)).ProviderError? ==>
              r == Failure(ProviderFailed(provider(ChatRequestFor(cfg, messages, maxCompletionTokens)).message))
  {
    match ChatPreflight(cfg, enc, messages, maxCompletionTokens)
    case Failure(e) => Failure(e)
    case Success(_) =>
      match provider(ChatRequestFor(cfg, messages, maxCompletionTokens))
      case ProviderError(m) => Failure(ProviderFailed(m))
      case Completion(content, reported) =>
        Success(ChatResponse(OrElse(content, []), ChatUsage(reported)))
  }

  /** A rejected chat request never reaches the provider: any two providers give the
      same error. */
  lemma ChatRejectsBeforeCall(cfg: Config, enc: Encoder, messages: seq<Message>,
                              maxCompletionTokens: Option<int>, p1: Provider, p2: Provider)
    requires ValidConfig(cfg)
    requires ChatPreflight(cfg, enc, messages, maxCompletionTokens).Failure?
    ensures GetChatResponse(cfg, enc, messages, maxCompletionTokens, p1)
         == GetChatResponse(cfg, enc, messages, maxCompletionTokens, p2)
  {
  }

  /** The computed allowance is not passed on: whenever the requested maximum exceeds
      the room left after the buffer, the request still asks for the requested
      maximum, more than the allowance. */
  lemma AllowanceNotSent(cfg: Config, enc: Encoder, messages: seq<Message>, maxCompletionTokens: Option<int>)
    requires ValidConfig(cfg)
    requires ChatPreflight(cfg, enc, messages, maxCompletionTokens).Success?
    ensures ChatRequestFor(cfg, messages, maxCompletionTokens).maxTokens
         == ChatPreflight(cfg, enc, messages, maxCompletionTokens).value.requestedTokens
         >= ChatPreflight(cfg, enc, messages, maxCompletionTokens).value.actualMaxTokens
    ensures var a := ChatPreflight(cfg, enc, messages, maxCompletionTokens).value;
            a.requestedTokens > a.availableTokens - CompletionBuffer ==>
              ChatRequestFor(cfg, messages, maxCompletionTokens).maxTokens > a.actualMaxTokens
  {
  }

  /** A one-token message in an empty conversation under a 4000 limit costs 7 and is
      admitted with the full 500-token request. */
  lemma ShortMessageAdmitted(enc: Encoder)
    requires enc("hello") == Some(1)
    ensures ChatPreflight(Config(4000, 500), enc, [Message(User, "hello")], None)
         == Success(Admission(7, 3993, 500, 500))
  {
    assert [Message(User, "hello")][1..] == [];
  }

  /** A history counting 3950 under a 4000 limit leaves no room for a reply. */
  lemma NearlyFullHistoryRejected(enc: Encoder, messages: seq<Message>)
    requires MessagesTokenCount(enc, messages) == 3950
    ensures ChatPreflight(Config(4000, 500), enc, messages, None) == Failure(NoCompletionRoom)
  {
  }

  /** A history counting 4010 under a 4000 limit exceeds it. */
  lemma FullHistoryRejected(enc: Encoder, messages: seq<Message>)
    requires MessagesTokenCount(enc, messages) == 4010
    ensures ChatPreflight(Config(4000, 500), enc, messages, None) == Failure(LimitExceeded(4010, 4000))
  {
  }
}
