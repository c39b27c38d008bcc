/** The analysis engine (backend/ai_logic.py): the troll level is clamped to 0..100, picks
    one of five system prompts, and the first 4000 characters of the page text go to the
    language model. The model call and the JSON decoding of its answer are the `llm`
    parameter; the prompt texts are the tier that names them. */
module AiLogic {
  import opened Common

  const DefaultTrollLevel: int := 50
  const UserTextLimit: nat := 4000
  const UserIntro: string := "Analyze this webpage content and give me the alpha:\n\n"
  const ParseErrorPrefix: string := "Failed to parse AI response: "
  const FailurePrefix: string := "AI analysis failed: "

  /** The five system prompts, from most serious to most unhinged. */
  datatype PromptTier = Serious | Casual | Sharp | Degenerate | Unhinged

  function TierRank(t: PromptTier): nat {
    match t
    case Serious => 0
    case Casual => 1
    case Sharp => 2
    case Degenerate => 3
    case Unhinged => 4
  }

  /** `max(0, min(100, troll_level))`. */
  function Clamp(trollLevel: int): (c: int)
    ensures 0 <= c <= 100
    ensures 0 <= trollLevel <= 100 ==> c == trollLevel
    ensures trollLevel < 0 ==> c == 0
    ensures trollLevel > 100 ==> c == 100
  {
    if trollLevel < 0 then 0 else if trollLevel > 100 then 100 else trollLevel
  }

  lemma ClampIdempotent(trollLevel: int)
    ensures Clamp(Clamp(trollLevel)) == Clamp(trollLevel)
  {
  }

  lemma ClampMonotone(a: int, b: int)
    requires a <= b
    ensures Clamp(a) <= Clamp(b)
  {
  }

  /** `get_system_prompt`: the if/elif chain over the troll level. */
  function SystemPrompt(trollLevel: int): (t: PromptTier)
    ensures t == Serious <==> trollLevel <= 20
    ensures t == Unhinged <==> trollLevel > 80
  {
    if trollLevel <= 20 then Serious
    else if trollLevel <= 40 then Casual
    else if trollLevel <= 60 then Sharp
    else if trollLevel <= 80 then Degenerate
    else Unhinged
  }

  /** The tier boundaries: a level is in a tier above each boundary it exceeds. */
  const Boundaries: seq<int> := [20, 40, 60, 80]

  /** How many of `bounds` the level exceeds. */
  function CountExceeded(bounds: seq<int>, level: int): (n: nat)
    ensures n <= |bounds|
  {
    if bounds == [] then 0
    else (if bounds[0] < level then 1 else 0) + CountExceeded(bounds[1..], level)
  }

  /** Tier selection is the step function that climbs one tier per boundary exceeded. */
  lemma SystemPromptCountsBoundaries(trollLevel: int)
    ensures TierRank(SystemPrompt(trollLevel)) == CountExceeded(Boundaries, trollLevel)
  {
    var above := (b: int) => if b < trollLevel then 1 else 0;
    assert Boundaries[1..][1..][1..] == [80];
    assert CountExceeded([80], trollLevel) == above(80);
    assert Boundaries[1..][1..] == [60, 80];
    assert CountExceeded([60, 80], trollLevel) == above(60) + above(80);
    assert Boundaries[1..] == [40, 60, 80];
    assert CountExceeded([40, 60, 80], trollLevel) == above(40) + above(60) + above(80);
    assert CountExceeded(Boundaries, trollLevel) == above(20) + above(40) + above(60) + above(80);
  }

  lemma {:induction false} CountExceededMonotone(bounds: seq<int>, a: int, b: int)
    requires a <= b
    ensures CountExceeded(bounds, a) <= CountExceeded(bounds, b)
    decreases |bounds|
  {
    if bounds != [] {
      CountExceededMonotone(bounds[1..], a, b);
    }
  }

  /** A higher troll level never selects a more serious prompt. */
  lemma SystemPromptMonotone(a: int, b: int)
    requires a <= b
    ensures TierRank(SystemPrompt(a)) <= TierRank(SystemPrompt(b))
  {
    SystemPromptCountsBoundaries(a);
    SystemPromptCountsBoundaries(b);
    CountExceededMonotone(Boundaries, a, b);
  }

  /** Out-of-range levels select the prompt of their clamped value: negative levels the
      serious one, levels above 100 the most unhinged one. */
  lemma SystemPromptOfClamp(trollLevel: int)
    ensures SystemPrompt(Clamp(trollLevel)) == SystemPrompt(trollLevel)
    ensures trollLevel < 0 ==> SystemPrompt(trollLevel) == Serious
    ensures trollLevel > 100 ==> SystemPrompt(trollLevel) == Unhinged
  {
  }

  /** The JSON object the model answers with, as far as the rest of the system reads it;
      `None` is a missing key. */
  datatype Analysis = Analysis(
    ticker: Option<string>,
    assetType: Option<string>,
    action: Option<string>,
    vibe: Option<string>,
    keyInsight: Option<string>,
    reasoning: Option<string>)

  /** What goes to the chat-completion call: the system prompt and the user message. */
  datatype ChatRequest = ChatRequest(tier: PromptTier, userContent: string)

  /** The outcome of the call and of `json.loads` on its content: a decoded object, a
      `JSONDecodeError`, or any other exception, each with its message. */
  datatype LlmReply = Parsed(data: Analysis) | Unparsable(message: string) | Raised(message: string)

  /** The returned dict: `success` with `data` and `troll_level`, or `error`. */
  datatype AiResult = AiSuccess(data: Analysis, trollLevel: int) | AiFailure(error: string)

  /** The request `analyze_webpage_content` sends: the clamped level's prompt and the intro
      followed by at most the first 4000 characters of the text. */
  function BuildRequest(webpageText: string, trollLevel: int): (req: ChatRequest)
    ensures req.tier == SystemPrompt(Clamp(trollLevel))
    ensures |UserIntro| <= |req.userContent| <= |UserIntro| + UserTextLimit
    ensures req.userContent[..|UserIntro|] == UserIntro
    ensures req.userContent[|UserIntro|..] <= webpageText
    ensures |webpageText| <= UserTextLimit ==> req.userContent[|UserIntro|..] == webpageText
  {
    ChatRequest(SystemPrompt(Clamp(trollLevel)), UserIntro + Prefix(webpageText, UserTextLimit))
  }

  /** An error message `analyze_webpage_content` can return. */
  predicate IsAiError(e: string) {
    (|ParseErrorPrefix| <= |e| && e[..|ParseErrorPrefix|] == ParseErrorPrefix)
    || (|FailurePrefix| <= |e| && e[..|FailurePrefix|] == FailurePrefix)
  }

  /** `analyze_webpage_content`. */
  function AnalyzeWebpageContent(webpageText: string, trollLevel: int, llm: ChatRequest -> LlmReply): (r: AiResult)
    ensures var reply := llm(BuildRequest(webpageText, trollLevel));
      && (r.AiSuccess? <==> reply.Parsed?)
      && (r.AiSuccess? ==> r.data == reply.data && r.trollLevel == Clamp(trollLevel))
      && (reply.Unparsable? ==> r.error == ParseErrorPrefix + reply.message)
      && (reply.Raised? ==> r.error == FailurePrefix + reply.message)
    ensures r.AiSuccess? ==> 0 <= r.trollLevel <= 100
    ensures r.AiFailure? ==> IsAiError(r.error)
  {
    match llm(BuildRequest(webpageText, trollLevel))
    case Parsed(data) => AiSuccess(data, Clamp(trollLevel))
    case Unparsable(message) =>
      assert (ParseErrorPrefix + message)[..|ParseErrorPrefix|] == ParseErrorPrefix;
      AiFailure(ParseErrorPrefix + message)
    case Raised(message) =>
      assert (FailurePrefix + message)[..|FailurePrefix|] == FailurePrefix;
      AiFailure(FailurePrefix + message)
  }

  /** Only the first 4000 characters of the page text can influence the analysis. */
  lemma OnlyPrefixAnalysed(a: string, b: string, trollLevel: int, llm: ChatRequest -> LlmReply)
    requires Prefix(a, UserTextLimit) == Prefix(b, UserTextLimit)
    ensures AnalyzeWebpageContent(a, trollLevel, llm) == AnalyzeWebpageContent(b, trollLevel, llm)
  {
  }

  /** An out-of-range level is analysed exactly as its clamped value. */
  lemma AnalyzeAsClamped(webpageText: string, trollLevel: int, llm: ChatRequest -> LlmReply)
    ensures AnalyzeWebpageContent(webpageText, trollLevel, llm) == AnalyzeWebpageContent(webpageText, Clamp(trollLevel), llm)
  {
  }
}
