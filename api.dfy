/** The HTTP endpoints (backend/main.py): `POST /analyze`, `GET /analyze/demo` and
    `GET /ticker/{ticker}`. Each handler is a function of its request and of the two
    collaborators it reaches through the analysis and finance modules: the language model
    (`llm`) and the market-data lookup (`feed`). A raised `HTTPException` is an `HttpError`. */
module Api {
  import opened Common
  import opened AiLogic
  import opened Finance

  const MinContentLength: nat := 50
  const TooShortDetail: string := "Webpage text too short. Need at least 50 characters of content, no cap."
  const AiFailedDefault: string := "AI analysis failed"
  const MarketWarningPrefix: string := "Warning: Could not fetch market data - "
  const DefaultAssetType: string := "stock"
  const PreviewLength: nat := 200

  datatype Http<T> = Ok(body: T) | HttpError(status: int, detail: string)

  /** The `AnalysisRequest` body; `url` is accepted and never read. */
  datatype AnalysisRequest = AnalysisRequest(webpageText: string, url: Option<string>)

  datatype AnalysisResponse = AnalysisResponse(
    success: bool,
    analysis: Option<Analysis>,
    marketData: Option<MarketData>,
    error: Option<string>)

  /** The dict `demo_analysis` returns, failure or success shape. */
  datatype DemoResponse =
    | DemoFailure(error: Option<string>, sampleInput: string)
    | DemoSuccess(sampleInputPreview: string, analysis: Analysis, marketData: Option<MarketData>)

  /** `not text or len(text.strip()) < 50`; Python counts characters. */
  predicate TooShort(text: string) {
    text == "" || |Strip(Python, text)| < MinContentLength
  }

  /** The market lookup both analysis endpoints make for the model's pick: its ticker or
      `""`, its asset type or `"stock"`. */
  function MarketFor(data: Analysis, feed: string -> Quote): MarketResult {
    TickerData(data.ticker.GetOr(""), data.assetType.GetOr(DefaultAssetType), feed)
  }

  /** `analyze_content`. */
  function AnalyzeContent(req: AnalysisRequest, llm: ChatRequest -> LlmReply, feed: string -> Quote): (r: Http<AnalysisResponse>)
    ensures r.HttpError? <==> TooShort(req.webpageText)
    ensures r.HttpError? ==> r.status == 400 && r.detail == TooShortDetail
    ensures r.Ok? ==> (r.body.success <==> AnalyzeWebpageContent(req.webpageText, DefaultTrollLevel, llm).AiSuccess?)
    ensures r.Ok? && r.body.success ==> r.body.analysis.Some? && (r.body.marketData.Some? <==> r.body.error.None?)
  {
    if TooShort(req.webpageText) then HttpError(400, TooShortDetail)
    else
      match AnalyzeWebpageContent(req.webpageText, DefaultTrollLevel, llm)
      case AiFailure(e) => Ok(AnalysisResponse(false, None, None, Some(e)))
      case AiSuccess(data, _) =>
        match MarketFor(data, feed)
        case MarketFailure(m) => Ok(AnalysisResponse(true, Some(data), None, Some(MarketWarningPrefix + m)))
        case MarketOk(market) => Ok(AnalysisResponse(true, Some(data), Some(market), None))
  }

  /** The four mutually exclusive outcomes of `POST /analyze`: rejected with 400 exactly when
      the stripped text is under 50 characters; otherwise failed exactly when the analysis
      failed, with its error and nothing else; otherwise successful with the analysis, and
      carrying market data exactly when the lookup succeeded, a warning exactly when it failed. */
  lemma AnalyzeContentOutcomes(req: AnalysisRequest, llm: ChatRequest -> LlmReply, feed: string -> Quote)
    ensures var r := AnalyzeContent(req, llm, feed);
      var ai := AnalyzeWebpageContent(req.webpageText, DefaultTrollLevel, llm);
      && (r.HttpError? <==> |Strip(Python, req.webpageText)| < MinContentLength)
      && (r.HttpError? ==> r.status == 400 && r.detail == TooShortDetail)
      && (r.Ok? && ai.AiFailure? ==>
            r.body == AnalysisResponse(false, None, None, Some(ai.error)) && IsAiError(ai.error))
      && (r.Ok? ==> (r.body.success <==> ai.AiSuccess?))
      && (r.Ok? && ai.AiSuccess? ==>
            var market := MarketFor(ai.data, feed);
            && r.body.analysis == Some(ai.data)
            && (r.body.marketData.Some? <==> market.MarketOk?)
            && (r.body.marketData.Some? ==> r.body.marketData.value == market.data && r.body.error.None?)
            && (market.MarketFailure? ==> r.body.error == Some(MarketWarningPrefix + market.error)))
  {
    if req.webpageText == "" {
      assert Strip(Python, req.webpageText) == "";
    }
  }

  /** A rejected request never reaches the model or the market lookup: its response is the
      same whatever they would answer. */
  lemma ShortTextConsultsNoCollaborator(req: AnalysisRequest,
                                        llm1: ChatRequest -> LlmReply, feed1: string -> Quote,
                                        llm2: ChatRequest -> LlmReply, feed2: string -> Quote)
    requires |Strip(Python, req.webpageText)| < MinContentLength
    ensures AnalyzeContent(req, llm1, feed1) == AnalyzeContent(req, llm2, feed2) == HttpError(400, TooShortDetail)
  {
  }

  /** The endpoint analyses at the default level, 50, whose prompt is the middle tier. */
  lemma AnalyzeContentUsesDefaultLevel(req: AnalysisRequest, llm: ChatRequest -> LlmReply, feed: string -> Quote)
    requires !TooShort(req.webpageText)
    requires llm(BuildRequest(req.webpageText, DefaultTrollLevel)).Parsed?
    ensures AnalyzeWebpageContent(req.webpageText, DefaultTrollLevel, llm).trollLevel == 50
    ensures BuildRequest(req.webpageText, DefaultTrollLevel).tier == Sharp
  {
  }

  /** `demo_analysis` on the sample text, which is passed in. */
  function DemoAnalysis(sample: string, llm: ChatRequest -> LlmReply, feed: string -> Quote): (r: DemoResponse)
    ensures var ai := AnalyzeWebpageContent(sample, DefaultTrollLevel, llm);
      && (r.DemoSuccess? <==> ai.AiSuccess?)
      && (r.DemoFailure? ==> r.error == Some(ai.error) && r.sampleInput == Prefix(sample, PreviewLength) + "...")
      && (r.DemoSuccess? ==>
            && r.analysis == ai.data
            && r.sampleInputPreview == Prefix(sample, PreviewLength) + "..."
            && (r.marketData.None? <==> MarketFor(ai.data, feed).MarketFailure?)
            && (r.marketData.Some? ==> r.marketData.value == MarketFor(ai.data, feed).data))
  {
    match AnalyzeWebpageContent(sample, DefaultTrollLevel, llm)
    case AiFailure(e) => DemoFailure(Some(e), Prefix(sample, PreviewLength) + "...")
    case AiSuccess(data, _) =>
      var market := MarketFor(data, feed);
      DemoSuccess(Prefix(sample, PreviewLength) + "...", data, if market.MarketOk? then Some(market.data) else None)
  }

  /** The demo skips the length check: on any text, its success agrees with the main
      endpoint's whenever that one accepts the text. */
  lemma DemoAgreesWithAnalyze(sample: string, llm: ChatRequest -> LlmReply, feed: string -> Quote)
    requires !TooShort(sample)
    ensures AnalyzeContent(AnalysisRequest(sample, None), llm, feed).Ok?
    ensures DemoAnalysis(sample, llm, feed).DemoSuccess? == AnalyzeContent(AnalysisRequest(sample, None), llm, feed).body.success
    ensures DemoAnalysis(sample, llm, feed).DemoSuccess? ==>
      DemoAnalysis(sample, llm, feed).marketData == AnalyzeContent(AnalysisRequest(sample, None), llm, feed).body.marketData
  {
  }

  /** `get_ticker_info`: the upper-cased symbol is looked up, and a failed lookup is a 404
      carrying the lookup's error. */
  function GetTickerInfo(ticker: string, assetType: string, feed: string -> Quote): (r: Http<MarketData>)
    ensures var m := TickerData(Upper(ticker), assetType, feed);
      && (r.Ok? <==> m.MarketOk?)
      && (r.Ok? ==> r.body == m.data)
      && (r.HttpError? ==> r.status == 404 && r.detail == m.error)
    ensures r.Ok? ==> forall i :: 0 <= i < |r.body.ticker| ==> !IsLower(r.body.ticker[i])
  {
    match TickerData(Upper(ticker), assetType, feed)
    case MarketFailure(e) => HttpError(404, e)
    case MarketOk(data) => Ok(data)
  }
}
