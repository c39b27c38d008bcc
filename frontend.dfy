/** The demo page (frontend/app.js). The page's DOM state that the script changes is a
    class: the `hidden` class of the loading, results and error elements, the `disabled`
    flag of the two buttons, the error text, what the last complete rendering wrote, and
    the requests `fetch` was asked to make. Each `async` handler is split at its `await`:
    the part before it issues the request, `CompleteRequest` is the continuation that runs
    with the reply. Digit strings (`toFixed`, `toLocaleString`) are not modelled: a number
    is rendered as its scaled value and its suffix. */
module Frontend {
  import opened Common
  import opened AiLogic
  import opened Finance

  const MinTextLength: nat := 50
  const ShortTextMessage: string := "Need at least 50 characters of content, no cap \U{1F645}"
  const ApiFailedDefault: string := "API request failed"
  const AnalysisFailedDefault: string := "Analysis failed"
  const DemoRequestFailedDefault: string := "Demo request failed"
  const DemoFailedDefault: string := "Demo failed"
  const Buy: string := "BUY"
  const Mooning: string := "MOONING"

  /** The JSON body of a reply, as far as the script reads it. */
  datatype ResponseData = ResponseData(
    detail: Option<string>,
    success: bool,
    error: Option<string>,
    analysis: Option<Analysis>,
    marketData: Option<MarketData>)

  /** What an `await` produced: a parsed reply with its `ok` flag, or the message of the
      exception `fetch` or `response.json()` raised. */
  datatype Reply = Response(ok: bool, data: ResponseData) | Rejected(message: string)

  /** A request handed to `fetch`. */
  datatype Request = AnalyzePost(webpageText: string) | DemoGet

  /** Where the `try` block of a handler ends up: rendering the data, or `showError`. */
  datatype Outcome = Display(data: ResponseData) | Fail(message: string)

  /** The branching after the `await`: a rejected call, a non-ok status (with `detail` or
      the default) and `success: false` (with `error` or the default) all fail; only an ok
      reply with `success` is displayed. */
  function Settle(reply: Reply, requestFailed: string, failed: string): (o: Outcome)
    ensures o.Display? <==> reply.Response? && reply.ok && reply.data.success
    ensures o.Display? ==> o.data == reply.data
    ensures reply.Rejected? ==> o == Fail(reply.message)
    ensures reply.Response? && !reply.ok ==> o == Fail(OrElse(reply.data.detail, requestFailed))
    ensures reply.Response? && reply.ok && !reply.data.success ==> o == Fail(OrElse(reply.data.error, failed))
  {
    match reply
    case Rejected(message) => Fail(message)
    case Response(ok, data) =>
      if !ok then Fail(OrElse(data.detail, requestFailed))
      else if data.success then Display(data)
      else Fail(OrElse(data.error, failed))
  }

  /** The scale suffixes of `formatNumber`. */
  datatype Suffix = Trillion | Billion | Million | Thousand | Unscaled

  function Scale(s: Suffix): real {
    match s
    case Trillion => 1000000000000.0
    case Billion => 1000000000.0
    case Million => 1000000.0
    case Thousand => 1000.0
    case Unscaled => 1.0
  }

  /** The text `formatNumber` builds: `'N/A'`, or a `'$'` or empty prefix, the number
      divided by the suffix's scale, and the suffix. */
  datatype NumberText = NotAvailable | Amount(prefix: string, scaled: real, suffix: Suffix)

  /** `formatNumber(num, isCurrency)`; a missing number, or 0, is falsy. */
  function FormatNumber(num: Option<real>, isCurrency: bool): (t: NumberText)
    ensures t.NotAvailable? <==> num.None? || num.value == 0.0
    ensures t.Amount? ==> (t.prefix == "$" <==> isCurrency) && (t.prefix == "" <==> !isCurrency)
    ensures t.Amount? ==> t.scaled * Scale(t.suffix) == num.value
    ensures t.Amount? && t.suffix != Unscaled ==> Scale(t.suffix) <= num.value
    ensures t.Amount? && t.suffix != Trillion ==> num.value < 1000.0 * Scale(t.suffix)
  {
    if num.None? || num.value == 0.0 then NotAvailable
    else
      var n := num.value;
      var prefix := if isCurrency then "$" else "";
      if n >= 1000000000000.0 then Amount(prefix, n / 1000000000000.0, Trillion)
      else if n >= 1000000000.0 then Amount(prefix, n / 1000000000.0, Billion)
      else if n >= 1000000.0 then Amount(prefix, n / 1000000.0, Million)
      else if n >= 1000.0 then Amount(prefix, n / 1000.0, Thousand)
      else Amount(prefix, n, Unscaled)
  }

  /** What a complete `displayResults` writes into the result elements. */
  datatype Rendering = Rendering(
    isBuy: bool,
    tickerSymbol: string,
    tickerName: string,
    vibePosition: int,
    keyInsight: string,
    marketShown: bool,
    volume: NumberText,
    marketCap: NumberText)

  /** The result elements `displayResults` fills, or `None` when it throws part-way: when
      the data has no `analysis`, or when neither the market's `name` nor the analysis's
      `asset_type` is there to name the ticker. An absent ticker renders as JavaScript's
      `"undefined"`. */
  function Render(data: ResponseData): (r: Option<Rendering>)
    ensures r.Some? <==> (data.analysis.Some? &&
      ((data.marketData.Some? && data.marketData.value.name != "") || data.analysis.value.assetType.Some?))
    ensures r.Some? ==>
      && (r.value.isBuy <==> data.analysis.value.action == Some(Buy))
      && (r.value.vibePosition == 85 <==> data.analysis.value.vibe == Some(Mooning))
      && (r.value.vibePosition == 15 <==> data.analysis.value.vibe != Some(Mooning))
      && (r.value.marketShown <==> data.marketData.Some?)
  {
    match data.analysis
    case None => None
    case Some(analysis) =>
      var marketName := if data.marketData.Some? then Some(data.marketData.value.name) else None;
      if OrElse(marketName, "") == "" && analysis.assetType.None? then None
      else
        Some(Rendering(
          analysis.action == Some(Buy),
          "$" + analysis.ticker.GetOr("undefined"),
          OrElse(marketName, if analysis.assetType.Some? then Upper(analysis.assetType.value) else ""),
          if analysis.vibe == Some(Mooning) then 85 else 15,
          OrElse(analysis.keyInsight, analysis.reasoning.GetOr("")),
          data.marketData.Some?,
          if data.marketData.Some? then FormatNumber(data.marketData.value.volume, false) else NotAvailable,
          if data.marketData.Some? then FormatNumber(data.marketData.value.marketCap, true) else NotAvailable))
  }

  class DemoPage {
    var loadingHidden: bool
    var resultsHidden: bool
    var errorHidden: bool
    var analyzeDisabled: bool
    var demoDisabled: bool
    var errorMessage: string
    var rendered: Option<Rendering>
    var requests: seq<Request>

    /** Results and error are never shown together. */
    predicate Valid()
      reads this
    {
      resultsHidden || errorHidden
    }

    /** A request has ended: no loading indicator, both buttons usable, and exactly one of
        results and error on show. */
    predicate Settled()
      reads this
    {
      loadingHidden && !analyzeDisabled && !demoDisabled && resultsHidden != errorHidden
    }

    /** The page as its markup leaves it (the markup is not part of this model): every
        panel hidden, both buttons enabled, nothing requested. */
    constructor ()
      ensures Valid()
      ensures loadingHidden && resultsHidden && errorHidden
      ensures !analyzeDisabled && !demoDisabled
      ensures rendered == None && requests == []
    {
      loadingHidden, resultsHidden, errorHidden := true, true, true;
      analyzeDisabled, demoDisabled := false, false;
      errorMessage := "";
      rendered := None;
      requests := [];
    }

    /** `showLoading`. */
    method ShowLoading()
      modifies this
      ensures Valid()
      ensures !loadingHidden && resultsHidden && errorHidden
      ensures analyzeDisabled && demoDisabled
      ensures errorMessage == old(errorMessage) && rendered == old(rendered) && requests == old(requests)
    {
      loadingHidden := false;
      resultsHidden := true;
      errorHidden := true;
      analyzeDisabled := true;
      demoDisabled := true;
    }

    /** `hideLoading`. */
    method HideLoading()
      modifies this
      ensures loadingHidden && !analyzeDisabled && !demoDisabled
      ensures resultsHidden == old(resultsHidden) && errorHidden == old(errorHidden)
      ensures errorMessage == old(errorMessage) && rendered == old(rendered) && requests == old(requests)
    {
      loadingHidden := true;
      analyzeDisabled := false;
      demoDisabled := false;
    }

    /** `showError`. */
    method ShowError(message: string)
      modifies this
      ensures Valid() && Settled()
      ensures !errorHidden && resultsHidden && errorMessage == message
      ensures rendered == old(rendered) && requests == old(requests)
    {
      HideLoading();
      errorHidden := false;
      resultsHidden := true;
      errorMessage := message;
    }

    /** `displayResults`; `threw` when rendering stopped part-way, in which case the result
        elements keep what was there before. */
    method DisplayResults(data: ResponseData) returns (threw: bool)
      modifies this
      ensures Valid() && Settled()
      ensures !resultsHidden && errorHidden
      ensures threw <==> Render(data).None?
      ensures rendered == if threw then old(rendered) else Render(data)
      ensures errorMessage == old(errorMessage) && requests == old(requests)
    {
      HideLoading();
      resultsHidden := false;
      errorHidden := true;
      var r := Render(data);
      threw := r.None?;
      if !threw {
        rendered := r;
      }
    }

    /** `analyzeText` up to its `await`: text under 50 UTF-16 code units once trimmed is
        refused with an error and no request; otherwise loading starts and the text is posted. */
    method AnalyzeText(text: string) returns (requested: bool)
      modifies this
      ensures requested <==> text != "" && Utf16Length(Strip(JavaScript, text)) >= MinTextLength
      ensures !requested ==> Valid() && Settled() && !errorHidden && errorMessage == ShortTextMessage
      ensures !requested ==> requests == old(requests) && rendered == old(rendered)
      ensures requested ==> Valid() && !loadingHidden && resultsHidden && errorHidden && analyzeDisabled && demoDisabled
      ensures requested ==> requests == old(requests) + [AnalyzePost(text)]
      ensures requested ==> rendered == old(rendered) && errorMessage == old(errorMessage)
    {
      if text == "" || Utf16Length(Strip(JavaScript, text)) < MinTextLength {
        ShowError(ShortTextMessage);
        return false;
      }
      ShowLoading();
      requests := requests + [AnalyzePost(text)];
      requested := true;
    }

    /** `runDemo` up to its `await`. */
    method RunDemo()
      modifies this
      ensures Valid() && !loadingHidden && resultsHidden && errorHidden && analyzeDisabled && demoDisabled
      ensures requests == old(requests) + [DemoGet]
      ensures rendered == old(rendered) && errorMessage == old(errorMessage)
    {
      ShowLoading();
      requests := requests + [DemoGet];
    }

    /** The rest of `analyzeText` (`demo` false) or `runDemo` (`demo` true) once the reply
        is in. `renderError` is the message of the `TypeError` the browser raises when
        `displayResults` throws, which the `catch` then shows. */
    method CompleteRequest(reply: Reply, demo: bool, renderError: string)
      modifies this
      ensures Valid() && Settled()
      ensures requests == old(requests)
      ensures var o := Settle(reply, if demo then DemoRequestFailedDefault else ApiFailedDefault,
                                     if demo then DemoFailedDefault else AnalysisFailedDefault);
        && (o.Fail? ==> !errorHidden && errorMessage == o.message && rendered == old(rendered))
        && (o.Display? && Render(o.data).Some? ==>
              !resultsHidden && rendered == Render(o.data) && errorMessage == old(errorMessage))
        && (o.Display? && Render(o.data).None? ==>
              !errorHidden && errorMessage == renderError && rendered == old(rendered))
    {
      var o := Settle(reply, if demo then DemoRequestFailedDefault else ApiFailedDefault,
                             if demo then DemoFailedDefault else AnalysisFailedDefault);
      match o
      case Fail(message) =>
        ShowError(message);
      case Display(data) =>
        var threw := DisplayResults(data);
        if threw {
          ShowError(renderError);
        }
    }
  }
}
