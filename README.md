# StonkGaze / RobbingHood: a Dafny model of its decision and state rules

StonkGaze is a browser extension with a Python backend that reads the page in the active
tab and turns it into a satirical "stock tip". This project models the small rules the code
actually runs, one Dafny module per source file:

- **ContentScript** (`extension/src/content/index.ts`): the snapshot sender. The class
  `SnapshotSource` holds `lastSentTime` and the log of sent messages. A send is skipped
  when fewer than 2000 ms have passed since the last one. A `STONK_REFRESH` message resets
  the timestamp to 0 and then sends. The page text sent is the longest prefix of the body
  text that fits in 2000 UTF-16 code units, the unit JavaScript strings are measured in.
- **Background** (`extension/src/background/index.ts`): the class `Router` holds the session
  storage area and a log of every extension-API call it makes. A `STONK_PAGE` message is
  reduced to `{title, url}`, written under `stonkSource` and rebroadcast as `STONK_SOURCE`.
  A tab whose update reports status `complete` is sent `STONK_REFRESH`.
- **SidePanel** (`extension/src/sidepanel/App.tsx`): the panel state record,
  `defaultState` with its random draws as parameters, the `STONK_SOURCE` updater as a pure
  function, and the component state as the class `Panel`.
- **AiLogic** (`backend/ai_logic.py`): the troll-level clamp, the five-tier prompt
  selection (the prompt texts are a tier enum), the 4000-character cut of the page text,
  and the shaping of the result and its two error messages.
- **Finance** (`backend/finance.py`): the crypto `-USD` normalisation, the price fallbacks,
  the 24-hour change guard, the loop that builds `price_history`, and `validate_ticker`.
- **Api** (`backend/main.py`): the three endpoint handlers as functions that return a
  response or an HTTP error.
- **Frontend** (`frontend/app.js`): the demo page. The class `DemoPage` holds the
  visibility flags, button states, error text, last rendering and issued requests.
  `formatNumber` and the reply branching are pure functions.
- **ExtensionFlow**: how a snapshot travels from the content script, through the
  background worker, to the side panel.
- **Common** and **Messages**: string helpers and the extension's message shape. The
  helpers are prefixes, UTF-16 lengths and cuts, whitespace stripping with Python's and
  JavaScript's own whitespace sets, ASCII upper-casing, and JavaScript's `||` on strings.

The clock, `Math.random()`, the language model, `yfinance` and `fetch` are parameters.
The model call and the market lookup are passed to the backend functions as function
parameters (`llm`, `feed`). The browser reply of a `fetch` is the `Reply` argument of
`Frontend.DemoPage.CompleteRequest`.

The background worker only forwards messages; it never calls the analyser and keeps no
request bookkeeping. The only portfolio code forwards requests to a remote service over
HTTP. The demo endpoint takes no troll level and always analyses at level 50.

## Model

| member | source | states |
|---|---|---|
| ContentScript.SnapshotText | extension/src/content/index.ts:19 | the sent text is a prefix of the body text that fits in 2000 UTF-16 code units and is cut only where the next character would not fit, and it is empty when there is no body |
| ContentScript.SnapshotTextOfBmp | extension/src/content/index.ts:19 | for text without characters beyond U+FFFF the cut is the first 2000 characters, and shorter text is sent whole |
| ContentScript.Snapshot | extension/src/content/index.ts:16-22 | a send emits one `STONK_PAGE` message carrying the page's current title and url and the cut text |
| ContentScript.SendTimes | extension/src/content/index.ts:5-14 | the clock readings at which a run of calls sends: at most one send per call |
| ContentScript.SendTimesSnoc | extension/src/content/index.ts:9-14 | one more call extends the trace by a send exactly when the debounce admits it against the timestamp the earlier calls left |
| ContentScript.SendTimesSpaced | extension/src/content/index.ts:9-14 | with no refresh in between, consecutive sends are at least 2000 ms apart, the first at least 2000 ms after the starting timestamp, and sends happen only at times a call was made |
| ContentScript.QuietWindowSendsNothing | extension/src/content/index.ts:9-12 | calls made within 2000 ms of the last send send nothing |
| ContentScript.BurstSendsAtMostOnce | extension/src/content/index.ts:9-14 | a burst of calls inside one 2000 ms window sends at most once |
| ContentScript.SnapshotSource.SendSnapshot | extension/src/content/index.ts:5-23 | sends exactly when at least 2000 ms have passed since `lastSentTime`. A send sets `lastSentTime` to now and appends one snapshot. A skip changes nothing. Each call is recorded, and since the last refresh the sends are exactly the trace `SendTimes` of the calls from timestamp 0 (`Valid`), so they stay 2000 ms apart and the quiet-window and burst lemmas apply |
| ContentScript.SnapshotSource.OnMessage | extension/src/content/index.ts:31-37 | `STONK_REFRESH` resets `lastSentTime` to 0 and then sends, so it sends whenever the clock is at least 2000. A refresh starts a new call trace. Any other message changes nothing |
| Background.SourceOf | extension/src/background/index.ts:8-11 | the forwarded payload holds only the message's title and url; the page text is dropped |
| Background.Forward | extension/src/background/index.ts:6-14 | a non-`STONK_PAGE` message causes no effect. A `STONK_PAGE` causes exactly one storage write of `stonkSource`, then one `STONK_SOURCE` broadcast of the identical value |
| Background.Store | extension/src/background/index.ts:13 | a `STONK_PAGE` overwrites `stonkSource` with its title and url, any other message leaves storage as it was, and no other key is ever written |
| Background.StoreAll | extension/src/background/index.ts:5-15 | over a sequence of messages the only key added is `stonkSource`, exactly when some message is a `STONK_PAGE` |
| Background.LastPageWins | extension/src/background/index.ts:13 | after a sequence of messages, `stonkSource` holds the projection of the last `STONK_PAGE`. Other keys are untouched, and with no `STONK_PAGE` storage is unchanged |
| Background.Router.OnMessage | extension/src/background/index.ts:5-15 | the storage area and the effect log change exactly as `Forward` and the single-message store say; stored and broadcast payloads are equal |
| Background.Router.OnTabUpdated | extension/src/background/index.ts:17-20 | sends `STONK_REFRESH` to the same tab if and only if the status is `complete`, and never touches storage |
| SidePanel.Draw | extension/src/sidepanel/App.tsx:17 | `Math.floor(r * n)` for a draw in [0, 1) is a valid index below `n` |
| SidePanel.DefaultState | extension/src/sidepanel/App.tsx:28-35 | the ticker and meme come from their lists, the vibe index is valid for `vibeLabels`, confidence is within 70..89, and the title is the placeholder with an empty url |
| SidePanel.DefaultStatesReachable | extension/src/sidepanel/App.tsx:28-35 | every state with those bounds is produced by some draws, so the bounds are exact |
| SidePanel.ApplyMessage | extension/src/sidepanel/App.tsx:61-68 | a non-`STONK_SOURCE` message leaves the state unchanged; ticker, vibe index, meme and confidence are always preserved |
| SidePanel.ApplyMessageSourceFields | extension/src/sidepanel/App.tsx:65-66 | a present, non-empty title or url replaces the field. A missing or empty one keeps the previous value |
| SidePanel.ApplyMessageIdempotent | extension/src/sidepanel/App.tsx:63-67 | applying the same message twice equals applying it once |
| SidePanel.ApplyAllKeepsRest | extension/src/sidepanel/App.tsx:61-68 | over any message sequence only the source fields change, and a non-empty source field never becomes empty |
| SidePanel.Panel.OnMessage | extension/src/sidepanel/App.tsx:61-69 | the new state is the updater applied to the old one, and a renderable vibe index stays renderable |
| SidePanel.Panel.RunVibeCheck | extension/src/sidepanel/App.tsx:53-55 | the whole state is replaced by a fresh default state, discarding any received source |
| AiLogic.Clamp | backend/ai_logic.py:185 | the clamped level lies in [0, 100], equals the input when in range, and is 0 below and 100 above |
| AiLogic.ClampIdempotent | backend/ai_logic.py:185 | clamping twice equals clamping once |
| AiLogic.ClampMonotone | backend/ai_logic.py:185 | clamping preserves order |
| AiLogic.SystemPrompt | backend/ai_logic.py:14-170 | the serious prompt is chosen exactly for levels up to 20 and the most unhinged exactly above 80 |
| AiLogic.SystemPromptCountsBoundaries | backend/ai_logic.py:23-170 | the selected tier's rank is the number of boundaries 20, 40, 60, 80 the level exceeds, so each level selects exactly one tier |
| AiLogic.SystemPromptMonotone | backend/ai_logic.py:23-170 | a higher level never selects a more serious tier |
| AiLogic.SystemPromptOfClamp | backend/ai_logic.py:185-188 | out-of-range levels select the tier of their clamped value: negative gives the serious tier, above 100 the most unhinged |
| AiLogic.BuildRequest | backend/ai_logic.py:185-198 | the request uses the clamped level's tier. The user message is the intro plus a prefix of the text of at most 4000 characters, the whole text when it is short enough |
| AiLogic.AnalyzeWebpageContent | backend/ai_logic.py:173-221 | success exactly when the reply decoded, reporting the clamped level in [0, 100]. A decode error gives the "Failed to parse AI response" prefix, any other error the "AI analysis failed" prefix |
| AiLogic.OnlyPrefixAnalysed | backend/ai_logic.py:198 | texts that agree on their first 4000 characters are analysed identically |
| AiLogic.AnalyzeAsClamped | backend/ai_logic.py:185-210 | analysing at an out-of-range level is the same as at its clamped value |
| Finance.NormaliseTicker | backend/finance.py:24-25 | a crypto ticker always ends in `-USD` (appended only when missing); other tickers are untouched |
| Finance.NormaliseTickerIdempotent | backend/finance.py:24-25 | normalising twice equals normalising once |
| Finance.PriceOr | backend/finance.py:31-32 | a missing or zero `regularMarket*` value falls back to the plain key, and a missing plain key to 0 |
| Finance.Change24h | backend/finance.py:35-38 | the change is 0 when the previous close is not positive, otherwise the percentage that takes the previous close to the current price |
| Finance.PriceHistoryPointwise | backend/finance.py:46-51 | `price_history` has exactly one point per history row, in row order |
| Finance.BuildPriceHistory | backend/finance.py:45-51 | the append loop produces exactly that list |
| Finance.TickerData | backend/finance.py:22-72 | success exactly when info and history were fetched. The data carries the normalised ticker, the name falling back to it, the currency falling back to `USD`, and the info's market cap and volume unchanged. A failure's error names the normalised ticker |
| Finance.GetTickerData | backend/finance.py:11-72 | the statement-by-statement lookup returns exactly `TickerData` |
| Finance.ValidateTicker | backend/finance.py:75-90 | true exactly when the info was fetched (false on any exception) and `regularMarketPrice` or `currentPrice` is present |
| Finance.UnvalidatedTickerHasNoPrice | backend/finance.py:31 | a stock ticker that fails validation but whose lookup succeeds reports a current price of 0 |
| Common.Strip | backend/main.py:73 | the result is what lies between two all-whitespace margins and neither starts nor ends with whitespace; Python's set adds U+001C..U+001F and NEXT LINE, JavaScript's adds the byte-order mark |
| Api.AnalyzeContent | backend/main.py:66-108 | a 400 with the fixed detail exactly when the text is empty or under 50 characters once stripped with Python's whitespace; otherwise success exactly when the analysis succeeded, and a successful response carries market data exactly when it carries no warning |
| Api.AnalyzeContentOutcomes | backend/main.py:66-108 | four exclusive outcomes: 400 exactly when the stripped text is under 50 characters; AI failure with its error only; market failure still successful, with no market data and a warning; full success with analysis, market data and no error |
| Api.ShortTextConsultsNoCollaborator | backend/main.py:73-77 | a rejected request's response does not depend on the model or the market lookup |
| Api.AnalyzeContentUsesDefaultLevel | backend/main.py:80 | the endpoint analyses at level 50, which selects the middle tier |
| Api.DemoAnalysis | backend/main.py:111-139 | success exactly when the analysis succeeds, and `market_data` is missing exactly when the lookup of the pick (ticker or "", type or "stock") fails |
| Api.DemoAgreesWithAnalyze | backend/main.py:111-139 | on text the main endpoint accepts, the demo succeeds exactly when it does and carries the same market data |
| Api.GetTickerInfo | backend/main.py:142-156 | the upper-cased symbol is looked up; a failed lookup is a 404 with the lookup's error |
| Frontend.Settle | frontend/app.js:57-67 | only an ok reply with `success` is displayed. A non-ok reply fails with `detail` or the default, and `success` false with `error` or the default. A thrown call fails with its message |
| Frontend.FormatNumber | frontend/app.js:166-179 | 'N/A' exactly for a missing or zero number. Otherwise the suffix is the largest of T, B, M, K whose threshold is reached (none below 1e3), the scaled value times the scale is the number, and '$' appears exactly when `isCurrency` |
| Frontend.Render | frontend/app.js:112-163 | rendering completes exactly when there is an analysis and something to name the ticker. Only 'BUY' is a buy, the vibe position is 85 for MOONING and 15 otherwise, and the market section shows exactly when there is market data |
| Frontend.DemoPage.ShowLoading | frontend/app.js:91-97 | loading shown, results and error hidden, both buttons disabled |
| Frontend.DemoPage.HideLoading | frontend/app.js:99-103 | loading hidden and both buttons enabled, panels unchanged |
| Frontend.DemoPage.ShowError | frontend/app.js:105-110 | error shown with the message, results and loading hidden, buttons enabled |
| Frontend.DemoPage.DisplayResults | frontend/app.js:112-115 | results shown, error and loading hidden, buttons enabled; the rendering is recorded when it completes |
| Frontend.DemoPage.AnalyzeText | frontend/app.js:40-45 | text under 50 UTF-16 code units once trimmed with JavaScript's whitespace shows the error without loading or a request. Otherwise loading starts, exactly one POST of the text is issued, and the error text and rendering stay |
| Frontend.DemoPage.RunDemo | frontend/app.js:71-72 | loading starts, exactly one demo request is issued, and the error text and rendering stay |
| Frontend.DemoPage.CompleteRequest | frontend/app.js:46-68 | after any reply the request has ended with exactly one of results and error visible. A failure shows its message and keeps the rendering. A display records the rendering and keeps the error text. A throwing rendering shows the browser's error and keeps the previous rendering |
| ExtensionFlow.SnapshotReachesPanel | extension/src/background/index.ts:8-14 | a page's title and url reach the side panel (each when non-empty) while its text does not, and the stored value equals the broadcast one |

## Left out

- The 500 ms `setTimeout` after the page's `load` event: the model's caller supplies the
  clock reading at which `SendSnapshot` runs.
- `console.log`, the `onInstalled` listener, the side panel's emoji positions and all JSX
  and CSS: presentation only.
- The side panel registers its listener only when `chrome.runtime.onMessage` exists; the
  model assumes it does.
- Messages whose payload fields are not strings, and JSON `null` values in `info` or in
  the model's answer: payload fields are strings or absent, and a `null` is treated as
  absent.
- Api.GetTickerInfo: upper-casing covers ASCII letters only; Python's `str.upper` also
  maps non-ASCII letters, some to several characters.
- Frontend.Render: the ticker name's `toUpperCase` covers ASCII letters only, for the same
  reason.
- ContentScript.SnapshotText: when the 2000th code unit is the first half of a surrogate
  pair, JavaScript's `slice` keeps a lone surrogate, which a Dafny string cannot hold. The
  model drops that whole character instead.
- Floating point: the model temperature, `round(…, 2)`, `toFixed` and `toLocaleString`
  digit strings, and the price-change text on the demo page are not modelled. Prices and
  percentages are exact reals.
- The model's answer being JSON that is not an object, and `main.py`'s default
  "AI analysis failed" for a missing `error` key, which `analyze_webpage_content` always
  sets.
- The 7-day history window (`datetime.now()`) is inside the `feed` parameter.
- `backend/portfolio_store.py`: it only forwards requests to a remote service over HTTP.
  There is no ledger to model.
- The request model's `url` field is carried but, as in the code, never read.
- Finance.TickerData: prices, previous close and change are exact and unrounded, because
  `round(…, 2)` on floats is not modelled.
- Frontend.DemoPage.DisplayResults: when rendering throws part-way, the text written into
  the elements before the throw is not recorded.
- Frontend.DemoPage.CompleteRequest: the `TypeError` message is a parameter, because its
  text belongs to the browser.
- Frontend.DemoPage.constructor: the initial visibility of the panels comes from markup
  that is not part of this model; the constructor starts with every panel hidden.
