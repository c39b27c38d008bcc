/** The side panel (extension/src/sidepanel/App.tsx): its state record, the randomly drawn
    initial state, the `STONK_SOURCE` updater passed to `setPanelState`, and the component's
    state as a class whose two event handlers replace it. Each `Math.random()` draw is a
    supplied real in [0, 1). */
module SidePanel {
  import opened Common
  import opened Messages

  const Tickers: seq<string> := ["$TSLA", "$AAPL", "$UBER", "$NVDA", "$ETH", "$DOGE"]

  datatype VibeLabel = VibeLabel(name: string, color: string, text: string)

  const VibeLabels: seq<VibeLabel> := [
    VibeLabel("Mooning", "bg-neon-green", "Neon Green"),
    VibeLabel("Cooked", "bg-neon-red", "Neon Red"),
    VibeLabel("Sideways", "bg-neon-cyan", "Neon Cyan")
  ]

  const MemeCaptions: seq<string> := [
    "Me explaining why rain in London means Uber calls print.",
    "Never seen a chart this delulu and I love it.",
    "When the vibes are immaculate but the logic is cooked.",
    "I am not a financial advisor. I am a prophet."
  ]

  const ScanningTitle: string := "Scanning the web for vibes..."

  datatype PanelState = PanelState(
    ticker: string,
    vibeIndex: int,
    meme: string,
    sourceTitle: string,
    sourceUrl: string,
    confidence: int)

  /** `Math.floor(r * n)` for a draw `r` of `Math.random()`: always an index below `n`. */
  function Draw(r: real, n: nat): (i: nat)
    requires 0.0 <= r < 1.0 && 0 < n
    ensures i < n
    ensures i as real <= r * n as real < i as real + 1.0
  {
    var scaled := r * n as real;
    ScaledDrawBelow(r, n as real);
    assert scaled.Floor as real <= scaled < n as real;
    scaled.Floor
  }

  /** A draw in [0, 1) scaled by a positive length stays in [0, length). */
  lemma ScaledDrawBelow(r: real, x: real)
    requires 0.0 <= r < 1.0 && 0.0 < x
    ensures 0.0 <= r * x < x
  {
    var gap := 1.0 - r;
    assert 0.0 < gap * x;
    assert x - r * x == gap * x;
  }

  /** The four `Math.random()` draws `defaultState` makes, in call order. */
  datatype Draws = Draws(ticker: real, vibe: real, meme: real, confidence: real)

  predicate ValidDraws(d: Draws) {
    && 0.0 <= d.ticker < 1.0
    && 0.0 <= d.vibe < 1.0
    && 0.0 <= d.meme < 1.0
    && 0.0 <= d.confidence < 1.0
  }

  /** A panel state the component can render: `vibeLabels[vibeIndex]` exists. */
  predicate WellFormed(s: PanelState) {
    0 <= s.vibeIndex < |VibeLabels|
  }

  /** `defaultState()`: a ticker and a meme from their lists, a valid vibe index, a
      confidence in 70..89, the placeholder title and no source url. */
  function DefaultState(d: Draws): (s: PanelState)
    requires ValidDraws(d)
    ensures WellFormed(s)
    ensures s.ticker in Tickers && s.meme in MemeCaptions
    ensures 70 <= s.confidence <= 89
    ensures s.sourceTitle == ScanningTitle && s.sourceUrl == ""
  {
    PanelState(
      Tickers[Draw(d.ticker, |Tickers|)],
      Draw(d.vibe, |VibeLabels|),
      MemeCaptions[Draw(d.meme, |MemeCaptions|)],
      ScanningTitle,
      "",
      70 + Draw(d.confidence, 20))
  }

  /** Every state the component starts from, or is reset to, arises from some valid draws. */
  lemma DefaultStatesReachable(s: PanelState)
    requires s.ticker in Tickers && s.meme in MemeCaptions
    requires WellFormed(s) && 70 <= s.confidence <= 89
    requires s.sourceTitle == ScanningTitle && s.sourceUrl == ""
    ensures exists d :: ValidDraws(d) && DefaultState(d) == s
  {
    var t :| 0 <= t < |Tickers| && Tickers[t] == s.ticker;
    var m :| 0 <= m < |MemeCaptions| && MemeCaptions[m] == s.meme;
    var d := Draws(t as real / 6.0, s.vibeIndex as real / 3.0, m as real / 4.0, (s.confidence - 70) as real / 20.0);
    assert Draw(d.ticker, 6) == t;
    assert Draw(d.vibe, 3) == s.vibeIndex;
    assert Draw(d.meme, 4) == m;
    assert Draw(d.confidence, 20) == s.confidence - 70;
    assert DefaultState(d) == s;
  }

  /** The `setPanelState` updater for one runtime message: a `STONK_SOURCE` message
      replaces `sourceTitle` and `sourceUrl` by the payload's title and url, each only when
      present and non-empty; any other message leaves the state as it is. */
  function ApplyMessage(prev: PanelState, msg: Message): (next: PanelState)
    ensures msg.kind != StonkSource ==> next == prev
    ensures next.ticker == prev.ticker && next.vibeIndex == prev.vibeIndex
    ensures next.meme == prev.meme && next.confidence == prev.confidence
  {
    if msg.kind != StonkSource then prev
    else prev.(sourceTitle := OrElse(TitleOf(msg), prev.sourceTitle),
               sourceUrl := OrElse(UrlOf(msg), prev.sourceUrl))
  }

  /** Which value each source field takes: the message's when it carries a non-empty one,
      the previous one otherwise. */
  lemma ApplyMessageSourceFields(prev: PanelState, msg: Message)
    requires msg.kind == StonkSource
    ensures var next := ApplyMessage(prev, msg);
      && (TitleOf(msg).Some? && TitleOf(msg).value != "" ==> next.sourceTitle == TitleOf(msg).value)
      && (TitleOf(msg).None? || TitleOf(msg) == Some("") ==> next.sourceTitle == prev.sourceTitle)
      && (UrlOf(msg).Some? && UrlOf(msg).value != "" ==> next.sourceUrl == UrlOf(msg).value)
      && (UrlOf(msg).None? || UrlOf(msg) == Some("") ==> next.sourceUrl == prev.sourceUrl)
  {
  }

  /** Applying the same message twice gives the same state as applying it once. */
  lemma ApplyMessageIdempotent(prev: PanelState, msg: Message)
    ensures ApplyMessage(ApplyMessage(prev, msg), msg) == ApplyMessage(prev, msg)
  {
  }

  /** Applying a sequence of messages in order. */
  function ApplyAll(s: PanelState, msgs: seq<Message>): PanelState
    decreases |msgs|
  {
    if msgs == [] then s else ApplyAll(ApplyMessage(s, msgs[0]), msgs[1..])
  }

  /** However many messages arrive, only the two source fields ever change, so the state
      stays renderable, and a source field that was non-empty never becomes empty. */
  lemma {:induction false} ApplyAllKeepsRest(s: PanelState, msgs: seq<Message>)
    ensures var t := ApplyAll(s, msgs);
      && t.ticker == s.ticker && t.vibeIndex == s.vibeIndex
      && t.meme == s.meme && t.confidence == s.confidence
      && (s.sourceTitle != "" ==> t.sourceTitle != "")
      && (s.sourceUrl != "" ==> t.sourceUrl != "")
    decreases |msgs|
  {
    if msgs != [] {
      ApplyAllKeepsRest(ApplyMessage(s, msgs[0]), msgs[1..]);
    }
  }

  /** The `App` component's `panelState`. */
  class Panel {
    var state: PanelState

    /** `useState(defaultState)`. */
    constructor (d: Draws)
      requires ValidDraws(d)
      ensures state == DefaultState(d)
    {
      state := DefaultState(d);
    }

    /** The runtime message listener installed by the effect: it hands `ApplyMessage` to
        `setPanelState` as the updater. */
    method OnMessage(msg: Message)
      modifies this
      ensures state == ApplyMessage(old(state), msg)
      ensures WellFormed(old(state)) ==> WellFormed(state)
    {
      state := ApplyMessage(state, msg);
    }

    /** `runVibeCheck`: a fresh default state replaces the whole state, so a source received
        earlier is discarded. */
    method RunVibeCheck(d: Draws)
      requires ValidDraws(d)
      modifies this
      ensures state == DefaultState(d)
      ensures state.sourceTitle == ScanningTitle && state.sourceUrl == ""
    {
      state := DefaultState(d);
    }
  }
}
