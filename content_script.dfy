/** The content script (extension/src/content/index.ts): it reads the page and sends a
    `STONK_PAGE` snapshot to the background worker, at most once per 2000 ms unless the
    background asks for a refresh. `Date.now()` is the `now` parameter; the page's title,
    address and body text are the `Page` parameter. */
module ContentScript {
  import opened Common
  import opened Messages

  const DebounceMs: int := 2000
  const SnapshotLimit: nat := 2000

  /** What the script reads from the document: `document.title`, `window.location.href`
      and `document.body?.innerText` (absent when the document has no body). */
  datatype Page = Page(title: string, href: string, bodyText: Option<string>)

  /** `document.body?.innerText?.slice(0, 2000) || ""`: the longest prefix of the body text
      that fits in 2000 UTF-16 code units. */
  function SnapshotText(body: Option<string>): (text: string)
    ensures Utf16Length(text) <= SnapshotLimit && |text| <= SnapshotLimit
    ensures body.None? ==> text == ""
    ensures body.Some? ==> text <= body.value
    ensures body.Some? && text != body.value ==>
      Utf16Length(text) + Utf16Units(body.value[|text|]) > SnapshotLimit
  {
    match body
    case None => ""
    case Some(t) => Utf16Prefix(t, SnapshotLimit)
  }

  /** Text in the Basic Multilingual Plane is cut at its first 2000 characters, and text
      that short is sent whole. */
  lemma SnapshotTextOfBmp(body: string)
    requires InBmp(body)
    ensures SnapshotText(Some(body)) == Prefix(body, SnapshotLimit)
    ensures |body| <= SnapshotLimit ==> SnapshotText(Some(body)) == body
  {
    Utf16PrefixOfBmp(body, SnapshotLimit);
  }

  /** The one message a send emits. */
  function Snapshot(page: Page): (m: Message)
    ensures m.kind == StonkPage && m.payload.Some?
    ensures TitleOf(m) == Some(page.title) && UrlOf(m) == Some(page.href)
    ensures m.payload.value.text == Some(SnapshotText(page.bodyText))
  {
    Message(StonkPage, Some(Payload(Some(page.title), Some(page.href), Some(SnapshotText(page.bodyText)))))
  }

  /** The debounce test: a send at `now` goes ahead unless fewer than `DebounceMs`
      milliseconds have passed since `lastSent`. */
  predicate Admits(lastSent: int, now: int) {
    now - lastSent >= DebounceMs
  }

  /** Consecutive clock readings at least `DebounceMs` apart. */
  ghost predicate Spaced(times: seq<int>) {
    forall i :: 0 < i < |times| ==> times[i - 1] + DebounceMs <= times[i]
  }

  /** The clock readings at which a run of `sendSnapshot` calls, made at the readings in
      `clock` and with no refresh in between, actually sends, starting from `lastSent`. */
  function SendTimes(lastSent: int, clock: seq<int>): (times: seq<int>)
    ensures |times| <= |clock|
    decreases |clock|
  {
    if clock == [] then []
    else if Admits(lastSent, clock[0]) then [clock[0]] + SendTimes(clock[0], clock[1..])
    else SendTimes(lastSent, clock[1..])
  }

  /** The timestamp `lastSentTime` holds after the calls in `clock`: the last send, or
      `lastSent` when none of them sent. */
  function LastSent(lastSent: int, clock: seq<int>): int {
    var times := SendTimes(lastSent, clock);
    if times == [] then lastSent else times[|times| - 1]
  }

  /** One more call extends the trace by a send exactly when the debounce admits it
      against the timestamp the earlier calls left. */
  lemma {:induction false} SendTimesSnoc(lastSent: int, clock: seq<int>, now: int)
    ensures SendTimes(lastSent, clock + [now]) ==
      SendTimes(lastSent, clock) + (if Admits(LastSent(lastSent, clock), now) then [now] else [])
    decreases |clock|
  {
    if clock == [] {
      assert SendTimes(lastSent, [now][1..]) == [];
    } else {
      assert (clock + [now])[1..] == clock[1..] + [now];
      if Admits(lastSent, clock[0]) {
        SendTimesSnoc(clock[0], clock[1..], now);
      } else {
        SendTimesSnoc(lastSent, clock[1..], now);
      }
    }
  }

  /** Without refreshes, every send is at least `DebounceMs` after the previous one (and
      after the starting timestamp), and sends happen only at readings the calls were made at. */
  lemma {:induction false} SendTimesSpaced(lastSent: int, clock: seq<int>)
    ensures Spaced(SendTimes(lastSent, clock))
    ensures |SendTimes(lastSent, clock)| > 0 ==> lastSent + DebounceMs <= SendTimes(lastSent, clock)[0]
    ensures forall t :: t in SendTimes(lastSent, clock) ==> t in clock
    decreases |clock|
  {
    if clock != [] {
      if Admits(lastSent, clock[0]) {
        SendTimesSpaced(clock[0], clock[1..]);
      } else {
        SendTimesSpaced(lastSent, clock[1..]);
      }
    }
  }

  /** No call sends while every reading is within `DebounceMs` of the last send. */
  lemma {:induction false} QuietWindowSendsNothing(lastSent: int, clock: seq<int>)
    requires forall i :: 0 <= i < |clock| ==> clock[i] < lastSent + DebounceMs
    ensures SendTimes(lastSent, clock) == []
    decreases |clock|
  {
    if clock != [] {
      QuietWindowSendsNothing(lastSent, clock[1..]);
    }
  }

  /** A burst of calls that all fall within one `DebounceMs` window sends at most once. */
  lemma {:induction false} BurstSendsAtMostOnce(lastSent: int, clock: seq<int>, start: int)
    requires forall i :: 0 <= i < |clock| ==> start <= clock[i] < start + DebounceMs
    ensures |SendTimes(lastSent, clock)| <= 1
    decreases |clock|
  {
    if clock != [] {
      if Admits(lastSent, clock[0]) {
        QuietWindowSendsNothing(clock[0], clock[1..]);
      } else {
        BurstSendsAtMostOnce(lastSent, clock[1..], start);
      }
    }
  }

  /** The script's module state: `lastSentTime`, plus the messages it has sent so far.
      The ghost `sendTimes` records the clock at each send, `epoch` the position in it of
      the first send after the latest refresh, and `calls` the clock at each
      `sendSnapshot` call since that refresh. */
  class SnapshotSource {
    var lastSentTime: int
    var sent: seq<Message>
    ghost var sendTimes: seq<int>
    ghost var epoch: nat
    ghost var calls: seq<int>

    /** Since the latest refresh (or the load), the sends are exactly the trace `SendTimes`
        of the calls starting from timestamp 0, so they are at least `DebounceMs` apart. */
    ghost predicate Valid()
      reads this
    {
      && |sendTimes| == |sent|
      && epoch <= |sendTimes|
      && sendTimes[epoch..] == SendTimes(0, calls)
      && lastSentTime == LastSent(0, calls)
      && (if epoch < |sendTimes| then lastSentTime == sendTimes[|sendTimes| - 1] else lastSentTime == 0)
      && Spaced(sendTimes[epoch..])
    }

    /** The script as loaded: `lastSentTime = 0`, nothing sent. */
    constructor ()
      ensures Valid()
      ensures lastSentTime == 0 && sent == []
    {
      lastSentTime := 0;
      sent := [];
      sendTimes := [];
      epoch := 0;
      calls := [];
    }

    /** `sendSnapshot`: skip when the debounce window is still open, otherwise record the
        time and send one `STONK_PAGE` snapshot of the page. */
    method SendSnapshot(now: int, page: Page) returns (didSend: bool)
      requires Valid()
      modifies this
      ensures Valid()
      ensures didSend == Admits(old(lastSentTime), now)
      ensures didSend ==> lastSentTime == now && sent == old(sent) + [Snapshot(page)]
      ensures !didSend ==> lastSentTime == old(lastSentTime) && sent == old(sent)
      ensures sendTimes == if didSend then old(sendTimes) + [now] else old(sendTimes)
      ensures epoch == old(epoch) && calls == old(calls) + [now]
    {
      SendTimesSnoc(0, calls, now);
      SendTimesSpaced(0, calls + [now]);
      calls := calls + [now];
      if now - lastSentTime < DebounceMs {
        didSend := false;
        return;
      }
      ghost var before := sendTimes[epoch..];
      lastSentTime := now;
      sent := sent + [Snapshot(page)];
      sendTimes := sendTimes + [now];
      didSend := true;
      assert sendTimes[epoch..] == before + [now];
    }

    /** The `chrome.runtime.onMessage` listener: a `STONK_REFRESH` resets `lastSentTime`
        to 0 and sends; any other message is ignored. */
    method OnMessage(msg: Message, now: int, page: Page) returns (didSend: bool)
      requires Valid()
      modifies this
      ensures Valid()
      ensures msg.kind != StonkRefresh ==> !didSend && lastSentTime == old(lastSentTime) && sent == old(sent)
      ensures msg.kind == StonkRefresh ==> didSend == (now >= DebounceMs)
      ensures msg.kind == StonkRefresh && didSend ==> lastSentTime == now && sent == old(sent) + [Snapshot(page)]
      ensures msg.kind == StonkRefresh && !didSend ==> lastSentTime == 0 && sent == old(sent)
      ensures msg.kind != StonkRefresh ==> sendTimes == old(sendTimes) && epoch == old(epoch) && calls == old(calls)
      ensures msg.kind == StonkRefresh ==> epoch == |old(sendTimes)| && calls == [now]
    {
      didSend := false;
      if msg.kind == StonkRefresh {
        lastSentTime := 0;
        epoch := |sendTimes|;
        calls := [];
        didSend := SendSnapshot(now, page);
      }
    }
  }
}
