/** The background service worker (extension/src/background/index.ts): it forwards each
    page snapshot, reduced to its title and address, to session storage and to the side
    panel, and asks a tab for a fresh snapshot when the tab finishes loading. The
    `chrome.storage.session` area is a map field; every call the worker makes into the
    extension APIs is appended, in order, to an effect log. */
module Background {
  import opened Common
  import opened Messages

  /** The session-storage key the worker overwrites. */
  const SourceKey: string := "stonkSource"
  const Complete: string := "complete"

  /** One call into the extension APIs. */
  datatype Effect =
    | StorageSet(key: string, value: Payload)   // chrome.storage.session.set({[key]: value})
    | RuntimeSend(msg: Message)                 // chrome.runtime.sendMessage(msg)
    | TabSend(tabId: int, msg: Message)         // chrome.tabs.sendMessage(tabId, msg)

  /** `{ title: message.payload?.title, url: message.payload?.url }`: the page text is dropped. */
  function SourceOf(msg: Message): (p: Payload)
    ensures p.text == None
    ensures p.title == TitleOf(msg) && p.url == UrlOf(msg)
  {
    Payload(TitleOf(msg), UrlOf(msg), None)
  }

  /** The effects the `onMessage` listener produces for one message. */
  function Forward(msg: Message): (effects: seq<Effect>)
    ensures msg.kind != StonkPage ==> effects == []
    ensures msg.kind == StonkPage ==>
      && |effects| == 2
      && effects[0] == StorageSet(SourceKey, SourceOf(msg))
      && effects[1] == RuntimeSend(Message(StonkSource, Some(effects[0].value)))
  {
    if msg.kind != StonkPage then []
    else [StorageSet(SourceKey, SourceOf(msg)), RuntimeSend(Message(StonkSource, Some(SourceOf(msg))))]
  }

  /** Session storage after the listener has handled one message: a `STONK_PAGE`
      overwrites `stonkSource` with its projection, and nothing else is ever written. */
  function Store(session: map<string, Payload>, msg: Message): (r: map<string, Payload>)
    ensures msg.kind == StonkPage ==> SourceKey in r && r[SourceKey] == SourceOf(msg)
    ensures msg.kind != StonkPage ==> r == session
    ensures forall key :: key != SourceKey ==>
      (key in r <==> key in session) && (key in session ==> r[key] == session[key])
  {
    if msg.kind == StonkPage then session[SourceKey := SourceOf(msg)] else session
  }

  /** Whether any of `msgs` is a `STONK_PAGE`. */
  predicate HasPage(msgs: seq<Message>) {
    exists j :: 0 <= j < |msgs| && msgs[j].kind == StonkPage
  }

  /** Session storage after the listener has handled `msgs` in order: the only key it can
      add is `stonkSource`, and it is added exactly when some message is a `STONK_PAGE`. */
  function StoreAll(session: map<string, Payload>, msgs: seq<Message>): (r: map<string, Payload>)
    ensures r.Keys == session.Keys + (if HasPage(msgs) then {SourceKey} else {})
    decreases |msgs|
  {
    if msgs == [] then session
    else
      assert HasPage(msgs) <==> msgs[0].kind == StonkPage || HasPage(msgs[1..]) by {
        if HasPage(msgs[1..]) {
          var j :| 0 <= j < |msgs[1..]| && msgs[1..][j].kind == StonkPage;
          assert msgs[j + 1].kind == StonkPage;
        }
        if HasPage(msgs) && msgs[0].kind != StonkPage {
          var j :| 0 <= j < |msgs| && msgs[j].kind == StonkPage;
          assert msgs[1..][j - 1].kind == StonkPage;
        }
      }
      StoreAll(Store(session, msgs[0]), msgs[1..])
  }

  /** Whether `msgs[k]` is the last `STONK_PAGE` message of `msgs`. */
  ghost predicate LastPageAt(msgs: seq<Message>, k: int) {
    && 0 <= k < |msgs|
    && msgs[k].kind == StonkPage
    && forall j :: k < j < |msgs| ==> msgs[j].kind != StonkPage
  }

  /** Last write wins: after a sequence of messages the stored source is the projection of
      the last `STONK_PAGE` among them, every other key is untouched, and a sequence with no
      `STONK_PAGE` leaves storage as it was. */
  lemma {:induction false} LastPageWins(session: map<string, Payload>, msgs: seq<Message>)
    ensures forall k :: LastPageAt(msgs, k) ==>
      SourceKey in StoreAll(session, msgs) && StoreAll(session, msgs)[SourceKey] == SourceOf(msgs[k])
    ensures (forall j :: 0 <= j < |msgs| ==> msgs[j].kind != StonkPage) ==> StoreAll(session, msgs) == session
    ensures forall key :: key != SourceKey ==>
      (key in StoreAll(session, msgs) <==> key in session) &&
      (key in session ==> StoreAll(session, msgs)[key] == session[key])
    decreases |msgs|
  {
    if msgs != [] {
      var rest := msgs[1..];
      LastPageWins(Store(session, msgs[0]), rest);
      forall k | LastPageAt(msgs, k)
        ensures SourceKey in StoreAll(session, msgs) && StoreAll(session, msgs)[SourceKey] == SourceOf(msgs[k])
      {
        if k > 0 {
          assert LastPageAt(rest, k - 1);
        } else {
          assert forall j :: 0 <= j < |rest| ==> rest[j].kind != StonkPage by {
            forall j | 0 <= j < |rest| ensures rest[j].kind != StonkPage {
              assert rest[j] == msgs[j + 1];
            }
          }
        }
      }
      if forall j :: 0 <= j < |msgs| ==> msgs[j].kind != StonkPage {
        assert msgs[0].kind != StonkPage;
        assert forall j :: 0 <= j < |rest| ==> rest[j] == msgs[j + 1];
      }
    }
  }

  /** The worker: the `stonkSource` session area and the log of calls it has made. */
  class Router {
    var session: map<string, Payload>
    var effects: seq<Effect>

    constructor (initial: map<string, Payload>)
      ensures session == initial && effects == []
    {
      session := initial;
      effects := [];
    }

    /** The `chrome.runtime.onMessage` listener. A `STONK_PAGE` message overwrites the
        stored source with its title and url and then broadcasts that same value as
        `STONK_SOURCE`; any other message does nothing. */
    method OnMessage(msg: Message)
      modifies this
      ensures session == Store(old(session), msg)
      ensures effects == old(effects) + Forward(msg)
      ensures msg.kind != StonkPage ==> session == old(session) && effects == old(effects)
      ensures msg.kind == StonkPage ==>
        && session == old(session)[SourceKey := SourceOf(msg)]
        && effects == old(effects) + [StorageSet(SourceKey, session[SourceKey]),
                                      RuntimeSend(Message(StonkSource, Some(session[SourceKey])))]
    {
      if msg.kind != StonkPage {
        return;
      }
      var payload := SourceOf(msg);
      session := session[SourceKey := payload];
      effects := effects + [StorageSet(SourceKey, payload)];
      effects := effects + [RuntimeSend(Message(StonkSource, Some(payload)))];
    }

    /** The `chrome.tabs.onUpdated` listener: a tab whose update reports status
        `"complete"` is sent `STONK_REFRESH`; storage is never touched. */
    method OnTabUpdated(tabId: int, status: Option<string>)
      modifies this
      ensures session == old(session)
      ensures status == Some(Complete) ==> effects == old(effects) + [TabSend(tabId, Message(StonkRefresh, None))]
      ensures status != Some(Complete) ==> effects == old(effects)
    {
      if status != Some(Complete) {
        return;
      }
      effects := effects + [TabSend(tabId, Message(StonkRefresh, None))];
    }
  }
}
