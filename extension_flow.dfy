/** How a page snapshot travels through the extension: the content script sends it, the
    background worker stores and rebroadcasts its title and url, and the side panel folds
    the broadcast into its state. */
module ExtensionFlow {
  import opened Common
  import opened Messages
  import ContentScript
  import Background
  import SidePanel

  /** The `STONK_SOURCE` broadcast the background worker emits for a page's snapshot. */
  function Broadcast(page: ContentScript.Page): Message {
    Background.Forward(ContentScript.Snapshot(page))[1].msg
  }

  /** The snapshot's title and url reach the panel (each when non-empty), the page text
      does not reach it, what is stored equals what is broadcast, and the panel's other
      fields are untouched. */
  lemma SnapshotReachesPanel(page: ContentScript.Page, prev: SidePanel.PanelState)
    ensures var effects := Background.Forward(ContentScript.Snapshot(page));
      && |effects| == 2
      && effects[0] == Background.StorageSet(Background.SourceKey, Payload(Some(page.title), Some(page.href), None))
      && effects[1] == Background.RuntimeSend(Message(StonkSource, Some(effects[0].value)))
    ensures var next := SidePanel.ApplyMessage(prev, Broadcast(page));
      && next.sourceTitle == (if page.title != "" then page.title else prev.sourceTitle)
      && next.sourceUrl == (if page.href != "" then page.href else prev.sourceUrl)
      && next.(sourceTitle := prev.sourceTitle, sourceUrl := prev.sourceUrl) == prev
  {
    var snapshot := ContentScript.Snapshot(page);
    assert Background.SourceOf(snapshot) == Payload(Some(page.title), Some(page.href), None);
  }
}
