/** The message shape the three extension contexts exchange through `chrome.runtime`
    and `chrome.tabs` messaging: a `type` tag and an optional payload object whose
    `title`, `url` and `text` keys may each be missing. */
module Messages {
  import opened Common

  const StonkPage: string := "STONK_PAGE"
  const StonkSource: string := "STONK_SOURCE"
  const StonkRefresh: string := "STONK_REFRESH"

  datatype Payload = Payload(title: Option<string>, url: Option<string>, text: Option<string>)

  /** A message; one without a `type` (or a non-object message) is modelled by a `kind`
      equal to none of the three tags. */
  datatype Message = Message(kind: string, payload: Option<Payload>)

  /** `message.payload?.title`. */
  function TitleOf(m: Message): Option<string> {
    if m.payload.Some? then m.payload.value.title else None
  }

  /** `message.payload?.url`. */
  function UrlOf(m: Message): Option<string> {
    if m.payload.Some? then m.payload.value.url else None
  }
}
