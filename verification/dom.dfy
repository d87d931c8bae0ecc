/** An immutable snapshot of the parts of a collection page that the page
    controller reads, and the effects it can have on the page. Each command
    reads one snapshot; nothing read from it is kept across commands. */
module Dom {
  import opened Options

  /** The first `<audio>` element of the page. `bound` is the marker property
      the controller sets on the element once its `ended` listener is added;
      `handlers` counts the `ended` listeners the controller has added to this
      element. */
  datatype Audio = Audio(src: string, paused: bool, ended: bool, bound: bool, handlers: nat)

  /** The player's collection controls region and its `data-collect-item`
      attribute (`None` when the attribute is missing). */
  datatype Controls = Controls(collectItem: Option<string>)

  /** One `li[data-trackid]` listing entry: its data attributes, and the
      content of the sub-elements the extractor looks for (`None` when the
      sub-element is missing): the item title's text, the artist line's text,
      the item link's `href`, the cover image's `src` and the favourite-track
      link's text. The selector guarantees the `data-trackid` attribute. */
  datatype Entry = Entry(
    trackId: string,
    itemId: Option<string>,
    itemType: Option<string>,
    titleText: Option<string>,
    artistText: Option<string>,
    itemLinkHref: Option<string>,
    coverSrc: Option<string>,
    favTrackText: Option<string>)

  /** One `a[data-trackid]` link; clicking it makes the host page play it. */
  datatype Link = Link(href: string)

  /** The page: the audio element, the controls region, the listing entries
      and the clickable links, each list in document order. The two lists are
      separate queries and need not have the same length. */
  datatype Snapshot = Snapshot(
    audio: Option<Audio>,
    controls: Option<Controls>,
    entries: seq<Entry>,
    links: seq<Link>)

  /** Parsing an audio source URL and reading its `track_id` query parameter:
      `None` when the URL does not parse or has no such parameter. URL parsing
      itself is not modelled; every operation takes it as a parameter. */
  type UrlTrackId = string -> Option<string>

  /** A listing position as JavaScript holds it: a number, or `null`. */
  datatype JsIndex = Null | Num(n: int)

  /** JavaScript's conversion of a listing position to a number in
      arithmetic and comparisons: `null` becomes 0. */
  function ToNumber(x: JsIndex): (r: int) {
    if x.Null? then 0 else x.n
  }

  /** JavaScript's `x + 1`. */
  function PlusOne(x: JsIndex): (r: int)
    ensures r == ToNumber(x) + 1
    ensures x.Null? ==> r == 1
  {
    match x
    case Null => 1
    case Num(n) => n + 1
  }

  /** JavaScript's `x > 0`. */
  predicate IsPositive(x: JsIndex)
    ensures IsPositive(x) <==> ToNumber(x) > 0
    ensures x.Null? ==> !IsPositive(x)
  {
    x.Num? && x.n > 0
  }

  /** What a command does to the page and the browser: click a link, resume
      or pause the audio element, or open a URL in a new tab. */
  datatype Effect = ClickLink(index: nat) | ResumePlayback | PausePlayback | OpenTab(url: string)
}
