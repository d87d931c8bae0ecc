/** Which listing entry is playing, derived from the audio element's source,
    the controls region's attribute and the listing, all read from one
    snapshot. */
module Tracking {
  import opened Options
  import opened Seqs
  import opened Dom

  /** Whether the audio belongs to an album entry (its featured track) or to
      a standalone track entry. */
  datatype Mode = Album | Track

  /** The `data-itemtype` value of listing entries of each mode. */
  function ItemTypeName(m: Mode): (r: string) {
    match m
    case Album => "album"
    case Track => "track"
  }

  /** The controls region exists and its `data-collect-item` attribute is a
      non-empty string starting with `c`. */
  predicate CollectItemStartsWith(page: Snapshot, c: char) {
    && page.controls.Some?
    && page.controls.value.collectItem.Some?
    && var v := page.controls.value.collectItem.value;
       |v| > 0 && v[0] == c
  }

  /** The playback mode encoded by the controls region's attribute. */
  function CollectItemType(page: Snapshot): (r: Option<Mode>)
    ensures r == Some(Album) <==> CollectItemStartsWith(page, 'a')
    ensures r == Some(Track) <==> CollectItemStartsWith(page, 't')
    ensures r == None <==> !CollectItemStartsWith(page, 'a') && !CollectItemStartsWith(page, 't')
  {
    match page.controls
    case None => None
    case Some(c) =>
      match c.collectItem
      case None => None
      case Some(v) =>
        if v == [] then None
        else if v[0] == 'a' then Some(Album)
        else if v[0] == 't' then Some(Track)
        else None
  }

  /** The attribute value the host page writes: `a` followed by the album id
      for an album's featured track, `t` followed by the track id for a
      standalone track. */
  function EncodeCollectItem(m: Mode, id: string): (r: string) {
    (match m case Album => "a" case Track => "t") + id
  }

  /** Reading the mode back from an attribute the host page wrote gives the
      mode it encoded, whatever the id. */
  lemma CollectItemRoundTrip(page: Snapshot, m: Mode, id: string)
    requires page.controls == Some(Controls(Some(EncodeCollectItem(m, id))))
    ensures CollectItemType(page) == Some(m)
  {
    assert EncodeCollectItem(m, id)[0] == (if m == Album then 'a' else 't');
  }

  /** The `track_id` parameter of the audio element's source. A page without
      an audio element yields nothing rather than an error. */
  function TrackIdFromAudio(page: Snapshot, urlTrackId: UrlTrackId): (r: Option<string>)
    ensures page.audio.None? ==> r.None?
    ensures page.audio.Some? ==> r == urlTrackId(page.audio.value.src)
  {
    match page.audio
    case None => None
    case Some(a) => urlTrackId(a.src)
  }

  /** The (track id, mode) pair identifying the playing entry, when both are
      available; an empty track id counts as unavailable. */
  function CurrentPair(page: Snapshot, urlTrackId: UrlTrackId): (r: Option<(string, Mode)>)
    ensures r.Some? ==> r.value.0 != [] && TrackIdFromAudio(page, urlTrackId) == Some(r.value.0)
                        && CollectItemType(page) == Some(r.value.1)
    ensures r.None? ==> TrackIdFromAudio(page, urlTrackId) in {None, Some([])} || CollectItemType(page).None?
  {
    var id := TrackIdFromAudio(page, urlTrackId);
    var mode := CollectItemType(page);
    if id.None? || id.value == [] || mode.None? then None
    else Some((id.value, mode.value))
  }

  /** Entry `e` is the one the pair designates: same track id, same item type. */
  predicate Matches(e: Entry, pair: (string, Mode)) {
    e.trackId == pair.0 && e.itemType == Some(ItemTypeName(pair.1))
  }

  /** `getCurrentTrackIndex`: `null` when the track id or the mode is
      unavailable; otherwise the position of the first matching entry, or -1. */
  function CurrentTrackIndex(page: Snapshot, urlTrackId: UrlTrackId): (r: JsIndex)
    ensures r.Null? <==> CurrentPair(page, urlTrackId).None?
    ensures r.Num? ==> -1 <= r.n < |page.entries|
    ensures r.Num? && r.n >= 0 ==> Matches(page.entries[r.n], CurrentPair(page, urlTrackId).value)
    ensures r.Num? ==> forall j :: 0 <= j < r.n ==> !Matches(page.entries[j], CurrentPair(page, urlTrackId).value)
    ensures r == Num(-1) <==> CurrentPair(page, urlTrackId).Some?
                              && forall j :: 0 <= j < |page.entries| ==> !Matches(page.entries[j], CurrentPair(page, urlTrackId).value)
  {
    match CurrentPair(page, urlTrackId)
    case None => Null
    case Some(pair) => Num(FindIndex(page.entries, e => Matches(e, pair)))
  }

  /** When the pair occurs at exactly one position of the listing, that
      position is the current index. */
  lemma UniqueMatchIsCurrent(page: Snapshot, urlTrackId: UrlTrackId, p: nat)
    requires CurrentPair(page, urlTrackId).Some?
    requires p < |page.entries| && Matches(page.entries[p], CurrentPair(page, urlTrackId).value)
    requires forall j :: 0 <= j < |page.entries| && j != p ==> !Matches(page.entries[j], CurrentPair(page, urlTrackId).value)
    ensures CurrentTrackIndex(page, urlTrackId) == Num(p)
  {
  }

  /** The current index depends on the audio source, the controls attribute
      and the listing only: the links and the audio element's play state do
      not affect it. */
  lemma CurrentIndexIgnoresLinksAndPlayState(page: Snapshot, page': Snapshot, urlTrackId: UrlTrackId)
    requires page.controls == page'.controls && page.entries == page'.entries
    requires page.audio.None? <==> page'.audio.None?
    requires page.audio.Some? ==> page.audio.value.src == page'.audio.value.src
    ensures CurrentTrackIndex(page, urlTrackId) == CurrentTrackIndex(page', urlTrackId)
  {
  }
}
