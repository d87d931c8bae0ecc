/** The transport commands: play a listing position, next, previous and open
    the current album. Each is index arithmetic over the page's links,
    relative to the current index recomputed from the same snapshot. */
module Transport {
  import opened Text
  import opened Dom
  import opened Tracking

  /** `playTrackByIndex`: click link `i` if the page has one; otherwise do
      nothing. */
  function PlayTrackByIndex(links: seq<Link>, i: int): (r: seq<Effect>)
    ensures 0 <= i < |links| ==> r == [ClickLink(i)]
    ensures !(0 <= i < |links|) ==> r == []
  {
    if 0 <= i < |links| then [ClickLink(i)] else []
  }

  /** `playNextTrack`: play position current + 1, with `null` converted to 0. */
  function PlayNext(page: Snapshot, urlTrackId: UrlTrackId): (r: seq<Effect>)
    ensures |r| <= 1
    ensures r != [] ==> r[0].ClickLink? && r[0].index < |page.links|
    // never wraps around: the top link is reached only from "not found"
    ensures r != [] && r[0] == ClickLink(0) ==> CurrentTrackIndex(page, urlTrackId) == Num(-1)
    ensures r != [] && CurrentTrackIndex(page, urlTrackId).Num? ==> r[0].index == CurrentTrackIndex(page, urlTrackId).n + 1
    // from a numeric index, the following link is clicked whenever it exists
    ensures CurrentTrackIndex(page, urlTrackId).Num? && CurrentTrackIndex(page, urlTrackId).n + 1 < |page.links| ==>
      r == [ClickLink(CurrentTrackIndex(page, urlTrackId).n + 1)]
  {
    PlayTrackByIndex(page.links, PlusOne(CurrentTrackIndex(page, urlTrackId)))
  }

  /** `playPrevTrack`: play position current - 1, only when current > 0. */
  function PlayPrev(page: Snapshot, urlTrackId: UrlTrackId): (r: seq<Effect>)
    ensures r != [] <==> IsPositive(CurrentTrackIndex(page, urlTrackId)) && CurrentTrackIndex(page, urlTrackId).n - 1 < |page.links|
    ensures r != [] ==> r == [ClickLink(CurrentTrackIndex(page, urlTrackId).n - 1)]
  {
    var current := CurrentTrackIndex(page, urlTrackId);
    if IsPositive(current) then PlayTrackByIndex(page.links, current.n - 1) else []
  }

  /** `openCurrentAlbum`: open the current position's link, without its query
      string, in a new tab; nothing when `null` or -1 or past the links. */
  function OpenCurrentAlbum(page: Snapshot, urlTrackId: UrlTrackId): (r: seq<Effect>)
    ensures r != [] <==> var c := CurrentTrackIndex(page, urlTrackId); c.Num? && 0 <= c.n < |page.links|
    ensures r != [] ==> |r| == 1 && r[0].OpenTab?
    ensures r != [] ==>
      var href, url := page.links[CurrentTrackIndex(page, urlTrackId).n].href, r[0].url;
      && |url| <= |href| && href[..|url|] == url
      && '?' !in url
      && (|url| < |href| ==> href[|url|] == '?')
  {
    match CurrentTrackIndex(page, urlTrackId)
    case Null => []
    case Num(n) =>
      if 0 <= n < |page.links| then [OpenTab(BeforeFirst(page.links[n].href, '?'))] else []
  }

  /** Next with no current index (`null + 1` is 1) plays the second link,
      not the first. */
  lemma NextFromUnavailable(page: Snapshot, urlTrackId: UrlTrackId)
    requires CurrentTrackIndex(page, urlTrackId).Null?
    ensures PlayNext(page, urlTrackId) == (if |page.links| > 1 then [ClickLink(1)] else [])
  {
  }

  /** Next when the playing track is not in the listing plays the first link. */
  lemma NextFromNotFound(page: Snapshot, urlTrackId: UrlTrackId)
    requires CurrentTrackIndex(page, urlTrackId) == Num(-1)
    ensures PlayNext(page, urlTrackId) == (if |page.links| > 0 then [ClickLink(0)] else [])
  {
  }

  /** Previous does nothing when the current index is `null`, -1 or 0. */
  lemma PrevAtTopIsNoOp(page: Snapshot, urlTrackId: UrlTrackId)
    requires CurrentTrackIndex(page, urlTrackId).Null? || CurrentTrackIndex(page, urlTrackId).n <= 0
    ensures PlayPrev(page, urlTrackId) == []
  {
  }

  /** When both next and previous act on the same snapshot, they click the
      links on either side of the current position. */
  lemma NextAndPrevAreNeighbours(page: Snapshot, urlTrackId: UrlTrackId)
    requires PlayNext(page, urlTrackId) != [] && PlayPrev(page, urlTrackId) != []
    ensures PlayNext(page, urlTrackId)[0].index == PlayPrev(page, urlTrackId)[0].index + 2
    ensures PlayNext(page, urlTrackId)[0].index - 1 == CurrentTrackIndex(page, urlTrackId).n
  {
  }
}
