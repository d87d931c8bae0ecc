/** The popup's decisions: which tabs are candidates, which tab commands go
    to (remembering the choice), and what it shows for a response. */
module Popup {
  import opened Options
  import opened Seqs
  import opened Text
  import opened Dom
  import opened Extract
  import opened Protocol
  import Dispatch
  import Tracking
  import Watcher

  /** A browser tab: its id and its URL, when the browser exposes one. */
  datatype Tab = Tab(id: int, url: Option<string>)

  /** The local preference store, as far as tab selection uses it. */
  type Store = map<string, int>

  const SelectedTabKey: string := "selectedTabId"

  /** `tab.url?.includes("bandcamp.com")`. */
  predicate IsBandcampTab(t: Tab) {
    t.url.Some? && Includes(t.url.value, "bandcamp.com")
  }

  /** The `getBandcampTabs` filter: the tabs showing a bandcamp.com page, in
      the browser's order. */
  function BandcampTabs(tabs: seq<Tab>): (r: seq<Tab>)
    ensures |r| <= |tabs|
    ensures forall i :: 0 <= i < |r| ==> r[i] in tabs && IsBandcampTab(r[i])
    ensures forall i :: 0 <= i < |tabs| && IsBandcampTab(tabs[i]) ==> tabs[i] in r
  {
    Filter(tabs, IsBandcampTab)
  }

  /** The filter keeps the browser's order: the candidates of two runs of
      tabs are the candidates of the first run followed by those of the
      second. */
  lemma BandcampTabsKeepOrder(a: seq<Tab>, b: seq<Tab>)
    ensures BandcampTabs(a + b) == BandcampTabs(a) + BandcampTabs(b)
  {
    FilterAppend(a, b, IsBandcampTab);
  }

  /** A tab qualifies exactly when "bandcamp.com" occurs in its URL. */
  lemma BandcampTabMeansOccurs(t: Tab)
    requires t.url.Some?
    ensures IsBandcampTab(t) <==> exists i :: OccursAt(t.url.value, "bandcamp.com", i)
  {
    IncludesIffOccurs(t.url.value, "bandcamp.com");
  }

  /** The stored tab id, if any. */
  function StoredTabId(store: Store): (r: Option<int>) {
    if SelectedTabKey in store then Some(store[SelectedTabKey]) else None
  }

  /** The result of a tab selection: the tab, and the store afterwards. */
  datatype Selection = Selection(tab: Option<Tab>, store: Store)

  /** Some tab in `tabs` has the stored id. */
  predicate HasStoredTab(tabs: seq<Tab>, store: Store) {
    exists k :: 0 <= k < |tabs| && StoredTabId(store) == Some(tabs[k].id)
  }

  /** `getValidSelectedTab`: the stored tab if it is among `tabs`; otherwise
      the first tab, remembered in the store; nothing when there are no tabs. */
  function ValidSelectedTab(tabs: seq<Tab>, store: Store): (r: Selection)
    ensures HasStoredTab(tabs, store) ==>
      && r.store == store
      && r.tab.Some? && StoredTabId(store) == Some(r.tab.value.id)
      && exists k :: 0 <= k < |tabs| && tabs[k] == r.tab.value && forall j :: 0 <= j < k ==> StoredTabId(store) != Some(tabs[j].id)
    ensures !HasStoredTab(tabs, store) && |tabs| > 0 ==>
      r == Selection(Some(tabs[0]), store[SelectedTabKey := tabs[0].id])
    ensures |tabs| == 0 ==> r == Selection(None, store)
    ensures r.tab.None? <==> |tabs| == 0
    ensures r.tab.Some? ==> r.tab.value in tabs
  {
    var stored := StoredTabId(store);
    match Find(tabs, (t: Tab) => stored == Some(t.id))
    case Some(found) => Selection(Some(found), store)
    case None =>
      if |tabs| > 0 then Selection(Some(tabs[0]), store[SelectedTabKey := tabs[0].id])
      else Selection(None, store)
  }

  /** The fallback choice is remembered: selecting again from the same tabs
      with the updated store returns the same tab and writes nothing. */
  lemma SelectionIsStable(tabs: seq<Tab>, store: Store)
    ensures var s := ValidSelectedTab(tabs, store); ValidSelectedTab(tabs, s.store) == s
  {
    var s := ValidSelectedTab(tabs, store);
    if |tabs| > 0 && !HasStoredTab(tabs, store) {
      assert StoredTabId(s.store) == Some(tabs[0].id);
      assert HasStoredTab(tabs, s.store);
      var t := ValidSelectedTab(tabs, s.store);
      var k :| 0 <= k < |tabs| && tabs[k] == t.tab.value && forall j :: 0 <= j < k ==> StoredTabId(s.store) != Some(tabs[j].id);
      assert k == 0;
    }
  }

  /** A message addressed to a tab. */
  datatype Send = Send(tabId: int, message: Message)

  /** The result of `controlMessage`: the message sent, if any, and the store. */
  datatype Control = Control(sent: Option<Send>, store: Store)

  /** `controlMessage`: resolve the target among the bandcamp tabs and send
      it the message's tag; send nothing when no tab resolves. */
  function ControlMessage(allTabs: seq<Tab>, store: Store, msg: Message): (r: Control)
    ensures r.sent.None? <==> BandcampTabs(allTabs) == []
    ensures r.sent.Some? ==> r.sent.value.message == TagOnly(msg)
    ensures r.sent.Some? ==> exists t :: t in allTabs && IsBandcampTab(t) && t.id == r.sent.value.tabId
    ensures r.sent.Some? ==> r.sent.value.tabId == ValidSelectedTab(BandcampTabs(allTabs), store).tab.value.id
    ensures r.store == ValidSelectedTab(BandcampTabs(allTabs), store).store
  {
    var sel := ValidSelectedTab(BandcampTabs(allTabs), store);
    match sel.tab
    case None => Control(None, sel.store)
    case Some(t) => Control(Some(Send(t.id, TagOnly(msg))), sel.store)
  }

  /** The commands the popup's buttons send arrive unchanged, while a
      `PLAY_TRACK_INDEX` sent through `controlMessage` loses its index: the
      page clicks no link, whatever index was asked for. */
  lemma ControlMessageDropsIndex(allTabs: seq<Tab>, store: Store, msg: Message, w: Watcher.World, urlTrackId: UrlTrackId)
    requires BandcampTabs(allTabs) != []
    ensures var sent := ControlMessage(allTabs, store, msg).sent;
      sent.Some? && (!msg.PlayTrackIndex? ==> sent.value.message == msg)
    ensures msg.PlayTrackIndex? ==>
      Dispatch.Handle(w, ControlMessage(allTabs, store, msg).sent.value.message, urlTrackId).effects == []
  {
  }

  /** A button's CSS `display`. */
  datatype Display = Hidden | InlineBlock

  datatype Buttons = Buttons(play: Display, pause: Display)

  /** `updatePlayPauseButtons`: exactly one of the two buttons shows, and it
      is pause exactly while playing. */
  function PlayPauseButtons(isPlaying: bool): (r: Buttons)
    ensures (r.play == InlineBlock) != (r.pause == InlineBlock)
    ensures r.pause == InlineBlock <==> isPlaying
  {
    if isPlaying then Buttons(Hidden, InlineBlock) else Buttons(InlineBlock, Hidden)
  }

  /** One rendered listing row: its track, and whether it carries the
      `playing` class. */
  datatype Row = Row(track: TrackRef, playing: bool)

  /** What the popup shows for a response: the "no tracks" line, or the rows;
      `current` is the track shown as the current one (`None` leaves the
      current-track display as it was). */
  datatype View =
    | NoTracks(buttons: Buttons)
    | Listing(rows: seq<Row>, buttons: Buttons, current: Option<TrackRef>)

  /** The response branch of `renderTrackList`. */
  function RenderResponse(resp: Option<Response>): (v: View)
    ensures v.NoTracks? <==> resp.None? || resp.value.tracks.None? || resp.value.tracks.value == []
    ensures v.NoTracks? ==> v.buttons == PlayPauseButtons(false)
    ensures v.Listing? ==>
      var tracks := resp.value.tracks.value;
      && |v.rows| == |tracks|
      && v.buttons == PlayPauseButtons(resp.value.isPlaying)
      && (forall i :: 0 <= i < |v.rows| ==> v.rows[i].track == tracks[i])
      && (forall i :: 0 <= i < |v.rows| ==> (v.rows[i].playing <==> resp.value.currentIndex == Num(i)))
    ensures v.Listing? ==>
      var tracks, c := resp.value.tracks.value, resp.value.currentIndex;
      (v.current.Some? <==> c.Num? && 0 <= c.n < |tracks|)
      && (v.current.Some? ==> v.current.value == tracks[c.n])
  {
    if resp.None? || resp.value.tracks.None? || resp.value.tracks.value == [] then
      NoTracks(PlayPauseButtons(false))
    else
      var tracks, c := resp.value.tracks.value, resp.value.currentIndex;
      Listing(
        seq(|tracks|, i requires 0 <= i < |tracks| => Row(tracks[i], c == Num(i))),
        PlayPauseButtons(resp.value.isPlaying),
        if c.Num? && 0 <= c.n < |tracks| then Some(tracks[c.n]) else None)
  }

  /** At most one row is marked playing, and none when the index is `null`
      or -1. */
  lemma AtMostOnePlaying(resp: Option<Response>, i: int, j: int)
    requires RenderResponse(resp).Listing?
    requires 0 <= i < |RenderResponse(resp).rows| && 0 <= j < |RenderResponse(resp).rows|
    ensures RenderResponse(resp).rows[i].playing && RenderResponse(resp).rows[j].playing ==> i == j
    ensures resp.value.currentIndex in {Null, Num(-1)} ==> !RenderResponse(resp).rows[i].playing
  {
  }

  /** Rendering what the page controller answers to GET_TRACKS: with no
      audio element the handler throws and the popup shows "no tracks";
      otherwise a non-empty listing is shown with exactly the current entry
      marked and the buttons following the audio element's state. */
  lemma RenderGetTracks(w: Watcher.World, urlTrackId: UrlTrackId)
    ensures w.page.audio.None? ==>
      RenderResponse(Dispatch.Delivered(Dispatch.Handle(w, GetTracks, urlTrackId).reply)).NoTracks?
    ensures w.page.audio.Some? && |w.page.entries| > 0 ==>
      var v := RenderResponse(Dispatch.Delivered(Dispatch.Handle(w, GetTracks, urlTrackId).reply));
      && v.Listing? && |v.rows| == |w.page.entries|
      && (v.buttons.pause == InlineBlock <==> Dispatch.IsPlaying(w.page.audio.value))
      && forall i :: 0 <= i < |v.rows| ==>
           (v.rows[i].playing <==> Tracking.CurrentTrackIndex(w.page, urlTrackId) == Num(i))
  {
  }
}
