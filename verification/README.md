# Bandcamp wishlist autoplayer: page controller and popup decisions in Dafny

This project models the core of a browser extension. The extension autoplays a Bandcamp
collection/wishlist page and lets a popup control it remotely. The model covers the
page-side controller and the popup's decisions:

- **Page controller.** It works out which listing entry is playing. To do so it reads the
  audio element's source (`track_id`), the player controls' `data-collect-item` attribute
  (album or track mode) and the `li[data-trackid]` listing. Next, previous, play-by-index,
  and PLAY when there is no playable audio, click `a[data-trackid]` links. Otherwise PLAY
  and PAUSE act on the audio element natively, and open-album opens a URL in a new tab.
  It keeps one
  `ended` listener on the audio element, guarded by a marker on the element, and watches
  the page for a new element. It answers `GET_TRACKS` with the extracted listing.
- **Popup.** It picks candidate tabs, chooses the target tab and remembers that choice. It
  decides whether to send a command at all. From a `GET_TRACKS` response it decides what
  to show: "no tracks", the rows with the playing one marked, and play or pause.

The page is an immutable `Dom.Snapshot`: an optional audio element, an optional controls
region, the listing entries and the links. Every command is a pure function of one
snapshot. Its result is a list of `Dom.Effect`s: click link k, resume, pause, or open a
URL. The completion watcher is a `Watcher.World`, meaning the snapshot plus the number of
connected page observers. A host-page change is the explicit transition
`Watcher.DomMutation`.

JavaScript values are modelled as the code treats them:

- A listing position is `Dom.JsIndex`, which is `null` or a number. `null + 1` is 1 and
  `null > 0` is false.
- `x || null` turns the empty string into an absent value.
- `trim` and `\s` use ECMAScript's full white-space set.
- `getAllTrackLinks()[null]` and `[-1]` are undefined.

Modules: `Options`, `Seqs` (JavaScript's `findIndex`, `find`, `filter`), `Text`, `Dom`,
`Tracking`, `Transport`, `Extract`, `Watcher`, `Protocol`, `Dispatch` (the `onMessage`
listener) and `Popup`.

## Behaviour as written

These points follow the code where a plain reading of the extension's intent says
otherwise:

- **Next with no current index.** When the track id or the mode is unavailable,
  `getCurrentTrackIndex` returns `null`. `playNextTrack` then computes `null + 1`, which
  is 1, so it clicks the second link rather than the first (`Transport.NextFromUnavailable`).
  Only a real "not found" (-1) starts from the first link.
- **Re-arming the watcher.** Only `PLAY` (when there is no playable audio) and
  `PLAY_TRACK_INDEX` re-arm it. `NEXT_TRACK` and `PREV_TRACK` do not. Re-arming binds an
  audio element that is present when the command runs. It connects an observer only
  when no element is present. So if the host page replaces the element later and no
  observer is connected, the new element stays unbound and autoplay stops. This happens
  after `NEXT_TRACK` (`Dispatch.NextDoesNotRearm`), and equally after `PLAY_TRACK_INDEX`
  on a page that already had an element (`Dispatch.RearmBindsPresentElementOnly`).
- **`controlMessage` sends only the tag.** It posts `{ type }`, so a payload never
  reaches the page. No button sends `PLAY_TRACK_INDEX` this way, but one that did would
  click no link (`Popup.ControlMessageDropsIndex`).
- **`GET_TRACKS` without an audio element.** Reading `paused` on `null` throws, so no
  response is sent. The popup receives an absent response and shows "no tracks"
  (`Popup.RenderGetTracks`).
- **Indented artist line.** `replace(/^by\s+/, "")` runs before `trim`. An artist line
  with white space before `by` therefore keeps the `by` (`Extract.ArtistIndentedKeepsBy`).

## Model

| member | source | states |
|---|---|---|
| Seqs.FindIndex | content.js:90-93 | `findIndex` returns -1 or a valid position. A returned position satisfies the predicate and no earlier one does. It is -1 exactly when no element satisfies it |
| Seqs.Find | popup.js:89 | `find` returns nothing exactly when no element satisfies the predicate. Otherwise it returns an element at a position that satisfies it, with no earlier position satisfying it |
| Seqs.Filter | popup.js:26-28 | `filter` keeps only elements that satisfy the predicate, and every element that satisfies it is kept |
| Seqs.FilterAppend | popup.js:26-28 | Filtering a concatenation is the concatenation of the filtered parts, so the original order is kept |
| Text.OrNull | content.js:32-44 | A string or-ed with `null` is absent exactly for the empty string and is the string itself otherwise |
| Tracking.Matches | content.js:91-92 | An entry matches when its `data-trackid` equals the current track id and its `data-itemtype` equals the mode's name |
| Dom.PlusOne | content.js:108 | `currentIndex + 1` converts `null` to 0 first, so `null + 1` is 1 |
| Dom.IsPositive | content.js:113 | `currentIndex > 0` converts `null` to 0 first, so it is false for `null` |
| Text.Trim | content.js:36 | The trimmed text has no white space at either end, and it is what remains of the input once only white space is cut from its two ends |
| Text.TrimUnique | content.js:36 | Exactly one string is both free of white space at its ends and an infix of the input with only white space around it, so `trim` is fully determined by that contract |
| Text.TrimIdempotent | content.js:36 | An algebraic property of `trim`: trimming already-trimmed text changes nothing |
| Text.IncludesIffOccurs | popup.js:27 | `includes` holds exactly when the pattern occurs at some position of the string |
| Text.BeforeFirst | content.js:121 | `href.split("?")[0]` is the longest prefix of the link with no `?`; when it is shorter than the link, the next character is `?` |
| Tracking.CollectItemType | content.js:67-80 | An attribute starting with `a` gives album mode and one starting with `t` gives track mode; no region, no attribute, an empty attribute or any other first character gives no mode |
| Tracking.CollectItemRoundTrip | content.js:64-66 | An attribute written as `a`/`t` plus an id reads back as the mode it encodes, for every id |
| Tracking.TrackIdFromAudio | content.js:5-12 | A page without an audio element yields no track id instead of an error; otherwise the id is the source URL's `track_id` |
| Tracking.CurrentPair | content.js:83-86 | The (track id, mode) pair exists only when the track id is present and non-empty and the mode is known |
| Tracking.CurrentTrackIndex | content.js:82-94 | The index is `null` exactly when the track id or the mode is unavailable. Otherwise it is the smallest position whose track id and item type both match, with every earlier entry not matching, or -1 exactly when no entry matches |
| Tracking.UniqueMatchIsCurrent | content.js:88-93 | When the pair matches exactly one entry, that entry's position is the current index |
| Tracking.CurrentIndexIgnoresLinksAndPlayState | content.js:82-94 | The current index depends only on the audio source, the controls attribute and the listing; the links and the paused/ended state do not affect it |
| Transport.PlayTrackByIndex | content.js:18-23 | Clicks link i exactly when 0 <= i < number of links; otherwise does nothing (no wraparound) |
| Transport.PlayNext | content.js:105-109 | Clicks at most one link, and only one that exists. From a numeric index it clicks position current+1 exactly when that link exists. It reaches the first link only when the current entry was not found, so it never wraps |
| Transport.NextFromUnavailable | content.js:107-108 | With a `null` index, next clicks the second link if there is one and otherwise does nothing |
| Transport.NextFromNotFound | content.js:105-109 | With index -1, next clicks the first link if there is one |
| Transport.PlayPrev | content.js:111-116 | Previous clicks link current-1 exactly when the index is a number greater than 0 and that link exists; otherwise it does nothing |
| Transport.PrevAtTopIsNoOp | content.js:113 | Previous does nothing for a `null`, -1 or 0 index |
| Transport.NextAndPrevAreNeighbours | content.js:105-116 | When next and previous both act on one snapshot, they click the links on either side of the current position |
| Transport.OpenCurrentAlbum | content.js:118-124 | Opens a tab exactly when the index is a number within the links. The URL opened is the current link's href up to its first `?` |
| Extract.TextOf | content.js:35-36 | A sub-element's text is reported trimmed and non-empty. It is absent exactly when the sub-element is missing or holds only white space |
| Extract.StripBy | content.js:40 | A line starting with `by` and white space loses `by` and all the white space after it; any other line is unchanged |
| Extract.ArtistOf | content.js:37-41 | The artist is absent when the artist line is missing; when present it is non-empty with no white space at its ends |
| Extract.ExtractInfo | content.js:29-62 | Each field is optional. The track id, item id, item type, album URL and cover URL are reported as found when non-empty, and are absent exactly when missing or empty. The album title is the trimmed title text and the artist is the artist line with `by` stripped, then trimmed. Every text field present is trimmed and non-empty. The track title falls back to the album title when the favourite-track text is missing or blank |
| Extract.ListTracks | content.js:160-162 | One record per listing entry, in document order |
| Extract.ArtistDropsBy | content.js:37-41 | An artist line `by`, white space, then a name reports the trimmed name |
| Extract.ArtistWithoutBy | content.js:37-41 | An artist line not starting with `by` and white space is only trimmed |
| Extract.ArtistIndentedKeepsBy | content.js:40-41 | White space before the artist line's text stops the `by` from being stripped; the line is only trimmed |
| Watcher.BindAudio | content.js:126-132 | After binding, the marker is set and the element is otherwise the same. An element already marked is left as it was; an unmarked one gains exactly one listener |
| Watcher.WatchOf | content.js:127-130 | The watcher is Bound exactly when an audio element exists and carries the `__autoplayerBound` marker, and Unbound otherwise |
| Watcher.BindRepeatedlyIsBindOnce | content.js:126-132 | Any number of binding attempts on one element has the effect of the first attempt alone |
| Watcher.ObserveAudio | content.js:134-153 | With an audio element present, it binds that element exactly as `bindAudioEvents` does and connects no observer. Without one, it connects exactly one more observer and changes nothing else |
| Watcher.ObserveAgainAddsNothing | content.js:134-138 | With an audio element present, re-arming a second time changes nothing, so repeated PLAY/PLAY_TRACK_INDEX add no second listener |
| Watcher.Setup | content.js:193-201 | Start-up binds an existing element exactly as `bindAudioEvents` does; without one it starts observing and leaves the page unchanged |
| Watcher.SetupIsObserve | content.js:193-201 | Start-up and `observeAudioElement` behave identically |
| Watcher.DomMutation | content.js:141-147 | When observers are connected and an audio element appears, all of them disconnect. The element ends Bound with exactly one new listener if it was unmarked. Otherwise the observers stay connected |
| Watcher.AutoPlayNext | content.js:96-103 | On completion, next runs exactly when the autoplay preference is set; otherwise nothing happens |
| Watcher.OnEnded | content.js:129 | A completion runs the autoplay check once per listener on the element |
| Watcher.EndedRunsOnce | content.js:126-132 | A new element bound any number of times runs the autoplay check exactly once per completion |
| Watcher.EndedWithoutAutoplayDoesNothing | content.js:100 | With autoplay off, a completion has no effect |
| Watcher.ObserveThenAppear | content.js:134-153 | From a page with no audio element, observing followed by the element's appearance ends Bound with no observer and one listener |
| Watcher.ReplacedElementWithoutObserverStaysUnbound | content.js:134-153 | With no observer connected, a replacement audio element stays Unbound |
| Dispatch.Delivered | popup.js:161-164 | The sender receives a response exactly when the handler answered with track data, and it is that answer unchanged |
| Dispatch.HasTrack | content.js:175 | There is an audio element and its source is non-empty, as `audio && !!audio.src` decides (the same test recurs at content.js:184) |
| Dispatch.IsPlaying | content.js:164 | Playing means the element is neither paused nor ended |
| Dispatch.Handle | content.js:155-191 | Only GET_TRACKS answers: it answers with track data exactly when there is an audio element, and throws otherwise. Its answer holds the extracted listing, the current index and whether the audio is neither paused nor ended. The page never changes, and only PLAY_TRACK_INDEX or PLAY without a playable source re-arm the watcher. PLAY resumes an audio element that has a source, else it clicks the first link and re-arms. PAUSE pauses under the same condition, else it does nothing. Unknown tags do nothing |
| Dispatch.PlayWithoutAudioThenAppear | content.js:173-181 | PLAY without an audio element clicks the first link. Once the element appears, the watcher is Bound with one listener and no observer |
| Dispatch.NextDoesNotRearm | content.js:166-167 | NEXT_TRACK leaves the watcher untouched, so a replacement element then stays Unbound |
| Dispatch.RearmBindsPresentElementOnly | content.js:170-172 | With an audio element present and no observer connected, PLAY_TRACK_INDEX connects no observer, so an unmarked replacement appearing later stays Unbound |
| Dispatch.TwoTrackScenario | content.js:158-167 | Tracks "1" and "2" are listed and track "1" plays in track mode. GET_TRACKS reports index 0 and NEXT_TRACK clicks the second link |
| Popup.BandcampTabs | popup.js:23-32 | Keeps exactly the tabs whose URL contains `bandcamp.com` |
| Popup.BandcampTabsKeepOrder | popup.js:26-28 | The filter keeps the browser's tab order: it distributes over concatenation |
| Popup.BandcampTabMeansOccurs | popup.js:26-28 | A tab qualifies exactly when `bandcamp.com` occurs somewhere in its URL |
| Text.Includes | popup.js:27 | `includes` on strings; IncludesIffOccurs states that it holds exactly when the pattern occurs at some position |
| Popup.IsBandcampTab | popup.js:26-28 | A tab qualifies when it has a URL and that URL contains `bandcamp.com`; a tab without a URL never qualifies, as `?.` yields undefined |
| Popup.StoredTabId | popup.js:2-8 | The stored selected tab id, absent when nothing is stored under `selectedTabId` |
| Popup.ValidSelectedTab | popup.js:87-98 | If the stored id is among the tabs, returns the first tab with that id and leaves the store unchanged. Otherwise, with tabs present, returns the first tab and stores its id. With no tabs, returns nothing and writes nothing |
| Popup.SelectionIsStable | popup.js:87-98 | Selecting again with the store the first selection left returns the same tab and writes nothing |
| Popup.ControlMessage | popup.js:144-152 | Sends nothing exactly when there is no bandcamp tab. Otherwise it sends the message's tag alone to the bandcamp tab that tab selection chooses, and the store is updated as tab selection does |
| Protocol.TagOnly | popup.js:149 | Sending only the `type` tag keeps every message but PLAY_TRACK_INDEX as it is. That one keeps its tag but arrives with an index outside every list of links |
| Popup.ControlMessageDropsIndex | popup.js:149 | With a bandcamp tab present, the button commands arrive unchanged, while a PLAY_TRACK_INDEX sent this way arrives without its index and the page clicks no link |
| Popup.PlayPauseButtons | popup.js:81-84 | Exactly one of play and pause is shown, and pause is the one shown exactly while playing |
| Popup.RenderResponse | popup.js:161-219 | A response that is absent, lacks `tracks` or has an empty list shows "no tracks" with play visible. Otherwise each track gets a row in order, with playing/pause shown as reported. A row is marked `playing` exactly when its position equals `currentIndex`, and the current track shown is that entry |
| Popup.AtMostOnePlaying | popup.js:206-207 | At most one row is marked `playing`, and none for an index of `null` or -1 |
| Popup.RenderGetTracks | popup.js:158-218 | With no audio element on the page, the popup shows "no tracks". With an audio element and a non-empty listing, it shows one row per entry, marks exactly the controller's current index, and shows pause exactly while the audio plays |

## Left out

- DOM queries and the `MutationObserver` API are not modelled. The page is an immutable
  snapshot, and a host-page change is the explicit `Watcher.DomMutation` transition.
- What a click does to the host page is not modelled: the host page's own behaviour is
  outside the extension. So a command shows only which link it clicks. The state after
  the host reacts (for example, the index reported by a later GET_TRACKS) is not derived.
- Message transport is not modelled. This covers `chrome.runtime` and `chrome.tabs`
  messaging, the popup's follow-up re-render after each command, and the tab-select
  `change` handler (popup.js:137-141). A message is a `Protocol.Message` value, and an
  undelivered response is an absent one.
- Preference storage is not modelled as an asynchronous API. The selected tab lives in a
  map (`Popup.Store`) and the autoplay preference is a boolean parameter. The language
  preference and `getCurrentLang` only affect presentation.
- Dispatch.Handle: re-arming reads the snapshot from before the command's click. A host
  page that replaces the audio element synchronously inside `click()`, the case the
  comments at content.js:172 and :180 anticipate, is not modelled. Such a replacement
  arrives only afterwards, through `Watcher.DomMutation`.
- Protocol.TagOnly: the undefined index that `{ type }` leaves behind is written as -1.
  Both select no link, and the model has no undefined value.
- Watcher.OnEnded: each listener's run is evaluated on the same snapshot. The asynchronous
  storage read between a completion and the next click, and the page changes in that
  window, are not modelled. The DOM's own removal of duplicate identical listeners is not
  relied on.
- `window.open`, `audio.play()`, `audio.pause()` and media playback appear only as effects.
- URL parsing in `getTrackIdFromAudio` is a parameter (`Dom.UrlTrackId`). It maps a
  source to its optional `track_id`.
- Presentation is not modelled: i18n strings, `setLanguage`, building `<option>` and
  `<img>` elements, the row label text, and the tab `<select>` in `renderTabSelect`
  (popup.js:101-135). Its target choice is `Popup.ValidSelectedTab`.
- `extractTrackOrAlbumInfo(null)` returning `null` is not modelled, because the listing
  never passes a missing element.
- `PLAY_TRACK_INDEX` carries an integer index; non-numeric indices are not modelled.
- `console.debug` logging is not modelled.
