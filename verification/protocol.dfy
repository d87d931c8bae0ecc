/** The messages the popup sends to the page controller, and the one response
    shape, `GET_TRACKS`'s. */
module Protocol {
  import opened Options
  import opened Dom
  import opened Extract

  /** A message, by its `type` tag. `Other` stands for any tag the dispatcher
      does not recognise. */
  datatype Message =
    | GetTracks
    | NextTrack
    | PrevTrack
    | PlayTrackIndex(index: int)
    | Play
    | Pause
    | OpenAlbum
    | Other(tag: string)

  /** The message as it arrives when only its `type` tag is sent, as in
      `{ type }`: a payload is lost. `PLAY_TRACK_INDEX` then reads an
      undefined index, which selects no link; -1 stands for it, since it too
      lies outside every list of links. */
  function TagOnly(msg: Message): (r: Message)
    ensures r.PlayTrackIndex? <==> msg.PlayTrackIndex?
    ensures r.PlayTrackIndex? ==> r.index < 0
    ensures !msg.PlayTrackIndex? ==> r == msg
  {
    if msg.PlayTrackIndex? then PlayTrackIndex(-1) else msg
  }

  /** A `GET_TRACKS` response as the popup receives it. `tracks` is optional
      because the popup does not trust the response's shape. */
  datatype Response = Response(tracks: Option<seq<TrackRef>>, currentIndex: JsIndex, isPlaying: bool)
}
