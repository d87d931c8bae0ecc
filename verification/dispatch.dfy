/** The page controller's message handler: one closed set of commands, each
    read against one snapshot of the page. */
module Dispatch {
  import opened Options
  import opened Dom
  import opened Tracking
  import opened Transport
  import opened Extract
  import opened Watcher
  import opened Protocol

  /** What goes back to the sender: nothing, the `GET_TRACKS` data, or the
      handler threw before answering. The sender sees the last two of these
      alike, as an absent response. */
  datatype Reply = NoReply | Tracks(response: Response) | Threw

  /** The outcome of handling one message: the controller's new state, what
      it did to the page, and its reply. */
  datatype Outcome = Outcome(world: World, effects: seq<Effect>, reply: Reply)

  /** The response as the sender's callback receives it. */
  function Delivered(reply: Reply): (r: Option<Response>)
    ensures r.Some? <==> reply.Tracks?
    ensures reply.Tracks? ==> r == Some(reply.response)
  {
    match reply
    case Tracks(resp) => Some(resp)
    case _ => None
  }

  /** There is an audio element and it has a source: `audio && !!audio.src`. */
  predicate HasTrack(page: Snapshot) {
    page.audio.Some? && page.audio.value.src != []
  }

  /** `isPlaying`: the audio element is neither paused nor ended. */
  predicate IsPlaying(a: Audio) {
    !a.paused && !a.ended
  }

  /** The `onMessage` listener. */
  function Handle(w: World, msg: Message, urlTrackId: UrlTrackId): (r: Outcome)
    // only GET_TRACKS answers, and it fails exactly when there is no audio element
    ensures !msg.GetTracks? ==> r.reply.NoReply?
    ensures msg.GetTracks? ==> (r.reply.Threw? <==> w.page.audio.None?)
    ensures msg.GetTracks? ==> (r.reply.Tracks? <==> w.page.audio.Some?)
    ensures r.reply.Tracks? ==>
      && r.reply.response.tracks == Some(ListTracks(w.page.entries))
      && r.reply.response.currentIndex == CurrentTrackIndex(w.page, urlTrackId)
      && (r.reply.response.isPlaying <==> IsPlaying(w.page.audio.value))
    // the page's content never changes; only the re-arming commands touch the watcher
    ensures SameButBinding(w.page, r.world.page)
    ensures r.world != w ==> msg.PlayTrackIndex? || (msg.Play? && !HasTrack(w.page))
    ensures msg.GetTracks? || msg.Other? ==> r.effects == []
    ensures msg.NextTrack? ==> r.effects == PlayNext(w.page, urlTrackId)
    ensures msg.PrevTrack? ==> r.effects == PlayPrev(w.page, urlTrackId)
    ensures msg.OpenAlbum? ==> r.effects == OpenCurrentAlbum(w.page, urlTrackId)
    ensures msg.PlayTrackIndex? ==>
      r.effects == PlayTrackByIndex(w.page.links, msg.index) && r.world == ObserveAudio(w)
    // PLAY resumes an audio element that has a source; otherwise it starts the
    // first link and re-arms the watcher
    ensures msg.Play? && HasTrack(w.page) ==> r.effects == [ResumePlayback] && r.world == w
    ensures msg.Play? && !HasTrack(w.page) ==>
      r.effects == PlayTrackByIndex(w.page.links, 0) && r.world == ObserveAudio(w)
    // PAUSE acts under the same condition and otherwise does nothing
    ensures msg.Pause? ==> r.effects == (if HasTrack(w.page) then [PausePlayback] else [])
  {
    match msg
    case GetTracks =>
      var currentIndex := CurrentTrackIndex(w.page, urlTrackId);
      var tracks := ListTracks(w.page.entries);
      if w.page.audio.None? then Outcome(w, [], Threw)
      else Outcome(w, [], Tracks(Response(Some(tracks), currentIndex, IsPlaying(w.page.audio.value))))
    case NextTrack => Outcome(w, PlayNext(w.page, urlTrackId), NoReply)
    case PrevTrack => Outcome(w, PlayPrev(w.page, urlTrackId), NoReply)
    case PlayTrackIndex(i) => Outcome(ObserveAudio(w), PlayTrackByIndex(w.page.links, i), NoReply)
    case Play =>
      if HasTrack(w.page) then Outcome(w, [ResumePlayback], NoReply)
      else Outcome(ObserveAudio(w), PlayTrackByIndex(w.page.links, 0), NoReply)
    case Pause => Outcome(w, if HasTrack(w.page) then [PausePlayback] else [], NoReply)
    case OpenAlbum => Outcome(w, OpenCurrentAlbum(w.page, urlTrackId), NoReply)
    case Other(_) => Outcome(w, [], NoReply)
  }

  /** PLAY on a page with no audio element clicks the first link and, once
      the host page creates the element, the watcher is Bound with exactly
      one listener and no observer left connected. */
  lemma PlayWithoutAudioThenAppear(w: World, urlTrackId: UrlTrackId, next: Snapshot)
    requires w.page.audio.None? && |w.page.links| > 0
    requires next.audio.Some? && !next.audio.value.bound && next.audio.value.handlers == 0
    ensures Handle(w, Play, urlTrackId).effects == [ClickLink(0)]
    ensures var after := DomMutation(Handle(w, Play, urlTrackId).world, next);
      WatchOf(after.page) == Bound && after.observers == 0 && after.page.audio.value.handlers == 1
  {
    ObserveThenAppear(w, next);
  }

  /** NEXT_TRACK and PREV_TRACK do not re-arm the watcher: if the host page
      replaces the audio element after them while no observer is connected,
      the new element stays Unbound. */
  lemma NextDoesNotRearm(w: World, urlTrackId: UrlTrackId, next: Snapshot)
    requires w.observers == 0
    requires next.audio.Some? && !next.audio.value.bound
    ensures Handle(w, NextTrack, urlTrackId).world == w
    ensures WatchOf(DomMutation(Handle(w, NextTrack, urlTrackId).world, next).page) == Unbound
  {
  }

  /** Re-arming reads the snapshot the command runs on. With an audio element
      present, PLAY_TRACK_INDEX binds that element and connects no observer,
      so an unmarked replacement appearing later stays Unbound, as after
      NEXT_TRACK. */
  lemma RearmBindsPresentElementOnly(w: World, i: int, urlTrackId: UrlTrackId, next: Snapshot)
    requires w.observers == 0 && w.page.audio.Some?
    requires next.audio.Some? && !next.audio.value.bound
    ensures Handle(w, PlayTrackIndex(i), urlTrackId).world.observers == 0
    ensures WatchOf(DomMutation(Handle(w, PlayTrackIndex(i), urlTrackId).world, next).page) == Unbound
  {
  }

  /** Two standalone tracks "1" and "2" listed with a link each, the audio
      playing track "1" in track mode: GET_TRACKS reports index 0 and
      NEXT_TRACK clicks the second link. */
  lemma TwoTrackScenario(w: World, urlTrackId: UrlTrackId, e1: Entry, e2: Entry, id: string)
    requires e1.trackId == "1" && e1.itemType == Some("track")
    requires e2.trackId == "2" && e2.itemType == Some("track")
    requires w.page.entries == [e1, e2] && |w.page.links| == 2
    requires w.page.audio.Some? && urlTrackId(w.page.audio.value.src) == Some("1")
    requires w.page.controls == Some(Controls(Some(EncodeCollectItem(Track, id))))
    ensures Delivered(Handle(w, GetTracks, urlTrackId).reply).value.currentIndex == Num(0)
    ensures Handle(w, NextTrack, urlTrackId).effects == [ClickLink(1)]
  {
    CollectItemRoundTrip(w.page, Track, id);
    assert Matches(e1, ("1", Track));
  }
}
