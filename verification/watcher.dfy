/** The completion watcher: the controller adds one `ended` listener to the
    page's audio element, guarded by a marker on the element, and watches the
    page for an audio element to appear when there is none yet. */
module Watcher {
  import opened Options
  import opened Dom
  import opened Transport

  /** The page, and how many page-mutation observers the controller has
      connected and not yet disconnected. */
  datatype World = World(page: Snapshot, observers: nat)

  /** The watcher's two states: the current audio element carries the
      controller's listener, or there is no such element. */
  datatype Watch = Unbound | Bound

  function WatchOf(page: Snapshot): (w: Watch) {
    if page.audio.Some? && page.audio.value.bound then Bound else Unbound
  }

  /** Two audio elements are the same element apart from the controller's
      marker and listeners. */
  predicate SameElement(a: Audio, b: Audio) {
    a.src == b.src && a.paused == b.paused && a.ended == b.ended
  }

  /** Two snapshots agree on everything but the controller's binding of the
      audio element. */
  predicate SameButBinding(p: Snapshot, q: Snapshot) {
    && p.controls == q.controls && p.entries == q.entries && p.links == q.links
    && (p.audio.None? <==> q.audio.None?)
    && (p.audio.Some? ==> SameElement(p.audio.value, q.audio.value))
  }

  /** `bindAudioEvents`: add the `ended` listener and set the marker, unless
      the marker is already set. */
  function BindAudio(a: Audio): (r: Audio)
    ensures r.bound
    ensures SameElement(a, r)
    ensures a.bound ==> r == a
    ensures !a.bound ==> r.handlers == a.handlers + 1
  {
    if a.bound then a else a.(bound := true, handlers := a.handlers + 1)
  }

  /** `n` binding attempts on the same element. */
  function BindRepeatedly(a: Audio, n: nat): (r: Audio)
    decreases n
  {
    if n == 0 then a else BindRepeatedly(BindAudio(a), n - 1)
  }

  /** Binding is idempotent: any number of attempts after the first adds no
      further listener. */
  lemma {:induction false} BindRepeatedlyIsBindOnce(a: Audio, n: nat)
    requires n >= 1
    ensures BindRepeatedly(a, n) == BindAudio(a)
    decreases n
  {
    if n > 1 {
      BindRepeatedlyIsBindOnce(BindAudio(a), n - 1);
    }
  }

  /** `observeAudioElement`: bind the audio element if there is one and
      connect no observer; otherwise connect one more observer. */
  function ObserveAudio(w: World): (r: World)
    ensures w.page.audio.Some? ==> WatchOf(r.page) == Bound && r.observers == w.observers
    ensures w.page.audio.Some? ==> r.page.audio == Some(BindAudio(w.page.audio.value))
    ensures w.page.audio.None? ==> r == w.(observers := w.observers + 1)
    ensures SameButBinding(w.page, r.page)
  {
    match w.page.audio
    case Some(a) => w.(page := w.page.(audio := Some(BindAudio(a))))
    case None => w.(observers := w.observers + 1)
  }

  /** Re-arming while an audio element is present adds no second listener:
      observing twice is observing once. */
  lemma ObserveAgainAddsNothing(w: World)
    requires w.page.audio.Some?
    ensures ObserveAudio(ObserveAudio(w)) == ObserveAudio(w)
  {
  }

  /** `setup`: bind the audio element if there is one, otherwise start
      observing. */
  function Setup(w: World): (r: World)
    ensures w.page.audio.Some? ==> WatchOf(r.page) == Bound && r.observers == w.observers
    ensures w.page.audio.Some? ==> r.page.audio == Some(BindAudio(w.page.audio.value))
    ensures w.page.audio.None? ==> r.observers == w.observers + 1 && r.page == w.page
  {
    match w.page.audio
    case Some(a) => w.(page := w.page.(audio := Some(BindAudio(a))))
    case None => ObserveAudio(w)
  }

  /** The two start-up routes agree: `setup` behaves as `observeAudioElement`. */
  lemma SetupIsObserve(w: World)
    ensures Setup(w) == ObserveAudio(w)
  {
  }

  /** The host page changes to `next`. Every connected observer runs: when
      `next` has an audio element, each binds it (the marker makes all but
      the first do nothing) and disconnects; otherwise they keep observing. */
  function DomMutation(w: World, next: Snapshot): (r: World)
    ensures w.observers > 0 && next.audio.Some? ==>
      && r.observers == 0 && WatchOf(r.page) == Bound
      && r.page.audio.value.handlers == next.audio.value.handlers + (if next.audio.value.bound then 0 else 1)
    ensures !(w.observers > 0 && next.audio.Some?) ==> r == World(next, w.observers)
    ensures SameButBinding(next, r.page)
  {
    if w.observers > 0 && next.audio.Some? then
      BindRepeatedlyIsBindOnce(next.audio.value, w.observers);
      World(next.(audio := Some(BindRepeatedly(next.audio.value, w.observers))), 0)
    else
      World(next, w.observers)
  }

  /** `autoPlayNextTrack`: on completion, play the next track if the autoplay
      preference is set. */
  function AutoPlayNext(page: Snapshot, urlTrackId: UrlTrackId, autoplay: bool): (r: seq<Effect>)
    ensures !autoplay ==> r == []
    ensures autoplay ==> r == PlayNext(page, urlTrackId)
  {
    if autoplay then PlayNext(page, urlTrackId) else []
  }

  /** The audio element fires `ended`: each of the controller's listeners on
      it runs `autoPlayNextTrack` once. */
  function OnEnded(page: Snapshot, urlTrackId: UrlTrackId, autoplay: bool): (r: seq<seq<Effect>>)
    ensures page.audio.None? ==> r == []
    ensures page.audio.Some? ==> |r| == page.audio.value.handlers
    ensures forall k :: 0 <= k < |r| ==> r[k] == AutoPlayNext(page, urlTrackId, autoplay)
  {
    match page.audio
    case None => []
    case Some(a) => seq(a.handlers, _ => AutoPlayNext(page, urlTrackId, autoplay))
  }

  /** A new element, bound any number of times, runs the autoplay check
      exactly once per completion. */
  lemma EndedRunsOnce(page: Snapshot, urlTrackId: UrlTrackId, autoplay: bool, a: Audio, n: nat)
    requires !a.bound && a.handlers == 0 && n >= 1
    requires page.audio == Some(BindRepeatedly(a, n))
    ensures OnEnded(page, urlTrackId, autoplay) == [AutoPlayNext(page, urlTrackId, autoplay)]
  {
    BindRepeatedlyIsBindOnce(a, n);
  }

  /** With autoplay off, a completion triggers no effect. */
  lemma EndedWithoutAutoplayDoesNothing(page: Snapshot, urlTrackId: UrlTrackId, k: nat)
    requires k < |OnEnded(page, urlTrackId, false)|
    ensures OnEnded(page, urlTrackId, false)[k] == []
  {
  }

  /** From a page with no audio element, observing and then the element's
      appearance end in the Bound state with the observer disconnected and
      exactly one listener on the new element. */
  lemma ObserveThenAppear(w: World, next: Snapshot)
    requires w.page.audio.None?
    requires next.audio.Some? && !next.audio.value.bound && next.audio.value.handlers == 0
    ensures var r := DomMutation(ObserveAudio(w), next);
      WatchOf(r.page) == Bound && r.observers == 0 && r.page.audio.value.handlers == 1
  {
  }

  /** Without a connected observer, an element the host page puts in place of
      the old one stays Unbound. */
  lemma ReplacedElementWithoutObserverStaysUnbound(w: World, next: Snapshot)
    requires w.observers == 0
    requires next.audio.Some? && !next.audio.value.bound
    ensures WatchOf(DomMutation(w, next).page) == Unbound
  {
  }
}
