/** Turning listing entries into the track records the controller reports:
    every field is optional, text is trimmed, and an empty value is absent. */
module Extract {
  import opened Options
  import opened Text
  import opened Dom

  /** One reported listing entry. */
  datatype TrackRef = TrackRef(
    trackId: Option<string>,
    itemId: Option<string>,
    itemType: Option<string>,
    albumTitle: Option<string>,
    artist: Option<string>,
    trackTitle: Option<string>,
    albumUrl: Option<string>,
    coverUrl: Option<string>)

  /** A present text value: non-empty, with no white space at either end. */
  predicate CleanText(v: Option<string>) {
    v.Some? ==> v.value != [] && Trimmed(v.value)
  }

  /** `el?.textContent?.trim() || null`: the trimmed text of a sub-element,
      absent when the sub-element is missing or holds only white space. */
  function TextOf(t: Option<string>): (r: Option<string>)
    ensures CleanText(r)
    ensures r.None? <==> t.None? || AllSpace(t.value)
    ensures r.Some? ==> InfixBetweenSpaces(r.value, t.value)
  {
    match t
    case None => None
    case Some(s) =>
      var v := Trim(s);
      TrimEmptyIffAllSpace(s);
      OrNull(v)
  }

  /** The artist line starts with the word `by` followed by white space. */
  predicate StartsWithBy(s: string) {
    |s| >= 3 && s[0] == 'b' && s[1] == 'y' && IsSpace(s[2])
  }

  /** `s.replace(/^by\s+/, "")`: drop a leading `by` and the white space
      after it. Only a `by` at the very start counts: leading white space
      before it prevents the match. */
  function StripBy(s: string): (r: string)
    ensures StartsWithBy(s) ==> |r| < |s| - 2 && r == s[|s| - |r|..] && (r == [] || !IsSpace(r[0]))
    // only white space is removed after the `by`
    ensures StartsWithBy(s) ==> AllSpace(s[2..|s| - |r|])
    ensures !StartsWithBy(s) ==> r == s
  {
    if StartsWithBy(s) then
      var t := TrimStart(s[2..]);
      assert s[2..|s| - |t|] == s[2..][..|s| - 2 - |t|];
      t
    else s
  }

  /** The `artist` field: the artist line's text without its `by` prefix,
      trimmed, absent when empty. */
  function ArtistOf(t: Option<string>): (r: Option<string>)
    ensures CleanText(r)
    ensures t.None? ==> r.None?
  {
    match t
    case None => None
    case Some(s) => TextOf(Some(StripBy(s)))
  }

  /** `v || null` on an optional attribute or property: `r` is `v` when that
      is a non-empty string, and absent otherwise. */
  predicate KeptIfNonEmpty(v: Option<string>, r: Option<string>) {
    && (r.Some? <==> v.Some? && v.value != [])
    && (r.Some? ==> r == v)
  }

  /** `extractTrackOrAlbumInfo`: the record reported for one entry. */
  function ExtractInfo(e: Entry): (r: TrackRef)
    ensures r.trackId.Some? <==> e.trackId != []
    ensures r.trackId.Some? ==> r.trackId.value == e.trackId
    ensures KeptIfNonEmpty(e.itemId, r.itemId)
    ensures KeptIfNonEmpty(e.itemType, r.itemType)
    ensures r.albumTitle == TextOf(e.titleText)
    ensures r.artist == ArtistOf(e.artistText)
    ensures CleanText(r.albumTitle) && CleanText(r.artist) && CleanText(r.trackTitle)
    // the track title falls back to the album title when the favourite-track
    // text is missing or blank
    ensures TextOf(e.favTrackText).Some? ==> r.trackTitle == TextOf(e.favTrackText)
    ensures TextOf(e.favTrackText).None? ==> r.trackTitle == r.albumTitle
    ensures KeptIfNonEmpty(e.itemLinkHref, r.albumUrl)
    ensures KeptIfNonEmpty(e.coverSrc, r.coverUrl)
  {
    var albumTitle := TextOf(e.titleText);
    TrackRef(
      trackId := OrNull(e.trackId),
      itemId := if e.itemId.Some? then OrNull(e.itemId.value) else None,
      itemType := if e.itemType.Some? then OrNull(e.itemType.value) else None,
      albumTitle := albumTitle,
      artist := ArtistOf(e.artistText),
      trackTitle := if TextOf(e.favTrackText).Some? then TextOf(e.favTrackText) else albumTitle,
      albumUrl := if e.itemLinkHref.Some? then OrNull(e.itemLinkHref.value) else None,
      coverUrl := if e.coverSrc.Some? then OrNull(e.coverSrc.value) else None)
  }

  /** The records for a whole listing, one per entry, in document order. */
  function ListTracks(entries: seq<Entry>): (r: seq<TrackRef>)
    ensures |r| == |entries|
    ensures forall i :: 0 <= i < |r| ==> r[i] == ExtractInfo(entries[i])
  {
    seq(|entries|, i requires 0 <= i < |entries| => ExtractInfo(entries[i]))
  }

  /** An artist line `by`, white space, then a name reports just the name,
      trimmed. */
  lemma ArtistDropsBy(w: string, name: string)
    requires w != [] && AllSpace(w)
    ensures ArtistOf(Some("by" + w + name)) == TextOf(Some(name))
  {
    var s := "by" + w + name;
    assert s[0] == 'b' && s[1] == 'y' && s[2] == w[0];
    assert IsSpace(w[0]);
    assert StartsWithBy(s);
    assert s[2..] == w + name;
    TrimStartSkipsSpace(w, name);
    assert StripBy(s) == TrimStart(name);
    TrimAfterTrimStart(name);
    assert Trim(StripBy(s)) == Trim(name);
  }

  /** Any other artist line is reported trimmed and otherwise unchanged. */
  lemma ArtistWithoutBy(s: string)
    requires !StartsWithBy(s)
    ensures ArtistOf(Some(s)) == TextOf(Some(s))
  {
  }

  /** White space before the artist line's text prevents the `by` from being
      stripped: the line is only trimmed, so "  by X" reports "by X". */
  lemma ArtistIndentedKeepsBy(w: string, s: string)
    requires w != [] && AllSpace(w)
    ensures ArtistOf(Some(w + s)) == TextOf(Some(s))
  {
    assert (w + s)[0] == w[0] && IsSpace(w[0]);
    assert !StartsWithBy(w + s);
    TrimStartSkipsSpace(w, s);
  }
}
