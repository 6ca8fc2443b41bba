/**
 * The browser player's local logic: the clock rendering, the next/previous
 * index arithmetic, building the playlist from a documentary (timeline or
 * legacy format), merging YouTube mappings back into the playlist and the
 * document, attaching synthesised narration URLs, and the OAuth redirect
 * address. Network calls are replaced by their results, passed in.
 */
module Player {
  import opened Wrappers
  import opened Text
  import opened Timeline

  // ---------------------------------------------------------------------
  // formatTime(ms)
  // ---------------------------------------------------------------------

  /** `m:ss` for a time in milliseconds: floor to whole seconds, then minutes and the remainder. */
  function FormatTime(ms: int): string {
    var totalSeconds := ms / 1000;
    IntToString(totalSeconds / 60) + ":" + PadStart2(IntToString(JsRem(totalSeconds, 60)))
  }

  /** Two digits for a number of seconds below 60. */
  function TwoDigits(s: nat): (r: string)
    requires s < 60
    ensures |r| == 2 && AllDigits(r) && DigitsValue(r) == s
  {
    var r := [DigitChar(s / 10), DigitChar(s % 10)];
    assert r[..1] == [DigitChar(s / 10)] && r[..1][..0] == [];
    assert DigitsValue(r[..1]) == s / 10;
    r
  }

  lemma PadSeconds(s: nat)
    requires s < 60
    ensures PadStart2(NatToString(s)) == TwoDigits(s)
  {
    if s >= 10 {
      assert NatToString(s) == NatToString(s / 10) + [DigitChar(s % 10)];
    }
  }

  /** For a time that is not negative: the whole minutes, a colon and two digits of seconds. */
  lemma FormatTimeShape(ms: int, minutes: nat, seconds: nat)
    requires ms >= 0 && minutes == ms / 1000 / 60 && seconds == ms / 1000 % 60
    ensures FormatTime(ms) == NatToString(minutes) + ":" + TwoDigits(seconds)
  {
    PadSeconds(seconds);
  }

  /** Reads `m:ss` back as whole seconds: digits, a colon, then two digits below 60. */
  function ParseClock(s: string): (r: Option<nat>) {
    match IndexOf(s, ":")
    case None => None
    case Some(i) =>
      var m := s[..i];
      var sec := s[i + 1..];
      if |m| >= 1 && AllDigits(m) && |sec| == 2 && AllDigits(sec) && DigitsValue(sec) < 60
      then Some(DigitsValue(m) * 60 + DigitsValue(sec))
      else None
  }

  /** The clock shows a time to the whole second: reading it back gives `floor(ms / 1000)`. */
  lemma ClockRoundTrip(ms: int, total: nat)
    requires ms >= 0 && total == ms / 1000
    ensures ParseClock(FormatTime(ms)) == Some(total)
  {
    var minutes, seconds := total / 60, total % 60;
    FormatTimeShape(ms, minutes, seconds);
    DigitsValueOfNatToString(minutes);
    ParseClockOf(NatToString(minutes), TwoDigits(seconds), minutes, seconds, total);
  }

  /** Digits without a colon, a colon, and two digits: the minutes and seconds they spell. */
  lemma ParseClockOf(m: string, sec: string, minutes: nat, seconds: nat, total: nat)
    requires |m| >= 1 && AllDigits(m) && DigitsValue(m) == minutes
    requires |sec| == 2 && AllDigits(sec) && DigitsValue(sec) == seconds && seconds < 60
    requires total == minutes * 60 + seconds
    ensures ParseClock(m + ":" + sec) == Some(total)
  {
    var s := m + ":" + sec;
    ColonAfterDigits(m, sec);
    assert s[..|m|] == m && s[|m| + 1..] == sec;
  }

  /** The first colon after a run of digits is the one that follows it. */
  lemma ColonAfterDigits(m: string, sec: string)
    requires AllDigits(m)
    ensures IndexOf(m + ":" + sec, ":") == Some(|m|)
  {
    var s := m + ":" + sec;
    forall j | 0 <= j < |m|
      ensures !StartsAt(s, j, ":")
    {
      assert s[j] == m[j] && IsDigit(m[j]);
    }
    assert StartsAt(s, |m|, ":") by {
      assert s[|m|..|m| + 1] == [s[|m|]];
    }
  }

  /** The example of a track of three minutes forty-five. */
  lemma FormatThreeFortyFive()
    ensures FormatTime(225000) == "3:45"
  {
    FormatTimeShape(225000, 3, 45);
    assert NatToString(3) == "3";
    assert TwoDigits(45) == "45";
  }

  /** A negative time renders both parts negative, as the truncating remainder leaves its sign. */
  lemma FormatNegative()
    ensures FormatTime(-1) == "-1:-1"
  {
    assert -1 / 1000 == -1 && -1 / 60 == -1;
    assert JsRem(-1, 60) == -1;
    assert IntToString(-1) == "-1";
  }

  // ---------------------------------------------------------------------
  // getRedirectUri()
  // ---------------------------------------------------------------------

  /** The page's origin with its first `localhost` replaced by `127.0.0.1`, then `/callback`. */
  function RedirectUri(origin: string): (r: string)
    ensures |r| >= 9 && r[|r| - 9..] == "/callback"
    ensures !Contains(origin, "localhost") ==> r == origin + "/callback"
    ensures Contains(origin, "localhost") ==>
      exists i :: 0 <= i && i + 9 <= |origin| && StartsAt(origin, i, "localhost") &&
        (forall j :: 0 <= j < i ==> !StartsAt(origin, j, "localhost")) &&
        r == origin[..i] + "127.0.0.1" + origin[i + 9..] + "/callback"
  {
    ReplaceFirst(origin, "localhost", "127.0.0.1") + "/callback"
  }

  lemma RedirectOfLocalhost()
    ensures RedirectUri("http://localhost:3000") == "http://127.0.0.1:3000" + "/callback"
  {
    LocalhostReplaced("http://localhost:3000", "http://127.0.0.1:3000");
  }

  lemma LocalhostReplaced(o: string, replaced: string)
    requires o == "http://localhost:3000" && replaced == "http://127.0.0.1:3000"
    ensures ReplaceFirst(o, "localhost", "127.0.0.1") == replaced
  {
    LocalhostAtSeven(o);
    assert o[..7] == "http://" && o[16..] == ":3000";
    assert "http://" + "127.0.0.1" + ":3000" == replaced;
  }

  /** Helper for LocalhostReplaced: where the search for `localhost` stops in the example origin. */
  lemma LocalhostAtSeven(o: string)
    requires o == "http://localhost:3000"
    ensures IndexOf(o, "localhost") == Some(7)
  {
    assert StartsAt(o, 7, "localhost");
    forall j | 0 <= j < 7
      ensures !StartsAt(o, j, "localhost")
    {
      assert o[j] != 'l';
    }
  }

  // ---------------------------------------------------------------------
  // playNext / playPrevious
  // ---------------------------------------------------------------------

  /** `(current + 1) % length`; `None` stands for the `NaN` of an empty playlist. */
  function NextIndex(current: int, length: nat): (r: Option<int>)
    ensures r.None? <==> length == 0
    ensures 0 <= current < length ==> r == Some(if current == length - 1 then 0 else current + 1)
  {
    if length == 0 then None
    else
      RemOfNear(current + 1, length);
      Some(JsRem(current + 1, length))
  }

  /** `(current - 1 + length) % length`. */
  function PreviousIndex(current: int, length: nat): (r: Option<int>)
    ensures r.None? <==> length == 0
    ensures 0 <= current < length ==> r == Some(if current == 0 then length - 1 else current - 1)
  {
    if length == 0 then None
    else
      RemOfNear(current - 1 + length, length);
      Some(JsRem(current - 1 + length, length))
  }

  /** The remainder of a value below twice the divisor. */
  lemma RemOfNear(x: int, m: nat)
    requires m > 0
    ensures 0 <= x < m ==> x % m == x
    ensures m <= x < 2 * m ==> x % m == x - m
  {
    if m <= x < 2 * m {
      assert x == m * 1 + (x - m);
    }
  }

  /** Within a playlist both steps stay in it and undo each other. */
  lemma StepsInverse(current: int, length: nat)
    requires 0 <= current < length
    ensures NextIndex(current, length).Some? && 0 <= NextIndex(current, length).value < length
    ensures PreviousIndex(current, length).Some? && 0 <= PreviousIndex(current, length).value < length
    ensures PreviousIndex(NextIndex(current, length).value, length) == Some(current)
    ensures NextIndex(PreviousIndex(current, length).value, length) == Some(current)
  {
  }

  // ---------------------------------------------------------------------
  // Playlist items and documents
  // ---------------------------------------------------------------------

  datatype TrackKind = Mp3 | YouTubeVideo | Spotify

  /** A track's picture: none (`''`) or the built-in narration artwork. */
  datatype Art = NoArt | NarrationArt

  /** A playlist item as the player builds it. */
  datatype Track = Track(
    kind: TrackKind,
    id: Option<string>,
    name: string,
    artist: string,
    albumArt: Art,
    duration: int,
    url: Option<string>,
    narrationText: Option<string>,
    youtube: Option<YouTubeRef>,
    spotifyQuery: Option<string>)

  /** An item of a legacy `structure` array. */
  datatype StructItem = StructItem(kind: Option<string>, narrationIndex: Option<int>, trackIndex: Option<int>)

  /**
   * The documentary fields the player reads. A `null` legacy structure item
   * or track is `None`; a `null` narration segment behaves like a segment
   * without fields and is represented by one.
   */
  datatype Doc = Doc(
    timeline: Option<seq<Entry>>,
    structure: Option<seq<Option<StructItem>>>,
    tracks: Option<seq<Option<Entry>>>,
    narrationSegments: Option<seq<Entry>>)

  /** `x || null` */
  function NullIfEmpty(a: Option<string>): (r: Option<string>)
    ensures r.Some? <==> Truthy(a)
    ensures r.Some? ==> r == a
  {
    if Truthy(a) then a else None
  }

  /** `e.tts_url || e.ttsUrl || e.url` */
  function AudioUrl(e: Entry): Option<string> {
    OrOpt(e.ttsUrl, OrOpt(e.ttsUrlCamel, e.url))
  }

  /** `e.youtube && e.youtube.videoId` is truthy. */
  predicate HasVideo(e: Entry) {
    e.youtube.Some? && Truthy(e.youtube.value.videoId)
  }

  /** An `mp3` item for the narration segment numbered `number` (from 0). */
  function NarrationTrack(e: Entry, number: nat, url: string, text: Option<string>): Track {
    Track(Mp3, Some("narration-" + NatToString(number)), Or(e.title, "Narration " + NatToString(number + 1)),
      "Narrator", NarrationArt, 0, Some(url), text, None, None)
  }

  /** A `spotify` item, searched by `spotify_query` or by title and artist. */
  function SpotifyTrack(e: Entry): Track {
    var title := Or(e.title, "");
    var artist := Or(e.artist, "");
    Track(Spotify, NullIfEmpty(e.trackUri), title, artist, NoArt, 0, None, None, None,
      Some(Or(e.spotifyQuery, title + " artist:" + artist)))
  }

  /** A `youtube` item for a song already mapped to a video. */
  function VideoTrack(e: Entry): Track
    requires HasVideo(e)
  {
    var y := e.youtube.value;
    Track(YouTubeVideo, Some("youtube:" + y.videoId.value), Or(e.title, ""), Or(e.artist, ""), NoArt,
      if y.durationSec.Some? then y.durationSec.value * 1000 else 0, None, None, e.youtube, None)
  }

  // ---------------------------------------------------------------------
  // buildPlaylistFromDoc: the timeline format
  // ---------------------------------------------------------------------

  /** A timeline entry that yields a playlist item: a song, or a narration with audio. */
  predicate Kept(e: Entry) {
    IsSong(e) || (IsNarration(e) && Truthy(AudioUrl(e)))
  }

  /** The item for a timeline entry preceded by `before` narration entries. */
  function TimelineTrack(e: Entry, before: nat): (r: Option<Track>)
    ensures r.Some? <==> Kept(e)
  {
    if IsNarration(e) then
      if Truthy(AudioUrl(e)) then Some(NarrationTrack(e, before, AudioUrl(e).value, Some(Or(e.text, "")))) else None
    else if IsSong(e) then
      Some(if HasVideo(e) then VideoTrack(e) else SpotifyTrack(e))
    else
      None
  }

  /** The narration entries of `es`, with audio or without. */
  function NarrationsIn(es: seq<Entry>): nat {
    if es == [] then 0
    else NarrationsIn(es[..|es| - 1]) + (if IsNarration(es[|es| - 1]) then 1 else 0)
  }

  function OptionSeq(t: Option<Track>): seq<Track> {
    if t.Some? then [t.value] else []
  }

  /** The playlist of a timeline: each entry's item, numbering narrations by all earlier ones. */
  function TimelineTracks(es: seq<Entry>): seq<Track> {
    if es == [] then []
    else
      var n := |es| - 1;
      TimelineTracks(es[..n]) + OptionSeq(TimelineTrack(es[n], NarrationsIn(es[..n])))
  }

  /** The positions of the entries that yield items. */
  function TrackSources(es: seq<Entry>): (r: seq<nat>)
    ensures forall k :: 0 <= k < |r| ==> r[k] < |es| && Kept(es[r[k]])
    ensures forall k, l :: 0 <= k < l < |r| ==> r[k] < r[l]
    ensures forall j :: 0 <= j < |es| && Kept(es[j]) ==> j in r
  {
    if es == [] then []
    else
      var n := |es| - 1;
      TrackSources(es[..n]) + (if Kept(es[n]) then [n] else [])
  }

  /**
   * The k-th item is the item of the k-th entry that yields one, numbered by
   * the narrations before that entry: items come in timeline order, and
   * nothing else is in the playlist.
   */
  lemma {:induction false} TimelineTracksAt(es: seq<Entry>)
    ensures |TimelineTracks(es)| == |TrackSources(es)|
    ensures forall k :: 0 <= k < |TrackSources(es)| ==>
      TimelineTrack(es[TrackSources(es)[k]], NarrationsIn(es[..TrackSources(es)[k]])) == Some(TimelineTracks(es)[k])
  {
    if es != [] {
      var n := |es| - 1;
      TimelineTracksAt(es[..n]);
      var src, pre := TrackSources(es), TrackSources(es[..n]);
      forall k | 0 <= k < |src|
        ensures TimelineTrack(es[src[k]], NarrationsIn(es[..src[k]])) == Some(TimelineTracks(es)[k])
      {
        if k < |pre| {
          assert src[k] == pre[k];
          assert es[..n][..pre[k]] == es[..pre[k]];
        }
      }
    }
  }

  /** A narration without audio adds no item but still counts for the numbering. */
  lemma SilentNarrationSkipped(pre: seq<Entry>, e: Entry)
    requires IsNarration(e) && !Truthy(AudioUrl(e))
    ensures TimelineTracks(pre + [e]) == TimelineTracks(pre)
    ensures NarrationsIn(pre + [e]) == NarrationsIn(pre) + 1
  {
    assert (pre + [e])[..|pre|] == pre;
  }

  /** `[narration without audio, narration with audio]` gives one item, `narration-1`. */
  lemma SecondNarrationNumbered(first: Entry, second: Entry, url: string)
    requires IsNarration(first) && !Truthy(AudioUrl(first))
    requires IsNarration(second) && AudioUrl(second) == Some(url) && url != ""
    ensures TimelineTracks([first, second]) == [NarrationTrack(second, 1, url, Some(Or(second.text, "")))]
    ensures TimelineTracks([first, second])[0].id == Some("narration-1")
  {
    assert [first, second][..1] == [first] && [first][..0] == [];
    assert NarrationsIn([first]) == 1;
    assert TimelineTracks([first]) == [];
    assert TimelineTracks([first, second]) == TimelineTracks([first]) + OptionSeq(TimelineTrack(second, 1));
    assert NatToString(1) == "1";
    assert "narration-" + NatToString(1) == "narration-1";
  }

  /** The `forEach` over the timeline with its narration counter. */
  method BuildTimelinePlaylist(es: seq<Entry>) returns (playlist: seq<Track>)
    ensures playlist == TimelineTracks(es)
  {
    playlist := [];
    var narrationCount := 0;
    var i := 0;
    while i < |es|
      invariant 0 <= i <= |es|
      invariant narrationCount == NarrationsIn(es[..i])
      invariant playlist == TimelineTracks(es[..i])
    {
      assert es[..i + 1][..i] == es[..i];
      var e := es[i];
      if IsNarration(e) {
        narrationCount := narrationCount + 1;
        var url := AudioUrl(e);
        if Truthy(url) {
          playlist := playlist + [NarrationTrack(e, narrationCount - 1, url.value, Some(Or(e.text, "")))];
        }
      } else if IsSong(e) {
        if HasVideo(e) {
          playlist := playlist + [VideoTrack(e)];
        } else {
          playlist := playlist + [SpotifyTrack(e)];
        }
      }
      i := i + 1;
    }
    assert es[..i] == es;
  }

  // ---------------------------------------------------------------------
  // buildPlaylistFromDoc: the legacy format
  // ---------------------------------------------------------------------

  /** The item for a legacy structure item, looked up in the segment and track arrays. */
  function LegacyTrack(item: StructItem, segs: seq<Entry>, tracks: seq<Option<Entry>>): (r: Option<Track>)
    ensures item.kind == Some("narration") ==>
      (r.Some? <==> (item.narrationIndex.Some? && 0 <= item.narrationIndex.value < |segs| &&
                     Truthy(AudioUrl(segs[item.narrationIndex.value]))))
    ensures item.kind == Some("song") ==>
      (r.Some? <==> (item.trackIndex.Some? && 0 <= item.trackIndex.value < |tracks| &&
                     tracks[item.trackIndex.value].Some?))
    ensures item.kind != Some("narration") && item.kind != Some("song") ==> r.None?
    ensures r.Some? && item.kind == Some("narration") ==>
      (r.value.kind == Mp3 && r.value.id == Some("narration-" + NatToString(item.narrationIndex.value)))
    ensures r.Some? && item.kind == Some("song") ==> r.value == SpotifyTrack(tracks[item.trackIndex.value].value)
  {
    if item.kind == Some("narration") then
      match item.narrationIndex
      case Some(i) =>
        if 0 <= i < |segs| && Truthy(AudioUrl(segs[i])) then
          Some(NarrationTrack(segs[i], i, AudioUrl(segs[i]).value, segs[i].text))
        else None
      case None => None
    else if item.kind == Some("song") then
      match item.trackIndex
      case Some(i) => if 0 <= i < |tracks| && tracks[i].Some? then Some(SpotifyTrack(tracks[i].value)) else None
      case None => None
    else
      None
  }

  /** The legacy playlist; `None` when a `null` structure item makes the loop throw. */
  function LegacyTracks(items: seq<Option<StructItem>>, segs: seq<Entry>, tracks: seq<Option<Entry>>): (r: Option<seq<Track>>)
    ensures r.None? <==> exists j :: 0 <= j < |items| && items[j].None?
    ensures r.Some? ==> |r.value| <= |items|
  {
    if items == [] then Some([])
    else
      var n := |items| - 1;
      assert forall j :: 0 <= j < n ==> items[..n][j] == items[j];
      match LegacyTracks(items[..n], segs, tracks)
      case None => None
      case Some(p) =>
        match items[n]
        case None => None
        case Some(item) => Some(p + OptionSeq(LegacyTrack(item, segs, tracks)))
  }

  /** An item whose index finds nothing adds nothing. */
  lemma LegacySkip(items: seq<Option<StructItem>>, item: StructItem, segs: seq<Entry>, tracks: seq<Option<Entry>>)
    requires LegacyTrack(item, segs, tracks).None?
    ensures LegacyTracks(items + [Some(item)], segs, tracks) == LegacyTracks(items, segs, tracks)
  {
    var all := items + [Some(item)];
    assert all[..|items|] == items && all[|items|] == Some(item);
    match LegacyTracks(items, segs, tracks)
    case None =>
    case Some(p) =>
      assert LegacyTracks(all, segs, tracks) == Some(p + OptionSeq(LegacyTrack(item, segs, tracks)));
      assert p + OptionSeq(LegacyTrack(item, segs, tracks)) == p;
  }

  /** The `forEach` over `structure`. */
  method BuildLegacyPlaylist(items: seq<Option<StructItem>>, segs: seq<Entry>, tracks: seq<Option<Entry>>)
    returns (r: Option<seq<Track>>)
    ensures r == LegacyTracks(items, segs, tracks)
  {
    var playlist := [];
    var i := 0;
    while i < |items|
      invariant 0 <= i <= |items|
      invariant LegacyTracks(items[..i], segs, tracks) == Some(playlist)
    {
      assert items[..i + 1][..i] == items[..i];
      if items[i].None? {
        NullItemThrows(items, i, segs, tracks);
        return None;
      }
      var t := LegacyTrack(items[i].value, segs, tracks);
      assert LegacyTracks(items[..i + 1], segs, tracks) == Some(playlist + OptionSeq(t));
      if t.Some? {
        playlist := playlist + [t.value];
      } else {
        assert playlist + OptionSeq(t) == playlist;
      }
      i := i + 1;
    }
    assert items[..i] == items;
    r := Some(playlist);
  }

  lemma NullItemThrows(items: seq<Option<StructItem>>, i: nat, segs: seq<Entry>, tracks: seq<Option<Entry>>)
    requires i < |items| && items[i].None?
    ensures LegacyTracks(items, segs, tracks).None?
  {
  }

  /** What `buildPlaylistFromDoc` builds: `None` when it throws for the structure. */
  function Built(doc: Option<Doc>): (r: Option<seq<Track>>)
    ensures doc.Some? && doc.value.timeline.Some? ==> r == Some(TimelineTracks(doc.value.timeline.value))
    ensures doc.None? ==> r.None?
    ensures doc.Some? && doc.value.timeline.None? && r.Some? ==>
      doc.value.structure.Some? && doc.value.tracks.Some? && doc.value.narrationSegments.Some?
  {
    match doc
    case None => None
    case Some(d) =>
      if d.timeline.Some? then Some(TimelineTracks(d.timeline.value))
      else if d.structure.Some? && d.tracks.Some? && d.narrationSegments.Some? then
        LegacyTracks(d.structure.value, d.narrationSegments.value, d.tracks.value)
      else None
  }

  // ---------------------------------------------------------------------
  // mapYouTubeForCurrentPlaylist: merging the mapping into the playlist
  // ---------------------------------------------------------------------

  /** The positions of the `spotify` items: the songs the mapping request is about. */
  function SpotifyPositions(p: seq<Track>): (r: seq<nat>)
    ensures forall k :: 0 <= k < |r| ==> r[k] < |p| && p[r[k]].kind == Spotify
    ensures forall k, l :: 0 <= k < l < |r| ==> r[k] < r[l]
  {
    if p == [] then []
    else
      var n := |p| - 1;
      SpotifyPositions(p[..n]) + (if p[n].kind == Spotify then [n] else [])
  }

  /** The k-th `spotify` item has k `spotify` items before it. */
  lemma {:induction false} RankOfPosition(p: seq<Track>, k: nat)
    requires k < |SpotifyPositions(p)|
    ensures |SpotifyPositions(p[..SpotifyPositions(p)[k]])| == k
  {
    var n := |p| - 1;
    var pre := SpotifyPositions(p[..n]);
    if k < |pre| {
      RankOfPosition(p[..n], k);
      assert p[..n][..pre[k]] == p[..pre[k]];
    } else {
      assert SpotifyPositions(p)[k] == n;
    }
  }

  /** A `spotify` item is listed at the position given by the number of `spotify` items before it. */
  lemma {:induction false} PositionOfRank(p: seq<Track>, j: nat)
    requires j < |p| && p[j].kind == Spotify
    ensures |SpotifyPositions(p[..j])| < |SpotifyPositions(p)|
    ensures SpotifyPositions(p)[|SpotifyPositions(p[..j])|] == j
  {
    var n := |p| - 1;
    if j < n {
      PositionOfRank(p[..n], j);
      assert p[..n][..j] == p[..j];
    } else {
      assert p[..j] == p[..n];
    }
  }

  /** The request body: one song per `spotify` item, with its name, artist and duration. */
  function MappingRequest(p: seq<Track>): (r: seq<Entry>)
    ensures |r| == |SpotifyPositions(p)|
    ensures forall k :: 0 <= k < |r| ==>
      (var t := p[SpotifyPositions(p)[k]];
       IsSong(r[k]) && r[k].title == Some(t.name) && r[k].artist == Some(t.artist) && r[k].durationMs == Some(t.duration))
  {
    var pos := SpotifyPositions(p);
    seq(|pos|, k requires 0 <= k < |pos| =>
      Bare(Some("song")).(title := Some(p[pos[k]].name), artist := Some(p[pos[k]].artist),
                          durationMs := Some(p[pos[k]].duration)))
  }

  /** `mapped[k]`'s video when `m && m.youtube && m.youtube.videoId`. */
  function MappedAt(mapped: seq<Entry>, k: nat): (r: Option<YouTubeRef>)
    ensures r.Some? <==> k < |mapped| && HasVideo(mapped[k])
    ensures r.Some? ==> r == mapped[k].youtube && Truthy(r.value.videoId)
  {
    if k < |mapped| && HasVideo(mapped[k]) then mapped[k].youtube else None
  }

  /** `{ ...t, type: 'youtube', youtube: y }` */
  function Converted(t: Track, y: YouTubeRef): Track {
    t.(kind := YouTubeVideo, youtube := Some(y))
  }

  /** The item at `j` after the merge. */
  function MergedAt(p: seq<Track>, mapped: seq<Entry>, j: nat): Track
    requires j < |p|
  {
    if p[j].kind == Spotify then
      match MappedAt(mapped, |SpotifyPositions(p[..j])|)
      case Some(y) => Converted(p[j], y)
      case None => p[j]
    else p[j]
  }

  /** The playlist after merging the mapped timeline into it. */
  function Merged(p: seq<Track>, mapped: seq<Entry>): (r: seq<Track>)
    ensures |r| == |p|
  {
    seq(|p|, j requires 0 <= j < |p| => MergedAt(p, mapped, j))
  }

  /**
   * The k-th `spotify` item becomes a `youtube` item carrying the k-th
   * mapped video, when that result has one; every other item, and the
   * length, stay as they were.
   */
  lemma MergeByRank(p: seq<Track>, mapped: seq<Entry>)
    ensures |Merged(p, mapped)| == |p|
    ensures forall j :: 0 <= j < |p| && p[j].kind != Spotify ==> Merged(p, mapped)[j] == p[j]
    ensures forall k :: 0 <= k < |SpotifyPositions(p)| ==>
      Merged(p, mapped)[SpotifyPositions(p)[k]] ==
        (match MappedAt(mapped, k)
         case Some(y) => Converted(p[SpotifyPositions(p)[k]], y)
         case None => p[SpotifyPositions(p)[k]])
  {
    forall k | 0 <= k < |SpotifyPositions(p)|
      ensures |SpotifyPositions(p[..SpotifyPositions(p)[k]])| == k
    {
      RankOfPosition(p, k);
    }
  }

  /** The merge loop's invariant: the first `i` `spotify` items have had their result considered. */
  ghost predicate MergedUpTo(p: seq<Track>, mapped: seq<Entry>, cur: seq<Track>, i: nat) {
    |cur| == |p| &&
    forall j :: 0 <= j < |p| ==>
      cur[j] == (if p[j].kind == Spotify && |SpotifyPositions(p[..j])| < i then MergedAt(p, mapped, j) else p[j])
  }

  lemma MergeStep(p: seq<Track>, mapped: seq<Entry>, cur: seq<Track>, i: nat)
    requires i < |SpotifyPositions(p)| && MergedUpTo(p, mapped, cur, i)
    ensures var idx := SpotifyPositions(p)[i];
      MergedUpTo(p, mapped,
        (match MappedAt(mapped, i)
         case Some(y) => cur[idx := Converted(cur[idx], y)]
         case None => cur), i + 1)
  {
    var idx := SpotifyPositions(p)[i];
    var next := match MappedAt(mapped, i)
      case Some(y) => cur[idx := Converted(cur[idx], y)]
      case None => cur;
    RankOfPosition(p, i);
    forall j | 0 <= j < |p|
      ensures next[j] == (if p[j].kind == Spotify && |SpotifyPositions(p[..j])| < i + 1 then MergedAt(p, mapped, j) else p[j])
    {
      if p[j].kind == Spotify {
        PositionOfRank(p, j);
      }
    }
  }

  lemma MergeDone(p: seq<Track>, mapped: seq<Entry>, cur: seq<Track>)
    requires MergedUpTo(p, mapped, cur, |SpotifyPositions(p)|)
    ensures cur == Merged(p, mapped)
  {
    forall j | 0 <= j < |p| && p[j].kind == Spotify
      ensures |SpotifyPositions(p[..j])| < |SpotifyPositions(p)|
    {
      PositionOfRank(p, j);
    }
  }

  // ---------------------------------------------------------------------
  // mapYouTubeForCurrentPlaylist: writing the mapping back into the document
  // ---------------------------------------------------------------------

  /** A song the player turns into a `spotify` item: the songs that the mapping answers for. */
  predicate Unmapped(e: Entry) {
    IsSong(e) && !HasVideo(e)
  }

  function SongCount(es: seq<Entry>): nat {
    if es == [] then 0 else SongCount(es[..|es| - 1]) + (if IsSong(es[|es| - 1]) then 1 else 0)
  }

  function UnmappedCount(es: seq<Entry>): nat {
    if es == [] then 0 else UnmappedCount(es[..|es| - 1]) + (if Unmapped(es[|es| - 1]) then 1 else 0)
  }

  /** The code's document update: the k-th song of the timeline takes the k-th mapped result. */
  function DocEntryAsWritten(es: seq<Entry>, mapped: seq<Entry>, j: nat): Entry
    requires j < |es|
  {
    if IsSong(es[j]) then
      match MappedAt(mapped, SongCount(es[..j]))
      case Some(y) => es[j].(youtube := Some(y))
      case None => es[j]
    else es[j]
  }

  function DocMergeAsWritten(es: seq<Entry>, mapped: seq<Entry>): (r: seq<Entry>)
    ensures |r| == |es|
  {
    seq(|es|, j requires 0 <= j < |es| => DocEntryAsWritten(es, mapped, j))
  }

  /** The intended update: the k-th song without a video takes the k-th mapped result. */
  function DocEntry(es: seq<Entry>, mapped: seq<Entry>, j: nat): Entry
    requires j < |es|
  {
    if Unmapped(es[j]) then
      match MappedAt(mapped, UnmappedCount(es[..j]))
      case Some(y) => es[j].(youtube := Some(y))
      case None => es[j]
    else es[j]
  }

  function DocMerge(es: seq<Entry>, mapped: seq<Entry>): (r: seq<Entry>)
    ensures |r| == |es|
  {
    seq(|es|, j requires 0 <= j < |es| => DocEntry(es, mapped, j))
  }

  /** A song entry with a title and, perhaps, a video. */
  function SongEntry(title: string, y: Option<YouTubeRef>): Entry {
    Bare(Some("song")).(title := Some(title), youtube := y)
  }

  /**
   * The code's update misplaces the mapping once a song already has a video:
   * with `[A mapped to a, B unmapped]` the playlist asks about B only and
   * gives B the answer `b`, while the document gives `b` to A and leaves B
   * without a video.
   */
  lemma DocMergeMisaligned(a: YouTubeRef, b: YouTubeRef)
    requires Truthy(a.videoId) && Truthy(b.videoId) && a != b
    ensures var es := [SongEntry("A", Some(a)), SongEntry("B", None)];
      var mapped := [SongEntry("B", Some(b))];
      var p := TimelineTracks(es);
      |p| == 2 && Merged(p, mapped)[1].youtube == Some(b) &&
      DocMergeAsWritten(es, mapped)[0].youtube == Some(b) &&
      DocMergeAsWritten(es, mapped)[1].youtube == None
  {
    var es := [SongEntry("A", Some(a)), SongEntry("B", None)];
    var mapped := [SongEntry("B", Some(b))];
    assert es[..1] == [es[0]] && es[..1][..0] == [] && es[..0] == [];
    assert TimelineTracks(es[..1]) == [VideoTrack(es[0])];
    var p := TimelineTracks(es);
    assert p == [VideoTrack(es[0]), SpotifyTrack(es[1])];
    assert p[..1] == [VideoTrack(es[0])] && p[..1][..0] == [];
    assert SpotifyPositions(p[..1]) == [];
    assert SongCount(es[..1]) == 1;
  }

  /** The playlist has one `spotify` item per song without a video. */
  lemma {:induction false} SpotifyCountIsUnmapped(es: seq<Entry>)
    ensures |SpotifyPositions(TimelineTracks(es))| == UnmappedCount(es)
  {
    if es != [] {
      var n := |es| - 1;
      SpotifyCountIsUnmapped(es[..n]);
      var pre := TimelineTracks(es[..n]);
      var all := TimelineTracks(es);
      assert all[..|pre|] == pre;
      if Kept(es[n]) {
        assert all == pre + [all[|pre|]];
        assert all[..|all| - 1] == pre;
      } else {
        assert all == pre;
      }
    }
  }

  /** The merged document's first entries are the merge of its first entries. */
  lemma DocMergePrefix(es: seq<Entry>, mapped: seq<Entry>, n: nat)
    requires n <= |es|
    ensures DocMerge(es, mapped)[..n] == DocMerge(es[..n], mapped)
  {
    forall j | 0 <= j < n
      ensures DocMerge(es, mapped)[j] == DocMerge(es[..n], mapped)[j]
    {
      assert es[..n][..j] == es[..j];
    }
  }

  /** Merging a longer playlist leaves the merge of its first items as it was. */
  lemma MergedPrefix(p: seq<Track>, q: seq<Track>, mapped: seq<Entry>)
    ensures forall j :: 0 <= j < |p| ==> Merged(p + q, mapped)[j] == Merged(p, mapped)[j]
  {
    forall j | 0 <= j < |p|
      ensures Merged(p + q, mapped)[j] == Merged(p, mapped)[j]
    {
      assert (p + q)[..j] == p[..j];
    }
  }

  /** What the player and the YouTube mode care about in an item: its kind and its video. */
  function Shape(t: Track): (TrackKind, Option<YouTubeRef>) {
    (t.kind, t.youtube)
  }

  /**
   * With the intended update, the document and the playlist agree: the
   * playlist rebuilt from the merged document has, item by item, the kinds
   * and videos the merged playlist has.
   */
  lemma {:induction false} DocMergeAgrees(es: seq<Entry>, mapped: seq<Entry>)
    ensures |TimelineTracks(DocMerge(es, mapped))| == |Merged(TimelineTracks(es), mapped)|
    ensures forall k :: 0 <= k < |TimelineTracks(DocMerge(es, mapped))| ==>
      Shape(TimelineTracks(DocMerge(es, mapped))[k]) == Shape(Merged(TimelineTracks(es), mapped)[k])
  {
    if es != [] {
      var n := |es| - 1;
      var d := DocMerge(es, mapped);
      DocMergeAgrees(es[..n], mapped);
      DocMergePrefix(es, mapped, n);
      assert d[..n] == DocMerge(es[..n], mapped);
      var pre := TimelineTracks(es[..n]);
      var last := OptionSeq(TimelineTrack(es[n], NarrationsIn(es[..n])));
      assert TimelineTracks(es) == pre + last;
      MergedPrefix(pre, last, mapped);
      SpotifyCountIsUnmapped(es[..n]);
      LastShape(es, mapped, pre, last, d);
    }
  }

  /** The step of `DocMergeAgrees` for the last entry. */
  lemma LastShape(es: seq<Entry>, mapped: seq<Entry>, pre: seq<Track>, last: seq<Track>, d: seq<Entry>)
    requires es != [] && d == DocMerge(es, mapped)
    requires pre == TimelineTracks(es[..|es| - 1])
    requires last == OptionSeq(TimelineTrack(es[|es| - 1], NarrationsIn(es[..|es| - 1])))
    requires |SpotifyPositions(pre)| == UnmappedCount(es[..|es| - 1])
    ensures |OptionSeq(TimelineTrack(d[|es| - 1], NarrationsIn(d[..|es| - 1])))| == |last|
    ensures last != [] ==>
      Shape(TimelineTrack(d[|es| - 1], NarrationsIn(d[..|es| - 1])).value) == Shape(Merged(pre + last, mapped)[|pre|])
  {
    var n := |es| - 1;
    var e := es[n];
    assert (pre + last)[..|pre|] == pre;
    if last != [] {
      assert Merged(pre + last, mapped)[|pre|] == MergedAt(pre + last, mapped, |pre|);
      assert (pre + last)[|pre|] == last[0];
    }
    assert d[n] == DocEntry(es, mapped, n);
  }

  // ---------------------------------------------------------------------
  // generateTTSForDoc: attaching synthesised narration audio
  // ---------------------------------------------------------------------

  /** The k-th target has k targets before it. */
  lemma {:induction false} TargetRank(es: seq<Entry>, fromTimeline: bool, k: nat)
    requires k < |TargetIndices(es, fromTimeline)|
    ensures |TargetIndices(es[..TargetIndices(es, fromTimeline)[k]], fromTimeline)| == k
  {
    var n := |es| - 1;
    var pre := TargetIndices(es[..n], fromTimeline);
    if k < |pre| {
      TargetRank(es[..n], fromTimeline, k);
      assert es[..n][..pre[k]] == es[..pre[k]];
    } else {
      assert TargetIndices(es, fromTimeline)[k] == n;
    }
  }

  /** A target is listed at the position given by the number of targets before it. */
  lemma {:induction false} TargetOfRank(es: seq<Entry>, fromTimeline: bool, j: nat)
    requires j < |es| && IsTtsTarget(es[j], fromTimeline)
    ensures |TargetIndices(es[..j], fromTimeline)| < |TargetIndices(es, fromTimeline)|
    ensures TargetIndices(es, fromTimeline)[|TargetIndices(es[..j], fromTimeline)|] == j
  {
    var n := |es| - 1;
    if j < n {
      TargetOfRank(es[..n], fromTimeline, j);
      assert es[..n][..j] == es[..j];
    } else {
      assert es[..j] == es[..n];
    }
  }

  /** The trimmed texts sent for synthesis, one per target, in order. */
  function SpokenTexts(es: seq<Entry>, fromTimeline: bool): (r: seq<string>)
    ensures |r| == |TargetIndices(es, fromTimeline)|
  {
    var t := TargetIndices(es, fromTimeline);
    seq(|t|, k requires 0 <= k < |t| => Trim(es[t[k]].text.value))
  }

  /** No text sent for synthesis is empty. */
  lemma SpokenTextsNotEmpty(es: seq<Entry>, fromTimeline: bool)
    ensures forall k :: 0 <= k < |SpokenTexts(es, fromTimeline)| ==> SpokenTexts(es, fromTimeline)[k] != ""
  {
    var t := TargetIndices(es, fromTimeline);
    forall k | 0 <= k < |t|
      ensures SpokenTexts(es, fromTimeline)[k] != ""
    {
      TrimEmptyIffBlank(es[t[k]].text.value);
    }
  }

  /** `urls[k] || null` */
  function UrlAt(urls: seq<Option<string>>, k: nat): (r: Option<string>)
    ensures r.Some? <==> k < |urls| && Truthy(urls[k])
    ensures r.Some? ==> r == urls[k]
  {
    if k < |urls| && Truthy(urls[k]) then urls[k] else None
  }

  function WithUrlAt(es: seq<Entry>, fromTimeline: bool, urls: seq<Option<string>>, j: nat): Entry
    requires j < |es|
  {
    if IsTtsTarget(es[j], fromTimeline) then
      match UrlAt(urls, |TargetIndices(es[..j], fromTimeline)|)
      case Some(u) => es[j].(ttsUrl := Some(u))
      case None => es[j]
    else es[j]
  }

  /** The entries after the i-th URL has been set on the i-th target. */
  function WithUrls(es: seq<Entry>, fromTimeline: bool, urls: seq<Option<string>>): (r: seq<Entry>)
    ensures |r| == |es|
  {
    seq(|es|, j requires 0 <= j < |es| => WithUrlAt(es, fromTimeline, urls, j))
  }

  /** The list after `generateTTSForDoc`: untouched without targets or when the batch fails. */
  function Attached(es: seq<Entry>, fromTimeline: bool, urls: Option<seq<Option<string>>>): seq<Entry> {
    if SpokenTexts(es, fromTimeline) == [] || urls.None? then es else WithUrls(es, fromTimeline, urls.value)
  }

  /**
   * The k-th target gets `tts_url` set to the k-th URL exactly when that
   * URL is truthy; non-targets keep every field.
   */
  lemma WithUrlsByRank(es: seq<Entry>, fromTimeline: bool, urls: seq<Option<string>>)
    ensures forall k :: 0 <= k < |TargetIndices(es, fromTimeline)| ==>
      WithUrls(es, fromTimeline, urls)[TargetIndices(es, fromTimeline)[k]] ==
        (var e := es[TargetIndices(es, fromTimeline)[k]];
         match UrlAt(urls, k)
         case Some(u) => e.(ttsUrl := Some(u))
         case None => e)
  {
    var t := TargetIndices(es, fromTimeline);
    forall k | 0 <= k < |t|
      ensures WithUrls(es, fromTimeline, urls)[t[k]] == WithUrlAt(es, fromTimeline, urls, t[k])
      ensures |TargetIndices(es[..t[k]], fromTimeline)| == k
    {
      TargetRank(es, fromTimeline, k);
    }
  }

  /** Entries that are not targets are left as they were. */
  lemma WithUrlsKeepsOthers(es: seq<Entry>, fromTimeline: bool, urls: seq<Option<string>>)
    ensures forall j :: 0 <= j < |es| && !IsTtsTarget(es[j], fromTimeline) ==> WithUrls(es, fromTimeline, urls)[j] == es[j]
  {
  }

  /** A timeline narration that received a URL is played from it. */
  lemma AttachedNarrationPlays(es: seq<Entry>, urls: seq<Option<string>>, j: nat, before: nat)
    requires j < |es| && IsTtsTarget(es[j], true)
    requires UrlAt(urls, |TargetIndices(es[..j], true)|).Some?
    ensures TimelineTrack(WithUrls(es, true, urls)[j], before).Some?
    ensures TimelineTrack(WithUrls(es, true, urls)[j], before).value.url == UrlAt(urls, |TargetIndices(es[..j], true)|)
  {
  }

  /** The target collection and the attach loop, on the list of the document that holds the targets. */
  method AttachTtsUrls(a: array<Entry>, fromTimeline: bool, urls: Option<seq<Option<string>>>) returns (texts: seq<string>)
    modifies a
    ensures texts == SpokenTexts(old(a[..]), fromTimeline)
    ensures a[..] == Attached(old(a[..]), fromTimeline, urls)
  {
    var es := a[..];
    var targets := CollectTargets(es, fromTimeline);
    texts := seq(|targets|, k requires 0 <= k < |targets| => Trim(es[targets[k]].text.value));
    if texts == [] || urls.None? {
      return;
    }
    var u := urls.value;
    var i := 0;
    while i < |targets|
      invariant 0 <= i <= |targets|
      invariant AttachedUpTo(es, fromTimeline, u, a[..], i)
    {
      var t := targets[i];
      ghost var before := a[..];
      AttachStep(es, fromTimeline, u, before, i);
      var url := UrlAt(u, i);
      if url.Some? {
        a[t] := a[t].(ttsUrl := url);
      }
      assert a[..] == SetUrl(before, t, url);
      i := i + 1;
    }
    AttachDone(es, fromTimeline, u, a[..]);
  }

  /** The loop's invariant: the first `i` targets have had their URL considered. */
  ghost predicate AttachedUpTo(es: seq<Entry>, fromTimeline: bool, urls: seq<Option<string>>, cur: seq<Entry>, i: nat) {
    |cur| == |es| &&
    forall j :: 0 <= j < |es| ==>
      cur[j] == (if IsTtsTarget(es[j], fromTimeline) && |TargetIndices(es[..j], fromTimeline)| < i
                 then WithUrlAt(es, fromTimeline, urls, j) else es[j])
  }

  /** `target.tts_url = url` when the URL is truthy. */
  function SetUrl(cur: seq<Entry>, t: nat, url: Option<string>): (r: seq<Entry>)
    requires t < |cur|
    ensures |r| == |cur|
    ensures forall j :: 0 <= j < |cur| && j != t ==> r[j] == cur[j]
    ensures r[t] == if url.Some? then cur[t].(ttsUrl := url) else cur[t]
  {
    if url.Some? then cur[t := cur[t].(ttsUrl := url)] else cur
  }

  lemma AttachStep(es: seq<Entry>, fromTimeline: bool, urls: seq<Option<string>>, cur: seq<Entry>, i: nat)
    requires i < |TargetIndices(es, fromTimeline)| && AttachedUpTo(es, fromTimeline, urls, cur, i)
    ensures AttachedUpTo(es, fromTimeline, urls, SetUrl(cur, TargetIndices(es, fromTimeline)[i], UrlAt(urls, i)), i + 1)
  {
    var t := TargetIndices(es, fromTimeline)[i];
    TargetRank(es, fromTimeline, i);
    forall j | 0 <= j < |es|
      ensures SetUrl(cur, t, UrlAt(urls, i))[j] ==
        (if IsTtsTarget(es[j], fromTimeline) && |TargetIndices(es[..j], fromTimeline)| < i + 1
         then WithUrlAt(es, fromTimeline, urls, j) else es[j])
    {
      AttachStepAt(es, fromTimeline, urls, cur, i, j);
    }
  }

  lemma AttachStepAt(es: seq<Entry>, fromTimeline: bool, urls: seq<Option<string>>, cur: seq<Entry>, i: nat, j: nat)
    requires i < |TargetIndices(es, fromTimeline)| && AttachedUpTo(es, fromTimeline, urls, cur, i) && j < |es|
    requires |TargetIndices(es[..TargetIndices(es, fromTimeline)[i]], fromTimeline)| == i
    ensures SetUrl(cur, TargetIndices(es, fromTimeline)[i], UrlAt(urls, i))[j] ==
      (if IsTtsTarget(es[j], fromTimeline) && |TargetIndices(es[..j], fromTimeline)| < i + 1
       then WithUrlAt(es, fromTimeline, urls, j) else es[j])
  {
    var t := TargetIndices(es, fromTimeline)[i];
    var r := SetUrl(cur, t, UrlAt(urls, i));
    if j == t {
      assert cur[j] == es[j];
      assert r[j] == WithUrlAt(es, fromTimeline, urls, j);
    } else {
      assert r[j] == cur[j];
      if IsTtsTarget(es[j], fromTimeline) {
        TargetOfRank(es, fromTimeline, j);
        assert |TargetIndices(es[..j], fromTimeline)| != i;
      }
    }
  }

  lemma AttachDone(es: seq<Entry>, fromTimeline: bool, urls: seq<Option<string>>, cur: seq<Entry>)
    requires AttachedUpTo(es, fromTimeline, urls, cur, |TargetIndices(es, fromTimeline)|)
    ensures cur == WithUrls(es, fromTimeline, urls)
  {
    forall j | 0 <= j < |es| && IsTtsTarget(es[j], fromTimeline)
      ensures |TargetIndices(es[..j], fromTimeline)| < |TargetIndices(es, fromTimeline)|
    {
      TargetOfRank(es, fromTimeline, j);
    }
  }

  /**
   * `generateTTSForDoc`: the timeline's narrations when there is a timeline,
   * otherwise the legacy segments; `urls` is the batch response (`None` for
   * a failed request).
   */
  method GenerateTtsForDoc(doc: Option<Doc>, urls: Option<seq<Option<string>>>) returns (r: Option<Doc>, texts: seq<string>)
    ensures doc.Some? && doc.value.timeline.Some? ==>
      (var es := doc.value.timeline.value;
       texts == SpokenTexts(es, true) && r == Some(doc.value.(timeline := Some(Attached(es, true, urls)))))
    ensures doc.Some? && doc.value.timeline.None? && doc.value.narrationSegments.Some? ==>
      (var es := doc.value.narrationSegments.value;
       texts == SpokenTexts(es, false) && r == Some(doc.value.(narrationSegments := Some(Attached(es, false, urls)))))
    ensures doc.None? || (doc.value.timeline.None? && doc.value.narrationSegments.None?) ==> r == doc && texts == []
  {
    if doc.None? || (doc.value.timeline.None? && doc.value.narrationSegments.None?) {
      return doc, [];
    }
    var d := doc.value;
    var fromTimeline := d.timeline.Some?;
    var es := if fromTimeline then d.timeline.value else d.narrationSegments.value;
    var a := new Entry[|es|](j requires 0 <= j < |es| => es[j]);
    assert a[..] == es;
    texts := AttachTtsUrls(a, fromTimeline, urls);
    if fromTimeline {
      r := Some(d.(timeline := Some(a[..])));
    } else {
      r := Some(d.(narrationSegments := Some(a[..])));
    }
  }

  // ---------------------------------------------------------------------
  // The player's state
  // ---------------------------------------------------------------------

  /** The playlist part of the page's `state` object. */
  class PlayerState {
    var playlist: seq<Track>
    var currentTrackIndex: int
    var currentTrack: Option<Track>
    var isSpotifyTrack: bool
    var startedTrackIndex: int
    var lastDoc: Option<Doc>

    /**
     * Before any playlist nothing is selected; once there is one, the
     * index is inside it, a track is selected and the Spotify flag follows it.
     */
    ghost predicate Valid()
      reads this
    {
      (playlist == [] ==> currentTrackIndex == 0 && currentTrack.None? && startedTrackIndex == -1) &&
      (playlist != [] ==> 0 <= currentTrackIndex < |playlist| && currentTrack.Some? && -1 <= startedTrackIndex < |playlist|) &&
      isSpotifyTrack == (currentTrack.None? || currentTrack.value.kind == Spotify)
    }

    constructor()
      ensures Valid()
      ensures playlist == [] && currentTrackIndex == 0 && currentTrack.None? && isSpotifyTrack
      ensures startedTrackIndex == -1 && lastDoc.None?
    {
      playlist := [];
      currentTrackIndex := 0;
      currentTrack := None;
      isSpotifyTrack := true;
      startedTrackIndex := -1;
      lastDoc := None;
    }

    /** `buildPlaylistFromDoc(doc)`: a non-empty result replaces the playlist and selects its first item. */
    method BuildPlaylistFromDoc(doc: Option<Doc>)
      requires Valid()
      modifies this
      ensures Valid()
      ensures lastDoc == doc
      ensures Built(doc).Some? && Built(doc).value != [] ==>
        playlist == Built(doc).value && currentTrackIndex == 0 && currentTrack == Some(playlist[0]) &&
        isSpotifyTrack == (playlist[0].kind == Spotify) && startedTrackIndex == -1
      ensures Built(doc).None? || Built(doc).value == [] ==>
        playlist == old(playlist) && currentTrackIndex == old(currentTrackIndex) && currentTrack == old(currentTrack) &&
        isSpotifyTrack == old(isSpotifyTrack) && startedTrackIndex == old(startedTrackIndex)
    {
      lastDoc := doc;
      var built: Option<seq<Track>> := None;
      if doc.Some? && doc.value.timeline.Some? {
        var p := BuildTimelinePlaylist(doc.value.timeline.value);
        built := Some(p);
      } else if doc.Some? && doc.value.structure.Some? && doc.value.tracks.Some? && doc.value.narrationSegments.Some? {
        built := BuildLegacyPlaylist(doc.value.structure.value, doc.value.narrationSegments.value, doc.value.tracks.value);
      }
      if built.Some? && built.value != [] {
        playlist := built.value;
        currentTrackIndex := 0;
        currentTrack := Some(playlist[0]);
        isSpotifyTrack := playlist[0].kind == Spotify;
        startedTrackIndex := -1;
      }
    }

    /** `playTrack(index)`: an index outside the playlist is ignored. */
    method PlayTrack(index: int)
      requires Valid()
      modifies this
      ensures Valid()
      ensures playlist == old(playlist) && lastDoc == old(lastDoc)
      ensures 0 <= index < |playlist| ==>
        currentTrackIndex == index && currentTrack == Some(playlist[index]) &&
        isSpotifyTrack == (playlist[index].kind == Spotify) && startedTrackIndex == index
      ensures !(0 <= index < |playlist|) ==>
        currentTrackIndex == old(currentTrackIndex) && currentTrack == old(currentTrack) &&
        isSpotifyTrack == old(isSpotifyTrack) && startedTrackIndex == old(startedTrackIndex)
    {
      if index < 0 || index >= |playlist| {
        return;
      }
      currentTrackIndex := index;
      currentTrack := Some(playlist[index]);
      isSpotifyTrack := currentTrack.value.kind == Spotify;
      startedTrackIndex := index;
    }

    /** `playNext()`: the following item, wrapping to the first. */
    method PlayNext()
      requires Valid()
      modifies this
      ensures Valid()
      ensures playlist == old(playlist) && lastDoc == old(lastDoc)
      ensures playlist != [] ==>
        Some(currentTrackIndex) == NextIndex(old(currentTrackIndex), |playlist|) &&
        currentTrack == Some(playlist[currentTrackIndex]) && startedTrackIndex == currentTrackIndex
      ensures playlist == [] ==>
        currentTrackIndex == old(currentTrackIndex) && currentTrack.None? &&
        isSpotifyTrack == old(isSpotifyTrack) && startedTrackIndex == old(startedTrackIndex)
    {
      match NextIndex(currentTrackIndex, |playlist|)
      case None =>
        currentTrack := None;
      case Some(next) =>
        PlayTrack(next);
    }

    /** `playPrevious()`: the preceding item, wrapping to the last. */
    method PlayPrevious()
      requires Valid()
      modifies this
      ensures Valid()
      ensures playlist == old(playlist) && lastDoc == old(lastDoc)
      ensures playlist != [] ==>
        Some(currentTrackIndex) == PreviousIndex(old(currentTrackIndex), |playlist|) &&
        currentTrack == Some(playlist[currentTrackIndex]) && startedTrackIndex == currentTrackIndex
      ensures playlist == [] ==>
        currentTrackIndex == old(currentTrackIndex) && currentTrack.None? &&
        isSpotifyTrack == old(isSpotifyTrack) && startedTrackIndex == old(startedTrackIndex)
    {
      match PreviousIndex(currentTrackIndex, |playlist|)
      case None =>
        currentTrack := None;
      case Some(previous) =>
        PlayTrack(previous);
    }

    /**
     * `mapYouTubeForCurrentPlaylist()` once the mapping response is in:
     * `mapped` is `None` for a failed request. With no `spotify` item nothing
     * is requested and nothing changes.
     */
    method MapYouTubeForCurrentPlaylist(mapped: Option<seq<Entry>>)
      requires Valid()
      modifies this
      ensures Valid()
      ensures currentTrackIndex == old(currentTrackIndex) && currentTrack == old(currentTrack)
      ensures isSpotifyTrack == old(isSpotifyTrack) && startedTrackIndex == old(startedTrackIndex)
      ensures SpotifyPositions(old(playlist)) == [] || mapped.None? ==>
        playlist == old(playlist) && lastDoc == old(lastDoc)
      ensures SpotifyPositions(old(playlist)) != [] && mapped.Some? ==>
        playlist == Merged(old(playlist), mapped.value) &&
        lastDoc == (if old(lastDoc).Some? && old(lastDoc).value.timeline.Some?
                    then Some(old(lastDoc).value.(timeline := Some(DocMerge(old(lastDoc).value.timeline.value, mapped.value))))
                    else old(lastDoc))
    {
      var p0 := playlist;
      var songs := SpotifyPositions(p0);
      if songs == [] || mapped.None? {
        return;
      }
      var m := mapped.value;
      var p := p0;
      var i := 0;
      while i < |songs|
        invariant 0 <= i <= |songs|
        invariant MergedUpTo(p0, m, p, i)
        modifies {}
      {
        var idx := songs[i];
        MergeStep(p0, m, p, i);
        var y := MappedAt(m, i);
        if y.Some? {
          p := p[idx := Converted(p[idx], y.value)];
        }
        i := i + 1;
      }
      MergeDone(p0, m, p);
      playlist := p;
      if lastDoc.Some? && lastDoc.value.timeline.Some? {
        lastDoc := Some(lastDoc.value.(timeline := Some(DocMerge(lastDoc.value.timeline.value, m))));
      }
    }
  }

  /**
   * A usage check of the class, not an operation of the player: PlayNext
   * followed by PlayPrevious restores the selection, as StepsInverse states
   * for the index arithmetic.
   */
  method NextThenPrevious(s: PlayerState)
    requires s.Valid() && s.playlist != []
    modifies s
    ensures s.Valid() && s.currentTrackIndex == old(s.currentTrackIndex) && s.playlist == old(s.playlist)
  {
    StepsInverse(s.currentTrackIndex, |s.playlist|);
    s.PlayNext();
    s.PlayPrevious();
  }
}
