/**
 * Timeline entries as the server and the player pass them around: one record
 * type carrying every field the modelled code reads or writes. A field that
 * JavaScript would find missing, `null` or `undefined` is `None`; a `null`
 * array element behaves in every modelled function exactly like an entry with
 * no `type`, so it is represented by one.
 */
module Timeline {
  import opened Wrappers
  import opened Text

  /** The `youtube` field of a song entry. `matchedConfidence` is in hundredths. */
  datatype YouTubeRef = YouTubeRef(
    videoId: Option<string>,
    title: Option<string>,
    channelId: Option<string>,
    durationSec: Option<int>,
    matchedConfidence: int)

  /** `{ videoId: null, title: null, channelId: null, durationSec: null, matchedConfidence: 0 }` */
  const NoVideo := YouTubeRef(None, None, None, None, 0)

  /**
   * A timeline item. `kind` is the `type` field; `ttsUrl`, `ttsUrlCamel` and
   * `url` are the three keys the player accepts for narration audio
   * (`tts_url`, `ttsUrl`, `url`); `durationMs` is `duration_ms` when it is a
   * finite number.
   */
  datatype Entry = Entry(
    kind: Option<string>,
    title: Option<string>,
    name: Option<string>,
    artist: Option<string>,
    text: Option<string>,
    durationMs: Option<int>,
    youtubeHint: Option<string>,
    ttsUrl: Option<string>,
    ttsUrlCamel: Option<string>,
    url: Option<string>,
    trackUri: Option<string>,
    spotifyQuery: Option<string>,
    youtube: Option<YouTubeRef>)

  /** An entry with only a `type` field. */
  function Bare(kind: Option<string>): Entry {
    Entry(kind, None, None, None, None, None, None, None, None, None, None, None, None)
  }

  /** JavaScript truthiness of an optional string. */
  predicate Truthy(a: Option<string>) {
    a.Some? && a.value != ""
  }

  /** `a || b` for an optional string `a` and a string `b`. */
  function Or(a: Option<string>, b: string): (r: string)
    ensures Truthy(a) ==> r == a.value
    ensures !Truthy(a) ==> r == b
  {
    if Truthy(a) then a.value else b
  }

  /** `a || b` where both sides may be missing. */
  function OrOpt(a: Option<string>, b: Option<string>): (r: Option<string>)
    ensures Truthy(a) ==> r == a
    ensures !Truthy(a) ==> r == b
  {
    if Truthy(a) then a else b
  }

  predicate IsSong(e: Entry) {
    e.kind == Some("song")
  }

  predicate IsNarration(e: Entry) {
    e.kind == Some("narration")
  }

  /** `typeof e.text === 'string' && e.text.trim().length > 0` */
  predicate HasSpeakableText(e: Entry) {
    e.text.Some? && !IsBlank(e.text.value)
  }

  /**
   * The entries that receive synthesised narration audio: in a timeline,
   * narration entries with non-blank text; among legacy `narration_segments`,
   * every segment with non-blank text.
   */
  predicate IsTtsTarget(e: Entry, fromTimeline: bool) {
    (fromTimeline ==> IsNarration(e)) && HasSpeakableText(e)
  }

  /** The positions of the TTS targets of `es`, in order. */
  function TargetIndices(es: seq<Entry>, fromTimeline: bool): (r: seq<nat>)
    ensures forall k :: 0 <= k < |r| ==> r[k] < |es| && IsTtsTarget(es[r[k]], fromTimeline)
    ensures forall k, l :: 0 <= k < l < |r| ==> r[k] < r[l]
    ensures forall j :: 0 <= j < |es| && IsTtsTarget(es[j], fromTimeline) ==> j in r
  {
    if es == [] then []
    else
      var n := |es| - 1;
      var pre := TargetIndices(es[..n], fromTimeline);
      var r := pre + (if IsTtsTarget(es[n], fromTimeline) then [n] else []);
      r
  }

  /** The loop that pushes every TTS target of `es` onto a list, in order. */
  method CollectTargets(es: seq<Entry>, fromTimeline: bool) returns (targets: seq<nat>)
    ensures targets == TargetIndices(es, fromTimeline)
  {
    targets := [];
    var i := 0;
    while i < |es|
      invariant 0 <= i <= |es|
      invariant targets == TargetIndices(es[..i], fromTimeline)
    {
      assert es[..i + 1][..i] == es[..i];
      if IsTtsTarget(es[i], fromTimeline) {
        targets := targets + [i];
      }
      i := i + 1;
    }
    assert es[..i] == es;
  }
}
