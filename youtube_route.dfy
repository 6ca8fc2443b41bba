/**
 * The `/api/youtube-map-tracks` route. Its three helpers (duration parser,
 * normaliser, score) are textually the same as the service's and are the
 * members of `YouTubeMatch`; what differs is the query (unquoted title, no
 * `name`, no hint), the error handling (no quota check: every failed call
 * gives the null reference) and the best-pick (no fallback to the first
 * candidate). Replies are an HTTP status with a JSON body.
 */
module YouTubeRoute {
  import opened Wrappers
  import opened Text
  import opened Timeline
  import opened YouTubeMatch

  /** `item.title || ''`: the route ignores `name`. */
  function RouteTitle(e: Entry): string {
    Or(e.title, "")
  }

  /** `` `${title} ${artist}`.trim() `` */
  function RouteQuery(e: Entry): string {
    Trim(RouteTitle(e) + " " + Or(e.artist, ""))
  }

  /** Title and artist without surrounding whitespace are searched as `<title> <artist>`. */
  lemma RouteQueryJoins(e: Entry)
    requires RouteTitle(e) != "" && !IsSpace(RouteTitle(e)[0])
    requires Or(e.artist, "") != "" && !IsSpace(Or(e.artist, "")[|Or(e.artist, "")| - 1])
    ensures RouteQuery(e) == RouteTitle(e) + " " + Or(e.artist, "")
  {
    var t := RouteTitle(e) + " " + Or(e.artist, "");
    assert t[0] == RouteTitle(e)[0];
    assert t[|t| - 1] == Or(e.artist, "")[|Or(e.artist, "")| - 1];
    TrimOfUnpadded(t);
  }

  /** A song with neither title nor artist is searched with the empty query. */
  lemma RouteQueryEmpty(e: Entry)
    requires RouteTitle(e) == "" && Or(e.artist, "") == ""
    ensures RouteQuery(e) == ""
  {
    assert RouteTitle(e) + " " + Or(e.artist, "") == " ";
    TrimEmptyIffBlank(" ");
  }

  /**
   * The route's best-pick: the first candidate of maximal score when that
   * score is positive, and otherwise the null-video shape (no fallback).
   */
  function RouteChoice(cands: seq<Candidate>, title: string, artist: string, targetSec: Option<int>): (r: YouTubeRef)
    ensures (forall k :: 0 <= k < |cands| ==> Score(cands[k], title, artist, targetSec) == 0) ==> r == NoVideo
    ensures (exists k :: 0 <= k < |cands| && Score(cands[k], title, artist, targetSec) > 0) ==>
      exists k :: FirstArgMax(Scores(cands, ScoreFor(title, artist, targetSec)), k) &&
        Score(cands[k], title, artist, targetSec) > 0 &&
        r == RefOf(cands[k], Score(cands[k], title, artist, targetSec))
  {
    var scores := Scores(cands, ScoreFor(title, artist, targetSec));
    match BestIndex(scores)
    case Some(b) =>
      ScoreAt(cands, title, artist, targetSec, b);
      RefOf(cands[b], scores[b])
    case None =>
      NoBestMeansNoPositive(cands, title, artist, targetSec);
      NoVideo
  }

  /** When some candidate scores above 0 the route and the service choose the same video. */
  lemma RouteAgreesWithServiceOnPositive(cands: seq<Candidate>, title: string, artist: string, targetSec: Option<int>)
    requires exists k :: 0 <= k < |cands| && Score(cands[k], title, artist, targetSec) > 0
    ensures RouteChoice(cands, title, artist, targetSec) == ServiceChoice(cands, title, artist, targetSec)
  {
    var scores := Scores(cands, ScoreFor(title, artist, targetSec));
    var k :| 0 <= k < |cands| && Score(cands[k], title, artist, targetSec) > 0;
    ScoreAt(cands, title, artist, targetSec, k);
    assert BestIndex(scores).Some?;
  }

  /** When every candidate scores 0 the route has no match where the service takes the first candidate. */
  lemma RouteHasNoFallback(cands: seq<Candidate>, title: string, artist: string, targetSec: Option<int>)
    requires cands != []
    requires forall k :: 0 <= k < |cands| ==> Score(cands[k], title, artist, targetSec) == 0
    ensures RouteChoice(cands, title, artist, targetSec) == NoVideo
    ensures ServiceChoice(cands, title, artist, targetSec) == RefOf(cands[0], 0)
  {
    FallbackUsesFirstCandidate(cands, title, artist, targetSec);
  }

  /**
   * The `youtube` field the route gives one song: the null-video shape for a
   * failed search (whatever its status), a search without usable ids and a
   * failed details call; otherwise the route's best-pick.
   */
  function RouteRef(e: Entry, search: string -> SearchResponse, videos: seq<string> -> VideosResponse): (r: YouTubeRef)
    ensures search(RouteQuery(e)).SearchFailed? ==> r == NoVideo
    ensures (search(RouteQuery(e)).SearchOk? && VideoIds(search(RouteQuery(e)).itemIds) == []) ==> r == NoVideo
    ensures (var sr := search(RouteQuery(e));
      (sr.SearchOk? && VideoIds(sr.itemIds) != [] && videos(VideoIds(sr.itemIds)).VideosFailed?) ==> r == NoVideo)
    ensures 0 <= r.matchedConfidence <= 100
  {
    match search(RouteQuery(e))
    case SearchFailed(_, _) => NoVideo
    case SearchOk(itemIds) =>
      var ids := VideoIds(itemIds);
      if ids == [] then NoVideo
      else
        var items := match videos(ids) case VideosFailed(_, _) => [] case VideosOk(vs) => vs;
        var r := RouteChoice(Candidates(items), RouteTitle(e), Or(e.artist, ""), TargetSeconds(e));
        assert r.matchedConfidence in Scores(Candidates(items), ScoreFor(RouteTitle(e), Or(e.artist, ""), TargetSeconds(e))) || r == NoVideo;
        r
  }

  /** One timeline item after the route's mapping. */
  function RouteEntry(e: Entry, search: string -> SearchResponse, videos: seq<string> -> VideosResponse): Entry {
    if IsSong(e) then e.(youtube := Some(RouteRef(e, search, videos))) else e
  }

  /** The route's output timeline, item by item. */
  function RouteTimeline(es: seq<Entry>, search: string -> SearchResponse, videos: seq<string> -> VideosResponse): seq<Entry> {
    seq(|es|, k requires 0 <= k < |es| => RouteEntry(es[k], search, videos))
  }

  /** The output for one more item is the output so far and that item's mapping. */
  lemma RouteTimelineStep(es: seq<Entry>, i: nat, out: seq<Entry>, search: string -> SearchResponse, videos: seq<string> -> VideosResponse)
    requires i < |es| && out == RouteTimeline(es[..i], search, videos)
    ensures RouteTimeline(es[..i + 1], search, videos) == out + [RouteEntry(es[i], search, videos)]
  {
    assert es[..i + 1][..i] == es[..i];
  }

  /**
   * The output keeps the input's length and order; items that are not songs
   * pass through unchanged; songs keep every field and gain a `youtube`
   * field with a confidence in [0, 100].
   */
  lemma RouteTimelineShape(es: seq<Entry>, search: string -> SearchResponse, videos: seq<string> -> VideosResponse)
    ensures |RouteTimeline(es, search, videos)| == |es|
    ensures forall k :: 0 <= k < |es| ==>
      var out := RouteTimeline(es, search, videos)[k];
      (!IsSong(es[k]) ==> out == es[k]) &&
      (IsSong(es[k]) ==>
        (out.youtube.Some? && out == es[k].(youtube := out.youtube) && 0 <= out.youtube.value.matchedConfidence <= 100))
  {
  }

  /** The JSON body of a reply. */
  datatype ReplyBody = Failure(error: string) | Mapped(timeline: seq<Entry>)

  datatype Reply = Reply(status: int, body: ReplyBody)

  /** The per-song body of the route's loop: search, details, best-pick. */
  method MapRouteSong(e: Entry, search: string -> SearchResponse, videos: seq<string> -> VideosResponse)
    returns (y: YouTubeRef)
    ensures y == RouteRef(e, search, videos)
  {
    var title := RouteTitle(e);
    var artist := Or(e.artist, "");
    var targetSec := TargetSeconds(e);
    var searchResp := search(RouteQuery(e));
    if searchResp.SearchFailed? {
      return NoVideo;
    }
    var ids := VideoIds(searchResp.itemIds);
    if ids == [] {
      return NoVideo;
    }
    var videosResp := videos(ids);
    var items: seq<Video> := if videosResp.VideosOk? then videosResp.items else [];
    var cands := Candidates(items);
    var best, bestScore := PickBest(cands, ScoreFor(title, artist, targetSec));
    RoutePicked(cands, title, artist, targetSec, best, bestScore);
    if best.Some? {
      y := RefOf(cands[best.value], bestScore);
    } else {
      y := NoVideo;
    }
    RouteRefChoice(e, search, videos);
  }

  /** On a search with usable ids the route's reference is its best-pick among the details. */
  lemma RouteRefChoice(e: Entry, search: string -> SearchResponse, videos: seq<string> -> VideosResponse)
    requires search(RouteQuery(e)).SearchOk? && VideoIds(search(RouteQuery(e)).itemIds) != []
    ensures var resp := videos(VideoIds(search(RouteQuery(e)).itemIds));
      RouteRef(e, search, videos) ==
      RouteChoice(Candidates(if resp.VideosOk? then resp.items else []), RouteTitle(e), Or(e.artist, ""), TargetSeconds(e))
  {
  }

  /** The loop's best index and score give the route's best-pick. */
  lemma RoutePicked(cands: seq<Candidate>, title: string, artist: string, targetSec: Option<int>, best: Option<nat>, bestScore: int)
    requires best == BestIndex(Scores(cands, ScoreFor(title, artist, targetSec)))
    requires best.Some? ==> best.value < |cands| && bestScore == ScoreFor(title, artist, targetSec)(cands[best.value])
    ensures RouteChoice(cands, title, artist, targetSec) ==
      if best.Some? then RefOf(cands[best.value], bestScore) else NoVideo
  {
    if best.Some? {
      ScoreAt(cands, title, artist, targetSec, best.value);
    }
  }

  /**
   * `POST /api/youtube-map-tracks`: 500 without an API key, 400 when the
   * body's `timeline` is not an array (`None`), otherwise 200 with every
   * song mapped.
   */
  method MapTracks(
    apiKey: Option<string>, timeline: Option<seq<Entry>>,
    search: string -> SearchResponse, videos: seq<string> -> VideosResponse)
    returns (r: Reply)
    ensures !Truthy(apiKey) ==> r == Reply(500, Failure("YouTube API key not configured"))
    ensures Truthy(apiKey) && timeline.None? ==> r == Reply(400, Failure("timeline must be an array"))
    ensures Truthy(apiKey) && timeline.Some? ==> r == Reply(200, Mapped(RouteTimeline(timeline.value, search, videos)))
  {
    if !Truthy(apiKey) {
      return Reply(500, Failure("YouTube API key not configured"));
    }
    if timeline.None? {
      return Reply(400, Failure("timeline must be an array"));
    }
    var es := timeline.value;
    var out: seq<Entry> := [];
    var i := 0;
    while i < |es|
      invariant 0 <= i <= |es|
      invariant out == RouteTimeline(es[..i], search, videos)
    {
      RouteTimelineStep(es, i, out, search, videos);
      var item := es[i];
      if !IsSong(item) {
        out := out + [item];
      } else {
        var y := MapRouteSong(item, search, videos);
        out := out + [item.(youtube := Some(y))];
      }
      i := i + 1;
    }
    assert es[..i] == es;
    r := Reply(200, Mapped(out));
  }
}
