/**
 * The `/api/jobs` routes and the background run they start. The run drives
 * the registry through a fixed sequence of progress updates, saves the
 * playlist, attaches narration audio URLs to the narration items of its
 * timeline, and ends with one `completeJob` or one `failJob`. The generators
 * (plan, album art, mapping, narration script, stitching) and the speech
 * synthesiser are oracle parameters whose calls may fail; the playlist store
 * is the `Storage` model. The clock and the fresh playlist id are parameters.
 */
module JobsRoute {
  import opened Wrappers
  import opened Text
  import opened Timeline
  import opened Storage
  import opened Jobs

  // ---------------------------------------------------------------------
  // Progress during narration
  // ---------------------------------------------------------------------

  /**
   * `70 + Math.round((idx / n) * 25)` when there are targets, else 95:
   * `Math.round` gives the integer nearest to `25 * idx / n`, halves rounded up.
   * The product is taken exactly here, not as the engine's floating-point value.
   */
  function NarrationProgress(idx: nat, n: nat): (r: int)
    ensures n > 0 ==> 2 * n * (r - 70) - n <= 50 * idx < 2 * n * (r - 70) + n
    ensures n == 0 ==> r == 95
  {
    if n > 0 then
      var q := (50 * idx + n) / (2 * n);
      assert 50 * idx + n == 2 * n * q + (50 * idx + n) % (2 * n);
      70 + q
    else 95
  }

  lemma MulMono(a: int, b: int, c: int)
    requires a >= 0 && b <= c
    ensures a * b <= a * c
  {
    assert a * c - a * b == a * (c - b);
  }

  /** Every per-target value lies between the stage-3 start (70) and 95. */
  lemma NarrationProgressBounds(idx: nat, n: nat)
    requires idx < n
    ensures 70 <= NarrationProgress(idx, n) <= 95
  {
    var d := NarrationProgress(idx, n) - 70;
    if d < 0 {
      MulMono(2 * n, d, -1);
      assert false;
    }
    if d > 25 {
      MulMono(2 * n, 26, d);
      assert false;
    }
  }

  /** The per-target values never go down as `idx` grows. */
  lemma NarrationProgressMonotone(i: nat, j: nat, n: nat)
    requires i <= j < n
    ensures NarrationProgress(i, n) <= NarrationProgress(j, n)
  {
    var a := NarrationProgress(i, n) - 70;
    var b := NarrationProgress(j, n) - 70;
    if a > b {
      MulMono(2 * n, b + 1, a);
      MulMono(50, i, j);
      assert false;
    }
  }

  // ---------------------------------------------------------------------
  // TTS file names
  // ---------------------------------------------------------------------

  /** A character the sanitiser keeps: `[a-zA-Z0-9_-]`. */
  predicate IdChar(c: char) {
    ('a' <= c <= 'z') || ('A' <= c <= 'Z') || ('0' <= c <= '9') || c == '_' || c == '-'
  }

  /** `id.replace(/[^a-zA-Z0-9_-]/g, '-')` */
  function Sanitize(id: string): (r: string)
    ensures |r| == |id|
    ensures forall k :: 0 <= k < |r| ==> IdChar(r[k])
    ensures forall k :: 0 <= k < |id| && IdChar(id[k]) ==> r[k] == id[k]
    ensures forall k :: 0 <= k < |id| && !IdChar(id[k]) ==> r[k] == '-'
  {
    if id == [] then []
    else [if IdChar(id[0]) then id[0] else '-'] + Sanitize(id[1..])
  }

  /** Sanitising twice is sanitising once. */
  lemma SanitizeIdempotent(id: string)
    ensures Sanitize(Sanitize(id)) == Sanitize(id)
  {
  }

  /** `` `tts_${sanitised}_${idx}.mp3` `` */
  function TtsFileName(playlistId: string, idx: nat): (r: string)
    ensures |r| == |playlistId| + |NatToString(idx)| + 9
    ensures r[..4] == "tts_" && r[4..4 + |playlistId|] == Sanitize(playlistId)
    ensures r[|r| - 4..] == ".mp3"
    ensures forall k :: 0 <= k < |r| ==> IdChar(r[k]) || r[k] == '.'
  {
    var r := "tts_" + Sanitize(playlistId) + "_" + NatToString(idx) + ".mp3";
    assert forall k :: 4 + |playlistId| + 1 <= k < 4 + |playlistId| + 1 + |NatToString(idx)| ==>
      r[k] == NatToString(idx)[k - 4 - |playlistId| - 1];
    r
  }

  /** `` `/tts/${fileName}` `` */
  function TtsPublicUrl(playlistId: string, idx: nat): string {
    "/tts/" + TtsFileName(playlistId, idx)
  }

  /** The audio every target gets when speech synthesis is mocked. */
  const Placeholder := "/audio/voice-of-character-montervillain-expressions-132288.mp3"

  // ---------------------------------------------------------------------
  // The progress trace of a run
  // ---------------------------------------------------------------------

  const Planning := Update(Some(Running), Some(1), Some("Planning tracks"), Some(5), Some("Drafting alternates and story beats"))
  const Preparing := Update(None, Some(2), Some("Preparing playlist"), Some(30), Some("Mapping primary tracks and alternates"))
  const Narrating := Update(None, Some(3), Some("Generating narration"), Some(70), Some("Preparing narration tracks"))
  const Finalizing := Update(None, Some(4), Some("Finalizing"), Some(96), Some("Saving playlist"))
  const Done := Update(None, Some(5), Some("Done"), Some(100), None)

  /** The update sent before the `idx`-th of `n` narration targets. */
  function TrackUpdate(idx: nat, n: nat): Update {
    Update(None, Some(3), Some("Generating narration"), Some(NarrationProgress(idx, n)),
      Some("Generating track " + NatToString(idx + 1) + "/" + NatToString(n)))
  }

  function TrackUpdates(n: nat): seq<Update> {
    seq(n, idx requires 0 <= idx < n => TrackUpdate(idx, n))
  }

  /** The updates of a run from stage 3 on, when it completes. */
  function TailTrace(n: nat): seq<Update> {
    [Narrating] + TrackUpdates(n) + [Finalizing, Done]
  }

  /** Every update a run that reaches the end sends, in order. */
  function SuccessTrace(n: nat): seq<Update> {
    [Planning, Preparing] + TailTrace(n)
  }

  /**
   * A complete run's updates: the job is set running first; stages go
   * 1, 2, 3, 3 (once per target), 4, 5; progress goes 5, 30, 70, the
   * per-target values, 96, 100; neither ever goes down.
   */
  lemma SuccessTraceShape(n: nat)
    ensures var t := SuccessTrace(n);
      && |t| == n + 5
      && t[0].status == Some(Running) && (forall k :: 1 <= k < |t| ==> t[k].status.None?)
      && (forall k :: 0 <= k < |t| ==> t[k].stage.Some? && t[k].stageLabel.Some? && t[k].progress.Some?)
      && t[0].stage == Some(1) && t[1].stage == Some(2) && t[|t| - 2].stage == Some(4) && t[|t| - 1].stage == Some(5)
      && (forall k :: 2 <= k < n + 3 ==> t[k].stage == Some(3))
      && t[0].progress == Some(5) && t[1].progress == Some(30) && t[2].progress == Some(70)
      && t[|t| - 2].progress == Some(96) && t[|t| - 1].progress == Some(100)
      && (forall i, j :: 0 <= i <= j < |t| ==> t[i].stage.value <= t[j].stage.value)
      && (forall i, j :: 0 <= i <= j < |t| ==> t[i].progress.value <= t[j].progress.value)
  {
    SuccessTraceFields(n);
    SuccessTraceStagesRise(n);
    SuccessTraceProgressRises(n);
  }

  /** The known entries of a complete run's trace, and every per-target entry. */
  lemma SuccessTraceAt(n: nat)
    ensures var t := SuccessTrace(n);
      && |t| == n + 5 && t[0] == Planning && t[1] == Preparing && t[2] == Narrating
      && t[n + 3] == Finalizing && t[n + 4] == Done
      && (forall k :: 3 <= k < n + 3 ==> t[k] == TrackUpdate(k - 3, n))
  {
    var t := SuccessTrace(n);
    assert forall k :: 3 <= k < n + 3 ==> t[k] == TrackUpdates(n)[k - 3];
  }

  lemma SuccessTraceFields(n: nat)
    ensures var t := SuccessTrace(n);
      && |t| == n + 5
      && t[0].status == Some(Running) && (forall k :: 1 <= k < |t| ==> t[k].status.None?)
      && (forall k :: 0 <= k < |t| ==> t[k].stage.Some? && t[k].stageLabel.Some? && t[k].progress.Some?)
      && t[0].stage == Some(1) && t[1].stage == Some(2) && t[|t| - 2].stage == Some(4) && t[|t| - 1].stage == Some(5)
      && (forall k :: 2 <= k < n + 3 ==> t[k].stage == Some(3))
      && t[0].progress == Some(5) && t[1].progress == Some(30) && t[2].progress == Some(70)
      && t[|t| - 2].progress == Some(96) && t[|t| - 1].progress == Some(100)
  {
    SuccessTraceAt(n);
    var t := SuccessTrace(n);
    forall k | 0 <= k < |t|
      ensures (k == 0 || t[k].status.None?) && t[k].stage.Some? && t[k].stageLabel.Some? && t[k].progress.Some?
      ensures 2 <= k < n + 3 ==> t[k].stage == Some(3)
    {
      if 3 <= k < n + 3 {
        assert t[k] == TrackUpdate(k - 3, n);
      }
    }
  }

  lemma SuccessTraceStagesRise(n: nat)
    ensures var t := SuccessTrace(n);
      && (forall k :: 0 <= k < |t| ==> t[k].stage.Some?)
      && (forall i, j :: 0 <= i <= j < |t| ==> t[i].stage.value <= t[j].stage.value)
  {
    SuccessTraceAt(n);
    var t := SuccessTrace(n);
    forall k | 0 <= k < |t|
      ensures t[k].stage == Some(if k < 2 then k + 1 else if k < n + 3 then 3 else k - n + 1)
    {
      if 3 <= k < n + 3 {
        assert t[k] == TrackUpdate(k - 3, n);
      }
    }
  }

  lemma SuccessTraceProgressRises(n: nat)
    ensures var t := SuccessTrace(n);
      && (forall k :: 0 <= k < |t| ==> t[k].progress.Some?)
      && (forall i, j :: 0 <= i <= j < |t| ==> t[i].progress.value <= t[j].progress.value)
  {
    var t := SuccessTrace(n);
    forall i, j | 0 <= i <= j < |t|
      ensures t[i].progress.Some? && t[j].progress.Some? && t[i].progress.value <= t[j].progress.value
    {
      SuccessTraceProgressStep(n, i, j);
    }
    forall k | 0 <= k < |t|
      ensures t[k].progress.Some?
    {
      SuccessTraceProgressStep(n, k, k);
    }
  }

  /** Progress never goes down between two updates of a complete run. */
  lemma SuccessTraceProgressStep(n: nat, i: nat, j: nat)
    requires i <= j < n + 5
    ensures SuccessTrace(n)[i].progress.Some? && SuccessTrace(n)[j].progress.Some?
    ensures SuccessTrace(n)[i].progress.value <= SuccessTrace(n)[j].progress.value
  {
    var t := SuccessTrace(n);
    if 3 <= i < n + 3 {
      assert t[i] == TrackUpdate(i - 3, n);
      NarrationProgressBounds(i - 3, n);
    }
    if 3 <= j < n + 3 {
      assert t[j] == TrackUpdate(j - 3, n);
      NarrationProgressBounds(j - 3, n);
      if 3 <= i {
        NarrationProgressMonotone(i - 3, j - 3, n);
      }
    }
  }

  /** The registry after `updateProgress(jobId, u)` for every `u` of `us`, in order. */
  function ApplyUpdates(reg: Registry, jobId: JobId, us: seq<Update>, now: int): Registry
    decreases |us|
  {
    if us == [] then reg
    else AfterProgress(ApplyUpdates(reg, jobId, us[..|us| - 1], now), jobId, us[|us| - 1], now)
  }

  /** `ev` is a progress event of job `jobId` carrying the stage, label and progress `u` set. */
  predicate Reports(ev: Event, jobId: JobId, u: Update) {
    && ev.ProgressEvent? && ev.jobId == jobId
    && u.stage == Some(ev.stage) && u.stageLabel == Some(ev.stageLabel) && u.progress == Some(ev.progress)
  }

  /**
   * Updates that all carry a stage, label and progress emit one progress
   * event each, in order, with exactly those values; the job is last left
   * at the last update's values.
   */
  lemma {:induction false} UpdatesEmitInOrder(reg: Registry, jobId: JobId, us: seq<Update>, now: int)
    requires jobId in reg.jobs
    requires forall k :: 0 <= k < |us| ==> us[k].stage.Some? && us[k].stageLabel.Some? && us[k].progress.Some?
    ensures var after := ApplyUpdates(reg, jobId, us, now);
      && jobId in after.jobs
      && after.userJobs == reg.userJobs
      && after.jobs.Keys == reg.jobs.Keys
      && |after.log| == |reg.log| + |us| && after.log[..|reg.log|] == reg.log
      && (forall k :: 0 <= k < |us| ==> Reports(after.log[|reg.log| + k].event, jobId, us[k]))
      && (us != [] ==>
            (after.jobs[jobId].stage == us[|us| - 1].stage.value && after.jobs[jobId].progress == us[|us| - 1].progress.value))
    decreases |us|
  {
    if us != [] {
      var n := |us| - 1;
      var pre := us[..n];
      UpdatesEmitInOrder(reg, jobId, pre, now);
      var mid := ApplyUpdates(reg, jobId, pre, now);
      var after := ApplyUpdates(reg, jobId, us, now);
      assert after == AfterProgress(mid, jobId, us[n], now);
      assert after.log == mid.log + [after.log[|after.log| - 1]];
      forall k | 0 <= k < |us|
        ensures Reports(after.log[|reg.log| + k].event, jobId, us[k])
      {
        if k < n {
          assert after.log[|reg.log| + k] == mid.log[|reg.log| + k];
          assert us[k] == pre[k];
        } else {
          var m := Merged(mid.jobs[jobId], us[n], now);
          assert after.log[|reg.log| + k] == Delivery(ProgressEvent(jobId, m.status, m.stage, m.stageLabel, m.progress, us[n].detail), m.emitter.progress);
        }
      }
      assert after.log[..|reg.log|] == mid.log[..|reg.log|];
    }
  }

  // ---------------------------------------------------------------------
  // Attaching narration audio
  // ---------------------------------------------------------------------

  /** `es` with `tts_url` set to `url(i)` on the entry at `targets[i]`, for every `i` below `upto`. */
  function WithTtsUrls(es: seq<Entry>, targets: seq<nat>, url: nat -> string, upto: nat): (r: seq<Entry>)
    requires upto <= |targets|
    requires forall i :: 0 <= i < |targets| ==> targets[i] < |es|
    ensures |r| == |es|
    ensures forall k :: 0 <= k < |es| ==> r[k].text == es[k].text
    decreases upto
  {
    if upto == 0 then es
    else
      var prev := WithTtsUrls(es, targets, url, upto - 1);
      var at := targets[upto - 1];
      prev[at := prev[at].(ttsUrl := Some(url(upto - 1)))]
  }

  /**
   * With distinct targets, the entry at `targets[i]` (for `i < upto`) gains
   * `url(i)` as its `tts_url` and keeps every other field; every other entry
   * is unchanged.
   */
  lemma {:induction false} WithTtsUrlsEffect(es: seq<Entry>, targets: seq<nat>, url: nat -> string, upto: nat)
    requires upto <= |targets|
    requires forall i :: 0 <= i < |targets| ==> targets[i] < |es|
    requires forall i, j :: 0 <= i < j < |targets| ==> targets[i] < targets[j]
    ensures var r := WithTtsUrls(es, targets, url, upto);
      && (forall i :: 0 <= i < upto ==> r[targets[i]] == es[targets[i]].(ttsUrl := Some(url(i))))
      && (forall k :: 0 <= k < |es| && k !in targets[..upto] ==> r[k] == es[k])
    decreases upto
  {
    if upto > 0 {
      WithTtsUrlsEffect(es, targets, url, upto - 1);
      assert targets[..upto] == targets[..upto - 1] + [targets[upto - 1]];
    }
  }

  /**
   * The job's timeline with audio: each narration item with non-blank text
   * gets the URL for its position among those items; nothing else changes.
   */
  lemma TtsAttachedToNarrationTargets(es: seq<Entry>, url: nat -> string)
    ensures var targets := TargetIndices(es, true);
      var r := WithTtsUrls(es, targets, url, |targets|);
      && |r| == |es|
      && (forall i :: 0 <= i < |targets| ==> r[targets[i]] == es[targets[i]].(ttsUrl := Some(url(i))))
      && (forall k :: 0 <= k < |es| && !IsTtsTarget(es[k], true) ==> r[k] == es[k])
  {
    var targets := TargetIndices(es, true);
    WithTtsUrlsEffect(es, targets, url, |targets|);
    assert targets[..|targets|] == targets;
  }

  /** The url the `i`-th narration target gets: the placeholder when synthesis is mocked, else its file's public path. */
  function UrlFor(mockTts: bool, playlistId: string): nat -> string {
    (i: nat) => if mockTts then Placeholder else TtsPublicUrl(playlistId, i)
  }

  // ---------------------------------------------------------------------
  // The generators
  // ---------------------------------------------------------------------

  /** What `generateMusicPlan` resolved to when it is an object: the field the run reads. */
  datatype Plan = Plan(narrationAlbumArtUrl: Option<string>)

  /** What `generateNarrationAlbumArt` resolved to when it is an object. */
  datatype ArtResult = ArtResult(publicUrl: Option<string>, dataUrl: Option<string>)

  /** The fields of the stitched document that the run reads. */
  datatype Stitched = Stitched(
    title: Option<string>,
    topic: Option<string>,
    summary: Option<string>,
    timeline: Option<seq<Entry>>,
    narrationAlbumArtUrl: Option<string>)

  /**
   * The calls that may fail: the plan and the art (awaited together, a
   * falsy result being `None`), the mapping, narration script and stitching
   * (one outcome), and speech synthesis of one text.
   */
  datatype Generators = Generators(
    planAndArt: Result<(Option<Plan>, Option<ArtResult>), ErrorValue>,
    stitched: Result<Stitched, ErrorValue>,
    tts: string -> Option<ErrorValue>)

  /** The plan's `narrationAlbumArtUrl` once the art is attached: `publicUrl || dataUrl` when both plan and art came back. */
  function PlanArtUrl(plan: Option<Plan>, art: Option<ArtResult>): (r: Option<string>)
    ensures plan.Some? && art.Some? && Truthy(art.value.publicUrl) ==> r == art.value.publicUrl
    ensures plan.Some? && art.Some? && !Truthy(art.value.publicUrl) ==> r == art.value.dataUrl
    ensures plan.Some? && art.None? ==> r == plan.value.narrationAlbumArtUrl
    ensures plan.None? ==> r.None?
  {
    match plan
    case None => None
    case Some(p) =>
      match art
      case Some(a) => OrOpt(a.publicUrl, a.dataUrl)
      case None => p.narrationAlbumArtUrl
  }

  /** The stitched document's art url: the plan's when truthy, otherwise its own. */
  function StitchedArtUrl(planUrl: Option<string>, st: Stitched): Option<string> {
    OrOpt(planUrl, st.narrationAlbumArtUrl)
  }

  /** `x || null` */
  function OrNull(x: Option<string>): (v: Value)
    ensures Truthy(x) ==> v == Str(x.value)
    ensures !Truthy(x) ==> v == Null
  {
    if Truthy(x) then Str(x.value) else Null
  }

  /** The object the run hands to `savePlaylist`. */
  function SaveInput(topic: string, st: Stitched, artUrl: Option<string>): Record {
    map[
      "ownerId" := Str("anonymous"),
      "title" := Str(Or(st.title, if topic != "" then "Music history: " + topic else "Music history")),
      "topic" := Str(Or(st.topic, topic)),
      "summary" := Str(Or(st.summary, "")),
      "timeline" := Items(if st.timeline.Some? then st.timeline.value else []),
      "source" := Str("youtube"),
      "narrationAlbumArtUrl" := OrNull(artUrl),
      "_debug" := Other]
  }

  /** `Array.isArray(rec.timeline) ? copy : []` */
  function TimelineOf(rec: Record): seq<Entry> {
    if "timeline" in rec && rec["timeline"].Items? then rec["timeline"].items else []
  }

  /** Every position of `targets` holds an entry of `es` with a text. */
  predicate SpeakableAt(es: seq<Entry>, targets: seq<nat>) {
    forall k :: 0 <= k < |targets| ==> targets[k] < |es| && es[targets[k]].text.Some?
  }

  /** The error synthesising the `idx`-th target's trimmed text gives, if any. */
  function TtsError(tts: string -> Option<ErrorValue>, es: seq<Entry>, targets: seq<nat>, idx: nat): Option<ErrorValue>
    requires SpeakableAt(es, targets) && idx < |targets|
  {
    tts(Trim(es[targets[idx]].text.value))
  }

  /** The first target at or after `from` whose synthesis fails. */
  function FirstTtsFailure(tts: string -> Option<ErrorValue>, es: seq<Entry>, targets: seq<nat>, from: nat): (r: Option<nat>)
    requires SpeakableAt(es, targets) && from <= |targets|
    ensures r.Some? ==> from <= r.value < |targets| && TtsError(tts, es, targets, r.value).Some?
    ensures r.Some? ==> forall k :: from <= k < r.value ==> TtsError(tts, es, targets, k).None?
    ensures r.None? ==> forall k :: from <= k < |targets| ==> TtsError(tts, es, targets, k).None?
    decreases |targets| - from
  {
    if from == |targets| then None
    else if TtsError(tts, es, targets, from).Some? then Some(from)
    else FirstTtsFailure(tts, es, targets, from + 1)
  }

  /** The fields `updatePlaylist` is given at the end of a run. */
  function FinalPatch(rec: Record, withTts: seq<Entry>, artUrl: Option<string>): Record {
    var art :=
      if Truthy(artUrl) then Str(artUrl.value)
      else if "narrationAlbumArtUrl" in rec && ValueTruthy(rec["narrationAlbumArtUrl"]) then rec["narrationAlbumArtUrl"]
      else Null;
    map["timeline" := Items(withTts), "narrationAlbumArtUrl" := art]
  }

  // ---------------------------------------------------------------------
  // runYouTubeDocJob
  // ---------------------------------------------------------------------

  /** How a run ends: `completeJob` with its result, or `failJob` with the error. */
  datatype Finish = Completes(result: JobResult) | FailsWith(error: ErrorValue)

  /** A run's progress updates, its end, and the record last written to the store (if any). */
  datatype RunOutcome = RunOutcome(updates: seq<Update>, finish: Finish, stored: Option<Record>)

  /** The art url of the stitched document, once the plan and art came back. */
  function ArtUrlOf(pa: (Option<Plan>, Option<ArtResult>), st: Stitched): Option<string> {
    StitchedArtUrl(PlanArtUrl(pa.0, pa.1), st)
  }

  /** The record `savePlaylist` writes during a run. */
  function SavedOf(topic: string, pa: (Option<Plan>, Option<ArtResult>), st: Stitched, playlistId: string, createdAt: string): Record {
    SavedRecord(SaveInput(topic, st, ArtUrlOf(pa, st)), playlistId, createdAt)
  }

  /** The timeline of the playlist a run saves, once every generator has answered. */
  function RunTimeline(params: JobParams, gens: Generators, playlistId: string, createdAt: string): seq<Entry>
    requires gens.planAndArt.Ok? && gens.stitched.Ok?
  {
    TimelineOf(SavedOf(params.topic, gens.planAndArt.value, gens.stitched.value, playlistId, createdAt))
  }

  /** The number of narration targets a run meets (none when generation fails first). */
  function PlannedTargets(params: JobParams, gens: Generators, playlistId: string, createdAt: string): nat {
    if gens.planAndArt.Ok? && gens.stitched.Ok? then |TargetIndices(RunTimeline(params, gens, playlistId, createdAt), true)|
    else 0
  }

  /**
   * What a run does once the playlist `rec` is saved, with `artUrl` the
   * stitched document's art: stage 3 and one update per target, then
   * stage 4, the final store update, stage 5 and `completeJob`; or `failJob`
   * with the first failing synthesis' error, after that target's update.
   */
  function Narrated(
    rec: Record, artUrl: Option<string>, tts: string -> Option<ErrorValue>, mockTts: bool, playlistId: string, updatedAt: string)
    : RunOutcome
  {
    var tl := TimelineOf(rec);
    var targets := TargetIndices(tl, true);
    var n := |targets|;
    var failure := if mockTts then None else FirstTtsFailure(tts, tl, targets, 0);
    if failure.Some? then
      RunOutcome([Narrating] + TrackUpdates(n)[..failure.value + 1], FailsWith(TtsError(tts, tl, targets, failure.value).value), Some(rec))
    else
      var withTts := WithTtsUrls(tl, targets, UrlFor(mockTts, playlistId), n);
      var data := Merge(rec, FinalPatch(rec, withTts, artUrl), updatedAt);
      RunOutcome(TailTrace(n), Completes(JobResult(playlistId, data)), Some(data))
  }

  /** What a run does once the plan, the art and the stitched document are in: the save, then `Narrated`. */
  function AfterGeneration(
    topic: string, pa: (Option<Plan>, Option<ArtResult>), st: Stitched, tts: string -> Option<ErrorValue>,
    mockTts: bool, playlistId: string, createdAt: string, updatedAt: string): RunOutcome
  {
    Narrated(SavedOf(topic, pa, st, playlistId, createdAt), ArtUrlOf(pa, st), tts, mockTts, playlistId, updatedAt)
  }

  /** What a run does, step by step, as the specification of `RunYouTubeDocJob`. */
  function RunSpec(params: JobParams, gens: Generators, mockTts: bool, playlistId: string, createdAt: string, updatedAt: string): RunOutcome {
    match gens.planAndArt
    case Err(e) => RunOutcome([Planning], FailsWith(e), None)
    case Ok(pa) =>
      match gens.stitched
      case Err(e) => RunOutcome([Planning, Preparing], FailsWith(e), None)
      case Ok(st) =>
        var t := AfterGeneration(params.topic, pa, st, gens.tts, mockTts, playlistId, createdAt, updatedAt);
        RunOutcome([Planning, Preparing] + t.updates, t.finish, t.stored)
  }

  /** The registry after the run's last call. */
  function AfterEnd(reg: Registry, jobId: JobId, finish: Finish, now: int): Registry {
    match finish
    case Completes(result) => AfterComplete(reg, jobId, result, now)
    case FailsWith(e) => AfterFail(reg, jobId, e, now)
  }

  lemma {:induction false} ApplyUpdatesAppend(reg: Registry, jobId: JobId, a: seq<Update>, b: seq<Update>, now: int)
    ensures ApplyUpdates(reg, jobId, a + b, now) == ApplyUpdates(ApplyUpdates(reg, jobId, a, now), jobId, b, now)
    decreases |b|
  {
    if b == [] {
      assert a + b == a;
    } else {
      var n := |b| - 1;
      assert (a + b)[..|a + b| - 1] == a + b[..n];
      ApplyUpdatesAppend(reg, jobId, a, b[..n], now);
    }
  }

  /**
   * The narration loop: one update per target, then its audio; with real
   * synthesis the first failing target stops the loop and its error is
   * handed back, as the thrown error reaches the run's `catch`. Without a
   * failure every target has its url; after one, `tl` is not used.
   */
  method NarrateTargets(
    mgr: JobManager, jobId: JobId, tl0: seq<Entry>, targets: seq<nat>, tts: string -> Option<ErrorValue>, mockTts: bool,
    playlistId: string, now: int)
    returns (tl: seq<Entry>, err: Option<ErrorValue>, ghost sent: nat)
    requires SpeakableAt(tl0, targets)
    modifies mgr
    ensures sent <= |targets|
    ensures mgr.State() == ApplyUpdates(old(mgr.State()), jobId, TrackUpdates(|targets|)[..sent], now)
    ensures err.None? ==>
      && sent == |targets| && tl == WithTtsUrls(tl0, targets, UrlFor(mockTts, playlistId), |targets|)
      && (mockTts || FirstTtsFailure(tts, tl0, targets, 0).None?)
    ensures err.Some? ==>
      && !mockTts && 0 < sent && FirstTtsFailure(tts, tl0, targets, 0) == Some(sent - 1)
      && err == TtsError(tts, tl0, targets, sent - 1)
  {
    ghost var reg0 := mgr.State();
    tl := tl0;
    var n := |targets|;
    ghost var url := UrlFor(mockTts, playlistId);
    var i := 0;
    err := None;
    while i < n
      invariant 0 <= i <= n
      invariant tl == WithTtsUrls(tl0, targets, url, i)
      invariant !mockTts ==> FirstTtsFailure(tts, tl0, targets, 0) == FirstTtsFailure(tts, tl0, targets, i)
      invariant mgr.State() == ApplyUpdates(reg0, jobId, TrackUpdates(n)[..i], now)
      invariant err.None?
    {
      tl, err := NarrateOne(mgr, jobId, tl0, targets, tts, mockTts, playlistId, tl, i, reg0, now);
      if err.Some? {
        sent := i + 1;
        return;
      }
      i := i + 1;
    }
    sent := n;
  }

  /** The body of the narration loop for the `i`-th target. */
  method NarrateOne(
    mgr: JobManager, jobId: JobId, tl0: seq<Entry>, targets: seq<nat>, tts: string -> Option<ErrorValue>, mockTts: bool,
    playlistId: string, tl: seq<Entry>, i: nat, ghost reg0: Registry, now: int)
    returns (tl': seq<Entry>, err: Option<ErrorValue>)
    requires SpeakableAt(tl0, targets) && i < |targets|
    requires tl == WithTtsUrls(tl0, targets, UrlFor(mockTts, playlistId), i)
    requires mgr.State() == ApplyUpdates(reg0, jobId, TrackUpdates(|targets|)[..i], now)
    modifies mgr
    ensures mgr.State() == ApplyUpdates(reg0, jobId, TrackUpdates(|targets|)[..i + 1], now)
    ensures err == (if mockTts then None else TtsError(tts, tl0, targets, i))
    ensures !mockTts ==>
      FirstTtsFailure(tts, tl0, targets, i) == if err.Some? then Some(i) else FirstTtsFailure(tts, tl0, targets, i + 1)
    ensures err.None? ==> tl' == WithTtsUrls(tl0, targets, UrlFor(mockTts, playlistId), i + 1)
  {
    var n := |targets|;
    TrackStep(reg0, jobId, n, i, now);
    mgr.UpdateProgress(jobId, TrackUpdate(i, n), now);
    var at := targets[i];
    assert tl[at].text == tl0[at].text;
    err := None;
    if mockTts {
      tl' := tl[at := tl[at].(ttsUrl := Some(Placeholder))];
    } else {
      var fileName := TtsFileName(playlistId, i);
      var publicUrl := "/tts/" + fileName;
      err := tts(Trim(tl[at].text.value));
      tl' := if err.Some? then tl else tl[at := tl[at].(ttsUrl := Some(publicUrl))];
    }
  }

  /** One more per-target update extends the applied prefix by one. */
  lemma TrackStep(reg: Registry, jobId: JobId, n: nat, i: nat, now: int)
    requires i < n
    ensures ApplyUpdates(reg, jobId, TrackUpdates(n)[..i + 1], now)
      == AfterProgress(ApplyUpdates(reg, jobId, TrackUpdates(n)[..i], now), jobId, TrackUpdate(i, n), now)
  {
    assert TrackUpdates(n)[..i + 1][..i] == TrackUpdates(n)[..i];
  }

  /**
   * `runYouTubeDocJob`: every update, the save, the audio and the final
   * update happen as `RunSpec` lays out; the job's registry entry and the
   * store end as it says.
   */
  method RunYouTubeDocJob(
    mgr: JobManager, dir: PlaylistDir, jobId: JobId, params: JobParams, gens: Generators,
    mockTts: bool, playlistId: string, createdAt: string, updatedAt: string, now: int)
    modifies mgr, dir
    ensures var o := RunSpec(params, gens, mockTts, playlistId, createdAt, updatedAt);
      mgr.State() == AfterEnd(ApplyUpdates(old(mgr.State()), jobId, o.updates, now), jobId, o.finish, now)
    ensures var o := RunSpec(params, gens, mockTts, playlistId, createdAt, updatedAt);
      && (o.stored.None? ==> dir.files == old(dir.files))
      && (o.stored.Some? ==> dir.files == old(dir.files)[FileName(playlistId) := Json(o.stored.value)])
  {
    ghost var reg0 := mgr.State();
    mgr.UpdateProgress(jobId, Planning, now);
    assert mgr.State() == ApplyUpdates(reg0, jobId, [Planning], now) by {
      assert [Planning][..0] == [];
    }
    if gens.planAndArt.Err? {
      mgr.FailJob(jobId, gens.planAndArt.error, now);
      return;
    }
    var pa := gens.planAndArt.value;
    mgr.UpdateProgress(jobId, Preparing, now);
    assert mgr.State() == ApplyUpdates(reg0, jobId, [Planning, Preparing], now) by {
      assert [Planning, Preparing][..1] == [Planning];
    }
    if gens.stitched.Err? {
      mgr.FailJob(jobId, gens.stitched.error, now);
      return;
    }
    ghost var t := AfterGeneration(params.topic, pa, gens.stitched.value, gens.tts, mockTts, playlistId, createdAt, updatedAt);
    ghost var reg1 := mgr.State();
    RunAfterGeneration(mgr, dir, jobId, params.topic, pa, gens.stitched.value, gens.tts, mockTts, playlistId, createdAt, updatedAt, now);
    ApplyUpdatesAppend(reg0, jobId, [Planning, Preparing], t.updates, now);
  }

  /** The run from the save on, once every generator has answered. */
  method RunAfterGeneration(
    mgr: JobManager, dir: PlaylistDir, jobId: JobId, topic: string, pa: (Option<Plan>, Option<ArtResult>), st: Stitched,
    tts: string -> Option<ErrorValue>, mockTts: bool, playlistId: string, createdAt: string, updatedAt: string, now: int)
    modifies mgr, dir
    ensures var o := AfterGeneration(topic, pa, st, tts, mockTts, playlistId, createdAt, updatedAt);
      mgr.State() == AfterEnd(ApplyUpdates(old(mgr.State()), jobId, o.updates, now), jobId, o.finish, now)
    ensures var o := AfterGeneration(topic, pa, st, tts, mockTts, playlistId, createdAt, updatedAt);
      o.stored.Some? && dir.files == old(dir.files)[FileName(playlistId) := Json(o.stored.value)]
  {
    ghost var files0 := dir.files;
    var artUrl := StitchedArtUrl(PlanArtUrl(pa.0, pa.1), st);
    var rec := dir.SavePlaylist(SaveInput(topic, st, artUrl), playlistId, createdAt);
    ghost var files1 := dir.files;
    ghost var o := NarrateAndFinish(mgr, dir, jobId, rec, artUrl, tts, mockTts, playlistId, updatedAt, now);
    Overwrite(files0, FileName(playlistId), Json(rec), Json(o.stored.value));
  }

  /** Writing a key's own value back changes nothing. */
  lemma Rewrite<K, V>(m: map<K, V>, k: K)
    requires k in m
    ensures m[k := m[k]] == m
  {
  }

  /** Writing a key twice leaves the second value. */
  lemma Overwrite<K, V>(m: map<K, V>, k: K, a: V, b: V)
    ensures m[k := a][k := b] == m[k := b]
  {
  }

  /** The run from stage 3 on, with `rec` just saved under the playlist's id; `o` is what it did. */
  method NarrateAndFinish(
    mgr: JobManager, dir: PlaylistDir, jobId: JobId, rec: Record, artUrl: Option<string>,
    tts: string -> Option<ErrorValue>, mockTts: bool, playlistId: string, updatedAt: string, now: int)
    returns (ghost o: RunOutcome)
    requires FileName(playlistId) in dir.files && dir.files[FileName(playlistId)] == Json(rec)
    modifies mgr, dir
    ensures o == Narrated(rec, artUrl, tts, mockTts, playlistId, updatedAt) && o.stored.Some?
    ensures mgr.State() == AfterEnd(ApplyUpdates(old(mgr.State()), jobId, o.updates, now), jobId, o.finish, now)
    ensures dir.files == old(dir.files)[FileName(playlistId) := Json(o.stored.value)]
  {
    ghost var reg1 := mgr.State();
    var tl, err, sent := NarrationStage(mgr, jobId, rec, tts, mockTts, playlistId, now);
    ghost var tu := TrackUpdates(|TargetIndices(TimelineOf(rec), true)|);
    if err.Some? {
      NarratedFails(rec, artUrl, tts, mockTts, playlistId, updatedAt, sent);
      FailNarration(mgr, dir, jobId, rec, playlistId, err.value, now);
      o := RunOutcome([Narrating] + tu[..sent], FailsWith(err.value), Some(rec));
      return;
    }
    NarratedCompletes(rec, artUrl, tts, mockTts, playlistId, updatedAt);
    assert tu[..sent] == tu;
    var data := Finalize(mgr, dir, jobId, playlistId, rec, tl, artUrl, updatedAt, now);
    ApplyUpdatesAppend(reg1, jobId, [Narrating] + tu, [Finalizing, Done], now);
    o := RunOutcome([Narrating] + tu + [Finalizing, Done], Completes(JobResult(playlistId, data)), Some(data));
  }

  /** The end of a run whose synthesis failed: `failJob`; the saved file stays as it is. */
  method FailNarration(mgr: JobManager, dir: PlaylistDir, jobId: JobId, rec: Record, playlistId: string, e: ErrorValue, now: int)
    requires FileName(playlistId) in dir.files && dir.files[FileName(playlistId)] == Json(rec)
    modifies mgr
    ensures mgr.State() == AfterFail(old(mgr.State()), jobId, e, now)
    ensures dir.files == dir.files[FileName(playlistId) := Json(rec)]
  {
    mgr.FailJob(jobId, e, now);
    Rewrite(dir.files, FileName(playlistId));
  }

  /** Stage 3: its first update, the targets of the saved timeline, and the narration loop. */
  method NarrationStage(
    mgr: JobManager, jobId: JobId, rec: Record, tts: string -> Option<ErrorValue>, mockTts: bool, playlistId: string, now: int)
    returns (tl: seq<Entry>, err: Option<ErrorValue>, ghost sent: nat)
    modifies mgr
    ensures var tl0 := TimelineOf(rec);
      var targets := TargetIndices(tl0, true);
      && sent <= |targets|
      && mgr.State() == ApplyUpdates(old(mgr.State()), jobId, [Narrating] + TrackUpdates(|targets|)[..sent], now)
      && (err.None? ==>
            && sent == |targets| && tl == WithTtsUrls(tl0, targets, UrlFor(mockTts, playlistId), |targets|)
            && (mockTts || FirstTtsFailure(tts, tl0, targets, 0).None?))
      && (err.Some? ==>
            && !mockTts && 0 < sent && FirstTtsFailure(tts, tl0, targets, 0) == Some(sent - 1)
            && err == TtsError(tts, tl0, targets, sent - 1))
  {
    ghost var reg1 := mgr.State();
    mgr.UpdateProgress(jobId, Narrating, now);
    assert mgr.State() == ApplyUpdates(reg1, jobId, [Narrating], now) by {
      assert [Narrating][..0] == [];
    }
    var tl0 := TimelineOf(rec);
    var targets := CollectTargets(tl0, true);
    tl, err, sent := NarrateTargets(mgr, jobId, tl0, targets, tts, mockTts, playlistId, now);
    ApplyUpdatesAppend(reg1, jobId, [Narrating], TrackUpdates(|targets|)[..sent], now);
  }

  /** `Narrated` when the `sent`-th update's synthesis fails first. */
  lemma NarratedFails(
    rec: Record, artUrl: Option<string>, tts: string -> Option<ErrorValue>, mockTts: bool, playlistId: string, updatedAt: string,
    sent: nat)
    requires var targets := TargetIndices(TimelineOf(rec), true);
      !mockTts && 0 < sent <= |targets| && FirstTtsFailure(tts, TimelineOf(rec), targets, 0) == Some(sent - 1)
    ensures var targets := TargetIndices(TimelineOf(rec), true);
      Narrated(rec, artUrl, tts, mockTts, playlistId, updatedAt) ==
        RunOutcome([Narrating] + TrackUpdates(|targets|)[..sent],
          FailsWith(TtsError(tts, TimelineOf(rec), targets, sent - 1).value), Some(rec))
  {
  }

  /** `Narrated` when no synthesis fails. */
  lemma NarratedCompletes(
    rec: Record, artUrl: Option<string>, tts: string -> Option<ErrorValue>, mockTts: bool, playlistId: string, updatedAt: string)
    requires mockTts || FirstTtsFailure(tts, TimelineOf(rec), TargetIndices(TimelineOf(rec), true), 0).None?
    ensures var tl := TimelineOf(rec);
      var targets := TargetIndices(tl, true);
      var data := Merge(rec, FinalPatch(rec, WithTtsUrls(tl, targets, UrlFor(mockTts, playlistId), |targets|), artUrl), updatedAt);
      Narrated(rec, artUrl, tts, mockTts, playlistId, updatedAt) ==
        RunOutcome(TailTrace(|targets|), Completes(JobResult(playlistId, data)), Some(data))
  {
  }

  /**
   * The end of a run whose audio is all there: stage 4, the store update
   * (which finds the file just saved), stage 5 and `completeJob` with the
   * updated record.
   */
  method Finalize(
    mgr: JobManager, dir: PlaylistDir, jobId: JobId, playlistId: string, rec: Record, tl: seq<Entry>,
    artUrl: Option<string>, updatedAt: string, now: int)
    returns (data: Record)
    requires FileName(playlistId) in dir.files && dir.files[FileName(playlistId)] == Json(rec)
    modifies mgr, dir
    ensures data == Merge(rec, FinalPatch(rec, tl, artUrl), updatedAt)
    ensures dir.files == old(dir.files)[FileName(playlistId) := Json(data)]
    ensures mgr.State() ==
      AfterComplete(ApplyUpdates(old(mgr.State()), jobId, [Finalizing, Done], now), jobId, JobResult(playlistId, data), now)
  {
    ghost var reg := mgr.State();
    mgr.UpdateProgress(jobId, Finalizing, now);
    assert mgr.State() == ApplyUpdates(reg, jobId, [Finalizing], now) by {
      assert [Finalizing][..0] == [];
    }
    var updated := dir.UpdatePlaylist(playlistId, FinalPatch(rec, tl, artUrl), updatedAt);
    assert updated.Ok? && updated.value.Some?;
    data := updated.value.value;
    mgr.UpdateProgress(jobId, Done, now);
    assert mgr.State() == ApplyUpdates(reg, jobId, [Finalizing, Done], now) by {
      assert [Finalizing, Done][..1] == [Finalizing];
    }
    mgr.CompleteJob(jobId, JobResult(playlistId, data), now);
  }

  // ---------------------------------------------------------------------
  // Properties of a run
  // ---------------------------------------------------------------------

  /** From stage 3 on a run sends a non-empty prefix of `TailTrace`, all of it exactly when it completes. */
  lemma NarratedUpdatesFollowTrace(
    rec: Record, artUrl: Option<string>, tts: string -> Option<ErrorValue>, mockTts: bool, playlistId: string, updatedAt: string)
    ensures var o := Narrated(rec, artUrl, tts, mockTts, playlistId, updatedAt);
      var t := TailTrace(|TargetIndices(TimelineOf(rec), true)|);
      && 1 <= |o.updates| <= |t| && o.updates == t[..|o.updates|]
      && (o.finish.Completes? <==> o.updates == t)
  {
    var tl := TimelineOf(rec);
    var targets := TargetIndices(tl, true);
    var n := |targets|;
    var t := TailTrace(n);
    if !mockTts && FirstTtsFailure(tts, tl, targets, 0).Some? {
      var k := FirstTtsFailure(tts, tl, targets, 0).value + 1;
      NarratedFails(rec, artUrl, tts, mockTts, playlistId, updatedAt, k);
      FailedTraceIsPrefix(n, k);
    } else {
      NarratedCompletes(rec, artUrl, tts, mockTts, playlistId, updatedAt);
    }
  }

  /** A run failing at the `k`-th target sent a proper, non-empty prefix of `TailTrace(n)`. */
  lemma FailedTraceIsPrefix(n: nat, k: nat)
    requires 0 < k <= n
    ensures var u := [Narrating] + TrackUpdates(n)[..k];
      var t := TailTrace(n);
      1 <= |u| <= |t| && u == t[..|u|] && u != t
  {
    TailTracePrefix(n, k);
    assert |[Narrating] + TrackUpdates(n)[..k]| < |TailTrace(n)|;
  }

  /** The first `1 + k` updates from stage 3 on: stage 3 itself and the first `k` per-target updates. */
  lemma TailTracePrefix(n: nat, k: nat)
    requires k <= n
    ensures TailTrace(n)[..1 + k] == [Narrating] + TrackUpdates(n)[..k]
  {
    var a := [Narrating] + TrackUpdates(n);
    assert TailTrace(n) == a + [Finalizing, Done];
    assert (a + [Finalizing, Done])[..1 + k] == a[..1 + k];
    PrefixOfConcat([Narrating], TrackUpdates(n), k);
  }

  lemma PrefixOfConcat<T>(a: seq<T>, b: seq<T>, m: nat)
    requires m <= |b|
    ensures (a + b)[..|a| + m] == a + b[..m]
  {
  }

  /**
   * Every run sends a non-empty prefix of the complete run's updates, and
   * all of them exactly when it completes.
   */
  lemma RunUpdatesFollowTrace(params: JobParams, gens: Generators, mockTts: bool, playlistId: string, createdAt: string, updatedAt: string)
    ensures var o := RunSpec(params, gens, mockTts, playlistId, createdAt, updatedAt);
      var t := SuccessTrace(PlannedTargets(params, gens, playlistId, createdAt));
      && 1 <= |o.updates| <= |t| && o.updates == t[..|o.updates|]
      && (o.finish.Completes? <==> o.updates == t)
  {
    var n := PlannedTargets(params, gens, playlistId, createdAt);
    var t := SuccessTrace(n);
    if gens.planAndArt.Err? {
      assert t[..1] == [Planning];
    } else if gens.stitched.Err? {
      assert t[..2] == [Planning, Preparing];
    } else {
      var pa := gens.planAndArt.value;
      var st := gens.stitched.value;
      var rec := SavedOf(params.topic, pa, st, playlistId, createdAt);
      var a := Narrated(rec, ArtUrlOf(pa, st), gens.tts, mockTts, playlistId, updatedAt);
      NarratedUpdatesFollowTrace(rec, ArtUrlOf(pa, st), gens.tts, mockTts, playlistId, updatedAt);
      var m := |a.updates|;
      PrefixOfConcat([Planning, Preparing], TailTrace(n), m);
    }
  }

  /**
   * A run completes exactly when the plan, the art and the stitched document
   * came back and no synthesis failed (mocked synthesis never does); a
   * failed run fails with the first error met; the store is written exactly
   * when generation succeeded.
   */
  lemma RunEnds(params: JobParams, gens: Generators, mockTts: bool, playlistId: string, createdAt: string, updatedAt: string)
    ensures var o := RunSpec(params, gens, mockTts, playlistId, createdAt, updatedAt);
      && (o.finish.Completes? <==>
            && gens.planAndArt.Ok? && gens.stitched.Ok?
            && var tl := RunTimeline(params, gens, playlistId, createdAt);
               (mockTts || FirstTtsFailure(gens.tts, tl, TargetIndices(tl, true), 0).None?))
      && (o.stored.Some? <==> gens.planAndArt.Ok? && gens.stitched.Ok?)
      && (gens.planAndArt.Err? ==> o.finish == FailsWith(gens.planAndArt.error))
      && (gens.planAndArt.Ok? && gens.stitched.Err? ==> o.finish == FailsWith(gens.stitched.error))
      && (o.finish.Completes? ==> o.finish.result.playlistId == playlistId && o.stored == Some(o.finish.result.data))
  {
  }

  /** A run that uses mocked synthesis completes whenever generation succeeds. */
  lemma MockedRunCompletes(params: JobParams, gens: Generators, playlistId: string, createdAt: string, updatedAt: string)
    requires gens.planAndArt.Ok? && gens.stitched.Ok?
    ensures RunSpec(params, gens, true, playlistId, createdAt, updatedAt).finish.Completes?
  {
  }

  /** A failed run never reaches the finalizing stage: every update it sent is at stage 3 or below. */
  lemma FailedRunStopsBeforeFinalizing(
    params: JobParams, gens: Generators, mockTts: bool, playlistId: string, createdAt: string, updatedAt: string)
    ensures var o := RunSpec(params, gens, mockTts, playlistId, createdAt, updatedAt);
      o.finish.FailsWith? ==> forall k :: 0 <= k < |o.updates| ==> o.updates[k].stage.Some? && o.updates[k].stage.value <= 3
  {
    var o := RunSpec(params, gens, mockTts, playlistId, createdAt, updatedAt);
    var n := PlannedTargets(params, gens, playlistId, createdAt);
    RunUpdatesFollowTrace(params, gens, mockTts, playlistId, createdAt, updatedAt);
    SuccessTraceShape(n);
    if o.finish.FailsWith? && gens.planAndArt.Ok? && gens.stitched.Ok? {
      assert |o.updates| <= n + 3;
    }
  }

  /** The fields of the record a run saves: the copied fields of `SaveInput`, the id, the source and the creation time. */
  lemma SavedOfFields(topic: string, pa: (Option<Plan>, Option<ArtResult>), st: Stitched, playlistId: string, createdAt: string)
    ensures var rec := SavedOf(topic, pa, st, playlistId, createdAt);
      && rec.Keys == SavedKeys
      && rec["id"] == Str(playlistId) && rec["ownerId"] == Str("anonymous") && rec["source"] == Str("youtube")
      && rec["createdAt"] == Str(createdAt)
      && rec["title"] == Str(Or(st.title, if topic != "" then "Music history: " + topic else "Music history"))
  {
    var input := SaveInput(topic, st, ArtUrlOf(pa, st));
    var rec := SavedOf(topic, pa, st, playlistId, createdAt);
    SaveInputFields(topic, st, ArtUrlOf(pa, st));
    assert rec.Keys == SavedKeys;
  }

  /** The copied fields are all in the object a run saves, with these values for the owner, title and source. */
  lemma SaveInputFields(topic: string, st: Stitched, artUrl: Option<string>)
    ensures var m := SaveInput(topic, st, artUrl);
      && (forall k :: k in CopiedKeys ==> k in m)
      && m["ownerId"] == Str("anonymous")
      && m["title"] == Str(Or(st.title, if topic != "" then "Music history: " + topic else "Music history"))
      && "source" in m && m["source"] == Str("youtube")
  {
  }

  /**
   * The record a run that completes from stage 3 on hands to `completeJob`:
   * the saved record with the timeline carrying every target's audio url,
   * the art url or `null`, and the update time.
   */
  lemma NarratedRecord(
    rec: Record, artUrl: Option<string>, tts: string -> Option<ErrorValue>, mockTts: bool, playlistId: string, updatedAt: string)
    requires "narrationAlbumArtUrl" !in rec
    requires Narrated(rec, artUrl, tts, mockTts, playlistId, updatedAt).finish.Completes?
    ensures var d := Narrated(rec, artUrl, tts, mockTts, playlistId, updatedAt).finish.result.data;
      var tl := TimelineOf(rec);
      var targets := TargetIndices(tl, true);
      && d.Keys == rec.Keys + {"timeline", "narrationAlbumArtUrl", "updatedAt"}
      && (forall k :: k in rec && k !in {"timeline", "updatedAt"} ==> d[k] == rec[k])
      && d["updatedAt"] == Str(updatedAt)
      && d["timeline"] == Items(WithTtsUrls(tl, targets, UrlFor(mockTts, playlistId), |targets|))
      && d["narrationAlbumArtUrl"] == OrNull(artUrl)
  {
    var tl := TimelineOf(rec);
    var targets := TargetIndices(tl, true);
    var w := WithTtsUrls(tl, targets, UrlFor(mockTts, playlistId), |targets|);
    assert mockTts || FirstTtsFailure(tts, tl, targets, 0).None?;
    NarratedCompletes(rec, artUrl, tts, mockTts, playlistId, updatedAt);
    FinalPatchOfFresh(rec, w, artUrl);
    MergedRecord(rec, FinalPatch(rec, w, artUrl), updatedAt);
  }

  /** On a record without an art url, the final patch's art is the stitched url or `null`. */
  lemma FinalPatchOfFresh(rec: Record, withTts: seq<Entry>, artUrl: Option<string>)
    requires "narrationAlbumArtUrl" !in rec
    ensures var p := FinalPatch(rec, withTts, artUrl);
      && p.Keys == {"timeline", "narrationAlbumArtUrl"}
      && p["timeline"] == Items(withTts) && p["narrationAlbumArtUrl"] == OrNull(artUrl)
  {
  }

  /** The keys and fields of `Merge(rec, p, updatedAt)` for a patch of the timeline and the art url. */
  lemma MergedRecord(rec: Record, p: Record, updatedAt: string)
    requires "narrationAlbumArtUrl" !in rec && p.Keys == {"timeline", "narrationAlbumArtUrl"}
    ensures var d := Merge(rec, p, updatedAt);
      && d.Keys == rec.Keys + {"timeline", "narrationAlbumArtUrl", "updatedAt"}
      && (forall k :: k in rec && k !in {"timeline", "updatedAt"} ==> d[k] == rec[k])
      && d["updatedAt"] == Str(updatedAt)
      && d["timeline"] == p["timeline"] && d["narrationAlbumArtUrl"] == p["narrationAlbumArtUrl"]
  {
    var d := Merge(rec, p, updatedAt);
    assert d.Keys == rec.Keys + {"timeline", "narrationAlbumArtUrl", "updatedAt"};
  }

  /**
   * The record a completed run hands to `completeJob` (and leaves in the
   * store): the fresh id, owner `anonymous`, source `youtube`, both
   * timestamps, the stitched title or the topic's default, the timeline with
   * every narration target's audio url, and the art url or `null`; the
   * debug object is not kept.
   */
  lemma CompletedRunRecord(
    topic: string, pa: (Option<Plan>, Option<ArtResult>), st: Stitched, tts: string -> Option<ErrorValue>,
    mockTts: bool, playlistId: string, createdAt: string, updatedAt: string)
    requires AfterGeneration(topic, pa, st, tts, mockTts, playlistId, createdAt, updatedAt).finish.Completes?
    ensures var d := AfterGeneration(topic, pa, st, tts, mockTts, playlistId, createdAt, updatedAt).finish.result.data;
      var tl := TimelineOf(SavedOf(topic, pa, st, playlistId, createdAt));
      var targets := TargetIndices(tl, true);
      && d.Keys == SavedKeys + {"narrationAlbumArtUrl", "updatedAt"}
      && d["id"] == Str(playlistId) && d["ownerId"] == Str("anonymous") && d["source"] == Str("youtube")
      && d["createdAt"] == Str(createdAt) && d["updatedAt"] == Str(updatedAt)
      && d["title"] == Str(Or(st.title, if topic != "" then "Music history: " + topic else "Music history"))
      && d["timeline"] == Items(WithTtsUrls(tl, targets, UrlFor(mockTts, playlistId), |targets|))
      && d["narrationAlbumArtUrl"] == OrNull(ArtUrlOf(pa, st))
  {
    var rec := SavedOf(topic, pa, st, playlistId, createdAt);
    var artUrl := ArtUrlOf(pa, st);
    var d := Narrated(rec, artUrl, tts, mockTts, playlistId, updatedAt).finish.result.data;
    SavedOfFields(topic, pa, st, playlistId, createdAt);
    ArtUrlNotSaved();
    assert Narrated(rec, artUrl, tts, mockTts, playlistId, updatedAt).finish.Completes?;
    NarratedRecord(rec, artUrl, tts, mockTts, playlistId, updatedAt);
    var tl := TimelineOf(rec);
    var targets := TargetIndices(tl, true);
    KeptFields(rec, d, Str(updatedAt), Items(WithTtsUrls(tl, targets, UrlFor(mockTts, playlistId), |targets|)), OrNull(artUrl));
  }

  /** A run that passed generation is the two generation updates followed by `Narrated` on the saved record. */
  lemma RunSpecGenerated(params: JobParams, gens: Generators, mockTts: bool, playlistId: string, createdAt: string, updatedAt: string)
    requires gens.planAndArt.Ok? && gens.stitched.Ok?
    ensures var pa := gens.planAndArt.value;
      var st := gens.stitched.value;
      var t := AfterGeneration(params.topic, pa, st, gens.tts, mockTts, playlistId, createdAt, updatedAt);
      RunSpec(params, gens, mockTts, playlistId, createdAt, updatedAt) == RunOutcome([Planning, Preparing] + t.updates, t.finish, t.stored)
  {
  }

  /** The saved record's fields carried over into the completed one by `Merge`. */
  lemma KeptFields(rec: Record, d: Record, updatedAt: Value, timeline: Value, art: Value)
    requires rec.Keys == SavedKeys
    requires d.Keys == rec.Keys + {"timeline", "narrationAlbumArtUrl", "updatedAt"}
    requires forall k :: k in rec && k !in {"timeline", "updatedAt"} ==> d[k] == rec[k]
    ensures d.Keys == SavedKeys + {"narrationAlbumArtUrl", "updatedAt"}
    ensures d["id"] == rec["id"] && d["ownerId"] == rec["ownerId"] && d["source"] == rec["source"]
    ensures d["createdAt"] == rec["createdAt"] && d["title"] == rec["title"]
  {
  }

  /**
   * The registry after a run's updates and its last call, for a job it
   * holds: one progress event per update in order, then the job ends
   * completed with the result and a `complete` event, or failed with the
   * error's text.
   */
  lemma {:induction false} EndLeavesJob(reg: Registry, jobId: JobId, us: seq<Update>, finish: Finish, now: int)
    requires jobId in reg.jobs
    requires forall k :: 0 <= k < |us| ==> us[k].stage.Some? && us[k].stageLabel.Some? && us[k].progress.Some?
    ensures var after := AfterEnd(ApplyUpdates(reg, jobId, us, now), jobId, finish, now);
      && jobId in after.jobs && after.jobs.Keys == reg.jobs.Keys && after.userJobs == reg.userJobs
      && |after.log| >= |reg.log| + |us| && after.log[..|reg.log|] == reg.log
      && (forall k :: 0 <= k < |us| ==> Reports(after.log[|reg.log| + k].event, jobId, us[k]))
      && (finish.Completes? ==>
            && after.jobs[jobId].status == Completed && after.jobs[jobId].progress == 100
            && after.jobs[jobId].result == Some(finish.result) && after.jobs[jobId].completedAt == Some(now)
            && (us != [] ==> after.jobs[jobId].stage == us[|us| - 1].stage.value)
            && |after.log| == |reg.log| + |us| + 1
            && after.log[|after.log| - 1].event == CompleteEvent(jobId, finish.result))
      && (finish.FailsWith? ==>
            && after.jobs[jobId].status == Failed && after.jobs[jobId].error == Some(ErrorText(finish.error))
            && after.jobs[jobId].completedAt == Some(now))
  {
    UpdatesEmitInOrder(reg, jobId, us, now);
    var mid := ApplyUpdates(reg, jobId, us, now);
    var after := AfterEnd(mid, jobId, finish, now);
    if finish.Completes? {
      assert after.log == mid.log + [after.log[|after.log| - 1]];
    } else {
      assert after.log[..|mid.log|] == mid.log;
    }
    forall k | 0 <= k < |us|
      ensures Reports(after.log[|reg.log| + k].event, jobId, us[k])
    {
      assert after.log[|reg.log| + k] == mid.log[|reg.log| + k];
    }
  }

  /**
   * The registry after a run, for a job it holds: one progress event per
   * update in order, then the job ends completed at stage 5 and 100 with the
   * run's result and a `complete` event, or failed with the error's text.
   */
  lemma RunLeavesJob(
    reg: Registry, jobId: JobId, params: JobParams, gens: Generators, mockTts: bool,
    playlistId: string, createdAt: string, updatedAt: string, now: int)
    requires jobId in reg.jobs
    ensures var o := RunSpec(params, gens, mockTts, playlistId, createdAt, updatedAt);
      var after := AfterEnd(ApplyUpdates(reg, jobId, o.updates, now), jobId, o.finish, now);
      && jobId in after.jobs && after.jobs.Keys == reg.jobs.Keys && after.userJobs == reg.userJobs
      && |after.log| >= |reg.log| + |o.updates| && after.log[..|reg.log|] == reg.log
      && (forall k :: 0 <= k < |o.updates| ==> Reports(after.log[|reg.log| + k].event, jobId, o.updates[k]))
      && (o.finish.Completes? ==>
            && after.jobs[jobId].status == Completed && after.jobs[jobId].stage == 5 && after.jobs[jobId].progress == 100
            && after.jobs[jobId].result == Some(o.finish.result) && after.jobs[jobId].completedAt == Some(now)
            && |after.log| == |reg.log| + |o.updates| + 1
            && after.log[|after.log| - 1].event == CompleteEvent(jobId, o.finish.result))
      && (o.finish.FailsWith? ==>
            && after.jobs[jobId].status == Failed && after.jobs[jobId].error == Some(ErrorText(o.finish.error))
            && after.jobs[jobId].completedAt == Some(now))
  {
    var o := RunSpec(params, gens, mockTts, playlistId, createdAt, updatedAt);
    RunUpdatesFollowTrace(params, gens, mockTts, playlistId, createdAt, updatedAt);
    TraceLeavesJob(reg, jobId, PlannedTargets(params, gens, playlistId, createdAt), o.updates, o.finish, now);
  }

  /** `EndLeavesJob` for the updates of a run: a non-empty prefix of `SuccessTrace(n)`, all of it when the run completes. */
  lemma TraceLeavesJob(reg: Registry, jobId: JobId, n: nat, us: seq<Update>, finish: Finish, now: int)
    requires jobId in reg.jobs
    requires |us| <= |SuccessTrace(n)| && us == SuccessTrace(n)[..|us|]
    requires finish.Completes? ==> us == SuccessTrace(n)
    ensures var after := AfterEnd(ApplyUpdates(reg, jobId, us, now), jobId, finish, now);
      && jobId in after.jobs && after.jobs.Keys == reg.jobs.Keys && after.userJobs == reg.userJobs
      && |after.log| >= |reg.log| + |us| && after.log[..|reg.log|] == reg.log
      && (forall k :: 0 <= k < |us| ==> Reports(after.log[|reg.log| + k].event, jobId, us[k]))
      && (finish.Completes? ==>
            && after.jobs[jobId].status == Completed && after.jobs[jobId].stage == 5 && after.jobs[jobId].progress == 100
            && after.jobs[jobId].result == Some(finish.result) && after.jobs[jobId].completedAt == Some(now)
            && |after.log| == |reg.log| + |us| + 1
            && after.log[|after.log| - 1].event == CompleteEvent(jobId, finish.result))
      && (finish.FailsWith? ==>
            && after.jobs[jobId].status == Failed && after.jobs[jobId].error == Some(ErrorText(finish.error))
            && after.jobs[jobId].completedAt == Some(now))
  {
    SuccessTraceShape(n);
    var t := SuccessTrace(n);
    assert forall k :: 0 <= k < |us| ==> us[k] == t[k];
    EndLeavesJob(reg, jobId, us, finish, now);
  }
}
