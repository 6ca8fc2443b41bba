/**
 * The HTTP handlers of the jobs router: `POST /api/jobs` validates the body,
 * creates the job and marks it running; `GET /api/jobs/:jobId/stream` writes
 * an `init` frame and subscribes the client; `GET /api/jobs/:jobId` shows one
 * job; `GET /api/jobs` lists the anonymous user's jobs. The registry is the
 * `JobManager` object; request bodies arrive as JSON values (`None` for a
 * missing field), the fresh job id and the clock as parameters.
 */
module JobsApi {
  import opened Wrappers
  import opened Text
  import opened Timeline
  import opened Storage
  import opened Jobs
  import opened JobsRoute

  /** Every request is served as this user. */
  const Anonymous := "anonymous"

  /** The update `POST /api/jobs` applies right after creating the job. */
  const Queued := Update(Some(Running), Some(0), Some("Queued"), Some(0), None)

  const NoKeyMessage := "OPENAI_API_KEY is not configured on the server."
  const NoTopicMessage := "Missing required field: topic (string)"
  const NotFoundMessage := "Job not found"

  /** A job as `GET /api/jobs/:jobId` shows it. */
  datatype StatusView = StatusView(
    id: JobId, status: Status, stage: int, stageLabel: string, progress: int,
    result: Option<JobResult>, error: Option<string>, createdAt: int, updatedAt: int, completedAt: Option<int>)

  /** A job as `GET /api/jobs` lists it. */
  datatype Summary = Summary(
    id: JobId, status: Status, stage: int, stageLabel: string, progress: int,
    params: JobParams, createdAt: int, updatedAt: int, completedAt: Option<int>)

  /** The JSON body of a reply. */
  datatype Body =
    | Failure(error: string)
    | FailureWithDetails(error: string, details: string)
    | Started(jobId: JobId)
    | Shown(view: StatusView)
    | Listed(jobs: seq<Summary>)

  datatype Reply = Reply(status: int, body: Body)

  // ---------------------------------------------------------------------
  // POST /api/jobs
  // ---------------------------------------------------------------------

  /** The topic when it is a non-empty string (`!topic || typeof topic !== 'string'` rejects everything else). */
  function TopicOf(topic: Option<Value>): (r: Option<string>)
    ensures r.Some? <==> topic.Some? && topic.value.Str? && topic.value.s != ""
    ensures r.Some? ==> topic == Some(Str(r.value))
  {
    match topic
    case Some(Str(s)) => if s != "" then Some(s) else None
    case _ => None
  }

  /** `(typeof prompt === 'string') ? prompt : undefined` */
  function PromptOf(prompt: Option<Value>): (r: Option<string>)
    ensures r.Some? <==> prompt.Some? && prompt.value.Str?
    ensures r.Some? ==> prompt == Some(Str(r.value))
  {
    match prompt
    case Some(Str(s)) => Some(s)
    case _ => None
  }

  /** The parameters the job is created with: the trimmed topic, a string prompt, the target length as given. */
  function ParamsFor(topic: string, prompt: Option<Value>, secs: Option<int>): JobParams {
    JobParams(Trim(topic), PromptOf(prompt), secs)
  }

  /**
   * `POST /api/jobs`: 500 without an OpenAI key; 400 unless `topic` is a
   * non-empty string; otherwise `createJob` for the anonymous user, and on
   * success the job is marked running at stage 0 and the reply carries its
   * id. A refused creation (the two-job limit) is the catch's 500 with the
   * error's message as details. Nothing changes on the three refusals.
   */
  method PostJob(
    mgr: JobManager, apiKey: Option<string>, topic: Option<Value>, prompt: Option<Value>, secs: Option<int>,
    jobId: JobId, now: int)
    returns (r: Reply)
    modifies mgr
    ensures !Truthy(apiKey) ==> r == Reply(500, Failure(NoKeyMessage)) && mgr.State() == old(mgr.State())
    ensures Truthy(apiKey) && TopicOf(topic).None? ==> r == Reply(400, Failure(NoTopicMessage)) && mgr.State() == old(mgr.State())
    ensures Truthy(apiKey) && TopicOf(topic).Some? ==>
      var created := AfterCreate(old(mgr.State()), Anonymous, ParamsFor(TopicOf(topic).value, prompt, secs), jobId, now);
      && (created.0.Err? ==>
            r == Reply(500, FailureWithDetails("Failed to create job", created.0.error)) && mgr.State() == created.1)
      && (created.0.Ok? ==>
            r == Reply(200, Started(jobId)) && mgr.State() == AfterProgress(created.1, jobId, Queued, now))
  {
    if !Truthy(apiKey) {
      return Reply(500, Failure(NoKeyMessage));
    }
    var t := TopicOf(topic);
    if t.None? {
      return Reply(400, Failure(NoTopicMessage));
    }
    var job := mgr.CreateJob(Anonymous, ParamsFor(t.value, prompt, secs), jobId, now);
    if job.Err? {
      return Reply(500, FailureWithDetails("Failed to create job", job.error));
    }
    mgr.UpdateProgress(job.value.id, Queued, now);
    r := Reply(200, Started(job.value.id));
  }

  /** The registry after an accepted `POST /api/jobs`. */
  function AfterPost(reg: Registry, topic: string, prompt: Option<Value>, secs: Option<int>, jobId: JobId, now: int): Registry {
    AfterProgress(AfterCreate(reg, Anonymous, ParamsFor(topic, prompt, secs), jobId, now).1, jobId, Queued, now)
  }

  /**
   * An accepted job is stored running, at stage 0 `Queued` and progress 0,
   * with the trimmed topic, no result, error or completion time, and filed
   * under the anonymous user; one progress event is emitted, to nobody yet.
   * Every other job is kept as it was.
   */
  lemma PostedJobIsQueued(reg: Registry, topic: string, prompt: Option<Value>, secs: Option<int>, jobId: JobId, now: int)
    requires ActiveCount(reg, Anonymous) < 2
    ensures var after := AfterPost(reg, topic, prompt, secs, jobId, now);
      && jobId in after.jobs
      && var j := after.jobs[jobId];
      && j.id == jobId && j.userId == Anonymous && j.params.topic == Trim(topic) && j.params.prompt == PromptOf(prompt)
      && j.status == Running && j.stage == 0 && j.stageLabel == "Queued" && j.progress == 0
      && j.result.None? && j.error.None? && j.completedAt.None? && j.createdAt == now
      && jobId in UserIds(after, Anonymous)
      && (forall id :: id != jobId && id in reg.jobs ==> id in after.jobs && after.jobs[id] == reg.jobs[id])
      && after.log == reg.log + [Delivery(ProgressEvent(jobId, Running, 0, "Queued", 0, None), [])]
  {
    var created := AfterCreate(reg, Anonymous, ParamsFor(topic, prompt, secs), jobId, now);
    assert created.1.jobs[jobId].emitter == NoListeners;
  }

  /** A topic of blanks is accepted, and the job's topic is then empty. */
  lemma BlankTopicIsAccepted(topic: string)
    requires topic != "" && forall k :: 0 <= k < |topic| ==> IsSpace(topic[k])
    ensures TopicOf(Some(Str(topic))) == Some(topic)
    ensures ParamsFor(topic, None, None).topic == ""
  {
    TrimEmptyIffBlank(topic);
  }

  // ---------------------------------------------------------------------
  // GET /api/jobs/:jobId and GET /api/jobs
  // ---------------------------------------------------------------------

  function ViewOf(j: Job): StatusView {
    StatusView(j.id, j.status, j.stage, j.stageLabel, j.progress, j.result, j.error, j.createdAt, j.updatedAt, j.completedAt)
  }

  function SummaryOf(j: Job): Summary {
    Summary(j.id, j.status, j.stage, j.stageLabel, j.progress, j.params, j.createdAt, j.updatedAt, j.completedAt)
  }

  /** `GET /api/jobs/:jobId`: 404 for an unknown id, otherwise the job's fields. */
  method GetJobStatus(mgr: JobManager, jobId: JobId) returns (r: Reply)
    ensures jobId !in mgr.jobs ==> r == Reply(404, Failure(NotFoundMessage))
    ensures jobId in mgr.jobs ==> r == Reply(200, Shown(ViewOf(mgr.jobs[jobId])))
  {
    var job := mgr.GetJob(jobId);
    if job.None? {
      return Reply(404, Failure(NotFoundMessage));
    }
    var j := job.value;
    r := Reply(200, Shown(StatusView(j.id, j.status, j.stage, j.stageLabel, j.progress, j.result, j.error, j.createdAt, j.updatedAt, j.completedAt)));
  }

  /** `GET /api/jobs`: the anonymous user's jobs, newest first, as summaries. */
  method ListJobs(mgr: JobManager) returns (r: Reply)
    ensures r.status == 200 && r.body.Listed?
    ensures |r.body.jobs| == |UserJobs(mgr.State(), Anonymous)|
    ensures forall k :: 0 <= k < |r.body.jobs| ==> r.body.jobs[k] == SummaryOf(UserJobs(mgr.State(), Anonymous)[k])
  {
    var jobs := mgr.GetUserJobs(Anonymous);
    var out: seq<Summary> := [];
    var i := 0;
    while i < |jobs|
      invariant 0 <= i <= |jobs|
      invariant |out| == i
      invariant forall k :: 0 <= k < i ==> out[k] == SummaryOf(jobs[k])
    {
      var j := jobs[i];
      out := out + [Summary(j.id, j.status, j.stage, j.stageLabel, j.progress, j.params, j.createdAt, j.updatedAt, j.completedAt)];
      i := i + 1;
    }
    r := Reply(200, Listed(out));
  }

  /** An accepted job is at once in the anonymous user's listing, shown as queued. */
  lemma PostedJobIsListed(reg: Registry, topic: string, prompt: Option<Value>, secs: Option<int>, jobId: JobId, now: int)
    requires Valid(reg) && jobId !in reg.jobs
    requires ActiveCount(reg, Anonymous) < 2
    ensures var after := AfterPost(reg, topic, prompt, secs, jobId, now);
      jobId in after.jobs && after.jobs[jobId] in UserJobs(after, Anonymous)
  {
    var created := AfterCreate(reg, Anonymous, ParamsFor(topic, prompt, secs), jobId, now).1;
    CreatePreservesValid(reg, Anonymous, ParamsFor(topic, prompt, secs), jobId, now);
    JobUpdatesPreserveValid(created, jobId, now);
    var after := AfterPost(reg, topic, prompt, secs, jobId, now);
    PostedJobIsQueued(reg, topic, prompt, secs, jobId, now);
    UserJobsAreOwnJobsNewestFirst(after, Anonymous);
    assert after.jobs[jobId] in after.jobs.Values;
  }

  // ---------------------------------------------------------------------
  // GET /api/jobs/:jobId/stream
  // ---------------------------------------------------------------------

  /** A `data:` frame of the event stream; `EventFrame` is `{type, ...data}` for a progress, complete or error event. */
  datatype Frame =
    | InitFrame(jobId: JobId, status: Status, stage: int, stageLabel: string, progress: int)
    | EventFrame(event: Event)

  /** How the stream handler answers: a 404 reply, or an open stream with its first frame and subscription. */
  datatype StreamReply = NoStream(reply: Reply) | Streaming(init: Frame, sub: Subscription)

  /**
   * `GET /api/jobs/:jobId/stream`: 404 for an unknown job; otherwise an
   * `init` frame with the job's current status, stage, label and progress,
   * and the client's three listeners are subscribed. Closing the connection
   * is `JobManager.Unsubscribe` on the subscription.
   */
  method OpenStream(mgr: JobManager, jobId: JobId, onProgress: ListenerId, onComplete: ListenerId, onError: ListenerId)
    returns (r: StreamReply)
    modifies mgr
    ensures jobId !in old(mgr.jobs) ==> r == NoStream(Reply(404, Failure(NotFoundMessage))) && mgr.State() == old(mgr.State())
    ensures jobId in old(mgr.jobs) ==>
      var j := old(mgr.jobs)[jobId];
      && r == Streaming(InitFrame(jobId, j.status, j.stage, j.stageLabel, j.progress), Subscription(jobId, onProgress, onComplete, onError))
      && mgr.State() == AfterSubscribe(old(mgr.State()), jobId, onProgress, onComplete, onError).1
  {
    var job := mgr.GetJob(jobId);
    if job.None? {
      return NoStream(Reply(404, Failure(NotFoundMessage)));
    }
    var j := job.value;
    var init := InitFrame(jobId, j.status, j.stage, j.stageLabel, j.progress);
    var sub := mgr.Subscribe(jobId, onProgress, onComplete, onError);
    r := Streaming(init, sub.value);
  }

  /** The client's listener for this kind of event is among those `d` reached. */
  predicate Heard(d: Delivery, sub: Subscription) {
    match d.event
    case ProgressEvent(_, _, _, _, _, _) => sub.onProgress in d.listeners
    case CompleteEvent(_, _) => sub.onComplete in d.listeners
    case ErrorEvent(_, _) => sub.onError in d.listeners
  }

  /** The complete and error listeners end the response after writing their frame. */
  predicate EndsStream(ev: Event) {
    !ev.ProgressEvent?
  }

  /** The frames the client receives from the deliveries `log`, up to the one that ends the response. */
  function ClientFrames(log: seq<Delivery>, sub: Subscription): seq<Frame> {
    if log == [] then []
    else if Heard(log[0], sub) then
      [EventFrame(log[0].event)] + (if EndsStream(log[0].event) then [] else ClientFrames(log[1..], sub))
    else ClientFrames(log[1..], sub)
  }

  /** Progress deliveries the client hears each give it one frame, in order, and do not end the stream. */
  lemma {:induction false} ClientFramesOfProgress(ds: seq<Delivery>, tail: seq<Delivery>, sub: Subscription)
    requires forall k :: 0 <= k < |ds| ==> ds[k].event.ProgressEvent? && Heard(ds[k], sub)
    ensures var f := ClientFrames(ds + tail, sub);
      && |f| == |ds| + |ClientFrames(tail, sub)|
      && (forall k :: 0 <= k < |ds| ==> f[k] == EventFrame(ds[k].event))
      && f[|ds|..] == ClientFrames(tail, sub)
    decreases |ds|
  {
    if ds == [] {
      assert ds + tail == tail;
    } else {
      var rest := ds[1..];
      assert (ds + tail)[0] == ds[0];
      assert (ds + tail)[1..] == rest + tail;
      ClientFramesOfProgress(rest, tail, sub);
      var f := ClientFrames(ds + tail, sub);
      assert f == [EventFrame(ds[0].event)] + ClientFrames(rest + tail, sub);
    }
  }

  /** Progress updates keep the job's listeners, and each of them reaches its progress listeners. */
  lemma {:induction false} UpdatesReachListeners(reg: Registry, jobId: JobId, us: seq<Update>, now: int)
    requires jobId in reg.jobs
    ensures var after := ApplyUpdates(reg, jobId, us, now);
      && jobId in after.jobs && after.jobs[jobId].emitter == reg.jobs[jobId].emitter
      && |after.log| == |reg.log| + |us| && after.log[..|reg.log|] == reg.log
      && (forall k :: |reg.log| <= k < |after.log| ==>
            after.log[k].event.ProgressEvent? && after.log[k].listeners == reg.jobs[jobId].emitter.progress)
    decreases |us|
  {
    if us != [] {
      var n := |us| - 1;
      UpdatesReachListeners(reg, jobId, us[..n], now);
      var mid := ApplyUpdates(reg, jobId, us[..n], now);
      var after := ApplyUpdates(reg, jobId, us, now);
      assert after == AfterProgress(mid, jobId, us[n], now);
      assert after.log[..|mid.log|] == mid.log;
      assert after.log[..|reg.log|] == mid.log[..|reg.log|];
    }
  }

  /**
   * A client subscribed to a job hears the rest of its run: one progress
   * frame per update with that update's stage, label and progress, then the
   * `complete` frame with the result or the `error` frame with the error's
   * text, which ends the stream. Failure always reaches it, as its own error
   * listener is attached.
   */
  lemma SubscribedClientHearsRun(reg: Registry, jobId: JobId, sub: Subscription, us: seq<Update>, finish: Finish, now: int)
    requires jobId in reg.jobs && sub.jobId == jobId
    requires var em := reg.jobs[jobId].emitter;
      sub.onProgress in em.progress && sub.onComplete in em.complete && sub.onError in em.error
    requires forall k :: 0 <= k < |us| ==> us[k].stage.Some? && us[k].stageLabel.Some? && us[k].progress.Some?
    ensures |AfterEnd(ApplyUpdates(reg, jobId, us, now), jobId, finish, now).log| == |reg.log| + |us| + 1
    ensures var after := AfterEnd(ApplyUpdates(reg, jobId, us, now), jobId, finish, now);
      var frames := ClientFrames(after.log[|reg.log|..], sub);
      && |frames| == |us| + 1
      && (forall k :: 0 <= k < |us| ==> frames[k].EventFrame? && Reports(frames[k].event, jobId, us[k]))
      && (finish.Completes? ==> frames[|us|] == EventFrame(CompleteEvent(jobId, finish.result)))
      && (finish.FailsWith? ==> frames[|us|] == EventFrame(ErrorEvent(jobId, ErrorText(finish.error))))
  {
    var mid := ApplyUpdates(reg, jobId, us, now);
    var after := AfterEnd(mid, jobId, finish, now);
    UpdatesHeard(reg, jobId, sub, us, now);
    UpdatesReachListeners(reg, jobId, us, now);
    var ds := mid.log[|reg.log|..];
    EndHeard(mid, jobId, sub, finish, now);
    var last := after.log[|after.log| - 1];
    assert after.log[|reg.log|..] == ds + [last];
    ClientFramesOfProgress(ds, [last], sub);
  }

  /** The run's last call delivers one event, which the client hears and which ends its stream. */
  lemma EndHeard(mid: Registry, jobId: JobId, sub: Subscription, finish: Finish, now: int)
    requires jobId in mid.jobs
    requires var em := mid.jobs[jobId].emitter; sub.onComplete in em.complete && sub.onError in em.error
    ensures var after := AfterEnd(mid, jobId, finish, now);
      && |after.log| == |mid.log| + 1 && after.log == mid.log + [after.log[|mid.log|]]
      && after.log[|mid.log|].event ==
           (if finish.Completes? then CompleteEvent(jobId, finish.result) else ErrorEvent(jobId, ErrorText(finish.error)))
      && ClientFrames([after.log[|mid.log|]], sub) == [EventFrame(after.log[|mid.log|].event)]
  {
    var after := AfterEnd(mid, jobId, finish, now);
    var last := after.log[|after.log| - 1];
    assert after.log == mid.log + [last];
    assert Heard(last, sub) && EndsStream(last.event);
  }

  /** The client hears each progress delivery of the updates, and each reports its update. */
  lemma UpdatesHeard(reg: Registry, jobId: JobId, sub: Subscription, us: seq<Update>, now: int)
    requires jobId in reg.jobs && sub.onProgress in reg.jobs[jobId].emitter.progress
    requires forall k :: 0 <= k < |us| ==> us[k].stage.Some? && us[k].stageLabel.Some? && us[k].progress.Some?
    ensures |ApplyUpdates(reg, jobId, us, now).log| == |reg.log| + |us|
    ensures var mid := ApplyUpdates(reg, jobId, us, now);
      var ds := mid.log[|reg.log|..];
      && |ds| == |us|
      && (forall k :: 0 <= k < |ds| ==> ds[k].event.ProgressEvent? && Heard(ds[k], sub) && Reports(ds[k].event, jobId, us[k]))
  {
    var em := reg.jobs[jobId].emitter;
    var mid := ApplyUpdates(reg, jobId, us, now);
    UpdatesReachListeners(reg, jobId, us, now);
    UpdatesEmitInOrder(reg, jobId, us, now);
    var ds := mid.log[|reg.log|..];
    forall k | 0 <= k < |ds|
      ensures ds[k].event.ProgressEvent? && Heard(ds[k], sub) && Reports(ds[k].event, jobId, us[k])
    {
      assert ds[k] == mid.log[|reg.log| + k];
      assert mid.log[|reg.log| + k].listeners == em.progress;
    }
  }
}
