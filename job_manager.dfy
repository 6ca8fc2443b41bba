/**
 * The in-memory job registry: a table of jobs, an index from user to the ids
 * of that user's jobs (a `Set`, kept here as an insertion-ordered sequence
 * without repeats), and one event emitter per job. Each emitter is three
 * listener lists; every `emit` call is appended to a log together with the
 * listeners it reached. The clock and the fresh job id are parameters;
 * timestamps are milliseconds.
 *
 * Each state change is a pure function from one `Registry` value to the next,
 * and the class `JobManager` applies them to its fields.
 */
module Jobs {
  import opened Wrappers
  import opened Timeline
  import opened Sorting
  import opened Storage

  type JobId = string
  type UserId = string

  /** A listener function, by identity. */
  type ListenerId = nat

  datatype Status = Pending | Running | Completed | Failed

  predicate IsActive(s: Status) {
    s == Pending || s == Running
  }

  predicate IsFinished(s: Status) {
    s == Completed || s == Failed
  }

  /** What the jobs route stores as `params`. */
  datatype JobParams = JobParams(topic: string, prompt: Option<string>, narrationTargetSecs: Option<int>)

  /** What a finished run stores as `result`. */
  datatype JobResult = JobResult(playlistId: string, data: Record)

  datatype Emitter = Emitter(progress: seq<ListenerId>, complete: seq<ListenerId>, error: seq<ListenerId>)

  const NoListeners := Emitter([], [], [])

  /** A job record; `detail` is the field a progress update's `detail` is copied to. */
  datatype Job = Job(
    id: JobId,
    userId: UserId,
    params: JobParams,
    status: Status,
    stage: int,
    stageLabel: string,
    progress: int,
    detail: Option<string>,
    result: Option<JobResult>,
    error: Option<string>,
    createdAt: int,
    updatedAt: int,
    completedAt: Option<int>,
    emitter: Emitter)

  /** The argument of `updateProgress`: the fields it carries. */
  datatype Update = Update(
    status: Option<Status>,
    stage: Option<int>,
    stageLabel: Option<string>,
    progress: Option<int>,
    detail: Option<string>)

  datatype Event =
    | ProgressEvent(jobId: JobId, status: Status, stage: int, stageLabel: string, progress: int, detail: Option<string>)
    | CompleteEvent(jobId: JobId, result: JobResult)
    | ErrorEvent(jobId: JobId, error: string)

  /** One `emit` call: the event and the listeners it was handed to, in order. */
  datatype Delivery = Delivery(event: Event, listeners: seq<ListenerId>)

  datatype Registry = Registry(jobs: map<JobId, Job>, userJobs: map<UserId, seq<JobId>>, log: seq<Delivery>)

  /** What `failJob` is given: an `Error` with its `message`, whose `String(error)` is `text`. */
  datatype ErrorValue = ErrorValue(message: Option<string>, text: string)

  const LimitMessage := "Maximum 2 concurrent jobs per user. Please wait for existing jobs to complete."

  /** How long a finished job is kept: one hour. */
  const RetentionMs := 60 * 60 * 1000

  // ---------------------------------------------------------------------
  // Queries
  // ---------------------------------------------------------------------

  /** `this.userJobs.get(userId) || new Set()` */
  function UserIds(reg: Registry, userId: UserId): seq<JobId> {
    if userId in reg.userJobs then reg.userJobs[userId] else []
  }

  /** `ids.map(id => jobs.get(id)).filter(job => job && active)` */
  function ActiveJobs(jobs: map<JobId, Job>, ids: seq<JobId>): (r: seq<Job>)
    ensures |r| <= |ids|
    ensures forall k :: 0 <= k < |r| ==> IsActive(r[k].status) && r[k] in jobs.Values
    ensures forall id :: id in ids && id in jobs && IsActive(jobs[id].status) ==> jobs[id] in r
  {
    if ids == [] then []
    else
      var n := |ids| - 1;
      var pre := ActiveJobs(jobs, ids[..n]);
      assert forall id :: id in ids ==> id in ids[..n] || id == ids[n];
      if ids[n] in jobs && IsActive(jobs[ids[n]].status) then pre + [jobs[ids[n]]] else pre
  }

  /** The number of the user's jobs that are pending or running, as the creation check counts them. */
  function ActiveCount(reg: Registry, userId: UserId): nat {
    |ActiveJobs(reg.jobs, UserIds(reg, userId))|
  }

  /** `ids.map(id => jobs.get(id)).filter(job => job)` */
  function ExistingJobs(jobs: map<JobId, Job>, ids: seq<JobId>): (r: seq<Job>)
    ensures forall k :: 0 <= k < |r| ==> r[k] in jobs.Values
    ensures forall id :: id in ids && id in jobs ==> jobs[id] in r
    ensures forall x :: x in r ==> exists id :: id in ids && id in jobs && jobs[id] == x
  {
    if ids == [] then []
    else
      var n := |ids| - 1;
      var pre := ExistingJobs(jobs, ids[..n]);
      assert forall id :: id in ids ==> id in ids[..n] || id == ids[n];
      assert forall id :: id in ids[..n] ==> id in ids;
      if ids[n] in jobs then pre + [jobs[ids[n]]] else pre
  }

  /** The comparator `new Date(b.createdAt) - new Date(a.createdAt)` answers `<= 0`. */
  function CreatedNewestFirst(): (Job, Job) -> bool {
    (a: Job, b: Job) => b.createdAt <= a.createdAt
  }

  /** `getUserJobs`: the user's existing jobs, newest first. */
  function UserJobs(reg: Registry, userId: UserId): seq<Job> {
    Sort(ExistingJobs(reg.jobs, UserIds(reg, userId)), CreatedNewestFirst())
  }

  /** `getJob` */
  function GetJob(reg: Registry, jobId: JobId): (r: Option<Job>)
    ensures r.Some? <==> jobId in reg.jobs
    ensures r.Some? ==> r.value == reg.jobs[jobId]
  {
    if jobId in reg.jobs then Some(reg.jobs[jobId]) else None
  }

  // ---------------------------------------------------------------------
  // createJob
  // ---------------------------------------------------------------------

  /** The job `createJob` stores. */
  function NewJob(jobId: JobId, userId: UserId, params: JobParams, now: int): Job {
    Job(jobId, userId, params, Pending, 0, "Queued", 0, None, None, None, now, now, None, NoListeners)
  }

  /** `Set.prototype.add` on an insertion-ordered set. */
  function AddId(ids: seq<JobId>, id: JobId): (r: seq<JobId>)
    ensures id in r
    ensures forall x :: x in r <==> x in ids || x == id
  {
    if id in ids then ids else ids + [id]
  }

  /**
   * `createJob`: refused when the user already has two pending or running
   * jobs; otherwise a pending job at stage 0 and progress 0, with no result,
   * error or completion time, stored under the fresh id and added to the
   * user's set. Nothing else changes.
   */
  function AfterCreate(reg: Registry, userId: UserId, params: JobParams, jobId: JobId, now: int): (r: (Result<Job, string>, Registry))
    ensures r.0.Err? <==> ActiveCount(reg, userId) >= 2
    ensures r.0.Err? ==> r.0.error == LimitMessage && r.1 == reg
    ensures r.0.Ok? ==>
      var j := r.0.value;
      && j.id == jobId && j.userId == userId && j.params == params
      && j.status == Pending && j.stage == 0 && j.progress == 0
      && j.result.None? && j.error.None? && j.completedAt.None?
      && j.createdAt == now && j.updatedAt == now
      && jobId in r.1.jobs && r.1.jobs[jobId] == j
      && (forall id :: id != jobId ==> (id in r.1.jobs <==> id in reg.jobs))
      && (forall id :: id != jobId && id in reg.jobs ==> r.1.jobs[id] == reg.jobs[id])
      && jobId in UserIds(r.1, userId)
      && (forall id :: id in UserIds(r.1, userId) <==> id in UserIds(reg, userId) || id == jobId)
      && (forall u :: u != userId ==> UserIds(r.1, u) == UserIds(reg, u))
      && r.1.log == reg.log
  {
    if ActiveCount(reg, userId) >= 2 then (Err(LimitMessage), reg)
    else
      var job := NewJob(jobId, userId, params, now);
      (Ok(job), Registry(reg.jobs[jobId := job], reg.userJobs[userId := AddId(UserIds(reg, userId), jobId)], reg.log))
  }

  // ---------------------------------------------------------------------
  // updateProgress, completeJob, failJob
  // ---------------------------------------------------------------------

  /** `Object.assign(job, { ...update, updatedAt })` */
  function Merged(job: Job, u: Update, now: int): (r: Job)
    ensures r.status == (if u.status.Some? then u.status.value else job.status)
    ensures r.stage == (if u.stage.Some? then u.stage.value else job.stage)
    ensures r.stageLabel == (if u.stageLabel.Some? then u.stageLabel.value else job.stageLabel)
    ensures r.progress == (if u.progress.Some? then u.progress.value else job.progress)
    ensures r.detail == (if u.detail.Some? then u.detail else job.detail)
    ensures r.updatedAt == now
    ensures r == job.(status := r.status, stage := r.stage, stageLabel := r.stageLabel, progress := r.progress,
      detail := r.detail, updatedAt := now)
  {
    job.(
      status := if u.status.Some? then u.status.value else job.status,
      stage := if u.stage.Some? then u.stage.value else job.stage,
      stageLabel := if u.stageLabel.Some? then u.stageLabel.value else job.stageLabel,
      progress := if u.progress.Some? then u.progress.value else job.progress,
      detail := if u.detail.Some? then u.detail else job.detail,
      updatedAt := now)
  }

  /**
   * `updateProgress`: nothing for an unknown id; otherwise the merged job and
   * one progress event with the merged fields and the update's `detail`.
   */
  function AfterProgress(reg: Registry, jobId: JobId, u: Update, now: int): (r: Registry)
    ensures jobId !in reg.jobs ==> r == reg
    ensures jobId in reg.jobs ==>
      var m := Merged(reg.jobs[jobId], u, now);
      && r.jobs == reg.jobs[jobId := m]
      && r.userJobs == reg.userJobs
      && r.log == reg.log + [Delivery(ProgressEvent(jobId, m.status, m.stage, m.stageLabel, m.progress, u.detail), m.emitter.progress)]
  {
    if jobId !in reg.jobs then reg
    else
      var m := Merged(reg.jobs[jobId], u, now);
      var ev := ProgressEvent(jobId, m.status, m.stage, m.stageLabel, m.progress, u.detail);
      Registry(reg.jobs[jobId := m], reg.userJobs, reg.log + [Delivery(ev, m.emitter.progress)])
  }

  /** `completeJob`: completed at 100 with its result and completion time, and one `complete` event. */
  function AfterComplete(reg: Registry, jobId: JobId, result: JobResult, now: int): (r: Registry)
    ensures jobId !in reg.jobs ==> r == reg
    ensures jobId in reg.jobs ==>
      var j := reg.jobs[jobId];
      && r.jobs == reg.jobs[jobId := j.(status := Completed, result := Some(result), progress := 100,
           completedAt := Some(now), updatedAt := now)]
      && r.userJobs == reg.userJobs
      && r.log == reg.log + [Delivery(CompleteEvent(jobId, result), j.emitter.complete)]
  {
    if jobId !in reg.jobs then reg
    else
      var j := reg.jobs[jobId];
      var done := j.(status := Completed, result := Some(result), progress := 100, completedAt := Some(now), updatedAt := now);
      Registry(reg.jobs[jobId := done], reg.userJobs, reg.log + [Delivery(CompleteEvent(jobId, result), j.emitter.complete)])
  }

  /** `error.message || String(error)` */
  function ErrorText(e: ErrorValue): (r: string)
    ensures Truthy(e.message) ==> r == e.message.value
    ensures !Truthy(e.message) ==> r == e.text
  {
    Or(e.message, e.text)
  }

  /**
   * `failJob`: failed with the error text and completion time; an `error`
   * event only when some error listener is attached (Node throws on an
   * `error` event nobody listens to).
   */
  function AfterFail(reg: Registry, jobId: JobId, e: ErrorValue, now: int): (r: Registry)
    ensures jobId !in reg.jobs ==> r == reg
    ensures jobId in reg.jobs ==>
      var j := reg.jobs[jobId];
      && r.jobs == reg.jobs[jobId := j.(status := Failed, error := Some(ErrorText(e)), completedAt := Some(now), updatedAt := now)]
      && r.userJobs == reg.userJobs
      && (j.emitter.error != [] ==> r.log == reg.log + [Delivery(ErrorEvent(jobId, ErrorText(e)), j.emitter.error)])
      && (j.emitter.error == [] ==> r.log == reg.log)
  {
    if jobId !in reg.jobs then reg
    else
      var j := reg.jobs[jobId];
      var msg := ErrorText(e);
      var failed := j.(status := Failed, error := Some(msg), completedAt := Some(now), updatedAt := now);
      var log := if |j.emitter.error| > 0 then reg.log + [Delivery(ErrorEvent(jobId, msg), j.emitter.error)] else reg.log;
      Registry(reg.jobs[jobId := failed], reg.userJobs, log)
  }

  // ---------------------------------------------------------------------
  // subscribe and the unsubscribe function it returns
  // ---------------------------------------------------------------------

  /** The closure `subscribe` returns: the job and the three listeners it added. */
  datatype Subscription = Subscription(jobId: JobId, onProgress: ListenerId, onComplete: ListenerId, onError: ListenerId)

  /** `emitter.off(event, x)`: the most recently added instance of `x` goes, if there is one. */
  function RemoveLast(s: seq<ListenerId>, x: ListenerId): (r: seq<ListenerId>)
    ensures x !in s ==> r == s
    ensures x in s ==> |r| == |s| - 1
  {
    if s == [] then []
    else if s[|s| - 1] == x then s[..|s| - 1]
    else
      assert x in s ==> x in s[..|s| - 1];
      RemoveLast(s[..|s| - 1], x) + [s[|s| - 1]]
  }

  /** Removing the last instance of `x` undoes adding it, whatever was added after it. */
  lemma {:induction false} RemoveLastUndoesAdd(s: seq<ListenerId>, x: ListenerId, later: seq<ListenerId>)
    requires x !in later
    ensures RemoveLast(s + [x] + later, x) == s + later
    decreases |later|
  {
    if later == [] {
      assert s + [x] + later == s + [x];
    } else {
      var n := |later| - 1;
      var t := s + [x] + later;
      assert t[..|t| - 1] == s + [x] + later[..n];
      assert t[|t| - 1] == later[n] != x;
      RemoveLastUndoesAdd(s, x, later[..n]);
      assert s + later[..n] + [later[n]] == s + later;
    }
  }

  /** `subscribe`: `None` for an unknown job; otherwise the three listeners are appended. */
  function AfterSubscribe(reg: Registry, jobId: JobId, p: ListenerId, c: ListenerId, e: ListenerId): (r: (Option<Subscription>, Registry))
    ensures jobId !in reg.jobs ==> r == (None, reg)
    ensures jobId in reg.jobs ==>
      var em := reg.jobs[jobId].emitter;
      && r.0 == Some(Subscription(jobId, p, c, e))
      && r.1 == reg.(jobs := reg.jobs[jobId := reg.jobs[jobId].(emitter := Emitter(em.progress + [p], em.complete + [c], em.error + [e]))])
  {
    if jobId !in reg.jobs then (None, reg)
    else
      var j := reg.jobs[jobId];
      var em := j.emitter;
      (Some(Subscription(jobId, p, c, e)),
       reg.(jobs := reg.jobs[jobId := j.(emitter := Emitter(em.progress + [p], em.complete + [c], em.error + [e]))]))
  }

  /** Calling the returned function: `off` for each of the three listeners. */
  function AfterUnsubscribe(reg: Registry, sub: Subscription): (r: Registry)
    ensures sub.jobId !in reg.jobs ==> r == reg
    ensures sub.jobId in reg.jobs ==>
      var em := reg.jobs[sub.jobId].emitter;
      r == reg.(jobs := reg.jobs[sub.jobId := reg.jobs[sub.jobId].(emitter := Emitter(
        RemoveLast(em.progress, sub.onProgress), RemoveLast(em.complete, sub.onComplete), RemoveLast(em.error, sub.onError)))])
  {
    if sub.jobId !in reg.jobs then reg
    else
      var j := reg.jobs[sub.jobId];
      var em := j.emitter;
      reg.(jobs := reg.jobs[sub.jobId := j.(emitter := Emitter(
        RemoveLast(em.progress, sub.onProgress), RemoveLast(em.complete, sub.onComplete), RemoveLast(em.error, sub.onError)))])
  }

  // ---------------------------------------------------------------------
  // cleanup
  // ---------------------------------------------------------------------

  /** Completed or failed, with a completion time more than an hour before `now`. */
  predicate Expired(job: Job, now: int) {
    IsFinished(job.status) && job.completedAt.Some? && job.completedAt.value < now - RetentionMs
  }

  /** `ids` without the members of `gone`, in order. */
  function Without(ids: seq<JobId>, gone: set<JobId>): (r: seq<JobId>)
    ensures forall x :: x in r <==> x in ids && x !in gone
    ensures |r| <= |ids|
  {
    if ids == [] then []
    else
      var n := |ids| - 1;
      assert forall x :: x in ids <==> x in ids[..n] || x == ids[n];
      Without(ids[..n], gone) + (if ids[n] in gone then [] else [ids[n]])
  }

  /** The ids among `removed` of jobs that belong to `u`. */
  function OwnedIn(reg: Registry, removed: set<JobId>, u: UserId): set<JobId> {
    set id | id in removed && id in reg.jobs && reg.jobs[id].userId == u
  }

  /** Deleting `removed` emptied the user's set, so the user's entry goes too. */
  predicate Dropped(reg: Registry, removed: set<JobId>, u: UserId)
    requires u in reg.userJobs
  {
    OwnedIn(reg, removed, u) != {} && Without(reg.userJobs[u], OwnedIn(reg, removed, u)) == []
  }

  /**
   * The registry once the jobs `removed` have been deleted, each from the
   * table and from its owner's set, and every user entry that a deletion
   * left empty dropped.
   */
  function Reaped(reg: Registry, removed: set<JobId>): Registry {
    Registry(
      map id | id in reg.jobs && id !in removed :: reg.jobs[id],
      map u | u in reg.userJobs && !Dropped(reg, removed, u) :: Without(reg.userJobs[u], OwnedIn(reg, removed, u)),
      reg.log)
  }

  function ExpiredIds(reg: Registry, now: int): set<JobId> {
    set id | id in reg.jobs && Expired(reg.jobs[id], now)
  }

  /** `cleanup`: every expired job deleted, every other job kept as it is. */
  function AfterCleanup(reg: Registry, now: int): (r: Registry)
    ensures forall id :: id in r.jobs <==> id in reg.jobs && !Expired(reg.jobs[id], now)
    ensures forall id :: id in r.jobs ==> r.jobs[id] == reg.jobs[id]
    ensures forall u :: u in r.userJobs ==> u in reg.userJobs
    ensures r.log == reg.log
  {
    Reaped(reg, ExpiredIds(reg, now))
  }

  // ---------------------------------------------------------------------
  // getStats
  // ---------------------------------------------------------------------

  datatype Stats = Stats(total: nat, pending: nat, running: nat, completed: nat, failed: nat, users: nat)

  /** How many of the jobs `ids` have status `st`. */
  function CountIn(jobs: map<JobId, Job>, ids: set<JobId>, st: Status): nat
    requires ids <= jobs.Keys
  {
    |set id | id in ids && jobs[id].status == st|
  }

  /** The totals `getStats` reports. */
  function StatsOf(reg: Registry): Stats {
    Stats(|reg.jobs|, CountIn(reg.jobs, reg.jobs.Keys, Pending), CountIn(reg.jobs, reg.jobs.Keys, Running),
      CountIn(reg.jobs, reg.jobs.Keys, Completed), CountIn(reg.jobs, reg.jobs.Keys, Failed), |reg.userJobs|)
  }

  lemma {:induction false} CountInAdd(jobs: map<JobId, Job>, ids: set<JobId>, x: JobId, st: Status)
    requires ids <= jobs.Keys && x in jobs && x !in ids
    ensures CountIn(jobs, ids + {x}, st) == CountIn(jobs, ids, st) + (if jobs[x].status == st then 1 else 0)
  {
    var before := set id | id in ids && jobs[id].status == st;
    var after := set id | id in ids + {x} && jobs[id].status == st;
    if jobs[x].status == st {
      assert after == before + {x};
    } else {
      assert after == before;
    }
  }

  /** Every job has one of the four statuses, so the four counts add up to the total. */
  lemma {:induction false} CountsPartition(jobs: map<JobId, Job>, ids: set<JobId>)
    requires ids <= jobs.Keys
    ensures CountIn(jobs, ids, Pending) + CountIn(jobs, ids, Running) + CountIn(jobs, ids, Completed)
      + CountIn(jobs, ids, Failed) == |ids|
    decreases |ids|
  {
    if ids == {} {
      assert CountIn(jobs, ids, Pending) == 0 && CountIn(jobs, ids, Running) == 0;
      assert CountIn(jobs, ids, Completed) == 0 && CountIn(jobs, ids, Failed) == 0;
    } else {
      var x :| x in ids;
      var rest := ids - {x};
      CountsPartition(jobs, rest);
      assert rest + {x} == ids;
      CountInAdd(jobs, rest, x, Pending);
      CountInAdd(jobs, rest, x, Running);
      CountInAdd(jobs, rest, x, Completed);
      CountInAdd(jobs, rest, x, Failed);
    }
  }

  /** The totals are consistent: every job is counted under exactly one status. */
  lemma StatsAddUp(reg: Registry)
    ensures var s := StatsOf(reg);
      s.pending + s.running + s.completed + s.failed == s.total
  {
    CountsPartition(reg.jobs, reg.jobs.Keys);
  }

  /** Deleting the ids `a` and then the ids `b` is deleting both at once. */
  lemma {:induction false} WithoutWithout(ids: seq<JobId>, a: set<JobId>, b: set<JobId>)
    ensures Without(Without(ids, a), b) == Without(ids, a + b)
    decreases |ids|
  {
    if ids != [] {
      var n := |ids| - 1;
      WithoutWithout(ids[..n], a, b);
      var tail := if ids[n] in a then [] else [ids[n]];
      assert Without(Without(ids[..n], a) + tail, b) == Without(Without(ids[..n], a), b) + Without(tail, b) by {
        WithoutAppend(Without(ids[..n], a), tail, b);
      }
    }
  }

  lemma {:induction false} WithoutAppend(s: seq<JobId>, t: seq<JobId>, gone: set<JobId>)
    ensures Without(s + t, gone) == Without(s, gone) + Without(t, gone)
    decreases |t|
  {
    if t == [] {
      assert s + t == s;
    } else {
      var n := |t| - 1;
      assert (s + t)[..|s + t| - 1] == s + t[..n];
      WithoutAppend(s, t[..n], gone);
    }
  }

  lemma {:induction false} WithoutNothing(ids: seq<JobId>)
    ensures Without(ids, {}) == ids
    decreases |ids|
  {
    if ids != [] {
      WithoutNothing(ids[..|ids| - 1]);
      assert ids[..|ids| - 1] + [ids[|ids| - 1]] == ids;
    }
  }

  /** Deleting no job changes nothing. */
  lemma ReapedNothing(reg: Registry)
    ensures Reaped(reg, {}) == reg
  {
    forall u | u in reg.userJobs
      ensures OwnedIn(reg, {}, u) == {} && Without(reg.userJobs[u], {}) == reg.userJobs[u]
    {
      WithoutNothing(reg.userJobs[u]);
    }
    assert Reaped(reg, {}).userJobs == reg.userJobs;
  }

  /** One pass of the cleanup loop's body on the expired job `id`. */
  function DeleteJob(reg: Registry, id: JobId): Registry
    requires id in reg.jobs
  {
    var u := reg.jobs[id].userId;
    var users :=
      if u !in reg.userJobs then reg.userJobs
      else if Without(reg.userJobs[u], {id}) == [] then reg.userJobs - {u}
      else reg.userJobs[u := Without(reg.userJobs[u], {id})];
    Registry(reg.jobs - {id}, users, reg.log)
  }

  /** Deleting one more job after a batch is the same as deleting the larger batch. */
  lemma DeleteJobStep(reg: Registry, removed: set<JobId>, id: JobId)
    requires id in reg.jobs && id !in removed
    ensures id in Reaped(reg, removed).jobs
    ensures DeleteJob(Reaped(reg, removed), id) == Reaped(reg, removed + {id})
  {
    var cur := Reaped(reg, removed);
    var next := Reaped(reg, removed + {id});
    assert cur.jobs[id] == reg.jobs[id];
    var step := DeleteJob(cur, id);
    assert step.jobs == next.jobs;
    forall v
      ensures (v in step.userJobs <==> v in next.userJobs) && (v in step.userJobs ==> step.userJobs[v] == next.userJobs[v])
    {
      UserEntryStep(reg, removed, id, v);
    }
    assert step.userJobs == next.userJobs;
  }

  /** The step lemma for one user's entry. */
  lemma UserEntryStep(reg: Registry, removed: set<JobId>, id: JobId, v: UserId)
    requires id in reg.jobs && id !in removed
    ensures id in Reaped(reg, removed).jobs
    ensures var step := DeleteJob(Reaped(reg, removed), id).userJobs;
      var next := Reaped(reg, removed + {id}).userJobs;
      (v in step <==> v in next) && (v in step ==> step[v] == next[v])
  {
    var cur := Reaped(reg, removed).userJobs;
    var next := Reaped(reg, removed + {id}).userJobs;
    var step := DeleteJob(Reaped(reg, removed), id).userJobs;
    var u := reg.jobs[id].userId;
    var a := OwnedIn(reg, removed, v);
    var b := OwnedIn(reg, removed + {id}, v);
    OwnedInStep(reg, removed, id, v);
    DeleteJobUsers(Reaped(reg, removed), id, v);
    assert v in cur <==> v in reg.userJobs && !Dropped(reg, removed, v);
    assert v in next <==> v in reg.userJobs && !Dropped(reg, removed + {id}, v);
    if v != u {
      if v in step {
        assert step[v] == cur[v] == Without(reg.userJobs[v], a);
        assert next[v] == Without(reg.userJobs[v], b);
      }
    } else if v !in reg.userJobs {
      assert v !in step;
    } else {
      var ids := reg.userJobs[v];
      WithoutWithout(ids, a, {id});
      if Dropped(reg, removed, v) {
        assert v !in cur && v !in step;
        assert Without(ids, b) == Without([], {id}) == [];
        assert v !in next;
      } else {
        assert cur[v] == Without(ids, a);
        var w := Without(cur[v], {id});
        assert w == Without(ids, b);
        if w == [] {
          assert v !in step && v !in next;
        } else {
          assert step[v] == w && next[v] == Without(ids, b);
        }
      }
    }
  }

  /** Adding `id` to the batch adds it to its owner's share of the batch only. */
  lemma OwnedInStep(reg: Registry, removed: set<JobId>, id: JobId, v: UserId)
    requires id in reg.jobs
    ensures OwnedIn(reg, removed + {id}, v) ==
      if v == reg.jobs[id].userId then OwnedIn(reg, removed, v) + {id} else OwnedIn(reg, removed, v)
  {
  }

  /** `DeleteJob` touches only the entry of the deleted job's owner. */
  lemma DeleteJobUsers(r: Registry, id: JobId, v: UserId)
    requires id in r.jobs
    ensures var step := DeleteJob(r, id).userJobs;
      var u := r.jobs[id].userId;
      && (v != u ==> (v in step <==> v in r.userJobs) && (v in step ==> step[v] == r.userJobs[v]))
      && (v == u && v !in r.userJobs ==> v !in step)
      && (v == u && v in r.userJobs ==>
            (v in step <==> Without(r.userJobs[v], {id}) != []) && (v in step ==> step[v] == Without(r.userJobs[v], {id})))
  {
  }

  // ---------------------------------------------------------------------
  // The registry object
  // ---------------------------------------------------------------------

  class JobManager {
    var jobs: map<JobId, Job>
    var userJobs: map<UserId, seq<JobId>>
    /** Every event emitted so far, with the listeners it reached. */
    var log: seq<Delivery>

    function State(): Registry
      reads this
    {
      Registry(jobs, userJobs, log)
    }

    constructor ()
      ensures State() == Registry(map[], map[], [])
    {
      jobs := map[];
      userJobs := map[];
      log := [];
    }

    /** `createJob`, with the generated id and the clock as parameters. */
    method CreateJob(userId: UserId, params: JobParams, jobId: JobId, now: int) returns (r: Result<Job, string>)
      modifies this
      ensures (r, State()) == AfterCreate(old(State()), userId, params, jobId, now)
    {
      var active := ActiveJobs(jobs, UserIds(State(), userId));
      if |active| >= 2 {
        return Err(LimitMessage);
      }
      var job := NewJob(jobId, userId, params, now);
      jobs := jobs[jobId := job];
      if userId !in userJobs {
        userJobs := userJobs[userId := []];
      }
      userJobs := userJobs[userId := AddId(userJobs[userId], jobId)];
      r := Ok(job);
      assert userJobs == old(userJobs)[userId := AddId(UserIds(old(State()), userId), jobId)];
    }

    method GetJob(jobId: JobId) returns (r: Option<Job>)
      ensures r.Some? <==> jobId in jobs
      ensures r.Some? ==> r.value == jobs[jobId]
    {
      if jobId in jobs {
        r := Some(jobs[jobId]);
      } else {
        r := None;
      }
    }

    method GetUserJobs(userId: UserId) returns (r: seq<Job>)
      ensures r == UserJobs(State(), userId)
    {
      var ids := if userId in userJobs then userJobs[userId] else [];
      r := Sort(ExistingJobs(jobs, ids), CreatedNewestFirst());
    }

    method UpdateProgress(jobId: JobId, u: Update, now: int)
      modifies this
      ensures State() == AfterProgress(old(State()), jobId, u, now)
    {
      if jobId !in jobs {
        return;
      }
      var job := Merged(jobs[jobId], u, now);
      jobs := jobs[jobId := job];
      log := log + [Delivery(ProgressEvent(jobId, job.status, job.stage, job.stageLabel, job.progress, u.detail), job.emitter.progress)];
    }

    method CompleteJob(jobId: JobId, result: JobResult, now: int)
      modifies this
      ensures State() == AfterComplete(old(State()), jobId, result, now)
    {
      if jobId !in jobs {
        return;
      }
      var job := jobs[jobId];
      job := job.(status := Completed, result := Some(result), progress := 100, completedAt := Some(now), updatedAt := now);
      jobs := jobs[jobId := job];
      log := log + [Delivery(CompleteEvent(jobId, result), job.emitter.complete)];
    }

    method FailJob(jobId: JobId, e: ErrorValue, now: int)
      modifies this
      ensures State() == AfterFail(old(State()), jobId, e, now)
    {
      if jobId !in jobs {
        return;
      }
      var job := jobs[jobId];
      job := job.(status := Failed, error := Some(ErrorText(e)), completedAt := Some(now), updatedAt := now);
      jobs := jobs[jobId := job];
      if |job.emitter.error| > 0 {
        log := log + [Delivery(ErrorEvent(jobId, job.error.value), job.emitter.error)];
      }
    }

    method Subscribe(jobId: JobId, p: ListenerId, c: ListenerId, e: ListenerId) returns (sub: Option<Subscription>)
      modifies this
      ensures (sub, State()) == AfterSubscribe(old(State()), jobId, p, c, e)
    {
      if jobId !in jobs {
        return None;
      }
      var job := jobs[jobId];
      var em := job.emitter;
      jobs := jobs[jobId := job.(emitter := Emitter(em.progress + [p], em.complete + [c], em.error + [e]))];
      sub := Some(Subscription(jobId, p, c, e));
    }

    /** Calls the function `subscribe` returned. */
    method Unsubscribe(sub: Subscription)
      modifies this
      ensures State() == AfterUnsubscribe(old(State()), sub)
    {
      if sub.jobId !in jobs {
        return;
      }
      var job := jobs[sub.jobId];
      var em := job.emitter;
      var progress := RemoveLast(em.progress, sub.onProgress);
      var complete := RemoveLast(em.complete, sub.onComplete);
      var error := RemoveLast(em.error, sub.onError);
      jobs := jobs[sub.jobId := job.(emitter := Emitter(progress, complete, error))];
    }

    /** `cleanup`: visits every job and deletes the expired ones. */
    method Cleanup(now: int)
      modifies this
      ensures State() == AfterCleanup(old(State()), now)
    {
      ghost var reg0 := State();
      var pending := jobs.Keys;
      ghost var removed: set<JobId> := {};
      ReapedNothing(reg0);
      while pending != {}
        invariant pending <= reg0.jobs.Keys
        invariant forall id :: id in removed <==> id in reg0.jobs && id !in pending && Expired(reg0.jobs[id], now)
        invariant State() == Reaped(reg0, removed)
        decreases pending
      {
        var id :| id in pending;
        CleanupOne(id, now, reg0, removed);
        if Expired(reg0.jobs[id], now) {
          removed := removed + {id};
        }
        pending := pending - {id};
      }
      assert removed == ExpiredIds(reg0, now);
    }

    /** The loop body of `cleanup` on a job not visited yet: it is deleted when expired. */
    method CleanupOne(id: JobId, now: int, ghost reg0: Registry, ghost removed: set<JobId>)
      requires id in reg0.jobs && id !in removed
      requires State() == Reaped(reg0, removed)
      modifies this
      ensures Expired(reg0.jobs[id], now) ==> State() == Reaped(reg0, removed + {id})
      ensures !Expired(reg0.jobs[id], now) ==> State() == old(State())
    {
      DeleteJobStep(reg0, removed, id);
      var job := jobs[id];
      if Expired(job, now) {
        var u := job.userId;
        if u in userJobs {
          var ids := Without(userJobs[u], {id});
          if ids == [] {
            userJobs := userJobs - {u};
          } else {
            userJobs := userJobs[u := ids];
          }
        }
        jobs := jobs - {id};
        assert State() == DeleteJob(old(State()), id);
      }
    }

    /** `getStats` */
    method GetStats() returns (s: Stats)
      ensures s == StatsOf(State())
    {
      var pending, running, completed, failed := 0, 0, 0, 0;
      var left := jobs.Keys;
      ghost var seen: set<JobId> := {};
      while left != {}
        invariant left <= jobs.Keys && seen == jobs.Keys - left
        invariant pending == CountIn(jobs, seen, Pending) && running == CountIn(jobs, seen, Running)
        invariant completed == CountIn(jobs, seen, Completed) && failed == CountIn(jobs, seen, Failed)
        decreases left
      {
        var id :| id in left;
        CountInAdd(jobs, seen, id, Pending);
        CountInAdd(jobs, seen, id, Running);
        CountInAdd(jobs, seen, id, Completed);
        CountInAdd(jobs, seen, id, Failed);
        match jobs[id].status {
          case Pending => pending := pending + 1;
          case Running => running := running + 1;
          case Completed => completed := completed + 1;
          case Failed => failed := failed + 1;
        }
        seen := seen + {id};
        left := left - {id};
      }
      assert seen == jobs.Keys;
      s := Stats(|jobs|, pending, running, completed, failed, |userJobs|);
    }
  }

  // ---------------------------------------------------------------------
  // What the registry keeps true
  // ---------------------------------------------------------------------

  predicate NoDup(ids: seq<JobId>) {
    forall i, j :: 0 <= i < j < |ids| ==> ids[i] != ids[j]
  }

  /**
   * The registry is consistent: each job is filed under its own id and in
   * its owner's set; each user's set is non-empty, without repeats, and
   * holds only ids of that user's jobs.
   */
  predicate Valid(reg: Registry) {
    && (forall id :: id in reg.jobs ==> reg.jobs[id].id == id)
    && (forall id :: id in reg.jobs ==> reg.jobs[id].userId in reg.userJobs && id in reg.userJobs[reg.jobs[id].userId])
    && (forall u, id :: u in reg.userJobs && id in reg.userJobs[u] ==> id in reg.jobs && reg.jobs[id].userId == u)
    && (forall u :: u in reg.userJobs ==> reg.userJobs[u] != [] && NoDup(reg.userJobs[u]))
  }

  /** The ids of the user's pending or running jobs. */
  function UserActive(reg: Registry, u: UserId): set<JobId> {
    set id | id in reg.jobs && reg.jobs[id].userId == u && IsActive(reg.jobs[id].status)
  }

  lemma NewRegistryValid()
    ensures Valid(Registry(map[], map[], []))
  {
  }

  /** Creating a job under a fresh id keeps the registry consistent. */
  lemma CreatePreservesValid(reg: Registry, userId: UserId, params: JobParams, jobId: JobId, now: int)
    requires Valid(reg) && jobId !in reg.jobs
    ensures Valid(AfterCreate(reg, userId, params, jobId, now).1)
  {
    if ActiveCount(reg, userId) < 2 {
      var ids := UserIds(reg, userId);
      assert jobId !in ids;
      var ids' := ids + [jobId];
      assert AddId(ids, jobId) == ids';
      FreshIdAppended(ids, jobId);
      var job := NewJob(jobId, userId, params, now);
      assert AfterCreate(reg, userId, params, jobId, now).1 == Registry(reg.jobs[jobId := job], reg.userJobs[userId := ids'], reg.log);
      FiledJobValid(reg, job, ids');
    }
  }

  lemma FreshIdAppended(ids: seq<JobId>, id: JobId)
    requires NoDup(ids) && id !in ids
    ensures NoDup(ids + [id])
  {
  }

  /** Filing a fresh job under its owner, after the owner's earlier ids, keeps the registry consistent. */
  lemma FiledJobValid(reg: Registry, job: Job, ids': seq<JobId>)
    requires Valid(reg) && job.id !in reg.jobs
    requires ids' == UserIds(reg, job.userId) + [job.id] && NoDup(ids')
    ensures Valid(Registry(reg.jobs[job.id := job], reg.userJobs[job.userId := ids'], reg.log))
  {
    var r := Registry(reg.jobs[job.id := job], reg.userJobs[job.userId := ids'], reg.log);
    var ids := UserIds(reg, job.userId);
    forall id | id in r.jobs
      ensures r.jobs[id].id == id && r.jobs[id].userId in r.userJobs && id in r.userJobs[r.jobs[id].userId]
    {
      if id != job.id {
        var v := reg.jobs[id].userId;
        assert v == job.userId ==> id in ids;
      }
    }
    forall v, id | v in r.userJobs && id in r.userJobs[v]
      ensures id in r.jobs && r.jobs[id].userId == v
    {
      if v == job.userId && id != job.id {
        assert id in ids;
      }
    }
    ValidOfParts(r);
  }

  /** Replacing a job by one with the same id and owner keeps the registry consistent. */
  lemma {:induction false} EditPreservesValid(reg: Registry, id: JobId, j: Job, log: seq<Delivery>)
    requires Valid(reg) && id in reg.jobs
    requires j.id == id && j.userId == reg.jobs[id].userId
    ensures Valid(Registry(reg.jobs[id := j], reg.userJobs, log))
  {
  }

  /** Progress, completion, failure, subscribing and unsubscribing keep the registry consistent. */
  lemma JobUpdatesPreserveValid(reg: Registry, jobId: JobId, now: int)
    requires Valid(reg)
    ensures forall u :: Valid(AfterProgress(reg, jobId, u, now))
    ensures forall res :: Valid(AfterComplete(reg, jobId, res, now))
    ensures forall e :: Valid(AfterFail(reg, jobId, e, now))
    ensures forall p, c, e :: Valid(AfterSubscribe(reg, jobId, p, c, e).1)
    ensures forall sub: Subscription :: sub.jobId == jobId ==> Valid(AfterUnsubscribe(reg, sub))
  {
    if jobId in reg.jobs {
      var j := reg.jobs[jobId];
      forall u | true
        ensures Valid(AfterProgress(reg, jobId, u, now))
      {
        var r := AfterProgress(reg, jobId, u, now);
        EditPreservesValid(reg, jobId, Merged(j, u, now), r.log);
      }
      forall res | true
        ensures Valid(AfterComplete(reg, jobId, res, now))
      {
        var r := AfterComplete(reg, jobId, res, now);
        EditPreservesValid(reg, jobId, r.jobs[jobId], r.log);
      }
      forall e | true
        ensures Valid(AfterFail(reg, jobId, e, now))
      {
        var r := AfterFail(reg, jobId, e, now);
        EditPreservesValid(reg, jobId, r.jobs[jobId], r.log);
      }
      forall p, c, e | true
        ensures Valid(AfterSubscribe(reg, jobId, p, c, e).1)
      {
        var r := AfterSubscribe(reg, jobId, p, c, e).1;
        EditPreservesValid(reg, jobId, r.jobs[jobId], r.log);
      }
      forall sub: Subscription | sub.jobId == jobId
        ensures Valid(AfterUnsubscribe(reg, sub))
      {
        var r := AfterUnsubscribe(reg, sub);
        EditPreservesValid(reg, jobId, r.jobs[jobId], r.log);
      }
    }
  }

  lemma {:induction false} WithoutNoDup(ids: seq<JobId>, gone: set<JobId>)
    requires NoDup(ids)
    ensures NoDup(Without(ids, gone))
    decreases |ids|
  {
    if ids != [] {
      var n := |ids| - 1;
      assert NoDup(ids[..n]);
      WithoutNoDup(ids[..n], gone);
      assert ids[n] !in ids[..n];
    }
  }

  /** Deleting any batch of jobs, as cleanup does, keeps the registry consistent. */
  lemma ReapedValid(reg: Registry, removed: set<JobId>)
    requires Valid(reg)
    ensures Valid(Reaped(reg, removed))
  {
    ReapedJobsFiled(reg, removed);
    ReapedEntriesNonEmpty(reg, removed);
    ReapedEntriesOwned(reg, removed);
    ValidOfParts(Reaped(reg, removed));
  }

  /** The four conditions of `Valid`, each as its own fact. */
  lemma ValidOfParts(r: Registry)
    requires forall id :: id in r.jobs ==> r.jobs[id].id == id && r.jobs[id].userId in r.userJobs && id in r.userJobs[r.jobs[id].userId]
    requires forall u :: u in r.userJobs ==> r.userJobs[u] != [] && NoDup(r.userJobs[u])
    requires forall u, id :: u in r.userJobs && id in r.userJobs[u] ==> id in r.jobs && r.jobs[id].userId == u
    ensures Valid(r)
  {
  }

  lemma ReapedJobsFiled(reg: Registry, removed: set<JobId>)
    requires Valid(reg)
    ensures var r := Reaped(reg, removed);
      forall id :: id in r.jobs ==> r.jobs[id].id == id && r.jobs[id].userId in r.userJobs && id in r.userJobs[r.jobs[id].userId]
  {
    forall id | id in Reaped(reg, removed).jobs
      ensures var r := Reaped(reg, removed);
        r.jobs[id].id == id && r.jobs[id].userId in r.userJobs && id in r.userJobs[r.jobs[id].userId]
    {
      ReapedJobFiled(reg, removed, id);
    }
  }

  lemma ReapedEntriesNonEmpty(reg: Registry, removed: set<JobId>)
    requires Valid(reg)
    ensures var r := Reaped(reg, removed);
      forall u :: u in r.userJobs ==> r.userJobs[u] != [] && NoDup(r.userJobs[u])
  {
    forall u | u in Reaped(reg, removed).userJobs
      ensures Reaped(reg, removed).userJobs[u] != [] && NoDup(Reaped(reg, removed).userJobs[u])
    {
      ReapedEntryNonEmpty(reg, removed, u);
    }
  }

  lemma ReapedEntriesOwned(reg: Registry, removed: set<JobId>)
    requires Valid(reg)
    ensures var r := Reaped(reg, removed);
      forall u, id :: u in r.userJobs && id in r.userJobs[u] ==> id in r.jobs && r.jobs[id].userId == u
  {
    forall u, id | u in Reaped(reg, removed).userJobs && id in Reaped(reg, removed).userJobs[u]
      ensures id in Reaped(reg, removed).jobs && Reaped(reg, removed).jobs[id].userId == u
    {
      ReapedEntryOwned(reg, removed, u, id);
    }
  }

  lemma ReapedJobFiled(reg: Registry, removed: set<JobId>, id: JobId)
    requires Valid(reg) && id in Reaped(reg, removed).jobs
    ensures var r := Reaped(reg, removed);
      r.jobs[id].id == id && r.jobs[id].userId in r.userJobs && id in r.userJobs[r.jobs[id].userId]
  {
    var u := reg.jobs[id].userId;
    assert id in Without(reg.userJobs[u], OwnedIn(reg, removed, u));
  }

  lemma ReapedEntryNonEmpty(reg: Registry, removed: set<JobId>, u: UserId)
    requires Valid(reg) && u in Reaped(reg, removed).userJobs
    ensures Reaped(reg, removed).userJobs[u] != [] && NoDup(Reaped(reg, removed).userJobs[u])
  {
    WithoutNoDup(reg.userJobs[u], OwnedIn(reg, removed, u));
    if OwnedIn(reg, removed, u) == {} {
      WithoutNothing(reg.userJobs[u]);
    }
  }

  /** A consistent registry files under a user only that user's jobs. */
  lemma FiledIsOwned(reg: Registry, u: UserId, id: JobId)
    requires Valid(reg) && u in reg.userJobs && id in reg.userJobs[u]
    ensures id in reg.jobs && reg.jobs[id].userId == u
  {
  }

  lemma ReapedEntryOwned(reg: Registry, removed: set<JobId>, u: UserId, id: JobId)
    requires Valid(reg) && u in Reaped(reg, removed).userJobs && id in Reaped(reg, removed).userJobs[u]
    ensures id in Reaped(reg, removed).jobs && Reaped(reg, removed).jobs[id].userId == u
  {
    var a := OwnedIn(reg, removed, u);
    assert Reaped(reg, removed).userJobs[u] == Without(reg.userJobs[u], a);
    assert id in reg.userJobs[u] && id !in a;
    FiledIsOwned(reg, u, id);
    assert id !in removed;
  }

  lemma CleanupPreservesValid(reg: Registry, now: int)
    requires Valid(reg)
    ensures Valid(AfterCleanup(reg, now))
  {
    ReapedValid(reg, ExpiredIds(reg, now));
  }

  /** The ids of `ids` whose job is pending or running. */
  function ActiveIds(jobs: map<JobId, Job>, ids: seq<JobId>): set<JobId> {
    set id | id in ids && id in jobs && IsActive(jobs[id].status)
  }

  /** One more id: the active jobs and the active ids grow together, or neither does. */
  lemma ActiveStep(jobs: map<JobId, Job>, ids: seq<JobId>)
    requires ids != []
    ensures var n := |ids| - 1; var grows := ids[n] in jobs && IsActive(jobs[ids[n]].status);
      |ActiveJobs(jobs, ids)| == |ActiveJobs(jobs, ids[..n])| + (if grows then 1 else 0) &&
      ActiveIds(jobs, ids) == ActiveIds(jobs, ids[..n]) + (if grows then {ids[n]} else {})
  {
    ActiveJobsStep(jobs, ids);
    ActiveIdsStep(jobs, ids);
  }

  lemma ActiveJobsStep(jobs: map<JobId, Job>, ids: seq<JobId>)
    requires ids != []
    ensures var n := |ids| - 1; var grows := ids[n] in jobs && IsActive(jobs[ids[n]].status);
      |ActiveJobs(jobs, ids)| == |ActiveJobs(jobs, ids[..n])| + (if grows then 1 else 0)
  {
  }

  lemma ActiveIdsStep(jobs: map<JobId, Job>, ids: seq<JobId>)
    requires ids != []
    ensures var n := |ids| - 1; var grows := ids[n] in jobs && IsActive(jobs[ids[n]].status);
      ActiveIds(jobs, ids) == ActiveIds(jobs, ids[..n]) + (if grows then {ids[n]} else {})
  {
    var n := |ids| - 1;
    assert ids == ids[..n] + [ids[n]];
  }

  lemma {:induction false} ActiveJobsCount(jobs: map<JobId, Job>, ids: seq<JobId>)
    requires NoDup(ids)
    ensures |ActiveJobs(jobs, ids)| == |ActiveIds(jobs, ids)|
    decreases |ids|
  {
    if ids != [] {
      var n := |ids| - 1;
      assert NoDup(ids[..n]);
      ActiveJobsCount(jobs, ids[..n]);
      ActiveStep(jobs, ids);
      assert ids[n] !in ids[..n];
      assert ids[n] !in ActiveIds(jobs, ids[..n]);
    }
  }

  /** In a consistent registry the creation check counts exactly the user's pending and running jobs. */
  lemma ActiveCountIsUserActive(reg: Registry, u: UserId)
    requires Valid(reg)
    ensures ActiveCount(reg, u) == |UserActive(reg, u)|
  {
    var ids := UserIds(reg, u);
    if u in reg.userJobs {
      ActiveJobsCount(reg.jobs, ids);
      assert ActiveIds(reg.jobs, ids) == UserActive(reg, u);
    } else {
      assert UserActive(reg, u) == {};
    }
  }

  /**
   * A successful creation adds exactly the new job to the user's active
   * jobs, so a user never has more than two pending or running jobs after
   * a creation.
   */
  lemma CreateAddsOneActive(reg: Registry, userId: UserId, params: JobParams, jobId: JobId, now: int)
    requires Valid(reg) && jobId !in reg.jobs
    requires AfterCreate(reg, userId, params, jobId, now).0.Ok?
    ensures var after := AfterCreate(reg, userId, params, jobId, now).1;
      UserActive(after, userId) == UserActive(reg, userId) + {jobId} && |UserActive(after, userId)| <= 2
  {
    ActiveCountIsUserActive(reg, userId);
    CreateActiveSet(reg, userId, params, jobId, now);
    CardinalityOfFresh(UserActive(reg, userId), jobId);
  }

  lemma CreateActiveSet(reg: Registry, userId: UserId, params: JobParams, jobId: JobId, now: int)
    requires jobId !in reg.jobs
    requires AfterCreate(reg, userId, params, jobId, now).0.Ok?
    ensures UserActive(AfterCreate(reg, userId, params, jobId, now).1, userId) == UserActive(reg, userId) + {jobId}
  {
    var after := AfterCreate(reg, userId, params, jobId, now).1;
    var a := UserActive(reg, userId);
    forall id
      ensures id in UserActive(after, userId) <==> id in a + {jobId}
    {
      if id != jobId && id in reg.jobs {
        assert after.jobs[id] == reg.jobs[id];
      }
    }
  }

  lemma CardinalityOfFresh<T>(a: set<T>, x: T)
    requires x !in a
    ensures |a + {x}| == |a| + 1
  {
  }

  /** Starting from no active jobs, two creations succeed and a third is refused with the limit message. */
  lemma ThirdConcurrentJobRefused(
    reg: Registry, userId: UserId, params: JobParams, id1: JobId, id2: JobId, id3: JobId, t1: int, t2: int, t3: int)
    requires Valid(reg) && UserActive(reg, userId) == {}
    requires id1 !in reg.jobs && id2 !in reg.jobs && id1 != id2
    ensures var (r1, s1) := AfterCreate(reg, userId, params, id1, t1);
      var (r2, s2) := AfterCreate(s1, userId, params, id2, t2);
      var (r3, s3) := AfterCreate(s2, userId, params, id3, t3);
      r1.Ok? && r2.Ok? && r3 == Err(LimitMessage) && s3 == s2
  {
    var s1 := AfterCreate(reg, userId, params, id1, t1).1;
    CreateStep(reg, userId, params, id1, t1);
    assert id2 !in s1.jobs;
    var s2 := AfterCreate(s1, userId, params, id2, t2).1;
    CreateStep(s1, userId, params, id2, t2);
    ActiveCountIsUserActive(s2, userId);
  }

  /** Below the limit a creation under a fresh id succeeds and adds one active job. */
  lemma CreateStep(reg: Registry, userId: UserId, params: JobParams, jobId: JobId, now: int)
    requires Valid(reg) && jobId !in reg.jobs && |UserActive(reg, userId)| < 2
    ensures AfterCreate(reg, userId, params, jobId, now).0.Ok?
    ensures Valid(AfterCreate(reg, userId, params, jobId, now).1)
    ensures |UserActive(AfterCreate(reg, userId, params, jobId, now).1, userId)| == |UserActive(reg, userId)| + 1
    ensures AfterCreate(reg, userId, params, jobId, now).1.jobs.Keys == reg.jobs.Keys + {jobId}
  {
    ActiveCountIsUserActive(reg, userId);
    CreateAddsOneActive(reg, userId, params, jobId, now);
    CreatePreservesValid(reg, userId, params, jobId, now);
    CreateKeys(reg, userId, params, jobId, now);
    CardinalityOfFresh(UserActive(reg, userId), jobId);
  }

  lemma CreateKeys(reg: Registry, userId: UserId, params: JobParams, jobId: JobId, now: int)
    requires AfterCreate(reg, userId, params, jobId, now).0.Ok?
    ensures AfterCreate(reg, userId, params, jobId, now).1.jobs.Keys == reg.jobs.Keys + {jobId}
  {
  }

  /** Completing or failing a job takes it out of its owner's active jobs. */
  lemma FinishingFreesSlot(reg: Registry, jobId: JobId, res: JobResult, e: ErrorValue, now: int)
    requires jobId in reg.jobs
    ensures var u := reg.jobs[jobId].userId;
      && UserActive(AfterComplete(reg, jobId, res, now), u) == UserActive(reg, u) - {jobId}
      && UserActive(AfterFail(reg, jobId, e, now), u) == UserActive(reg, u) - {jobId}
  {
  }

  lemma CreatedNewestFirstIsTotalPreorder()
    ensures TotalPreorder(CreatedNewestFirst())
  {
  }

  /** Jobs looked up by ids without repeats come out without repeats, since each job carries its own id. */
  lemma {:induction false} ExistingJobsDistinct(jobs: map<JobId, Job>, ids: seq<JobId>)
    requires NoDup(ids) && forall id :: id in jobs ==> jobs[id].id == id
    ensures var r := ExistingJobs(jobs, ids);
      (forall k :: 0 <= k < |r| ==> r[k].id in ids) && Distinct(r)
  {
    var r := ExistingJobs(jobs, ids);
    forall k | 0 <= k < |r|
      ensures r[k].id in ids
    {
      assert r[k] in r;
      var id :| id in ids && id in jobs && jobs[id] == r[k];
    }
    if ids != [] {
      var n := |ids| - 1;
      var pre := ExistingJobs(jobs, ids[..n]);
      assert NoDup(ids[..n]);
      ExistingJobsDistinct(jobs, ids[..n]);
      if ids[n] in jobs {
        assert r == pre + [jobs[ids[n]]];
        forall i, k | 0 <= i < k < |r|
          ensures r[i] != r[k]
        {
          if k == |pre| {
            assert r[i] == pre[i] && pre[i].id in ids[..n];
            assert ids[n] !in ids[..n];
          } else {
            assert r[i] == pre[i] && r[k] == pre[k];
          }
        }
      }
    }
  }

  /** `getUserJobs` lists exactly the user's jobs, each once, newest first. */
  lemma UserJobsAreOwnJobsNewestFirst(reg: Registry, u: UserId)
    requires Valid(reg)
    ensures forall j :: j in UserJobs(reg, u) <==> j in reg.jobs.Values && j.userId == u
    ensures forall i, k :: 0 <= i < k < |UserJobs(reg, u)| ==> UserJobs(reg, u)[i] != UserJobs(reg, u)[k]
    ensures forall i, k :: 0 <= i < k < |UserJobs(reg, u)| ==> UserJobs(reg, u)[k].createdAt <= UserJobs(reg, u)[i].createdAt
  {
    var existing := ExistingJobs(reg.jobs, UserIds(reg, u));
    CreatedNewestFirstIsTotalPreorder();
    SortSorted(existing, CreatedNewestFirst());
    ExistingJobsDistinct(reg.jobs, UserIds(reg, u));
    PermutationKeepsDistinct(existing, UserJobs(reg, u));
    var r := UserJobs(reg, u);
    forall j
      ensures j in r <==> j in existing
    {
      assert j in r <==> j in multiset(r);
    }
    forall j | j in reg.jobs.Values && j.userId == u
      ensures j in existing
    {
      var id :| id in reg.jobs && reg.jobs[id] == j;
      assert id in UserIds(reg, u);
    }
  }

  /** Unsubscribing right after subscribing restores the registry. */
  lemma UnsubscribeUndoesSubscribe(reg: Registry, jobId: JobId, p: ListenerId, c: ListenerId, e: ListenerId)
    requires jobId in reg.jobs
    ensures var (sub, after) := AfterSubscribe(reg, jobId, p, c, e);
      sub.Some? && AfterUnsubscribe(after, sub.value) == reg
  {
    var em := reg.jobs[jobId].emitter;
    RemoveLastUndoesAdd(em.progress, p, []);
    RemoveLastUndoesAdd(em.complete, c, []);
    RemoveLastUndoesAdd(em.error, e, []);
    assert em.progress + [p] + [] == em.progress + [p];
    assert em.complete + [c] + [] == em.complete + [c];
    assert em.error + [e] + [] == em.error + [e];
    assert Emitter(em.progress, em.complete, em.error) == em;
  }

  /** A subscriber is among the listeners of the next progress event of its job. */
  lemma SubscriberReceivesProgress(reg: Registry, jobId: JobId, p: ListenerId, c: ListenerId, e: ListenerId, u: Update, now: int)
    requires jobId in reg.jobs
    ensures var after := AfterProgress(AfterSubscribe(reg, jobId, p, c, e).1, jobId, u, now);
      |after.log| == |reg.log| + 1 && p in after.log[|reg.log|].listeners
  {
  }
}
