/** The records of the judge (app/models.py) and the two behaviours attached to a
    submission: dispatching it to the evaluation queue, and reading back its progress.
    The Redis server and the rq queue on top of it are modelled by `TaskQueue`. */
module Models {
  import opened Wrappers
  import opened Queries

  /** Instants, as whole numbers of a fixed unit (the source stores naive UTC datetimes). */
  type Time = int

  /** A job handle issued by the queue. rq issues opaque strings; only identity matters here. */
  type JobId = nat

  /** Name of the evaluator entry point every job is enqueued for. */
  const EvaluateTask: string := "server.evaluate_submission"
  /** `1024 ** 2`: bytes per megabyte in the memory-limit conversion. */
  const BytesPerMegabyte: int := 1024 * 1024
  /** Milliseconds per second in the time-limit conversion. */
  const MillisPerSecond: int := 1000
  /** Default of `Submission.progress`, also the fallback for a job that has not reported yet. */
  const DefaultProgress: string := "0/0"
  /** Default of `Submission.status`: not yet evaluated. */
  const NotEvaluated: int := -2
  /** Key of the job metadata entry the evaluator writes its progress to. */
  const ProgressKey: string := "progress"

  /** The start and end columns are nullable; comparing an instant with a missing
      one raises TypeError where the source does it. */
  datatype Contest = Contest(id: nat, title: string, startTime: Option<Time>, endTime: Option<Time>)

  /** `contestId` is None for a practice problem. Limits are in megabytes and seconds;
      like the points, they are nullable columns. */
  datatype Problem = Problem(
    id: nat, contestId: Option<nat>, title: string,
    points: Option<int>, timeLimit: Option<int>, memoryLimit: Option<int>)

  /** Links a contestant to a contest; score and last submission are kept by the evaluator. */
  datatype Registration = Registration(
    id: nat, userId: nat, contestId: nat, score: int, lastSubmission: Option<Time>)

  /** A registration as first stored: column defaults score 0, no last submission. */
  function NewRegistration(id: nat, userId: nat, contestId: nat): Registration
  {
    Registration(id, userId, contestId, 0, None)
  }

  predicate IsRegistrationOf(r: Registration, userId: nat, contestId: nat)
  {
    r.userId == userId && r.contestId == contestId
  }

  predicate IsRegistered(registrations: seq<Registration>, userId: nat, contestId: nat)
  {
    exists i :: 0 <= i < |registrations| && IsRegistrationOf(registrations[i], userId, contestId)
  }

  /** `Registration.query.filter_by(contest_id=…, user_id=…).first()`, as a row index. */
  function RegistrationIndex(registrations: seq<Registration>, userId: nat, contestId: nat): (r: Option<nat>)
    ensures r.Some? ==> r.value < |registrations| && IsRegistrationOf(registrations[r.value], userId, contestId)
    ensures r.Some? ==> forall j :: 0 <= j < r.value ==> !IsRegistrationOf(registrations[j], userId, contestId)
    ensures r.Some? <==> IsRegistered(registrations, userId, contestId)
  {
    FirstWhere(registrations, (reg: Registration) => IsRegistrationOf(reg, userId, contestId))
  }

  function FindRegistration(registrations: seq<Registration>, userId: nat, contestId: nat): Option<Registration>
  {
    match RegistrationIndex(registrations, userId, contestId)
    case Some(i) => Some(registrations[i])
    case None => None
  }

  /** Why `launch_task` raises before or at the enqueue: the problem has no contest
      (`None.id`), a column it computes with is NULL (TypeError), or the enqueue call
      could not reach Redis. */
  datatype LaunchError = ContestMissing | NullColumn | QueueUnavailable

  /** The registration id the evaluator is told to credit: the submitter's first
      registration for the contest, and only when the submission is not later than
      the contest's end. Otherwise the submission is judged but scores nothing. The
      end is compared only when a registration exists, so a contest without an end
      fails only for registered submitters. */
  function ScoringRegistrationId(registrations: seq<Registration>, userId: nat, timestamp: Time, contest: Contest): (r: Result<Option<nat>, LaunchError>)
    ensures r.Err? <==> IsRegistered(registrations, userId, contest.id) && contest.endTime.None?
    ensures r.Err? ==> r.error == NullColumn
    ensures r == Ok(None) <==>
      !IsRegistered(registrations, userId, contest.id) || (contest.endTime.Some? && timestamp > contest.endTime.value)
    ensures r.Ok? && r.value.Some? ==>
      && contest.endTime.Some? && timestamp <= contest.endTime.value
      && exists i :: && 0 <= i < |registrations|
                     && IsRegistrationOf(registrations[i], userId, contest.id)
                     && registrations[i].id == r.value.value
                     && !IsRegistered(registrations[..i], userId, contest.id)
  {
    match FindRegistration(registrations, userId, contest.id)
    case Some(registration) =>
      if contest.endTime.None? then Err(NullColumn)
      else if timestamp <= contest.endTime.value then Ok(Some(registration.id))
      else Ok(None)
    case None => Ok(None)
  }

  /** The positional arguments of the enqueued evaluation job. */
  datatype JobPayload = JobPayload(
    task: string, submissionId: Option<nat>, language: string, code: string,
    memoryBytes: int, timeMillis: int, problemId: nat, registrationId: Option<nat>, points: Option<int>)

  function MegabytesToBytes(megabytes: int): int { megabytes * BytesPerMegabyte }
  function BytesToMegabytes(bytes: int): int { bytes / BytesPerMegabyte }
  function SecondsToMillis(seconds: int): int { seconds * MillisPerSecond }
  function MillisToSeconds(millis: int): int { millis / MillisPerSecond }

  /** The arguments of the enqueue call; multiplying a NULL limit raises TypeError.
      The points are passed as they are, NULL included. */
  function DispatchPayload(submissionId: Option<nat>, language: string, code: string,
                           problem: Problem, registrationId: Option<nat>): Result<JobPayload, LaunchError>
  {
    if problem.memoryLimit.None? || problem.timeLimit.None? then Err(NullColumn)
    else Ok(JobPayload(EvaluateTask, submissionId, language, code,
                       MegabytesToBytes(problem.memoryLimit.value), SecondsToMillis(problem.timeLimit.value),
                       problem.id, registrationId, problem.points))
  }

  /** A job is built exactly when both limits are set, and then the evaluator can
      recover them exactly: the memory limit is a whole number of megabytes and the
      time limit a whole number of seconds; the other fields travel unchanged. */
  lemma {:induction false} PayloadCarriesProblem(submissionId: Option<nat>, language: string, code: string,
                                                  problem: Problem, registrationId: Option<nat>)
    ensures var r := DispatchPayload(submissionId, language, code, problem, registrationId);
      && (r.Ok? <==> problem.memoryLimit.Some? && problem.timeLimit.Some?)
      && (r.Err? ==> r.error == NullColumn)
      && (r.Ok? ==>
           var p := r.value;
           && p.task == EvaluateTask
           && BytesToMegabytes(p.memoryBytes) == problem.memoryLimit.value && p.memoryBytes % BytesPerMegabyte == 0
           && MillisToSeconds(p.timeMillis) == problem.timeLimit.value && p.timeMillis % MillisPerSecond == 0
           && p.problemId == problem.id && p.points == problem.points
           && p.submissionId == submissionId && p.language == language && p.code == code
           && p.registrationId == registrationId)
  {
    if problem.memoryLimit.Some? && problem.timeLimit.Some? {
      var m := problem.memoryLimit.value;
      var t := problem.timeLimit.value;
      assert m * BytesPerMegabyte / BytesPerMegabyte == m;
      assert t * MillisPerSecond / MillisPerSecond == t;
    }
  }

  /** What `launch_task` computes before it enqueues, in the source's order: the
      eligibility test, then the converted limits. */
  function LaunchJob(submissionId: Option<nat>, language: string, code: string, problem: Problem,
                     contest: Contest, registrations: seq<Registration>, userId: nat, timestamp: Time): Result<JobPayload, LaunchError>
  {
    match ScoringRegistrationId(registrations, userId, timestamp, contest)
    case Err(e) => Err(e)
    case Ok(registrationId) => DispatchPayload(submissionId, language, code, problem, registrationId)
  }

  /** A job as held by the store: its handle, its arguments, and the metadata the
      evaluator writes (initially empty). */
  datatype Job = Job(id: JobId, payload: JobPayload, meta: map<string, string>)

  /** What `rq.job.Job.fetch` does: return the job, or raise one of the two errors
      `get_rq_job` catches. */
  datatype FetchOutcome = Fetched(job: Job) | RedisError | NoSuchJobError

  /** The rq queue together with the Redis server holding its jobs. `reachable` is
      whether the server answers; the evaluator's writes to `meta` are not modelled. */
  class TaskQueue {
    var jobs: map<JobId, Job>
    var nextId: JobId
    var reachable: bool

    ghost predicate Valid()
      reads this
    {
      forall id :: id in jobs ==> id < nextId && jobs[id].id == id
    }

    constructor (reachable: bool)
      ensures Valid() && jobs == map[] && this.reachable == reachable
    {
      jobs := map[];
      nextId := 0;
      this.reachable := reachable;
    }

    /** `task_queue.enqueue(...)`: exactly one new job under a handle never issued before. */
    method Enqueue(payload: JobPayload) returns (r: Option<JobId>)
      requires Valid()
      modifies this`jobs, this`nextId
      ensures Valid()
      ensures r.Some? <==> reachable
      ensures r.Some? ==> r.value !in old(jobs) && jobs == old(jobs)[r.value := Job(r.value, payload, map[])]
      ensures r.None? ==> jobs == old(jobs)
    {
      if !reachable {
        return None;
      }
      r := Some(nextId);
      jobs := jobs[nextId := Job(nextId, payload, map[])];
      nextId := nextId + 1;
    }

    /** `rq.job.Job.fetch(task_id, connection=redis)`. A missing handle makes rq
        look up a freshly generated id, which is unknown to the store. */
    function Fetch(taskId: Option<JobId>): (r: FetchOutcome)
      reads this
      ensures r.Fetched? <==> reachable && taskId.Some? && taskId.value in jobs
      ensures r.Fetched? ==> r.job == jobs[taskId.value]
      ensures r == RedisError <==> !reachable
    {
      if !reachable then RedisError
      else if taskId.Some? && taskId.value in jobs then Fetched(jobs[taskId.value])
      else NoSuchJobError
    }
  }

  /** `get_rq_job`: both failures the source catches become None. */
  function RqJob(outcome: FetchOutcome): (r: Option<Job>)
    ensures r.Some? <==> outcome.Fetched?
    ensures r.Some? ==> r.value == outcome.job
  {
    match outcome
    case Fetched(job) => Some(job)
    case RedisError => None
    case NoSuchJobError => None
  }

  /** `get_progress` over the outcome of the fetch: the live value when the job is
      reachable, the stored value otherwise. */
  function ResolveProgress(outcome: FetchOutcome, stored: string): (r: string)
    ensures outcome.Fetched? && ProgressKey in outcome.job.meta ==> r == outcome.job.meta[ProgressKey]
    ensures outcome.Fetched? && ProgressKey !in outcome.job.meta ==> r == DefaultProgress
    ensures outcome == RedisError || outcome == NoSuchJobError ==> r == stored
  {
    match RqJob(outcome)
    case Some(job) => if ProgressKey in job.meta then job.meta[ProgressKey] else DefaultProgress
    case None => stored
  }

  /** A job that was just enqueued (empty metadata) reports the default progress as
      long as the store is reachable, and the stored progress when it is not. */
  lemma FreshJobProgress(queue: TaskQueue, id: JobId, payload: JobPayload, stored: string)
    requires id in queue.jobs && queue.jobs[id] == Job(id, payload, map[])
    ensures queue.reachable ==> ResolveProgress(queue.Fetch(Some(id)), stored) == DefaultProgress
    ensures !queue.reachable ==> ResolveProgress(queue.Fetch(Some(id)), stored) == stored
  {
  }

  /** A submission that was never dispatched reports its stored progress whatever
      the state of the store. */
  lemma UndispatchedProgress(queue: TaskQueue, stored: string)
    ensures ResolveProgress(queue.Fetch(None), stored) == stored
  {
  }

  class Submission {
    /** Primary key, assigned when the row is first committed. */
    var id: Option<nat>
    var userId: nat
    var problemId: nat
    var taskId: Option<JobId>
    var timestamp: Time
    var code: string
    var language: string
    var status: int
    var testcases: Option<string>
    var progress: string

    /** A new, not yet committed submission with the column defaults. */
    constructor (userId: nat, problemId: nat, code: string, language: string, timestamp: Time)
      ensures this.userId == userId && this.problemId == problemId
      ensures this.code == code && this.language == language && this.timestamp == timestamp
      ensures id.None? && taskId.None? && testcases.None?
      ensures status == NotEvaluated && progress == DefaultProgress
    {
      this.userId := userId;
      this.problemId := problemId;
      this.code := code;
      this.language := language;
      this.timestamp := timestamp;
      id := None;
      taskId := None;
      testcases := None;
      status := NotEvaluated;
      progress := DefaultProgress;
    }

    /** `launch_task`: decide whether the submission scores, enqueue exactly one
        evaluation job, and record its handle. `contest` is the problem's contest as
        the ORM resolves it. Only the handle of this submission and the queue change. */
    method LaunchTask(problem: Problem, contest: Option<Contest>, registrations: seq<Registration>,
                      queue: TaskQueue) returns (r: Result<JobId, LaunchError>)
      requires problem.id == problemId
      requires queue.Valid()
      modifies this`taskId, queue`jobs, queue`nextId
      ensures queue.Valid()
      ensures r.Err? ==> taskId == old(taskId) && queue.jobs == old(queue.jobs)
      ensures contest.None? ==> r == Err(ContestMissing)
      ensures contest.Some? ==>
        var job := LaunchJob(id, language, code, problem, contest.value, registrations, userId, timestamp);
        && (job.Err? ==> r == Err(job.error))
        && (job.Ok? && !queue.reachable ==> r == Err(QueueUnavailable))
        && (job.Ok? && queue.reachable ==>
              && r.Ok? && taskId == Some(r.value) && r.value !in old(queue.jobs)
              && queue.jobs == old(queue.jobs)[r.value := Job(r.value, job.value, map[])])
    {
      if contest.None? {
        return Err(ContestMissing);
      }
      var registrationId := ScoringRegistrationId(registrations, userId, timestamp, contest.value);
      if registrationId.Err? {
        return Err(registrationId.error);
      }
      var payload := DispatchPayload(id, language, code, problem, registrationId.value);
      if payload.Err? {
        return Err(payload.error);
      }
      var handle := queue.Enqueue(payload.value);
      if handle.None? {
        return Err(QueueUnavailable);
      }
      taskId := handle;
      r := Ok(handle.value);
    }

    /** `get_progress`: reads the store and the stored progress, writes nothing. */
    method GetProgress(queue: TaskQueue) returns (p: string)
      ensures p == ResolveProgress(queue.Fetch(taskId), progress)
      ensures !queue.reachable ==> p == progress
      ensures taskId.None? ==> p == progress
    {
      p := ResolveProgress(queue.Fetch(taskId), progress);
    }
  }
}
