/** RecordActor: its job table, what one message does to it, and the class that does it in place. */
module RecordJobs {
  import opened Messages

  datatype Status = Accepted | Running | Completed | Failed

  /** The zero `time.Time`; a clock never shows it. */
  const ZERO: Time := 0

  datatype Job = Job(
    id: string,
    status: Status,
    recordType: string,
    mac: string,
    camId: string,
    duration: Duration,
    bucket: string,
    objectKey: string,
    contentType: string,
    startedAt: Time,
    completedAt: Time,
    error: string)

  type Table = map<string, Job>

  /** What the actor's mailbox holds: requests of the HTTP server, and reports of the job goroutines. */
  datatype Letter =
    | StartRecord(recordType: string, mac: string, camId: string, duration: Duration)
    | GetRecordJob(jobId: string)
    | JobRunning(jobId: string, startedAt: Time)
    | JobCompleted(jobId: string, bucket: string, objectKey: string, contentType: string, completedAt: Time)
    | JobFailed(jobId: string, error: string, completedAt: Time)

  /** Responses with their HTTP status; a found job is answered with all of its fields. */
  datatype Reply =
    | Started(code: int, job: Job)
    | Refused(code: int, recordType: string, mac: string, camId: string, duration: Duration, error: string)
    | Found(code: int, job: Job)
    | NotFound(code: int, jobId: string, error: string)

  /** `max_concurrent_jobs`, `job_retention`, and the error of the constructor, empty if there was none. */
  datatype Limits = Limits(maxConcurrentJobs: int, retention: Duration, initError: string)

  /** What one message does: the table after it, the response, and the job given to a new goroutine. */
  datatype Turn = Turn(jobs: Table, reply: Option<Reply>, spawned: Option<Job>)

  predicate IsReport(m: Letter) { m.JobRunning? || m.JobCompleted? || m.JobFailed? }

  predicate IsTerminal(job: Job) { job.status == Completed || job.status == Failed }

  predicate IsActive(job: Job) { job.status == Accepted || job.status == Running }

  predicate Expired(job: Job, now: Time, retention: Duration)
  {
    IsTerminal(job) && job.completedAt != ZERO && now - job.completedAt > retention
  }

  function Prune(jobs: Table, now: Time, retention: Duration): Table
  {
    map id | id in jobs && !Expired(jobs[id], now, retention) :: jobs[id]
  }

  function ActiveIds(jobs: Table): set<string>
  {
    set id | id in jobs && IsActive(jobs[id])
  }

  function Active(jobs: Table): nat { |ActiveIds(jobs)| }

  function NewJob(id: string, m: Letter): Job
    requires m.StartRecord?
  {
    Job(id, Accepted, m.recordType, m.mac, m.camId, m.duration, "", "", "", ZERO, ZERO, "")
  }

  /** A report's effect on the record of its job. */
  function Reported(job: Job, m: Letter): Job
  {
    match m
    case JobRunning(_, startedAt) => job.(status := Running, startedAt := startedAt)
    case JobCompleted(_, bucket, objectKey, contentType, completedAt) =>
      job.(status := Completed, bucket := bucket, objectKey := objectKey, contentType := contentType,
           completedAt := completedAt)
    case JobFailed(_, error, completedAt) => job.(status := Failed, error := error, completedAt := completedAt)
    case _ => job
  }

  function Refusal(code: int, m: Letter, error: string): Reply
    requires m.StartRecord?
  {
    Refused(code, m.recordType, m.mac, m.camId, m.duration, error)
  }

  /** `newId` is what the random job id generator gives this call. */
  function Admit(limits: Limits, jobs: Table, m: Letter, newId: Result<string>): Turn
    requires m.StartRecord?
  {
    if limits.initError != "" then Turn(jobs, Some(Refusal(500, m, limits.initError)), None)
    else if Active(jobs) >= limits.maxConcurrentJobs then
      Turn(jobs, Some(Refusal(429, m, "too many active record jobs")), None)
    else match newId
      case Err(text) => Turn(jobs, Some(Refusal(500, m, text)), None)
      case Ok(id) =>
        var job := NewJob(id, m);
        Turn(jobs[id := job], Some(Started(202, job)), Some(job))
  }

  /** The request is sent back with an error, and no goroutine starts. */
  predicate IsRefusal(m: Letter, code: int, error: string, reply: Option<Reply>, spawned: Option<Job>)
    requires m.StartRecord?
  {
    spawned.None? && reply == Some(Refused(code, m.recordType, m.mac, m.camId, m.duration, error))
  }

  function Lookup(jobs: Table, id: string): Reply
  {
    if id in jobs then Found(200, jobs[id]) else NotFound(404, id, "record job not found")
  }

  /** `Receive`: both requests prune the table first, reports only touch the job they name. */
  function Handle(limits: Limits, jobs: Table, m: Letter, now: Time, newId: Result<string>): Turn
  {
    match m
    case StartRecord(_, _, _, _) => Admit(limits, Prune(jobs, now, limits.retention), m, newId)
    case GetRecordJob(id) =>
      var kept := Prune(jobs, now, limits.retention);
      Turn(kept, Some(Lookup(kept, id)), None)
    case _ => Turn(File(jobs, m), None, None)
  }

  function File(jobs: Table, m: Letter): Table
    requires IsReport(m)
  {
    if m.jobId in jobs then jobs[m.jobId := Reported(jobs[m.jobId], m)] else jobs
  }

  /** The active ones among some ids. */
  ghost function ActiveAmong(jobs: Table, ids: set<string>): nat { |ActiveIds(jobs) * ids| }

  lemma OneIdLess(jobs: Table, ids: set<string>, id: string)
    requires id in ids && ids <= jobs.Keys
    ensures ActiveAmong(jobs, ids) == ActiveAmong(jobs, ids - {id}) + (if IsActive(jobs[id]) then 1 else 0)
  {
    if IsActive(jobs[id]) {
      assert ActiveIds(jobs) * ids == ActiveIds(jobs) * (ids - {id}) + {id};
    } else {
      assert ActiveIds(jobs) * ids == ActiveIds(jobs) * (ids - {id});
    }
  }

  lemma AllIds(jobs: Table)
    ensures ActiveAmong(jobs, {}) == 0 && ActiveAmong(jobs, jobs.Keys) == Active(jobs)
  {
    assert ActiveIds(jobs) * {} == {} && ActiveIds(jobs) * jobs.Keys == ActiveIds(jobs);
  }

  /** The actor itself. */
  class RecordActor {
    const limits: Limits
    var jobs: Table

    constructor (limits: Limits)
      ensures this.limits == limits && jobs == map[]
    {
      this.limits := limits;
      jobs := map[];
    }

    method Receive(m: Letter, now: Time, newId: Result<string>) returns (reply: Option<Reply>, spawned: Option<Job>)
      modifies this
      ensures Turn(jobs, reply, spawned) == Handle(limits, old(jobs), m, now, newId)
    {
      reply, spawned := None, None;
      match m
      case StartRecord(_, _, _, _) =>
        PruneExpiredJobs(now);
        reply, spawned := HandleStartRecord(m, newId);
      case GetRecordJob(_) =>
        PruneExpiredJobs(now);
        reply := HandleGetRecordJob(m);
      case JobRunning(id, startedAt) =>
        if id in jobs {
          var job := jobs[id];
          job := job.(status := Running);
          job := job.(startedAt := startedAt);
          jobs := jobs[id := job];
        }
      case JobCompleted(id, bucket, objectKey, contentType, completedAt) =>
        if id in jobs {
          var job := jobs[id];
          job := job.(status := Completed);
          job := job.(bucket := bucket, objectKey := objectKey, contentType := contentType);
          job := job.(completedAt := completedAt);
          jobs := jobs[id := job];
        }
      case JobFailed(id, error, completedAt) =>
        if id in jobs {
          var job := jobs[id];
          job := job.(status := Failed);
          job := job.(error := error);
          job := job.(completedAt := completedAt);
          jobs := jobs[id := job];
        }
    }

    method HandleStartRecord(m: Letter, newId: Result<string>) returns (reply: Option<Reply>, spawned: Option<Job>)
      requires m.StartRecord?
      modifies this
      ensures Turn(jobs, reply, spawned) == Admit(limits, old(jobs), m, newId)
      ensures var active := set id | id in old(jobs) && old(jobs)[id].status in {Accepted, Running};
              if limits.initError != "" then IsRefusal(m, 500, limits.initError, reply, spawned)
              else if |active| >= limits.maxConcurrentJobs then
                IsRefusal(m, 429, "too many active record jobs", reply, spawned)
              else if newId.Err? then IsRefusal(m, 500, newId.text, reply, spawned)
              else
                && spawned == Some(Job(newId.value, Accepted, m.recordType, m.mac, m.camId, m.duration,
                                       "", "", "", ZERO, ZERO, ""))
                && reply == Some(Started(202, spawned.value))
      ensures jobs == if spawned.Some? then old(jobs)[spawned.value.id := spawned.value] else old(jobs)
    {
      assert (set id | id in jobs && jobs[id].status in {Accepted, Running}) == ActiveIds(jobs);
      spawned := None;
      if limits.initError != "" {
        reply := Some(Refusal(500, m, limits.initError));
        return;
      }
      var active := ActiveRecordJobs();
      if active >= limits.maxConcurrentJobs {
        reply := Some(Refusal(429, m, "too many active record jobs"));
        return;
      }
      match newId
      case Err(text) => reply := Some(Refusal(500, m, text));
      case Ok(id) =>
        var job := NewJob(id, m);
        jobs := jobs[id := job];
        spawned := Some(job);
        reply := Some(Started(202, job));
    }

    method HandleGetRecordJob(m: Letter) returns (reply: Option<Reply>)
      requires m.GetRecordJob?
      ensures reply == Some(Lookup(jobs, m.jobId))
      ensures m.jobId in jobs ==> reply == Some(Found(200, jobs[m.jobId]))
      ensures m.jobId !in jobs ==> reply == Some(NotFound(404, m.jobId, "record job not found"))
    {
      if m.jobId !in jobs {
        reply := Some(NotFound(404, m.jobId, "record job not found"));
        return;
      }
      reply := Some(Found(200, jobs[m.jobId]));
    }

    /** Goes through the table in any order, deleting as it goes. */
    method PruneExpiredJobs(now: Time)
      modifies this
      ensures jobs == Prune(old(jobs), now, limits.retention)
      ensures forall id :: id in jobs <==>
                && id in old(jobs)
                && var job := old(jobs)[id];
                   job.status in {Accepted, Running} || job.completedAt == ZERO
                   || now - job.completedAt <= limits.retention
      ensures forall id :: id in jobs ==> jobs[id] == old(jobs)[id]
    {
      var todo := jobs.Keys;
      while todo != {}
        invariant todo <= jobs.Keys <= old(jobs).Keys
        invariant forall id :: id in jobs ==> jobs[id] == old(jobs)[id]
        invariant forall id :: id in old(jobs) && id !in todo ==>
                    (id in jobs <==> !Expired(old(jobs)[id], now, limits.retention))
        decreases |todo|
      {
        var id :| id in todo;
        todo := todo - {id};
        var job := jobs[id];
        if job.status != Completed && job.status != Failed { continue; }
        if job.completedAt == ZERO { continue; }
        if now - job.completedAt > limits.retention {
          jobs := jobs - {id};
        }
      }
    }

    method ActiveRecordJobs() returns (active: int)
      ensures active == Active(jobs)
    {
      active := 0;
      var table := jobs;
      AllIds(table);
      var todo := table.Keys;
      while todo != {}
        invariant todo <= table.Keys
        invariant active + ActiveAmong(table, todo) == Active(table)
        decreases |todo|
      {
        var id :| id in todo;
        OneIdLess(table, todo, id);
        todo := todo - {id};
        if table[id].status == Accepted || table[id].status == Running {
          active := active + 1;
        }
      }
    }
  }
}
