/** What each message of RecordActor comes to, told from the jobs ever admitted and not from its pruned table. */
module RecordRequests {
  import opened Messages
  import opened RecordJobs
  import opened RecordWorker
  import opened RecordSystem
  import opened RecordSafety
  import opened RecordPromises

  /** A job that is kept: it has not ended, or not for longer than the retention time. */
  predicate Kept(job: Job, now: Time, retention: Duration)
  {
    job.status == Accepted || job.status == Running || now - job.completedAt <= retention
  }

  /** An ended job always carries the time of its end, so the test for a zero time never saves one. */
  lemma KeptIsNotExpired(cfg: Config, s: Sys, id: string)
    requires Inv(cfg, s) && id in s.history
    ensures Kept(s.history[id], s.now, cfg.limits.retention) <==>
            !Expired(s.history[id], s.now, cfg.limits.retention)
  {
    if IsTerminal(s.history[id]) {
      EndOf(cfg, s, id);
    }
  }

  lemma AllKeptOrExpired(cfg: Config, s: Sys)
    requires Inv(cfg, s)
    ensures forall id :: id in s.history ==>
              (Kept(s.history[id], s.now, cfg.limits.retention) <==>
               !Expired(s.history[id], s.now, cfg.limits.retention))
  {
    forall id | id in s.history
      ensures Kept(s.history[id], s.now, cfg.limits.retention) <==>
              !Expired(s.history[id], s.now, cfg.limits.retention)
    {
      KeptIsNotExpired(cfg, s, id);
    }
  }

  /** The end of a job can be read for the whole retention time and no longer; an active job always can. */
  lemma {:induction false} JobsStayReadable(cfg: Config, steps: seq<Step>, id: string)
    requires cfg.limits.maxConcurrentJobs >= 0 && Runs(cfg, steps)
    ensures var s := After(cfg, steps);
            Lookup(Prune(s.jobs, s.now, cfg.limits.retention), id) ==
            if id in s.history && Kept(s.history[id], s.now, cfg.limits.retention) then Found(200, s.history[id])
            else NotFound(404, id, "record job not found")
  {
    Reachable(cfg, steps);
    AllKeptOrExpired(cfg, After(cfg, steps));
  }

  /** The state before and after the actor has handled a message: what no message touches. */
  predicate Handled(s: Sys, s': Sys, replies: seq<Reply>)
    requires s.box != []
  {
    && s'.box == s.box[1..] && s'.replies == s.replies + replies
    && s'.store == s.store && s'.now == s.now
  }

  /** A status request is answered with the job's record as long as the job is kept, and changes no record. */
  lemma {:induction false} QueriesAreAnswered(cfg: Config, steps: seq<Step>, newId: Result<string>)
    requires cfg.limits.maxConcurrentJobs >= 0 && Runs(cfg, steps) && Enabled(After(cfg, steps), Receive(newId))
    requires After(cfg, steps).box[0].GetRecordJob?
    ensures var s := After(cfg, steps); var s' := Apply(cfg, s, Receive(newId)); var id := s.box[0].jobId;
            && s'.history == s.history && s'.workers == s.workers
            && Handled(s, s', [if id in s.history && Kept(s.history[id], s.now, cfg.limits.retention)
                               then Found(200, s.history[id]) else NotFound(404, id, "record job not found")])
  {
    JobsStayReadable(cfg, steps, After(cfg, steps).box[0].jobId);
  }

  /** A recording is refused, with everything asked for sent back, and no job comes of it. */
  predicate IsRefused(s: Sys, s': Sys, code: int, error: string)
    requires s.box != [] && s.box[0].StartRecord?
  {
    var m := s.box[0];
    && s'.history == s.history && s'.workers == s.workers
    && Handled(s, s', [Refused(code, m.recordType, m.mac, m.camId, m.duration, error)])
  }

  /** A recording is admitted: a job with just the request in it, and a goroutine that starts on it. */
  predicate IsAdmitted(s: Sys, s': Sys, id: string)
    requires s.box != [] && s.box[0].StartRecord?
  {
    var m := s.box[0];
    var job := Job(id, Accepted, m.recordType, m.mac, m.camId, m.duration, "", "", "", ZERO, ZERO, "");
    && id !in s.history && s'.history == s.history[id := job]
    && id !in s.workers && s'.workers == s.workers[id := Worker(job, Start, [], [], None)]
    && Handled(s, s', [Started(202, job)])
  }

  /** What becomes of a recording that is asked for. */
  predicate Decided(cfg: Config, s: Sys, s': Sys, newId: Result<string>)
    requires s.box != [] && s.box[0].StartRecord?
  {
    var active := set id | id in s.history && s.history[id].status in {Accepted, Running};
    if cfg.limits.initError != "" then IsRefused(s, s', 500, cfg.limits.initError)
    else if |active| >= cfg.limits.maxConcurrentJobs then IsRefused(s, s', 429, "too many active record jobs")
    else match newId
      case Err(text) => IsRefused(s, s', 500, text)
      case Ok(id) => IsAdmitted(s, s', id)
  }

  lemma DecidedByTurn(cfg: Config, s: Sys, newId: Result<string>)
    requires Enabled(s, Receive(newId)) && s.box[0].StartRecord? && (newId.Ok? ==> newId.value !in s.workers)
    requires var ideal := Ideal(cfg.limits, s.history, s.box[0], s.now, newId);
             var turn := Handle(cfg.limits, s.jobs, s.box[0], s.now, newId);
             turn.reply == ideal.reply && turn.spawned == ideal.spawned
    ensures Decided(cfg, s, Apply(cfg, s, Receive(newId)), newId)
  {
    assert (set id | id in s.history && s.history[id].status in {Accepted, Running}) == ActiveIds(s.history);
  }

  /** A recording is admitted exactly when fewer jobs than the maximum have not ended, expired ones never counting. */
  lemma {:induction false} AdmissionIsExact(cfg: Config, steps: seq<Step>, newId: Result<string>)
    requires cfg.limits.maxConcurrentJobs >= 0 && Runs(cfg, steps) && Enabled(After(cfg, steps), Receive(newId))
    requires After(cfg, steps).box[0].StartRecord?
    ensures Decided(cfg, After(cfg, steps), Apply(cfg, After(cfg, steps), Receive(newId)), newId)
  {
    var s := After(cfg, steps);
    Reachable(cfg, steps);
    SameTurn(cfg.limits, s.jobs, s.history, s.box[0], s.now, newId);
    if newId.Ok? {
      assert MailedAt(s.workers, s.history, s.box, newId.value);
    }
    DecidedByTurn(cfg, s, newId);
  }

  lemma RequestPrunes(limits: Limits, jobs: Table, history: Table, m: Letter, now: Time, newId: Result<string>)
    requires !IsReport(m) && Prune(jobs, now, limits.retention) == Prune(history, now, limits.retention)
    requires Active(Prune(jobs, now, limits.retention)) == Active(history)
    requires forall id :: id in history ==>
               (Kept(history[id], now, limits.retention) <==> !Expired(history[id], now, limits.retention))
    ensures var after, all := Handle(limits, jobs, m, now, newId).jobs, Ideal(limits, history, m, now, newId).jobs;
            && (forall id :: id in after <==> id in all && Kept(all[id], now, limits.retention))
            && forall id :: id in after ==> after[id] == all[id]
  {}

  /** After either request the table holds exactly the jobs that are kept, each as the history has it. */
  lemma {:induction false} RequestsPrune(cfg: Config, steps: seq<Step>, newId: Result<string>)
    requires cfg.limits.maxConcurrentJobs >= 0 && Runs(cfg, steps) && Enabled(After(cfg, steps), Receive(newId))
    requires !IsReport(After(cfg, steps).box[0])
    ensures var s' := Apply(cfg, After(cfg, steps), Receive(newId));
            && (forall id :: id in s'.jobs <==>
                  id in s'.history && Kept(s'.history[id], s'.now, cfg.limits.retention))
            && forall id :: id in s'.jobs ==> s'.jobs[id] == s'.history[id]
  {
    var s := After(cfg, steps);
    Reachable(cfg, steps);
    AllKeptOrExpired(cfg, s);
    PruneRemembers(cfg.limits, s.jobs, s.history, s.now);
    SameActive(cfg.limits, Prune(s.jobs, s.now, cfg.limits.retention), s.history, s.now);
    RequestPrunes(cfg.limits, s.jobs, s.history, s.box[0], s.now, newId);
  }

  /** A report changes the record of the job it names, in table and history alike, and nothing else. */
  lemma {:induction false} ReportsTouchOneJob(cfg: Config, steps: seq<Step>, newId: Result<string>)
    requires cfg.limits.maxConcurrentJobs >= 0 && Runs(cfg, steps) && Enabled(After(cfg, steps), Receive(newId))
    requires IsReport(After(cfg, steps).box[0])
    ensures var s := After(cfg, steps); var s' := Apply(cfg, s, Receive(newId)); var id := s.box[0].jobId;
            && Handled(s, s', []) && s'.workers == s.workers && id in s.jobs && id in s.history
            && s'.history == s.history[id := Reported(s.history[id], s.box[0])]
            && s'.jobs == s.jobs[id := Reported(s.history[id], s.box[0])]
  {
    Reachable(cfg, steps);
    ReportFindsItsJob(cfg, After(cfg, steps));
  }
}
