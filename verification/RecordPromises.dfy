/** What recording promises over whole runs. */
module RecordPromises {
  import opened Messages
  import opened ObjectKey
  import opened RecordJobs
  import opened RecordWorker
  import opened RecordSystem
  import opened RecordSafety

  // ---------- the worker bound ----------

  /** Jobs whose goroutine has not sent its last report. */
  function Unfinished(s: Sys): set<string>
  {
    set id | id in s.workers && s.workers[id].phase != Finished
  }

  lemma {:induction false} SubsetIsSmaller<T>(a: set<T>, b: set<T>)
    requires a <= b
    ensures |a| <= |b|
    decreases |a|
  {
    if a != {} {
      var x :| x in a;
      SubsetIsSmaller(a - {x}, b - {x});
    }
  }

  lemma UnfinishedIsActive(cfg: Config, s: Sys, id: string)
    requires Inv(cfg, s) && id in Unfinished(s)
    ensures id in ActiveIds(s.jobs)
  {
    Behaves(cfg.worker, s.workers, s.now, id);
    assert MailedAt(s.workers, s.history, s.box, id);
    Standing(cfg.worker, Mail(s.box, id), s.workers[id], s.history[id], s.now);
  }

  /** Goroutines still at work never outnumber the active jobs of the table, nor these the configured maximum. */
  lemma {:induction false} WorkersAreBounded(cfg: Config, steps: seq<Step>)
    requires cfg.limits.maxConcurrentJobs >= 0 && Runs(cfg, steps)
    ensures var s := After(cfg, steps);
            && Unfinished(s) <= ActiveIds(s.jobs)
            && |Unfinished(s)| <= Active(s.jobs) <= cfg.limits.maxConcurrentJobs
  {
    Reachable(cfg, steps);
    var s := After(cfg, steps);
    forall id | id in Unfinished(s) ensures id in ActiveIds(s.jobs) {
      UnfinishedIsActive(cfg, s, id);
    }
    SubsetIsSmaller(Unfinished(s), ActiveIds(s.jobs));
    SameActive(cfg.limits, s.jobs, s.history, s.now);
  }

  // ---------- pruning cannot be seen ----------

  /** The actor that prunes answers every request as the one that never does. */
  lemma {:induction false} AnswersAgree(cfg: Config, steps: seq<Step>)
    requires cfg.limits.maxConcurrentJobs >= 0 && Runs(cfg, steps)
    ensures After(cfg, steps).replies == After(cfg, steps).expected
    decreases |steps|
  {
    if steps != [] {
      var before, last := steps[..|steps| - 1], steps[|steps| - 1];
      AnswersAgree(cfg, before);
      Reachable(cfg, before);
      var s := After(cfg, before);
      match last
      case Receive(newId) =>
        if IsReport(s.box[0]) { ReportFindsItsJob(cfg, s); }
        SameTurn(cfg.limits, s.jobs, s.history, s.box[0], s.now, newId);
      case _ =>
    }
  }

  /** At any moment the table is the history up to expired jobs, and after a request it is exactly that. */
  lemma {:induction false} TableIsLiveHistory(cfg: Config, steps: seq<Step>)
    requires cfg.limits.maxConcurrentJobs >= 0 && Runs(cfg, steps)
    ensures var s := After(cfg, steps); var retention := cfg.limits.retention;
            && Prune(s.jobs, s.now, retention) == Prune(s.history, s.now, retention)
            && Active(s.jobs) == Active(s.history)
            && forall newId :: Enabled(s, Receive(newId)) && s.box[0].GetRecordJob? ==>
                 Apply(cfg, s, Receive(newId)).jobs == Prune(s.history, s.now, retention)
  {
    Reachable(cfg, steps);
    var s := After(cfg, steps);
    PruneRemembers(cfg.limits, s.jobs, s.history, s.now);
    SameActive(cfg.limits, s.jobs, s.history, s.now);
  }

  // ---------- the life of a job ----------

  function Rank(status: Status): nat
  {
    match status
    case Accepted => 0
    case Running => 1
    case Completed => 2
    case Failed => 2
  }

  /** A later record of the same job: the request stays, the status moves on, and an end is final. */
  predicate Forward(a: Job, b: Job)
  {
    && (b.id, b.recordType, b.mac, b.camId, b.duration) == (a.id, a.recordType, a.mac, a.camId, a.duration)
    && Rank(a.status) <= Rank(b.status)
    && (a.status != Accepted ==> b.startedAt == a.startedAt)
    && (IsTerminal(a) ==> b == a)
  }

  ghost predicate AllForward(before: Table, after: Table)
  {
    forall id :: id in before ==> id in after && Forward(before[id], after[id])
  }

  /** The next report of a job is `running` for an accepted job, and an end for a running one. */
  lemma ReportIsNext(cfg: Config, s: Sys)
    requires Inv(cfg, s) && s.box != [] && IsReport(s.box[0])
    ensures var m := s.box[0]; m.jobId in s.history && Forward(s.history[m.jobId], Reported(s.history[m.jobId], m))
    ensures var m := s.box[0]; s.history[m.jobId].status == (if m.JobRunning? then Accepted else Running)
  {
    var m := s.box[0];
    ReportFindsItsJob(cfg, s);
    MailHead(s.box, m.jobId);
    assert MailedAt(s.workers, s.history, s.box, m.jobId);
    Behaves(cfg.worker, s.workers, s.now, m.jobId);
    var w, mail := s.workers[m.jobId], Mail(s.box, m.jobId);
    Standing(cfg.worker, mail, w, s.history[m.jobId], s.now);
    assert m == mail[0] == w.sent[|w.sent| - |mail|];
  }

  lemma StepMovesForward(cfg: Config, s: Sys, step: Step)
    requires Inv(cfg, s) && Enabled(s, step)
    ensures AllForward(s.history, Apply(cfg, s, step).history)
  {
    if step.Receive? && IsReport(s.box[0]) {
      ReportIsNext(cfg, s);
      FilingMovesForward(s.history, s.box[0]);
    } else {
      OthersStay(cfg, s, step);
    }
  }

  lemma OthersStay(cfg: Config, s: Sys, step: Step)
    requires Enabled(s, step) && !(step.Receive? && IsReport(s.box[0]))
    ensures AllForward(s.history, Apply(cfg, s, step).history)
  {}

  lemma FilingMovesForward(history: Table, m: Letter)
    requires IsReport(m) && m.jobId in history && Forward(history[m.jobId], Reported(history[m.jobId], m))
    ensures AllForward(history, File(history, m))
  {}

  /** From any point of a run to any later one. */
  lemma {:induction false} HistoryMovesForward(cfg: Config, steps: seq<Step>, k: nat)
    requires cfg.limits.maxConcurrentJobs >= 0 && Runs(cfg, steps) && k <= |steps|
    ensures Runs(cfg, steps[..k]) && AllForward(After(cfg, steps[..k]).history, After(cfg, steps).history)
    decreases |steps|
  {
    if k == |steps| {
      assert steps[..k] == steps;
    } else {
      var before := steps[..|steps| - 1];
      HistoryMovesForward(cfg, before, k);
      assert before[..k] == steps[..k];
      Reachable(cfg, before);
      StepMovesForward(cfg, After(cfg, before), steps[|steps| - 1]);
    }
  }

  /** So it is in the table itself, which only loses jobs that have expired. */
  lemma {:induction false} JobsMoveForward(cfg: Config, steps: seq<Step>, k: nat, id: string)
    requires cfg.limits.maxConcurrentJobs >= 0 && Runs(cfg, steps) && k <= |steps|
    ensures Runs(cfg, steps[..k])
    ensures var earlier, later := After(cfg, steps[..k]), After(cfg, steps);
            && (id in earlier.jobs && id in later.jobs ==> Forward(earlier.jobs[id], later.jobs[id]))
            && (id in earlier.jobs && id !in later.jobs ==>
                  && id in later.history && Forward(earlier.jobs[id], later.history[id])
                  && Expired(later.history[id], later.now, cfg.limits.retention))
  {
    HistoryMovesForward(cfg, steps, k);
    Reachable(cfg, steps[..k]);
    Reachable(cfg, steps);
  }

  predicate Gone(s: Sys, id: string) { id in s.history && id !in s.jobs }

  lemma GoneStaysGone(cfg: Config, s: Sys, step: Step, id: string)
    requires Enabled(s, step) && Gone(s, id)
    ensures Gone(Apply(cfg, s, step), id)
  {}

  /** A job that was pruned never comes back. */
  lemma {:induction false} PrunedStaysGone(cfg: Config, steps: seq<Step>, k: nat, id: string)
    requires cfg.limits.maxConcurrentJobs >= 0 && Runs(cfg, steps) && k <= |steps|
    ensures Runs(cfg, steps[..k])
    ensures Gone(After(cfg, steps[..k]), id) ==> Gone(After(cfg, steps), id)
    decreases |steps|
  {
    if k == |steps| {
      assert steps[..k] == steps;
    } else {
      var before := steps[..|steps| - 1];
      assert before[..k] == steps[..k];
      PrunedStaysGone(cfg, before, k, id);
      if Gone(After(cfg, before), id) {
        GoneStaysGone(cfg, After(cfg, before), steps[|steps| - 1], id);
      }
    }
  }

  /** A goroutine reports `running` once, then exactly one end, and is finished with it. */
  lemma {:induction false} OneEndPerJob(cfg: Config, steps: seq<Step>, id: string)
    requires cfg.limits.maxConcurrentJobs >= 0 && Runs(cfg, steps) && id in After(cfg, steps).workers
    ensures var w := After(cfg, steps).workers[id];
            && |w.sent| <= 2
            && (|w.sent| >= 1 ==> w.sent[0].JobRunning? && w.sent[0].jobId == id)
            && (|w.sent| == 2 ==> (w.sent[1].JobCompleted? || w.sent[1].JobFailed?) && w.sent[1].jobId == id)
            && (w.phase == Finished <==> |w.sent| == 2)
  {
    Reachable(cfg, steps);
    Behaves(cfg.worker, After(cfg, steps).workers, After(cfg, steps).now, id);
  }

  function StepsOf(steps: seq<Step>, id: string): nat
  {
    if steps == [] then 0
    else StepsOf(steps[..|steps| - 1], id) + (if steps[|steps| - 1].Work? && steps[|steps| - 1].id == id then 1 else 0)
  }

  /** Whatever the world answers, a goroutine ends after at most seven steps of its own. */
  lemma {:induction false} GoroutinesEnd(cfg: Config, steps: seq<Step>, id: string)
    requires cfg.limits.maxConcurrentJobs >= 0 && Runs(cfg, steps)
    ensures StepsOf(steps, id) + MayStillTake(After(cfg, steps), id) <= 7
    decreases |steps|
  {
    if steps != [] {
      var before, last := steps[..|steps| - 1], steps[|steps| - 1];
      GoroutinesEnd(cfg, before, id);
      Reachable(cfg, before);
      StepsAreUsedUp(cfg, After(cfg, before), last, id);
    }
  }

  function MayStillTake(s: Sys, id: string): nat
  {
    if id in s.workers then StepsLeft(s.workers[id]) else 7
  }

  lemma StepsAreUsedUp(cfg: Config, s: Sys, step: Step, id: string)
    requires Inv(cfg, s) && Enabled(s, step)
    ensures MayStillTake(Apply(cfg, s, step), id) + (if step.Work? && step.id == id then 1 else 0)
            <= MayStillTake(s, id)
  {
    if step.Work? {
      Behaves(cfg.worker, s.workers, s.now, step.id);
      NextAppends(cfg.worker, s.workers[step.id], s.now, step.world);
    } else if step.Receive? {
      HiredIsNew(cfg, s, step.newId);
    }
  }

  lemma HiredIsNew(cfg: Config, s: Sys, newId: Result<string>)
    requires Inv(cfg, s) && Enabled(s, Receive(newId))
    ensures forall id :: id in s.workers ==>
              var s' := Apply(cfg, s, Receive(newId)); id in s'.workers && s'.workers[id] == s.workers[id]
  {
    if newId.Ok? {
      assert MailedAt(s.workers, s.history, s.box, newId.value);
    }
  }

  // ---------- what an end means ----------

  /** The last report an ended job's record was made from. */
  lemma EndOf(cfg: Config, s: Sys, id: string)
    requires Inv(cfg, s) && id in s.history && IsTerminal(s.history[id])
    ensures id in s.workers && s.workers[id].job.id == id && WellBehaved(cfg.worker, s.workers[id], s.now)
    ensures var w := s.workers[id];
            w.phase == Finished && s.history[id] == Reported(Reported(w.job, w.sent[0]), w.sent[1])
    ensures Calls(s.store, id) == s.workers[id].events
  {
    assert MailedAt(s.workers, s.history, s.box, id);
    assert LoggedAt(s.workers, s.store, id);
    Behaves(cfg.worker, s.workers, s.now, id);
    Standing(cfg.worker, Mail(s.box, id), s.workers[id], s.history[id], s.now);
  }

  /** A completed job: its bucket was ensured, then one object was put there under the recorded key. */
  predicate TrulyCompleted(naming: Naming, w: Worker, job: Job, calls: seq<Event>)
  {
    && calls == [Ensured(job.id, job.bucket), Stored(job.id, job.bucket, job.objectKey, CONTENT_TYPE)]
    && job.contentType == CONTENT_TYPE && job.error == "" && ZERO < job.startedAt && ZERO < job.completedAt
    && Derived(naming, w, job.startedAt, job.bucket, job.objectKey)
    && w.job.camId == job.camId && w.job.recordType == job.recordType
  }

  /** A failed job has put no object, and says why it failed. */
  predicate TrulyFailed(job: Job, calls: seq<Event>)
  {
    job.error != "" && job.objectKey == "" && forall e :: e in calls ==> e.Ensured?
  }

  lemma EndIsTrue(naming: Naming, w: Worker, job: Job, now: Time)
    requires WellBehaved(naming, w, now) && w.phase == Finished
    requires job == Reported(Reported(w.job, w.sent[0]), w.sent[1])
    ensures job.status == Completed ==> TrulyCompleted(naming, w, job, w.events)
    ensures job.status == Failed ==> TrulyFailed(job, w.events)
  {}

  /** Bucket and key of a completed job come from the document looked up for it and its recorded start. */
  lemma {:induction false} EndsAreTrue(cfg: Config, steps: seq<Step>, id: string)
    requires cfg.limits.maxConcurrentJobs >= 0 && Runs(cfg, steps) && id in After(cfg, steps).history
    ensures var s := After(cfg, steps); var job := s.history[id];
            && id in s.workers && job.id == id
            && (job.status == Completed ==> TrulyCompleted(cfg.worker, s.workers[id], job, Calls(s.store, id)))
            && (job.status == Failed ==> TrulyFailed(job, Calls(s.store, id)))
  {
    Reachable(cfg, steps);
    var s := After(cfg, steps);
    assert MailedAt(s.workers, s.history, s.box, id);
    Behaves(cfg.worker, s.workers, s.now, id);
    Standing(cfg.worker, Mail(s.box, id), s.workers[id], s.history[id], s.now);
    if IsTerminal(s.history[id]) {
      EndOf(cfg, s, id);
      EndIsTrue(cfg.worker, s.workers[id], s.history[id], s.now);
    }
  }

  /** The key of a completed job tells camera, type and start of its recording. */
  lemma {:induction false} KeysTellTheRecording(cfg: Config, steps: seq<Step>, id: string)
    requires cfg.limits.maxConcurrentJobs >= 0 && Runs(cfg, steps) && id in After(cfg, steps).history
    requires var job := After(cfg, steps).history[id];
             job.status == Completed && job.recordType in ["UI", "BODYCAM"]
    ensures var s := After(cfg, steps); var job := s.history[id];
            && id in s.workers && s.workers[id].info.Some?
            && var info := s.workers[id].info.value;
               && Build(info.site, info.group, job.camId, job.recordType, cfg.worker.utc(job.startedAt)).Ok?
               && var parts := Sources(info.site, info.group, job.camId, job.recordType, cfg.worker.utc(job.startedAt));
                  Parse(job.objectKey) == Some(parts) <==> KeptByJoin(parts.site, parts.group)
  {
    var s := After(cfg, steps);
    var job := s.history[id];
    EndsAreTrue(cfg, steps, id);
    var info := s.workers[id].info.value;
    assert job.recordType == "UI" || job.recordType == "BODYCAM";
    KeyRoundTrip(info.site, info.group, job.camId, job.recordType, cfg.worker.utc(job.startedAt));
  }
}
