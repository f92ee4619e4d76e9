/** What the clock and the outside world make of every recording, over whole runs. */
module RecordAnswers {
  import opened Messages
  import opened ObjectKey
  import opened RecordJobs
  import opened RecordWorker
  import opened RecordSystem
  import opened RecordSafety
  import opened RecordPromises

  /** What the goroutine of `id` has seen in a run: the clock and the answers at each of its looks outside. */
  function LooksOf(cfg: Config, steps: seq<Step>, id: string): seq<Look>
    requires Runs(cfg, steps)
  {
    if steps == [] then []
    else
      var before, last := steps[..|steps| - 1], steps[|steps| - 1];
      var s, looks := After(cfg, before), LooksOf(cfg, before, id);
      if last.Work? && last.id == id then LooksAfter(s.workers[id], looks, s.now, last.world) else looks
  }

  predicate FitsAt(naming: Naming, workers: map<string, Worker>, id: string, looks: seq<Look>)
  {
    if id in workers then Fits(naming, workers[id], looks) else looks == []
  }

  lemma StepFits(cfg: Config, s: Sys, step: Step, id: string, looks: seq<Look>)
    requires Inv(cfg, s) && Enabled(s, step) && FitsAt(cfg.worker, s.workers, id, looks)
    ensures FitsAt(cfg.worker, Apply(cfg, s, step).workers, id,
                   if step.Work? && step.id == id then LooksAfter(s.workers[id], looks, s.now, step.world) else looks)
  {
    match step
    case Work(worked, world) => if worked == id { NextFits(cfg.worker, s.workers[id], looks, s.now, world); }
    case Receive(newId) => HiredIsNew(cfg, s, newId);
    case _ =>
  }

  lemma {:induction false} LooksFit(cfg: Config, steps: seq<Step>, id: string)
    requires cfg.limits.maxConcurrentJobs >= 0 && Runs(cfg, steps)
    ensures FitsAt(cfg.worker, After(cfg, steps).workers, id, LooksOf(cfg, steps, id))
    decreases |steps|
  {
    if steps != [] {
      var before := steps[..|steps| - 1];
      LooksFit(cfg, before, id);
      Reachable(cfg, before);
      StepFits(cfg, After(cfg, before), steps[|steps| - 1], id, LooksOf(cfg, before, id));
    }
  }

  /** Nothing went wrong: the document named a bucket and a key, and the three calls after it succeeded. */
  predicate AllWell(naming: Naming, job: Job, looks: seq<Look>)
  {
    && |looks| == 5 && looks[1].world.info(job.mac).Ok?
    && var info := looks[1].world.info(job.mac).value;
       var bucket := naming.bucketOf(info.process);
       var key := Build(info.site, info.group, job.camId, job.recordType, naming.utc(looks[0].now));
       && bucket.Ok? && key.Ok?
       && looks[2].world.fetch(job.camId, WholeSeconds(job.duration), key.value.filename).Ok?
       && looks[3].world.ensure(bucket.value).Ok?
       && looks[4].world.put(bucket.value, key.value.objectKey, CONTENT_TYPE).Ok?
  }

  lemma WellMeansAll(naming: Naming, job: Job, looks: seq<Look>)
    ensures |looks| == 5 ==> (Well(naming, job, looks, 5) <==> AllWell(naming, job, looks))
  {
    if |looks| == 5 {
      assert Well(naming, job, looks, 5) <==>
             && ErrorAt(naming, job, looks, 1).None? && ErrorAt(naming, job, looks, 2).None?
             && ErrorAt(naming, job, looks, 3).None? && ErrorAt(naming, job, looks, 4).None?;
    }
  }

  /** The record of an ended job as its looks tell it: the last one decides, and none before it failed. */
  predicate EndTold(naming: Naming, job: Job, looks: seq<Look>)
  {
    var last := |looks| - 1;
    && 1 <= last <= 4 && Well(naming, job, looks, last)
    && job.startedAt == looks[0].now && job.completedAt == looks[last].now
    && match ErrorAt(naming, job, looks, last)
       case Some(text) =>
         job.status == Failed && job.error == text && (job.bucket, job.objectKey, job.contentType) == ("", "", "")
       case None =>
         && last == 4 && job.status == Completed && job.error == ""
         && job.bucket == BucketFor(naming, job, looks) && job.objectKey == KeyFor(naming, job, looks)
         && job.contentType == "video/mp4"
  }

  /** The record of a job at any time. */
  predicate RecordTold(naming: Naming, job: Job, looks: seq<Look>)
  {
    if IsTerminal(job) then EndTold(naming, job, looks)
    else
      && (job.bucket, job.objectKey, job.contentType, job.error, job.completedAt) == ("", "", "", "", ZERO)
      && if job.status == Accepted then job.startedAt == ZERO else looks != [] && job.startedAt == looks[0].now
  }

  /** Errors, bucket and key depend on what was asked for alone. */
  lemma SameRequest(naming: Naming, a: Job, b: Job, looks: seq<Look>)
    requires (a.id, a.recordType, a.mac, a.camId, a.duration) == (b.id, b.recordType, b.mac, b.camId, b.duration)
    ensures forall k: nat :: k < |looks| ==> ErrorAt(naming, a, looks, k) == ErrorAt(naming, b, looks, k)
    ensures forall n: nat :: Well(naming, a, looks, n) == Well(naming, b, looks, n)
    ensures Well(naming, a, looks, 2) ==>
              && BucketFor(naming, a, looks) == BucketFor(naming, b, looks)
              && KeyFor(naming, a, looks) == KeyFor(naming, b, looks)
    ensures CallsOf(naming, a, looks) == CallsOf(naming, b, looks)
  {
    assert forall k: nat :: k < |looks| ==> ErrorAt(naming, a, looks, k) == ErrorAt(naming, b, looks, k);
  }

  lemma RecordFits(naming: Naming, filed: nat, w: Worker, job: Job, now: Time, looks: seq<Look>)
    requires WellBehaved(naming, w, now) && Fits(naming, w, looks) && filed <= |w.sent|
    requires filed == 0 ==> job == w.job
    requires filed == 1 ==> job == Reported(w.job, w.sent[0])
    requires filed == 2 ==> w.phase == Finished && job == Reported(Reported(w.job, w.sent[0]), w.sent[1])
    ensures RecordTold(naming, job, looks) && CallsOf(naming, job, looks) == w.events
    ensures IsTerminal(job) ==> (job.status == Completed <==> AllWell(naming, job, looks))
  {
    SameRequest(naming, w.job, job, looks);
    WellMeansAll(naming, job, looks);
    if filed == 2 {
      assert Earned(naming, w.job, looks, w.sent[1]);
    }
  }

  /** How many of its goroutine's reports a job's record is made from. */
  lemma ReportsFiled(cfg: Config, s: Sys, id: string) returns (filed: nat)
    requires Inv(cfg, s) && id in s.history
    ensures id in s.workers && WellBehaved(cfg.worker, s.workers[id], s.now) && filed <= |s.workers[id].sent|
    ensures var w := s.workers[id];
            && (filed == 0 ==> s.history[id] == w.job)
            && (filed == 1 ==> s.history[id] == Reported(w.job, w.sent[0]))
            && (filed == 2 ==> w.phase == Finished && s.history[id] == Reported(Reported(w.job, w.sent[0]), w.sent[1]))
    ensures Calls(s.store, id) == s.workers[id].events
  {
    assert MailedAt(s.workers, s.history, s.box, id) && LoggedAt(s.workers, s.store, id);
    Behaves(cfg.worker, s.workers, s.now, id);
    Standing(cfg.worker, Mail(s.box, id), s.workers[id], s.history[id], s.now);
    filed := |s.workers[id].sent| - |Mail(s.box, id)|;
  }

  /**
   * Whatever else runs, the record of a job and its store calls are what the clock and the answers it met make
   * of it: it ends completed exactly if its five looks met no error, and otherwise failed with the first error.
   */
  lemma {:induction false} RecordsAreTold(cfg: Config, steps: seq<Step>, id: string)
    requires cfg.limits.maxConcurrentJobs >= 0 && Runs(cfg, steps) && id in After(cfg, steps).history
    ensures var s, looks := After(cfg, steps), LooksOf(cfg, steps, id);
            && RecordTold(cfg.worker, s.history[id], looks)
            && Calls(s.store, id) == CallsOf(cfg.worker, s.history[id], looks)
            && (IsTerminal(s.history[id]) ==>
                  (s.history[id].status == Completed <==> AllWell(cfg.worker, s.history[id], looks)))
  {
    var s, looks := After(cfg, steps), LooksOf(cfg, steps, id);
    Reachable(cfg, steps);
    var filed := ReportsFiled(cfg, s, id);
    LooksFit(cfg, steps, id);
    RecordFits(cfg.worker, filed, s.workers[id], s.history[id], s.now, looks);
  }
}
