/**
 * The full system under scripted answers: whatever the mailboxes, sends and sleepers interleave to, a
 * cleanup cycle reports the sequential audit of its list, a count reports it too, and the two agree.
 */
module SystemSchedule {
  import opened Messages
  import opened Sums
  import opened Audit
  import opened System
  import opened SystemLanes
  import opened SystemSafety
  import CleanerLane
  import CleanerSchedule
  import CounterLane
  import CounterSchedule

  predicate AsksForCleaner(cfg: Config, s: Sys, step: Step)
    requires Enabled(s, step)
  {
    step.HandleG? && CleanerRequest(cfg.cleanerId)(s.boxG[0])
  }

  predicate AsksForRunningCount(cfg: Config, s: Sys, step: Step)
    requires Enabled(s, step)
  {
    step.HandleG? && CounterRequest(cfg.counterId)(s.boxG[0])
    && s.counter.running && s.boxG[0].at == s.counter.triggeredAt
  }

  /** Since the cleaner last accepted a trigger, go2rtc answered each of its requests by the script. */
  predicate CleanupFollows(cfg: Config, script: Script, steps: seq<Step>)
    requires Runs(cfg, steps)
    decreases |steps|
  {
    CleanerLane.Fetching(CleanerWorld(cfg, After(cfg, steps))) ||
    (steps != [] &&
     var before, last := steps[..|steps| - 1], steps[|steps| - 1];
     var s := After(cfg, before);
     && CleanupFollows(cfg, script, before)
     && (AsksForCleaner(cfg, s, last) ==> Follows(script, s.boxG[0], last.outside)))
  }

  /** Since the counter last accepted a request, go2rtc answered that run's requests by the script. */
  predicate CountFollows(cfg: Config, script: Script, steps: seq<Step>)
    requires Runs(cfg, steps)
    decreases |steps|
  {
    CounterLane.Fetching(CounterWorld(cfg, After(cfg, steps))) ||
    (steps != [] &&
     var before, last := steps[..|steps| - 1], steps[|steps| - 1];
     var s := After(cfg, before);
     && CountFollows(cfg, script, before)
     && (AsksForRunningCount(cfg, s, last) ==> Follows(script, s.boxG[0], last.outside)))
  }

  lemma {:induction false} CleanupAccounted(cfg: Config, script: Script, steps: seq<Step>)
    requires cfg.cleanerId != cfg.counterId && Runs(cfg, steps) && CleanupFollows(cfg, script, steps)
    ensures CleanerSchedule.Accounted(script, CleanerWorld(cfg, After(cfg, steps)))
    decreases |steps|
  {
    Reachable(cfg, steps);
    var w' := CleanerWorld(cfg, After(cfg, steps));
    if CleanerLane.Fetching(w') {
      assert CleanerLane.Tallied(w');
    } else {
      var before, last := steps[..|steps| - 1], steps[|steps| - 1];
      var s := After(cfg, before);
      Reachable(cfg, before);
      CleanupAccounted(cfg, script, before);
      CleanerAccountStep(cfg, script, s, last);
    }
  }

  lemma CleanerAccountStep(cfg: Config, script: Script, s: Sys, step: Step)
    requires cfg.cleanerId != cfg.counterId && Addressed(cfg, s) && Enabled(s, step)
    requires CleanerLane.Inv(CleanerCfg(cfg), CleanerWorld(cfg, s))
    requires CleanerSchedule.Accounted(script, CleanerWorld(cfg, s))
    requires AsksForCleaner(cfg, s, step) ==> Follows(script, s.boxG[0], step.outside)
    ensures CleanerSchedule.Accounted(script, CleanerWorld(cfg, Apply(cfg, s, step)))
  {
    StepIsCleanerStep(cfg, s, step);
    match CleanerStep(cfg, s, step)
    case None =>
    case Some(own) =>
      if step.HandleG? { Go2RTCServesCleaner(cfg, s, step.outside); }
      CleanerSchedule.StepKeepsAccount(CleanerCfg(cfg), script, CleanerWorld(cfg, s), own);
  }

  lemma {:induction false} CountAccounted(cfg: Config, script: Script, steps: seq<Step>)
    requires cfg.cleanerId != cfg.counterId && Runs(cfg, steps) && CountFollows(cfg, script, steps)
    ensures CounterSchedule.Accounted(script, CounterWorld(cfg, After(cfg, steps)))
    decreases |steps|
  {
    Reachable(cfg, steps);
    var w' := CounterWorld(cfg, After(cfg, steps));
    if CounterLane.Fetching(w') {
      assert CounterLane.OwnWork(w');
    } else {
      var before, last := steps[..|steps| - 1], steps[|steps| - 1];
      var s := After(cfg, before);
      Reachable(cfg, before);
      CountAccounted(cfg, script, before);
      CounterAccountStep(cfg, script, s, last);
    }
  }

  lemma CounterAccountStep(cfg: Config, script: Script, s: Sys, step: Step)
    requires cfg.cleanerId != cfg.counterId && Addressed(cfg, s) && FreshStamps(s) && Enabled(s, step)
    requires CounterLane.Inv(CounterCfg(cfg), CounterWorld(cfg, s))
    requires CounterSchedule.Accounted(script, CounterWorld(cfg, s))
    requires AsksForRunningCount(cfg, s, step) ==> Follows(script, s.boxG[0], step.outside)
    ensures CounterSchedule.Accounted(script, CounterWorld(cfg, Apply(cfg, s, step)))
  {
    StepIsCounterStep(cfg, s, step);
    match CounterStep(cfg, s, step)
    case None =>
    case Some(own) =>
      if step.HandleG? { Go2RTCServesCounter(cfg, s, step.outside); }
      CounterSchedule.StepKeepsAccount(CounterCfg(cfg), script, CounterWorld(cfg, s), own);
  }

  predicate CleanupMatches(script: Script, log: CleanerLane.Log)
  {
    log.summary.Some? ==>
      && log.summary.value.CleanupCycleFinished?
      && log.summary.value.alive == AliveEntries(script, log.list)
      && log.summary.value.removedStreams == RemovedStreams(script, log.list)
      && multiset(log.removes) == multiset(Doomed(script, log.list))
  }

  /**
   * Schedule independence of a cleanup: its summary, and the streams it asked to remove, are those of
   * the sequential two-pass audit of the fetched list, repeated names included.
   */
  lemma {:induction false} CleanupReportsTheAudit(cfg: Config, script: Script, steps: seq<Step>)
    requires cfg.cleanerId != cfg.counterId && Runs(cfg, steps) && CleanupFollows(cfg, script, steps)
    ensures CleanupMatches(script, After(cfg, steps).cleanerLog)
  {
    CleanupAccounted(cfg, script, steps);
    var log := After(cfg, steps).cleanerLog;
    if log.summary.Some? {
      DoomedMembers(script, log.list);
      CleanerSchedule.SameMultiset(log.removes, Doomed(script, log.list));
    }
  }

  predicate CountMatches(script: Script, log: CounterLane.Log)
  {
    log.summary.Some? ==>
      && log.summary.value.AliveStreamCountCalculated?
      && (log.summary.value.error == "" <==> !log.listFailed && FailedEntries(script, log.list) == 0)
      && (log.summary.value.error == "" ==> log.summary.value.alive == AliveEntries(script, log.list))
  }

  /** A count fails exactly when the list or a deciding check fails; otherwise it reports the audit. */
  lemma {:induction false} CountReportsTheAudit(cfg: Config, script: Script, steps: seq<Step>)
    requires cfg.cleanerId != cfg.counterId && Runs(cfg, steps) && CountFollows(cfg, script, steps)
    ensures CountMatches(script, After(cfg, steps).counterLog)
  {
    CountAccounted(cfg, script, steps);
  }

  /** A cleanup and a count of the same list under the same answers agree, in one run or in two. */
  lemma {:induction false} CleanupAndCountAgree(cfg: Config, script: Script, steps1: seq<Step>, steps2: seq<Step>)
    requires cfg.cleanerId != cfg.counterId
    requires Runs(cfg, steps1) && CleanupFollows(cfg, script, steps1)
    requires Runs(cfg, steps2) && CountFollows(cfg, script, steps2)
    ensures var log1, log2 := After(cfg, steps1).cleanerLog, After(cfg, steps2).counterLog;
            log1.summary.Some? && log2.summary.Some? && log1.list == log2.list ==>
              && log1.summary.value.CleanupCycleFinished? && log2.summary.value.AliveStreamCountCalculated?
              && (log2.summary.value.error == "" ==> log1.summary.value.alive == log2.summary.value.alive)
              && (ErrorFree(script) && !log2.listFailed ==> log2.summary.value.error == "")
  {
    CleanupReportsTheAudit(cfg, script, steps1);
    CountReportsTheAudit(cfg, script, steps2);
    if ErrorFree(script) {
      var list := After(cfg, steps2).counterLog.list;
      CounterSchedule.SelectNone(list, Fails(script, 1));
      CounterSchedule.SelectNone(Suspects(script, list), Fails(script, 2));
    }
  }
}
