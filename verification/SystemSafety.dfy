/** What holds in every reachable state of the full system, for every interleaving. */
module SystemSafety {
  import opened Messages
  import opened Sums
  import opened Pipes
  import opened System
  import opened SystemLanes
  import CleanerLane
  import CleanerSafety
  import CounterLane
  import CounterSafety

  ghost predicate Inv(cfg: Config, s: Sys)
  {
    && Addressed(cfg, s)
    && FreshStamps(s)
    && CleanerLane.Inv(CleanerCfg(cfg), CleanerWorld(cfg, s))
    && CounterLane.Inv(CounterCfg(cfg), CounterWorld(cfg, s))
  }

  lemma InitialWorlds(cfg: Config)
    ensures CleanerLane.Initial(CleanerWorld(cfg, INITIAL)) && CounterLane.Initial(CounterWorld(cfg, INITIAL))
  {}

  lemma InitialQueues(cfg: Config)
    ensures Addressed(cfg, INITIAL) && FreshStamps(INITIAL)
  {}

  lemma InitialInv(cfg: Config)
    ensures Inv(cfg, INITIAL)
  {
    InitialWorlds(cfg);
    InitialQueues(cfg);
    CleanerSafety.InitialInv(CleanerCfg(cfg), CleanerWorld(cfg, INITIAL));
    CounterSafety.InitialInv(CounterCfg(cfg), CounterWorld(cfg, INITIAL));
  }

  lemma StepKeepsCleaner(cfg: Config, s: Sys, step: Step)
    requires cfg.cleanerId != cfg.counterId && Addressed(cfg, s) && Enabled(s, step)
    requires CleanerLane.Inv(CleanerCfg(cfg), CleanerWorld(cfg, s))
    ensures CleanerLane.Inv(CleanerCfg(cfg), CleanerWorld(cfg, Apply(cfg, s, step)))
  {
    StepIsCleanerStep(cfg, s, step);
    match CleanerStep(cfg, s, step)
    case None =>
    case Some(own) => CleanerSafety.StepKeeps(CleanerCfg(cfg), CleanerWorld(cfg, s), own);
  }

  lemma StepKeepsCounter(cfg: Config, s: Sys, step: Step)
    requires cfg.cleanerId != cfg.counterId && Addressed(cfg, s) && FreshStamps(s) && Enabled(s, step)
    requires CounterLane.Inv(CounterCfg(cfg), CounterWorld(cfg, s))
    ensures CounterLane.Inv(CounterCfg(cfg), CounterWorld(cfg, Apply(cfg, s, step)))
  {
    StepIsCounterStep(cfg, s, step);
    match CounterStep(cfg, s, step)
    case None =>
    case Some(own) => CounterSafety.StepKeeps(CounterCfg(cfg), CounterWorld(cfg, s), own);
  }

  lemma StepKeeps(cfg: Config, s: Sys, step: Step)
    requires cfg.cleanerId != cfg.counterId && Inv(cfg, s) && Enabled(s, step)
    ensures Inv(cfg, Apply(cfg, s, step))
  {
    StepKeepsAddresses(cfg, s, step);
    StepKeepsStamps(cfg, s, step);
    StepKeepsCleaner(cfg, s, step);
    StepKeepsCounter(cfg, s, step);
  }

  lemma {:induction false} Reachable(cfg: Config, steps: seq<Step>)
    requires cfg.cleanerId != cfg.counterId && Runs(cfg, steps)
    ensures Inv(cfg, After(cfg, steps))
    decreases |steps|
  {
    if steps == [] {
      InitialInv(cfg);
    } else {
      var before, last := steps[..|steps| - 1], steps[|steps| - 1];
      Reachable(cfg, before);
      StepKeeps(cfg, After(cfg, before), last);
    }
  }

  // ---------- non-interference ----------

  /** The cleaner's own part of a run. */
  function CleanerSteps(cfg: Config, steps: seq<Step>): seq<CleanerLane.Step>
    requires Runs(cfg, steps)
    decreases |steps|
  {
    if steps == [] then [] else
    var before := steps[..|steps| - 1];
    CleanerSteps(cfg, before) + (match CleanerStep(cfg, After(cfg, before), steps[|steps| - 1])
                                 case None => []
                                 case Some(own) => [own])
  }

  function CounterSteps(cfg: Config, steps: seq<Step>): seq<CounterLane.Step>
    requires Runs(cfg, steps)
    decreases |steps|
  {
    if steps == [] then [] else
    var before := steps[..|steps| - 1];
    CounterSteps(cfg, before) + (match CounterStep(cfg, After(cfg, before), steps[|steps| - 1])
                                 case None => []
                                 case Some(own) => [own])
  }

  /** The cleaner goes through a run of its lane alone, as if the counter's traffic were not there. */
  lemma {:induction false} CleanerUndisturbed(cfg: Config, steps: seq<Step>)
    requires cfg.cleanerId != cfg.counterId && Runs(cfg, steps)
    ensures var w := CleanerWorld(cfg, INITIAL); var own := CleanerSteps(cfg, steps);
            CleanerLane.Runs(CleanerCfg(cfg), w, own)
            && CleanerLane.After(CleanerCfg(cfg), w, own) == CleanerWorld(cfg, After(cfg, steps))
    decreases |steps|
  {
    if steps != [] {
      var before, last := steps[..|steps| - 1], steps[|steps| - 1];
      CleanerUndisturbed(cfg, before);
      Reachable(cfg, before);
      StepIsCleanerStep(cfg, After(cfg, before), last);
      var own, earlier := CleanerSteps(cfg, steps), CleanerSteps(cfg, before);
      match CleanerStep(cfg, After(cfg, before), last)
      case None => assert own == earlier;
      case Some(step) => assert own[..|own| - 1] == earlier && own[|own| - 1] == step;
    }
  }

  lemma {:induction false} CounterUndisturbed(cfg: Config, steps: seq<Step>)
    requires cfg.cleanerId != cfg.counterId && Runs(cfg, steps)
    ensures var w := CounterWorld(cfg, INITIAL); var own := CounterSteps(cfg, steps);
            CounterLane.Runs(CounterCfg(cfg), w, own)
            && CounterLane.After(CounterCfg(cfg), w, own) == CounterWorld(cfg, After(cfg, steps))
    decreases |steps|
  {
    if steps != [] {
      var before, last := steps[..|steps| - 1], steps[|steps| - 1];
      CounterUndisturbed(cfg, before);
      Reachable(cfg, before);
      StepIsCounterStep(cfg, After(cfg, before), last);
      var own, earlier := CounterSteps(cfg, steps), CounterSteps(cfg, before);
      match CounterStep(cfg, After(cfg, before), last)
      case None => assert own == earlier;
      case Some(step) => assert own[..|own| - 1] == earlier && own[|own| - 1] == step;
    }
  }

  // ---------- conservation of in-flight work ----------

  /** Everything of the cleaner's that is in some mailbox, half-made send or sleeping goroutine. */
  function CleanerInFlight(cfg: Config, s: Sys): nat
  {
    var mine, asked := CleanerReply(cfg.cleanerId), CleanerRequest(cfg.cleanerId);
    |Filter(mine, s.boxC)| + |Filter(mine, CleanerMsgs(s.outM))| + |Filter(mine, s.boxM)| + |Filter(mine, s.outG)|
    + |Filter(asked, s.boxG)| + |Go2RTCMsgs(s.outC)| + |s.sleepC|
  }

  lemma InFlightIsLane(cfg: Config, s: Sys)
    ensures CleanerInFlight(cfg, s) == CleanerLane.InFlight(CleanerWorld(cfg, s).pipe)
  {}

  lemma {:induction false} ReachableShape(cfg: Config, steps: seq<Step>)
    requires cfg.cleanerId != cfg.counterId && Runs(cfg, steps)
    ensures CleanerLane.Shape(CleanerCfg(cfg), CleanerWorld(cfg, After(cfg, steps)))
  {
    Reachable(cfg, steps);
  }

  /** While entries are audited the plain counter equals the work in flight, even with repeated names. */
  lemma {:induction false} OutstandingIsInFlight(cfg: Config, steps: seq<Step>)
    requires cfg.cleanerId != cfg.counterId && Runs(cfg, steps)
    ensures var s := After(cfg, steps);
            s.cleaner.running && s.cleaner.outstanding != 0 ==> s.cleaner.outstanding == CleanerInFlight(cfg, s)
  {
    ReachableShape(cfg, steps);
    InFlightIsLane(cfg, After(cfg, steps));
  }

  /** Between cycles nothing the cleaner could accept is left anywhere, and no suspect either. */
  lemma {:induction false} QuietBetweenCycles(cfg: Config, steps: seq<Step>)
    requires cfg.cleanerId != cfg.counterId && Runs(cfg, steps)
    ensures var s := After(cfg, steps);
            !s.cleaner.running ==>
              CleanerInFlight(cfg, s) == 0 && s.cleaner.pending == map[] && s.cleaner.outstanding == 0
    ensures var log := After(cfg, steps).cleanerLog;
            log.accepted == |log.finished| + log.aborted + (if After(cfg, steps).cleaner.running then 1 else 0)
  {
    Reachable(cfg, steps);
    var w := CleanerWorld(cfg, After(cfg, steps));
    assert CleanerLane.Shape(CleanerCfg(cfg), w) && CleanerLane.CyclesEnd(w);
  }

  /** The guard in `markStreamCompleted` never decides: an accepted reply always finds outstanding work. */
  lemma {:induction false} ClampNeverActs(cfg: Config, steps: seq<Step>)
    requires cfg.cleanerId != cfg.counterId && Runs(cfg, steps) && Enabled(After(cfg, steps), HandleC)
    ensures var s := After(cfg, steps); var m := s.boxC[0];
            CleanerLane.Accepts(cfg.cleanerId, s.cleaner, m) && !m.StreamListFetched? ==> s.cleaner.outstanding > 0
  {
    ReachableShape(cfg, steps);
    var s := After(cfg, steps);
    if CleanerLane.Accepts(cfg.cleanerId, s.cleaner, s.boxC[0]) {
      CleanerHead(cfg, s);
    }
  }

  // ---------- removals ----------

  /** In one cycle a name is removed at most once, and only after two dead replies far enough apart. */
  lemma {:induction false} RemovalsAreSafe(cfg: Config, steps: seq<Step>)
    requires cfg.cleanerId != cfg.counterId && Runs(cfg, steps)
    ensures var log := After(cfg, steps).cleanerLog;
            && Distinct(log.removes)
            && forall x :: x in log.removes ==> CleanerLane.DoubleChecked(CleanerCfg(cfg), log.delivered, x)
  {
    Reachable(cfg, steps);
    var w := CleanerWorld(cfg, After(cfg, steps));
    assert CleanerLane.RemovedOnce(w) && CleanerLane.Evidence(CleanerCfg(cfg), w);
  }

  // ---------- what a cycle reports ----------

  /** The classes an entry can end in, other than alive and removed. */
  function CheckErrors(log: CleanerLane.Log): int { Sum(CleanerLane.AsCheckError(), log.delivered) }
  function NotRemoved(log: CleanerLane.Log): int { Sum(CleanerLane.AsNotRemoved(), log.delivered) }
  function SkippedRepeats(log: CleanerLane.Log): int { Sum(CleanerLane.AsDeadAgain(), log.delivered) - |log.removes| }

  lemma SummaryPartitions(log: CleanerLane.Log, f: Msg)
    requires CleanerLane.SummaryOK(log, f)
    ensures |log.list| == f.alive + f.removedStreams + CheckErrors(log) + NotRemoved(log) + SkippedRepeats(log)
    ensures CheckErrors(log) >= 0 && NotRemoved(log) >= 0 && SkippedRepeats(log) >= 0
    ensures |log.removes| == f.removedStreams + NotRemoved(log)
  {
    SumIsNat(CleanerLane.AsCheckError(), log.delivered);
    SumIsNat(CleanerLane.AsNotRemoved(), log.delivered);
  }

  /** At a cycle's end every entry of its list falls in exactly one class, and the summary reports two of them. */
  lemma {:induction false} OutcomesPartitionTheList(cfg: Config, steps: seq<Step>)
    requires cfg.cleanerId != cfg.counterId && Runs(cfg, steps)
    ensures var log := After(cfg, steps).cleanerLog;
            log.summary.Some? ==>
              var f := log.summary.value;
              && f.CleanupCycleFinished?
              && f.alive == Sum(CleanerLane.AsAlive(), log.delivered)
              && f.removedStreams == Sum(CleanerLane.AsRemoved(), log.delivered)
              && |log.list| == f.alive + f.removedStreams + CheckErrors(log) + NotRemoved(log) + SkippedRepeats(log)
              && CheckErrors(log) >= 0 && NotRemoved(log) >= 0 && SkippedRepeats(log) >= 0
              && f.alive + f.removedStreams <= |log.list|
              && |log.removes| == f.removedStreams + NotRemoved(log)
  {
    Reachable(cfg, steps);
    var w := CleanerWorld(cfg, After(cfg, steps));
    assert CleanerLane.Tallied(w);
    if w.log.summary.Some? {
      SummaryPartitions(w.log, w.log.summary.value);
    }
  }

  // ---------- the counter ----------

  /** The counter's own work: messages and sleepers stamped with the running run's time. */
  function CounterInFlight(cfg: Config, s: Sys): int
  {
    Total(Everywhere(CounterLane.ChecksOf(s.counter.triggeredAt)), CounterWorld(cfg, s).pipe)
  }

  /** Whatever abandoned runs left in flight, `outstanding` counts the running run's own work. */
  lemma {:induction false} CounterCountsItsOwn(cfg: Config, steps: seq<Step>)
    requires cfg.cleanerId != cfg.counterId && Runs(cfg, steps)
    ensures var s := After(cfg, steps);
            && (s.counter.running ==> s.counter.outstanding == CounterInFlight(cfg, s))
            && (!s.counter.running ==> s.counter.outstanding == 0 && s.counter.pending == map[])
  {
    Reachable(cfg, steps);
    assert CounterLane.OwnWork(CounterWorld(cfg, After(cfg, steps)));
  }

  /** Each accepted count request, in order, gets one result with its stamp; only a running one has none yet. */
  lemma {:induction false} OneResultPerCount(cfg: Config, steps: seq<Step>)
    requires cfg.cleanerId != cfg.counterId && Runs(cfg, steps)
    ensures var s := After(cfg, steps); var log := s.counterLog;
            && |log.accepted| == |log.results| + (if s.counter.running then 1 else 0)
            && forall i :: 0 <= i < |log.results| ==>
                 log.results[i].AliveStreamCountCalculated? && log.results[i].at == log.accepted[i]
  {
    Reachable(cfg, steps);
    assert CounterLane.OneResultEach(CounterWorld(cfg, After(cfg, steps)));
  }

  lemma StaleReplyIsIgnored(cfg: Config, s: Sys)
    requires Enabled(s, HandleK) && CounterReply(cfg.counterId)(s.boxK[0])
    requires !s.counter.running || s.boxK[0].at != s.counter.triggeredAt
    ensures Apply(cfg, s, HandleK) == s.(boxK := s.boxK[1..])
  {
    assert s.sleepK + Sleepers(s.now, []) == s.sleepK;
  }

  lemma StaleReplyIsNotOwn(cfg: Config, s: Sys)
    requires Enabled(s, HandleK) && CounterReply(cfg.counterId)(s.boxK[0])
    requires s.boxK[0].at != s.counter.triggeredAt
    ensures CounterInFlight(cfg, s.(boxK := s.boxK[1..])) == CounterInFlight(cfg, s)
  {
    CounterHead(cfg, s);
    TotalTake(Everywhere(CounterLane.ChecksOf(s.counter.triggeredAt)), CounterWorld(cfg, s).pipe);
  }

  /** No two accepted requests carry the same stamp. */
  ghost predicate AcceptedOnce(log: CounterLane.Log)
  {
    Distinct(log.accepted) && forall t :: t in log.accepted ==> t in log.requested
  }

  lemma StepKeepsAcceptedOnce(cfg: Config, s: Sys, step: Step)
    requires FreshStamps(s) && Enabled(s, step) && AcceptedOnce(s.counterLog)
    ensures AcceptedOnce(Apply(cfg, s, step).counterLog)
  {
    if step.HandleK? && s.boxK[0].CountAliveStreamsStarted? {
      NextStampIsFresh(s);
    }
  }

  lemma {:induction false} RequestsAreAcceptedOnce(cfg: Config, steps: seq<Step>)
    requires cfg.cleanerId != cfg.counterId && Runs(cfg, steps)
    ensures AcceptedOnce(After(cfg, steps).counterLog)
    decreases |steps|
  {
    if steps != [] {
      var before := steps[..|steps| - 1];
      RequestsAreAcceptedOnce(cfg, before);
      Reachable(cfg, before);
      StepKeepsAcceptedOnce(cfg, After(cfg, before), steps[|steps| - 1]);
    }
  }

  /** The stamp of a count that has its result is never that of a running count. */
  lemma {:induction false} EarlierStampIsStale(cfg: Config, steps: seq<Step>, i: nat)
    requires cfg.cleanerId != cfg.counterId && Runs(cfg, steps) && i < |After(cfg, steps).counterLog.results|
    ensures var s := After(cfg, steps);
            && i < |s.counterLog.accepted|
            && (s.counter.running ==> s.counterLog.accepted[i] != s.counter.triggeredAt)
  {
    RequestsAreAcceptedOnce(cfg, steps);
    Reachable(cfg, steps);
    assert CounterLane.OneResultEach(CounterWorld(cfg, After(cfg, steps)));
  }

  /** A reply of a count that already has its result changes neither the counter nor a running count's own work. */
  lemma {:induction false} StaleRepliesChangeNothing(cfg: Config, steps: seq<Step>, i: nat)
    requires cfg.cleanerId != cfg.counterId && Runs(cfg, steps) && Enabled(After(cfg, steps), HandleK)
    requires i < |After(cfg, steps).counterLog.results| && i < |After(cfg, steps).counterLog.accepted|
    requires var s := After(cfg, steps);
             CounterReply(cfg.counterId)(s.boxK[0]) && s.boxK[0].at == s.counterLog.accepted[i]
    ensures var s := After(cfg, steps); var s' := Apply(cfg, s, HandleK);
            && s' == s.(boxK := s.boxK[1..])
            && (s.counter.running ==> CounterInFlight(cfg, s') == CounterInFlight(cfg, s) == s.counter.outstanding)
  {
    EarlierStampIsStale(cfg, steps, i);
    CounterCountsItsOwn(cfg, steps);
    var s := After(cfg, steps);
    StaleReplyIsIgnored(cfg, s);
    if s.counter.running {
      StaleReplyIsNotOwn(cfg, s);
    }
  }
}
