/** What a summary or a count's result owes to the message that started it, and how long second checks wait. */
module SystemOrigins {
  import opened Messages
  import opened Pipes
  import opened System
  import opened SystemLanes
  import opened SystemSafety
  import CleanerLane
  import CounterLane
  import StreamCleaner
  import StreamCount

  // ---------- the cleaner ----------

  /** The trigger that the cleaner accepted last. */
  function TriggerOf(cfg: Config, steps: seq<Step>): Option<Msg>
    requires Runs(cfg, steps)
  {
    if steps == [] then None
    else
      var before := steps[..|steps| - 1];
      var s := After(cfg, before);
      if steps[|steps| - 1].HandleC? && s.boxC[0].CleanupCycleStarted? && !s.cleaner.running then Some(s.boxC[0])
      else TriggerOf(cfg, before)
  }

  /** A running cycle and a summary carry time and reason of the trigger. */
  predicate Named(trigger: Option<Msg>, cleaner: StreamCleaner.State, log: CleanerLane.Log)
  {
    && (cleaner.running || log.summary.Some? ==> trigger.Some? && trigger.value.CleanupCycleStarted?)
    && (cleaner.running ==> (cleaner.triggeredAt, cleaner.reason) == (trigger.value.at, trigger.value.reason))
    && (log.summary.Some? ==>
          && log.summary.value.CleanupCycleFinished?
          && (log.summary.value.at, log.summary.value.reason) == (trigger.value.at, trigger.value.reason))
  }

  lemma CleanerNames(id: string, delay: Duration, st: StreamCleaner.State, log: CleanerLane.Log, m: Msg,
                     trigger: Option<Msg>)
    requires Named(trigger, st, log)
    ensures var o := StreamCleaner.Handle(id, delay, st, m);
            Named(if m.CleanupCycleStarted? && !st.running then Some(m) else trigger, o.state,
                  CleanerLane.Record(id, log, st, m, o.sends))
  {}

  /** A cycle's summary carries time and reason of the trigger that started it. */
  lemma {:induction false} SummaryNamesItsTrigger(cfg: Config, steps: seq<Step>)
    requires Runs(cfg, steps)
    ensures Named(TriggerOf(cfg, steps), After(cfg, steps).cleaner, After(cfg, steps).cleanerLog)
    decreases |steps|
  {
    if steps != [] {
      var before := steps[..|steps| - 1];
      SummaryNamesItsTrigger(cfg, before);
      var s := After(cfg, before);
      if steps[|steps| - 1].HandleC? {
        CleanerNames(cfg.cleanerId, cfg.delay, s.cleaner, s.cleanerLog, s.boxC[0], TriggerOf(cfg, before));
      }
    }
  }

  // ---------- the counter ----------

  /** The count requests accepted so far, oldest first. */
  function CountsOf(cfg: Config, steps: seq<Step>): seq<Msg>
    requires Runs(cfg, steps)
  {
    if steps == [] then []
    else
      var before := steps[..|steps| - 1];
      var s := After(cfg, before);
      if steps[|steps| - 1].HandleK? && s.boxK[0].CountAliveStreamsStarted? && !s.counter.running then
        CountsOf(cfg, before) + [s.boxK[0]]
      else CountsOf(cfg, before)
  }

  /** The error of the last accepted reply since the last accepted request, empty if it had none. */
  function FailureOf(cfg: Config, steps: seq<Step>): string
    requires Runs(cfg, steps)
  {
    if steps == [] then ""
    else
      var before := steps[..|steps| - 1];
      var s := After(cfg, before);
      if steps[|steps| - 1].HandleK? then FailureAfter(cfg.counterId, FailureOf(cfg, before), s.counter, s.boxK[0])
      else FailureOf(cfg, before)
  }

  function FailureAfter(id: string, failure: string, counter: StreamCount.State, m: Msg): string
  {
    if m.CountAliveStreamsStarted? && !counter.running then ""
    else if CounterLane.Accepts(id, counter, m) then m.error
    else failure
  }

  /** Each result carries the reason of its request, and a result with an error counts nothing. */
  predicate Answered(requests: seq<Msg>, results: seq<Msg>)
  {
    && |results| <= |requests|
    && forall i :: 0 <= i < |results| ==>
         && requests[i].CountAliveStreamsStarted? && results[i].AliveStreamCountCalculated?
         && (results[i].at, results[i].reason) == (requests[i].at, requests[i].reason)
         && (results[i].error != "" ==> results[i].alive == 0)
  }

  predicate Counted(requests: seq<Msg>, failure: string, counter: StreamCount.State, log: CounterLane.Log)
  {
    && Answered(requests, log.results)
    && |requests| == |log.results| + (if counter.running then 1 else 0)
    && (counter.running ==>
          && failure == "" && requests[|log.results|].CountAliveStreamsStarted?
          && (counter.triggeredAt, counter.reason)
             == (requests[|log.results|].at, requests[|log.results|].reason))
    && (log.summary.Some? ==> log.summary.value.AliveStreamCountCalculated? && log.summary.value.error == failure)
  }

  lemma CounterNames(id: string, delay: Duration, st: StreamCount.State, log: CounterLane.Log, m: Msg,
                     requests: seq<Msg>, failure: string)
    requires Counted(requests, failure, st, log)
    ensures var o := StreamCount.Handle(id, delay, st, m);
            Counted(if m.CountAliveStreamsStarted? && !st.running then requests + [m] else requests,
                    FailureAfter(id, failure, st, m), o.state, CounterLane.Record(id, log, st, m, o.sends))
  {}

  /** Every result carries time and reason of its request; its error is that of the last reply of its count. */
  lemma {:induction false} ResultsNameTheirRequests(cfg: Config, steps: seq<Step>)
    requires Runs(cfg, steps)
    ensures Counted(CountsOf(cfg, steps), FailureOf(cfg, steps), After(cfg, steps).counter,
                    After(cfg, steps).counterLog)
    decreases |steps|
  {
    if steps != [] {
      var before := steps[..|steps| - 1];
      ResultsNameTheirRequests(cfg, before);
      var s := After(cfg, before);
      if steps[|steps| - 1].HandleK? {
        CounterNames(cfg.counterId, cfg.delay, s.counter, s.counterLog, s.boxK[0], CountsOf(cfg, before),
                     FailureOf(cfg, before));
      }
    }
  }

  // ---------- second checks ----------

  /** The goroutine that a dead first reply starts: it sends the second check once the delay is over. */
  function Waiting(id: string, delay: Duration, now: Time, m: Msg): Sleeper
    requires m.StreamHealthChecked?
  {
    Sleeper(CheckStreamHealth(m.name, m.at, 2, id, delay), now + delay)
  }

  lemma CleanerSleeps(id: string, delay: Duration, st: StreamCleaner.State, m: Msg)
    ensures StreamCleaner.Handle(id, delay, st, m).sleeps ==
            if CleanerLane.Accepts(id, st, m) && DeadReply(m, 1) then [SecondCheck(id, m)] else []
  {}

  lemma CounterSleeps(id: string, delay: Duration, st: StreamCount.State, m: Msg)
    ensures StreamCount.Handle(id, delay, st, m).sleeps ==
            if CounterLane.Accepts(id, st, m) && DeadReply(m, 1) then [SecondCheck(id, m)] else []
  {}

  lemma CleanerDelay(cfg: CleanerLane.Config, w: CleanerLane.World)
    requires CleanerLane.Shape(cfg, w) && w.pipe.replies != [] && w.pipe.replies[0].StreamHealthChecked?
    ensures w.pipe.replies[0].confirmAfter == cfg.delay
  {
    assert w.pipe.replies[0] in w.pipe.replies;
  }

  lemma CounterDelay(cfg: CounterLane.Config, w: CounterLane.World)
    requires CounterLane.Stamped(cfg, w) && w.pipe.replies != [] && w.pipe.replies[0].StreamHealthChecked?
    ensures w.pipe.replies[0].confirmAfter == cfg.delay
  {
    assert w.pipe.replies[0] in w.pipe.replies;
  }

  lemma SleepersAre(now: Time, sleeps: seq<Msg>, id: string, delay: Duration, m: Msg, dead: bool)
    requires m.StreamHealthChecked? && (dead ==> m.confirmAfter == delay)
    requires sleeps == if dead then [SecondCheck(id, m)] else []
    ensures Sleepers(now, sleeps) == if dead then [Waiting(id, delay, now, m)] else []
  {}

  /** The cleaner starts one waiting goroutine for each dead first reply of its cycle. */
  lemma {:induction false} CleanupChecksWait(cfg: Config, steps: seq<Step>)
    requires cfg.cleanerId != cfg.counterId && Runs(cfg, steps) && Enabled(After(cfg, steps), HandleC)
    requires After(cfg, steps).boxC[0].StreamHealthChecked?
    ensures var s := After(cfg, steps); var m := s.boxC[0];
            Apply(cfg, s, HandleC).sleepC == s.sleepC +
              if CleanerLane.Accepts(cfg.cleanerId, s.cleaner, m) && DeadReply(m, 1)
              then [Waiting(cfg.cleanerId, cfg.delay, s.now, m)] else []
  {
    var s := After(cfg, steps);
    var m := s.boxC[0];
    var dead := CleanerLane.Accepts(cfg.cleanerId, s.cleaner, m) && DeadReply(m, 1);
    CleanerSleeps(cfg.cleanerId, cfg.delay, s.cleaner, m);
    if dead {
      ReachableShape(cfg, steps);
      CleanerHead(cfg, s);
      CleanerDelay(CleanerCfg(cfg), CleanerWorld(cfg, s));
    }
    SleepersAre(s.now, StreamCleaner.Handle(cfg.cleanerId, cfg.delay, s.cleaner, m).sleeps, cfg.cleanerId, cfg.delay,
                m, dead);
  }

  /** So does the counter. */
  lemma {:induction false} CountChecksWait(cfg: Config, steps: seq<Step>)
    requires cfg.cleanerId != cfg.counterId && Runs(cfg, steps) && Enabled(After(cfg, steps), HandleK)
    requires After(cfg, steps).boxK[0].StreamHealthChecked?
    ensures var s := After(cfg, steps); var m := s.boxK[0];
            Apply(cfg, s, HandleK).sleepK == s.sleepK +
              if CounterLane.Accepts(cfg.counterId, s.counter, m) && DeadReply(m, 1)
              then [Waiting(cfg.counterId, cfg.delay, s.now, m)] else []
  {
    var s := After(cfg, steps);
    var m := s.boxK[0];
    var dead := CounterLane.Accepts(cfg.counterId, s.counter, m) && DeadReply(m, 1);
    CounterSleeps(cfg.counterId, cfg.delay, s.counter, m);
    if dead {
      ReachableStamps(cfg, steps);
      CounterHead(cfg, s);
      CounterDelay(CounterCfg(cfg), CounterWorld(cfg, s));
    }
    SleepersAre(s.now, StreamCount.Handle(cfg.counterId, cfg.delay, s.counter, m).sleeps, cfg.counterId, cfg.delay,
                m, dead);
  }

  lemma {:induction false} ReachableStamps(cfg: Config, steps: seq<Step>)
    requires cfg.cleanerId != cfg.counterId && Runs(cfg, steps)
    ensures CounterLane.Stamped(CounterCfg(cfg), CounterWorld(cfg, After(cfg, steps)))
  {
    Reachable(cfg, steps);
  }

  /** A trigger starts a cycle exactly when none is running: nothing of an earlier one is left in the fields. */
  lemma TriggersStartCycles(cfg: Config, s: Sys)
    requires Enabled(s, HandleC) && s.boxC[0].CleanupCycleStarted?
    ensures var s' := Apply(cfg, s, HandleC); var m := s.boxC[0];
            if s.cleaner.running then s' == s.(boxC := s.boxC[1..])
            else
              && s'.cleaner == StreamCleaner.State(map[], true, 0, m.at, m.reason, 0, 0)
              && s'.outC == [ToGo2RTC(FetchStreamList(m.at, cfg.cleanerId))] && s'.sleepC == s.sleepC
  {
    assert s.sleepC + Sleepers(s.now, []) == s.sleepC;
  }

  /** So does a count request. */
  lemma RequestsStartCounts(cfg: Config, s: Sys)
    requires Enabled(s, HandleK) && s.boxK[0].CountAliveStreamsStarted?
    ensures var s' := Apply(cfg, s, HandleK); var m := s.boxK[0];
            if s.counter.running then
              s' == s.(boxK := s.boxK[1..], counterLog := s.counterLog.(requested := s.counterLog.requested + {m.at}))
            else
              && s'.counter == StreamCount.State(map[], true, 0, m.at, m.reason, 0)
              && s'.outK == [ToGo2RTC(FetchStreamList(m.at, cfg.counterId))] && s'.sleepK == s.sleepK
  {
    assert s.sleepK + Sleepers(s.now, []) == s.sleepK;
  }
}
