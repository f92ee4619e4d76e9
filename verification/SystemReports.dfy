/** Whatever the list and the answers, some run reports a cycle and a count of them. */
module SystemReports {
  import opened Messages
  import opened Pipes
  import opened Audit
  import opened System
  import opened SystemLanes
  import opened SystemSafety
  import opened SystemSchedule
  import opened SystemEnding
  import Go2RTC
  import Master
  import CleanerLane
  import CleanerSafety
  import CounterLane
  import CounterSafety

  // ---------- the list that is reported ----------

  /** Every list on its way back is `streams`. */
  ghost predicate ListsAre(replies: seq<Msg>, streams: seq<string>)
  {
    forall m :: m in replies && m.StreamListFetched? ==> m.error == "" && m.streams == streams
  }

  /** The list that the cleaner audits, or has reported on, is `streams`. */
  ghost predicate CleanerKnows(w: CleanerLane.World, streams: seq<string>)
  {
    && ListsAre(w.pipe.replies, streams)
    && (!CleanerLane.Fetching(w) ==> w.log.list == streams)
    && (!w.actor.running ==> w.log.summary.Some?)
  }

  ghost predicate CounterKnows(w: CounterLane.World, streams: seq<string>)
  {
    && ListsAre(w.pipe.replies, streams)
    && (!CounterLane.Fetching(w) ==> w.log.list == streams && !w.log.listFailed)
    && (!w.actor.running ==> w.log.summary.Some?)
  }

  lemma AnswersAre(p: Pipe, now: Time, outside: Go2RTC.Outside, streams: seq<string>)
    requires p.requests != [] && Go2RTC.IsRequest(p.requests[0]) && ListsAre(p.replies, streams)
    requires p.requests[0].FetchStreamList? ==> outside.list == Ok(streams)
    ensures ListsAre(Serve(p, Go2RTC.Answer(p.requests[0], now, outside)).replies, streams)
  {}

  lemma DeliveryKnows(cfg: CleanerLane.Config, w: CleanerLane.World, streams: seq<string>)
    requires CleanerLane.Shape(cfg, w) && CleanerLane.Enabled(w, CleanerLane.Deliver) && CleanerKnows(w, streams)
    ensures CleanerKnows(CleanerLane.Apply(cfg, w, CleanerLane.Deliver), streams)
  {
    assert w.pipe.replies[0] in w.pipe.replies;
    if CleanerLane.Fetching(w) {
      CleanerSafety.ListDeliveryIs(cfg, w);
    } else {
      CleanerSafety.DeliveryIs(cfg, w);
      assert forall m :: m in Take(w.pipe).replies ==> m in w.pipe.replies;
    }
  }

  lemma CleanerKeepsKnowing(cfg: CleanerLane.Config, w: CleanerLane.World, step: CleanerLane.Step, streams: seq<string>)
    requires CleanerLane.Inv(cfg, w) && CleanerLane.Enabled(w, step) && CleanerKnows(w, streams)
    requires step.Serve? && w.pipe.requests[0].FetchStreamList? ==> step.outside.list == Ok(streams)
    ensures CleanerKnows(CleanerLane.Apply(cfg, w, step), streams)
  {
    if step.Start? {
      CleanerSafety.StartKeeps(cfg, w, step.at, step.reason);
    } else if step.Deliver? {
      DeliveryKnows(cfg, w, streams);
    } else if step.Serve? {
      AnswersAre(w.pipe, w.now, step.outside, streams);
    }
  }

  lemma CounterDeliveryKnows(cfg: CounterLane.Config, w: CounterLane.World, streams: seq<string>)
    requires CounterLane.Stamped(cfg, w) && CounterLane.OwnWork(w) && CounterLane.Enabled(w, CounterLane.Deliver)
    requires CounterKnows(w, streams)
    ensures CounterKnows(CounterLane.Apply(cfg, w, CounterLane.Deliver), streams)
  {
    var m := w.pipe.replies[0];
    assert m in w.pipe.replies;
    assert forall r :: r in Take(w.pipe).replies ==> r in w.pipe.replies;
    if !CounterLane.Accepts(cfg.self, w.actor, m) {
      CounterSafety.StaleDeliveryIs(cfg, w);
    } else {
      CounterSafety.AcceptedFits(cfg, w);
      if m.StreamListFetched? {
        CounterSafety.ListDeliveryIs(cfg, w);
      } else {
        CounterSafety.CheckDeliveryIs(cfg, w);
      }
    }
  }

  lemma CounterKeepsKnowing(cfg: CounterLane.Config, w: CounterLane.World, step: CounterLane.Step, streams: seq<string>)
    requires CounterLane.Inv(cfg, w) && CounterLane.Enabled(w, step) && CounterKnows(w, streams)
    requires step.Serve? && w.pipe.requests[0].FetchStreamList? ==> step.outside.list == Ok(streams)
    ensures CounterKnows(CounterLane.Apply(cfg, w, step), streams)
  {
    if step.Start? {
      CounterSafety.StartIs(cfg, w, step.at, step.reason);
    } else if step.Deliver? {
      CounterDeliveryKnows(cfg, w, streams);
    } else if step.Serve? {
      AnswersAre(w.pipe, w.now, step.outside, streams);
    }
  }

  ghost predicate Knows(cfg: Config, s: Sys, streams: seq<string>)
  {
    CleanerKnows(CleanerWorld(cfg, s), streams) && CounterKnows(CounterWorld(cfg, s), streams)
  }

  lemma StepKeepsKnowing(cfg: Config, s: Sys, step: Step, streams: seq<string>)
    requires cfg.cleanerId != cfg.counterId && Inv(cfg, s) && Enabled(s, step) && Knows(cfg, s, streams)
    requires step.HandleG? ==> step.outside.list == Ok(streams)
    ensures Knows(cfg, Apply(cfg, s, step), streams)
  {
    StepKeepsCleanerKnowing(cfg, s, step, streams);
    StepKeepsCounterKnowing(cfg, s, step, streams);
  }

  lemma StepKeepsCleanerKnowing(cfg: Config, s: Sys, step: Step, streams: seq<string>)
    requires cfg.cleanerId != cfg.counterId && Addressed(cfg, s) && Enabled(s, step)
    requires CleanerLane.Inv(CleanerCfg(cfg), CleanerWorld(cfg, s)) && CleanerKnows(CleanerWorld(cfg, s), streams)
    requires step.HandleG? ==> step.outside.list == Ok(streams)
    ensures CleanerKnows(CleanerWorld(cfg, Apply(cfg, s, step)), streams)
  {
    StepIsCleanerStep(cfg, s, step);
    match CleanerStep(cfg, s, step)
    case None =>
    case Some(own) => CleanerKeepsKnowing(CleanerCfg(cfg), CleanerWorld(cfg, s), own, streams);
  }

  lemma StepKeepsCounterKnowing(cfg: Config, s: Sys, step: Step, streams: seq<string>)
    requires cfg.cleanerId != cfg.counterId && Addressed(cfg, s) && FreshStamps(s) && Enabled(s, step)
    requires CounterLane.Inv(CounterCfg(cfg), CounterWorld(cfg, s)) && CounterKnows(CounterWorld(cfg, s), streams)
    requires step.HandleG? ==> step.outside.list == Ok(streams)
    ensures CounterKnows(CounterWorld(cfg, Apply(cfg, s, step)), streams)
  {
    StepIsCounterStep(cfg, s, step);
    match CounterStep(cfg, s, step)
    case None =>
    case Some(own) => CounterKeepsKnowing(CounterCfg(cfg), CounterWorld(cfg, s), own, streams);
  }

  lemma {:induction false} KeepsKnowing(cfg: Config, script: Script, streams: seq<string>, steps: seq<Step>, k: nat)
    requires cfg.cleanerId != cfg.counterId && Runs(cfg, steps) && k <= |steps|
    requires PlaysOut(cfg, script, Ok(streams), steps, k)
    ensures Runs(cfg, steps[..k])
    ensures Knows(cfg, After(cfg, steps[..k]), streams) ==> Knows(cfg, After(cfg, steps), streams)
    decreases |steps|
  {
    if |steps| == k {
      assert steps[..k] == steps;
    } else {
      var before, last := steps[..|steps| - 1], steps[|steps| - 1];
      KeepsKnowing(cfg, script, streams, before, k);
      assert before[..k] == steps[..k];
      if Knows(cfg, After(cfg, before), streams) {
        Reachable(cfg, before);
        StepKeepsKnowing(cfg, After(cfg, before), last, streams);
      }
    }
  }

  // ---------- a cycle and a count begin ----------

  const DAILY := "scheduled"

  /** A message for one of the two protocol actors leaves the master's history as it was. */
  lemma MasterForwardsOne(cfg: Config, s: Sys, d: Master.Destination)
    requires |s.boxM| == 1 && s.outM == [] && !s.boxM[0].CleanupCycleFinished?
    requires Master.Handle(s.boxM[0], s.now) == [d] && (d.ToCleaner? || d.ToCounter?)
    ensures Apply(cfg, s, HandleM) == s.(boxM := [], outM := [d])
  {
    var sends := [d];
    var rest := sends[1..];
    assert rest == [] && ActionMsgs(sends) == ActionMsgs(rest) && RedisMsgs(sends) == RedisMsgs(rest);
    assert s.actions + [] == s.actions && s.redis + [] == s.redis && s.summaries + [] == s.summaries;
  }

  /** A trigger passes through the master to an idle cleaner. */
  lemma TriggerPasses(cfg: Config, s: Sys)
    requires s.boxM == [] && s.outM == [] && s.boxC == []
    ensures var a := Apply(cfg, s, Trigger(DAILY));
            && Enabled(a, HandleM) && Enabled(Apply(cfg, a, HandleM), FlushM)
            && Apply(cfg, Apply(cfg, a, HandleM), FlushM) == s.(boxC := [CleanupCycleStarted(s.now, DAILY)])
  {
    var a := Apply(cfg, s, Trigger(DAILY));
    assert a == s.(boxM := [TriggerCleanup(DAILY)]);
    MasterForwardsOne(cfg, a, Master.ToCleaner(CleanupCycleStarted(s.now, DAILY)));
  }

  lemma CleanerTakes(cfg: Config, s: Sys, at: Time)
    requires s.boxC == [CleanupCycleStarted(at, DAILY)] && s.outC == [] && !s.cleaner.running
    ensures Enabled(s, HandleC)
    ensures var t := Apply(cfg, s, HandleC);
            && t == s.(boxC := [], cleaner := t.cleaner, outC := t.outC, cleanerLog := t.cleanerLog)
            && t.cleaner.running && t.cleaner.outstanding == 0
  {
    assert s.sleepC + Sleepers(s.now, []) == s.sleepC;
  }

  /** A trigger goes through an idle system until the cleaner has asked for the list. */
  lemma {:induction false} CycleStarts(cfg: Config, steps: seq<Step>) returns (next: seq<Step>)
    requires Runs(cfg, steps) && Settled(After(cfg, steps)) && !After(cfg, steps).cleaner.running
    ensures Runs(cfg, next) && |steps| <= |next| && next[..|steps|] == steps
    ensures var s, t := After(cfg, steps), After(cfg, next);
            && t == s.(cleaner := t.cleaner, outC := t.outC, cleanerLog := t.cleanerLog)
            && t.cleaner.running && t.cleaner.outstanding == 0
  {
    var s := After(cfg, steps);
    TriggerPasses(cfg, s);
    CleanerTakes(cfg, s.(boxC := [CleanupCycleStarted(s.now, DAILY)]), s.now);
    Extended(cfg, steps, Trigger(DAILY));
    Extended(cfg, steps + [Trigger(DAILY)], HandleM);
    Extended(cfg, steps + [Trigger(DAILY)] + [HandleM], FlushM);
    Extended(cfg, steps + [Trigger(DAILY)] + [HandleM] + [FlushM], HandleC);
    next := steps + [Trigger(DAILY)] + [HandleM] + [FlushM] + [HandleC];
  }

  lemma {:induction false} NewStamp(stamps: set<Time>) returns (at: Time)
    ensures at !in stamps && forall t :: t in stamps ==> t < at
    decreases |stamps|
  {
    at := 0;
    if t: Time :| t in stamps {
      var other := NewStamp(stamps - {t});
      at := if t < other then other else t + 1;
      assert forall u :: u in stamps ==> u == t || u in stamps - {t};
    }
  }

  lemma RequestPasses(cfg: Config, s: Sys, at: Time)
    requires s.boxM == [] && s.outM == [] && s.boxK == [] && at !in s.countStamps
    ensures Enabled(s, CountTrigger(at, false))
    ensures var a := Apply(cfg, s, CountTrigger(at, false));
            && Enabled(a, HandleM) && Enabled(Apply(cfg, a, HandleM), FlushM)
            && Apply(cfg, Apply(cfg, a, HandleM), FlushM)
               == s.(boxK := [CountAliveStreamsStarted(at, CountReason(false))], countStamps := s.countStamps + {at})
  {
    var m := CountAliveStreamsStarted(at, CountReason(false));
    var a := Apply(cfg, s, CountTrigger(at, false));
    assert a == s.(boxM := [m], countStamps := s.countStamps + {at});
    MasterForwardsOne(cfg, a, Master.ToCounter(m));
  }

  lemma CounterTakes(cfg: Config, s: Sys, at: Time)
    requires s.boxK == [CountAliveStreamsStarted(at, CountReason(false))] && s.outK == [] && !s.counter.running
    ensures Enabled(s, HandleK)
    ensures var t := Apply(cfg, s, HandleK);
            && t == s.(boxK := [], counter := t.counter, outK := t.outK, counterLog := t.counterLog)
            && t.counter.running && t.counter.outstanding == 0
  {
    assert s.sleepK + Sleepers(s.now, []) == s.sleepK;
  }

  lemma {:induction false} CountStarts(cfg: Config, steps: seq<Step>) returns (next: seq<Step>)
    requires Runs(cfg, steps) && !After(cfg, steps).counter.running
    requires var s := After(cfg, steps); s.boxM == [] && s.outM == [] && s.boxK == [] && s.outK == []
    ensures Runs(cfg, next) && |steps| <= |next| && next[..|steps|] == steps
    ensures var s, t := After(cfg, steps), After(cfg, next);
            && t == s.(counter := t.counter, outK := t.outK, counterLog := t.counterLog, countStamps := t.countStamps)
            && t.counter.running && t.counter.outstanding == 0
  {
    var s := After(cfg, steps);
    var at := NewStamp(s.countStamps);
    var request := CountTrigger(at, false);
    RequestPasses(cfg, s, at);
    var m := CountAliveStreamsStarted(at, CountReason(false));
    CounterTakes(cfg, s.(boxK := [m], countStamps := s.countStamps + {at}), at);
    Extended(cfg, steps, request);
    Extended(cfg, steps + [request], HandleM);
    Extended(cfg, steps + [request] + [HandleM], FlushM);
    Extended(cfg, steps + [request] + [HandleM] + [FlushM], HandleK);
    next := steps + [request] + [HandleM] + [FlushM] + [HandleK];
  }

  // ---------- and are reported ----------

  /** Both protocols have asked for the list, and nothing else is on its way. */
  lemma BothKnow(cfg: Config, s: Sys, streams: seq<string>)
    requires s.boxC == [] && s.boxK == [] && s.boxM == [] && s.outM == [] && s.outG == []
    requires s.cleaner.running && s.cleaner.outstanding == 0 && s.counter.running && s.counter.outstanding == 0
    ensures Knows(cfg, s, streams)
  {}

  lemma Prefixes(a: seq<Step>, b: seq<Step>, c: seq<Step>)
    requires |a| <= |b| <= |c| && b[..|a|] == a && c[..|b|] == b
    ensures c[..|a|] == a
  {
    assert c[..|a|] == c[..|b|][..|a|];
  }

  /**
   * Any run can go on to report a cycle and a count of any list under any script, so that the results on
   * reports speak of something: with them, it reports the sequential audit of that list.
   */
  lemma {:induction false} AnyListCanBeReported(cfg: Config, script: Script, streams: seq<string>, steps: seq<Step>)
    returns (more: seq<Step>)
    requires cfg.cleanerId != cfg.counterId && Runs(cfg, steps)
    ensures Runs(cfg, steps + more)
    ensures CleanupFollows(cfg, script, steps + more) && CountFollows(cfg, script, steps + more)
    ensures Reported(After(cfg, steps + more), streams)
  {
    var settled := CanSettle(cfg, script, Ok(streams), steps, |steps|);
    var reported := SettledCanReport(cfg, script, streams, settled);
    more := reported[|steps|..];
    Prefixes(steps[..|steps|], settled, reported);
    Continued(steps, reported, more);
  }

  lemma {:induction false} SettledCanReport(cfg: Config, script: Script, streams: seq<string>, steps: seq<Step>)
    returns (reported: seq<Step>)
    requires cfg.cleanerId != cfg.counterId && Runs(cfg, steps) && Settled(After(cfg, steps))
    ensures Runs(cfg, reported) && |steps| <= |reported| && reported[..|steps|] == steps
    ensures CleanupFollows(cfg, script, reported) && CountFollows(cfg, script, reported)
    ensures Reported(After(cfg, reported), streams)
  {
    Reachable(cfg, steps);
    SettledIsIdle(cfg, After(cfg, steps));
    var asked := CycleStarts(cfg, steps);
    var both := CountStarts(cfg, asked);
    Prefixes(steps, asked, both);
    Begun(cfg, script, streams, both);
    reported := CanSettle(cfg, script, Ok(streams), both, |both|);
    PlayedOut(cfg, script, streams, both, reported);
    Prefixes(steps, both, reported);
  }

  /** Cycle and count have both reported on `streams`. */
  predicate Reported(s: Sys, streams: seq<string>)
  {
    && s.cleanerLog.summary.Some? && s.cleanerLog.list == streams
    && s.counterLog.summary.Some? && s.counterLog.list == streams && !s.counterLog.listFailed
  }

  lemma {:induction false} PlayedOut(cfg: Config, script: Script, streams: seq<string>,
                                     both: seq<Step>, ended: seq<Step>)
    requires cfg.cleanerId != cfg.counterId && Runs(cfg, both) && Runs(cfg, ended)
    requires |both| <= |ended| && ended[..|both|] == both && PlaysOut(cfg, script, Ok(streams), ended, |both|)
    requires Knows(cfg, After(cfg, both), streams) && Settled(After(cfg, ended))
    requires CleanupFollows(cfg, script, both) && CountFollows(cfg, script, both)
    ensures CleanupFollows(cfg, script, ended) && CountFollows(cfg, script, ended)
    ensures Reported(After(cfg, ended), streams)
  {
    StillFollows(cfg, script, Ok(streams), ended, |both|);
    KeepsKnowing(cfg, script, streams, ended, |both|);
    Reachable(cfg, ended);
    SettledIsIdle(cfg, After(cfg, ended));
  }

  lemma {:induction false} Begun(cfg: Config, script: Script, streams: seq<string>, steps: seq<Step>)
    requires Runs(cfg, steps)
    requires var s := After(cfg, steps);
             && s.boxC == [] && s.boxK == [] && s.boxM == [] && s.outM == [] && s.outG == []
             && s.cleaner.running && s.cleaner.outstanding == 0 && s.counter.running && s.counter.outstanding == 0
    ensures Knows(cfg, After(cfg, steps), streams)
    ensures CleanupFollows(cfg, script, steps) && CountFollows(cfg, script, steps)
  {
    BothKnow(cfg, After(cfg, steps), streams);
  }
}
