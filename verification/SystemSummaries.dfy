/** The cleaner's summaries reach the master, and the Redis updates follow from them. */
module SystemSummaries {
  import opened Messages
  import opened System
  import opened SystemLanes
  import opened SystemSafety
  import Master
  import StreamCleaner
  import StreamCount
  import CleanerLane

  // ---------- Redis updates ----------

  function CleanupUpdate(): Msg -> bool
  {
    (m: Msg) => m.UpdateStreamCount? && m.reason == Master.CLEANUP_REASON
  }

  /** One update for each summary with removals, in order. */
  function UpdatesOf(summaries: seq<Msg>): seq<Msg>
    requires forall m :: m in summaries ==> m.CleanupCycleFinished?
  {
    if summaries == [] then [] else
    var n := |summaries| - 1;
    var f := summaries[n];
    UpdatesOf(summaries[..n])
    + (if f.removedStreams == 0 then [] else [UpdateStreamCount(f.at, Master.CLEANUP_REASON, f.alive)])
  }

  /** Count requests and results never carry the cleanup's reason. */
  predicate PlainReason(m: Msg)
  {
    m.CountAliveStreamsStarted? || m.AliveStreamCountCalculated? ==> m.reason != Master.CLEANUP_REASON
  }

  ghost predicate Published(s: Sys)
  {
    && (forall m :: m in s.boxM ==> PlainReason(m))
    && (forall m :: m in s.boxK ==> PlainReason(m))
    && (forall d :: d in s.outM ==> PlainReason(d.msg))
    && (forall send :: send in s.outK ==> PlainReason(send.msg))
    && s.counter.reason != Master.CLEANUP_REASON
    && (forall m :: m in s.summaries ==> m.CleanupCycleFinished?)
    && Filter(CleanupUpdate(), s.redis) == UpdatesOf(s.summaries)
  }

  lemma RedisSent(m: Msg, now: Time)
    requires PlainReason(m)
    ensures Filter(CleanupUpdate(), RedisMsgs(Master.Handle(m, now))) ==
            if m.CleanupCycleFinished? && m.removedStreams != 0
            then [UpdateStreamCount(m.at, Master.CLEANUP_REASON, m.alive)] else []
  {
    var sends := Master.Handle(m, now);
    if |sends| == 2 {
      var rest := sends[1..];
      assert rest[1..] == [];
      assert RedisMsgs(rest) == RedisMsgs(rest[1..]) && RedisMsgs(sends) == RedisMsgs(rest);
    } else if |sends| == 1 {
      assert sends[1..] == [];
      assert RedisMsgs(sends) == if sends[0].ToRedis? then [sends[0].msg] else [];
      FilterTwo(CleanupUpdate(), sends[0].msg, sends[0].msg);
    }
  }

  lemma CounterKeepsReasons(cfg: Config, s: Sys)
    requires Published(s) && Enabled(s, HandleK)
    ensures Published(Apply(cfg, s, HandleK))
  {
    var s' := Apply(cfg, s, HandleK);
    assert s.boxK[0] in s.boxK;
    assert forall m :: m in s'.boxK ==> m in s.boxK;
    CounterReasons(cfg.counterId, cfg.delay, s.counter, s.boxK[0]);
  }

  lemma CounterReasons(id: string, delay: Duration, c: StreamCount.State, m: Msg)
    requires PlainReason(m) && c.reason != Master.CLEANUP_REASON
    ensures var o := StreamCount.Handle(id, delay, c, m);
            o.state.reason != Master.CLEANUP_REASON && forall send :: send in o.sends ==> PlainReason(send.msg)
  {}

  lemma MasterReasons(m: Msg, now: Time)
    requires PlainReason(m)
    ensures forall d :: d in Master.Handle(m, now) ==> PlainReason(d.msg)
  {}

  lemma MasterUpdates(redis: seq<Msg>, summaries: seq<Msg>, m: Msg, now: Time)
    requires forall f :: f in summaries ==> f.CleanupCycleFinished?
    requires PlainReason(m) && Filter(CleanupUpdate(), redis) == UpdatesOf(summaries)
    ensures Filter(CleanupUpdate(), redis + RedisMsgs(Master.Handle(m, now)))
            == UpdatesOf(summaries + (if m.CleanupCycleFinished? then [m] else []))
  {
    RedisSent(m, now);
    FilterAppend(CleanupUpdate(), redis, RedisMsgs(Master.Handle(m, now)));
    if m.CleanupCycleFinished? {
      assert (summaries + [m])[..|summaries|] == summaries;
    } else {
      assert summaries + [] == summaries;
    }
  }

  lemma MasterPublishes(cfg: Config, s: Sys)
    requires Published(s) && Enabled(s, HandleM)
    ensures Published(Apply(cfg, s, HandleM))
  {
    var s' := Apply(cfg, s, HandleM);
    assert s.boxM[0] in s.boxM && forall n :: n in s'.boxM ==> n in s.boxM;
    MasterReasons(s.boxM[0], s.now);
    MasterUpdates(s.redis, s.summaries, s.boxM[0], s.now);
  }

  lemma StepKeepsPublished(cfg: Config, s: Sys, step: Step)
    requires Addressed(cfg, s) && Published(s) && Enabled(s, step)
    ensures Published(Apply(cfg, s, step))
  {
    if step.HandleK? {
      CounterKeepsReasons(cfg, s);
    } else if step.HandleM? {
      MasterPublishes(cfg, s);
    } else {
      MovesKeepPublished(cfg, s, step);
    }
  }

  lemma MovesKeepPublished(cfg: Config, s: Sys, step: Step)
    requires Addressed(cfg, s) && Published(s) && Enabled(s, step) && !step.HandleK? && !step.HandleM?
    ensures Published(Apply(cfg, s, step))
  {
    if step.FlushM? {
      var d := s.outM[0];
      assert d in s.outM && forall e :: e in s.outM[1..] ==> e in s.outM;
    } else if step.FlushC? || step.FlushK? || step.FlushG? {
      SendsKeepPublished(cfg, s, step);
    }
  }

  lemma SendsKeepPublished(cfg: Config, s: Sys, step: Step)
    requires Addressed(cfg, s) && Published(s) && Enabled(s, step) && (step.FlushC? || step.FlushK? || step.FlushG?)
    ensures Published(Apply(cfg, s, step))
  {
    if step.FlushC? {
      assert s.outC[0] in s.outC;
    } else if step.FlushK? {
      assert s.outK[0] in s.outK && forall e :: e in s.outK[1..] ==> e in s.outK;
    } else {
      assert s.outG[0] in s.outG;
    }
  }

  lemma {:induction false} ReachablePublished(cfg: Config, steps: seq<Step>)
    requires cfg.cleanerId != cfg.counterId && Runs(cfg, steps)
    ensures Published(After(cfg, steps))
    decreases |steps|
  {
    if steps != [] {
      Reachable(cfg, steps[..|steps| - 1]);
      ReachablePublished(cfg, steps[..|steps| - 1]);
      StepKeepsPublished(cfg, After(cfg, steps[..|steps| - 1]), steps[|steps| - 1]);
    }
  }

  /** The cleanup-triggered updates are one for each handled summary that reports a removal, and no others. */
  lemma {:induction false} UpdatesMatchSummaries(cfg: Config, steps: seq<Step>)
    requires cfg.cleanerId != cfg.counterId && Runs(cfg, steps)
    ensures var s := After(cfg, steps);
            && (forall m :: m in s.summaries ==> m.CleanupCycleFinished?)
            && Filter(CleanupUpdate(), s.redis) == UpdatesOf(s.summaries)
  {
    ReachablePublished(cfg, steps);
  }

  // ---------- every finished cycle's summary arrives ----------

  function IsSummary(): Msg -> bool { (m: Msg) => m.CleanupCycleFinished? }

  /** Messages for the master among a handler's sends. */
  function ParentMsgs(sends: seq<Send>): seq<Msg>
  {
    if sends == [] then []
    else (if sends[0].ToParent? then [sends[0].msg] else []) + ParentMsgs(sends[1..])
  }

  /** Summaries the master has handled, those in its mailbox, and one still to be sent. */
  function SummariesMade(s: Sys): seq<Msg>
  {
    s.summaries + Filter(IsSummary(), s.boxM) + ParentMsgs(s.outC)
  }

  lemma {:induction false} NoParentMsgs(sends: seq<Send>)
    requires forall i :: 0 <= i < |sends| ==> sends[i].ToGo2RTC?
    ensures ParentMsgs(sends) == []
  {
    if sends != [] {
      NoParentMsgs(sends[1..]);
    }
  }

  /** A handler's summary is its only send, and is logged as a finished cycle. */
  lemma SummaryIsLogged(id: string, delay: Duration, st: StreamCleaner.State, log: CleanerLane.Log, m: Msg)
    ensures var sends := StreamCleaner.Handle(id, delay, st, m).sends;
            CleanerLane.Record(id, log, st, m, sends).finished == log.finished + ParentMsgs(sends)
  {
    var sends := StreamCleaner.Handle(id, delay, st, m).sends;
    SummaryIsAlone(id, delay, st, m);
    if sends == [] || sends[0].ToGo2RTC? {
      NoParentMsgs(sends);
      assert log.finished + [] == log.finished;
    } else {
      assert ParentMsgs(sends) == [sends[0].msg] by { assert sends[1..] == []; }
    }
  }

  lemma SummaryIsAlone(id: string, delay: Duration, st: StreamCleaner.State, m: Msg)
    ensures var sends := StreamCleaner.Handle(id, delay, st, m).sends;
            || (forall i :: 0 <= i < |sends| ==> sends[i].ToGo2RTC?)
            || (|sends| == 1 && sends[0].ToParent? && CleanerLane.Accepts(id, st, m))
  {}

  lemma CleanerMakesSummary(cfg: Config, s: Sys)
    requires Enabled(s, HandleC) && SummariesMade(s) == s.cleanerLog.finished
    ensures var s' := Apply(cfg, s, HandleC); SummariesMade(s') == s'.cleanerLog.finished
  {
    SummaryIsLogged(cfg.cleanerId, cfg.delay, s.cleaner, s.cleanerLog, s.boxC[0]);
    assert ParentMsgs(s.outC) == [];
    var made := s.summaries + Filter(IsSummary(), s.boxM);
    assert made + [] == made;
  }

  lemma SummaryArrives(cfg: Config, s: Sys)
    requires Addressed(cfg, s) && Enabled(s, FlushC)
    ensures SummariesMade(Apply(cfg, s, FlushC)) == SummariesMade(s)
  {
    var send := s.outC[0];
    assert send in s.outC;
    if send.ToParent? {
      FilterSnoc(IsSummary(), s.boxM, send.msg);
      Moved(s.summaries, Filter(IsSummary(), s.boxM), send.msg, ParentMsgs(s.outC[1..]));
    } else {
      assert [] + ParentMsgs(s.outC[1..]) == ParentMsgs(s.outC[1..]);
    }
  }

  lemma Moved(a: seq<Msg>, b: seq<Msg>, m: Msg, c: seq<Msg>)
    ensures a + (b + [m]) + c == a + b + ([m] + c)
    ensures (a + [m]) + c == a + ([m] + c)
  {}

  lemma SummaryIsHandled(cfg: Config, s: Sys)
    requires Enabled(s, HandleM)
    ensures SummariesMade(Apply(cfg, s, HandleM)) == SummariesMade(s)
  {
    var m := s.boxM[0];
    var done, rest := s.summaries, Filter(IsSummary(), s.boxM[1..]);
    assert Filter(IsSummary(), s.boxM) == (if m.CleanupCycleFinished? then [m] else []) + rest;
    assert (done + [m]) + rest == done + ([m] + rest) && done + [] == done && [] + rest == rest;
  }

  lemma OthersMakeNoSummary(cfg: Config, s: Sys, step: Step)
    requires Addressed(cfg, s) && Enabled(s, step) && !step.HandleC? && !step.FlushC? && !step.HandleM?
    ensures SummariesMade(Apply(cfg, s, step)) == SummariesMade(s)
    ensures Apply(cfg, s, step).cleanerLog == s.cleanerLog
  {
    match step
    case Trigger(reason) => FilterSnoc(IsSummary(), s.boxM, TriggerCleanup(reason));
    case CountTrigger(at, first) => FilterSnoc(IsSummary(), s.boxM, CountAliveStreamsStarted(at, CountReason(first)));
    case FlushK =>
      assert s.outK[0] in s.outK;
      FilterSnoc(IsSummary(), s.boxM, s.outK[0].msg);
    case FlushG =>
      assert s.outG[0] in s.outG;
      FilterSnoc(IsSummary(), s.boxM, s.outG[0]);
    case _ =>
  }

  ghost predicate SummariesMatch(s: Sys) { SummariesMade(s) == s.cleanerLog.finished }

  lemma StepKeepsSummaries(cfg: Config, s: Sys, step: Step)
    requires Addressed(cfg, s) && Enabled(s, step) && SummariesMatch(s)
    ensures SummariesMatch(Apply(cfg, s, step))
  {
    if step.HandleC? {
      CleanerMakesSummary(cfg, s);
    } else if step.FlushC? {
      SummaryArrives(cfg, s);
    } else if step.HandleM? {
      SummaryIsHandled(cfg, s);
    } else {
      OthersMakeNoSummary(cfg, s, step);
    }
  }

  /**
   * The summaries the master has handled, then those on their way to it, are those of the cycles the
   * cleaner has finished, in order: none is lost, repeated or made up.
   */
  lemma {:induction false} SummariesAreTheCleaners(cfg: Config, steps: seq<Step>)
    requires cfg.cleanerId != cfg.counterId && Runs(cfg, steps)
    ensures SummariesMade(After(cfg, steps)) == After(cfg, steps).cleanerLog.finished
    decreases |steps|
  {
    if steps != [] {
      var before := steps[..|steps| - 1];
      SummariesAreTheCleaners(cfg, before);
      Reachable(cfg, before);
      StepKeepsSummaries(cfg, After(cfg, before), steps[|steps| - 1]);
    }
  }
}
