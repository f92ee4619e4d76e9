/** The work a cleanup cycle can cause in the full system is bounded by its list. */
module SystemProgress {
  import opened Messages
  import opened Pipes
  import opened System
  import opened SystemLanes
  import opened SystemSafety
  import Master
  import CleanerLane
  import CleanerSafety
  import CleanerProgress

  predicate Auditing(cfg: Config, s: Sys) { CleanerLane.Auditing(CleanerWorld(cfg, s)) }

  /** Lane work, and the hops that the cleaner's replies still have to make through the master. */
  function SystemWork(cfg: Config, s: Sys): int
  {
    var mine := CleanerReply(cfg.cleanerId);
    4 * CleanerProgress.Work(CleanerWorld(cfg, s)) + Hops(mine, s)
  }

  function Hops(mine: Msg -> bool, s: Sys): nat
  {
    |Filter(mine, CleanerMsgs(s.outM))| + 2 * |Filter(mine, s.boxM)| + 3 * |Filter(mine, s.outG)|
  }

  /** A delivery, send, answer or wake-up that concerns the cleaner's cycle. */
  predicate IsOwn(cfg: Config, s: Sys, step: Step)
    requires Enabled(s, step)
  {
    var mine := CleanerReply(cfg.cleanerId);
    match step
    case HandleM => mine(s.boxM[0])
    case FlushM => s.outM[0].ToCleaner? && mine(s.outM[0].msg)
    case FlushG => mine(s.outG[0])
    case _ => CleanerStep(cfg, s, step).Some? && CleanerProgress.IsWork(CleanerStep(cfg, s, step).value)
  }

  lemma MasterHops(s: Sys, id: string)
    requires Enabled(s, HandleM)
    ensures var mine := CleanerReply(id);
            Hops(mine, s.(boxM := s.boxM[1..], outM := Master.Handle(s.boxM[0], s.now)))
            == Hops(mine, s) - (if mine(s.boxM[0]) then 1 else 0)
  {
    ForwardsAllReplies(s.boxM[0], s.now, id, id);
  }

  lemma MasterSendHops(s: Sys, id: string)
    requires Enabled(s, FlushM)
    ensures var mine := CleanerReply(id);
            Hops(mine, s.(outM := s.outM[1..]))
            == Hops(mine, s) - (if s.outM[0].ToCleaner? && mine(s.outM[0].msg) then 1 else 0)
  {
    var mine := CleanerReply(id);
    MsgsSplit(s.outM);
    MsgsOfTwo(s.outM[0], s.outM[0]);
    assert s.outM[..1] == [s.outM[0]];
    FilterAppend(mine, CleanerMsgs(s.outM[..1]), CleanerMsgs(s.outM[1..]));
    if s.outM[0].ToCleaner? { FilterTwo(mine, s.outM[0].msg, s.outM[0].msg); }
  }

  lemma Go2RTCSendHops(s: Sys, id: string)
    requires Enabled(s, FlushG)
    ensures var mine := CleanerReply(id);
            Hops(mine, s.(outG := s.outG[1..], boxM := s.boxM + [s.outG[0]]))
            == Hops(mine, s) - (if mine(s.outG[0]) then 1 else 0)
  {
    FilterSnoc(CleanerReply(id), s.boxM, s.outG[0]);
  }

  /** What joins the master's mailbox from elsewhere adds no hops. */
  lemma JoinHops(s: Sys, id: string, m: Msg)
    requires !CleanerReply(id)(m)
    ensures Hops(CleanerReply(id), s.(boxM := s.boxM + [m])) == Hops(CleanerReply(id), s)
  {
    FilterSnoc(CleanerReply(id), s.boxM, m);
  }

  lemma StepHops(cfg: Config, s: Sys, step: Step)
    requires Addressed(cfg, s) && Enabled(s, step)
    ensures HopsFollow(cfg, s, step)
  {
    if step.HandleM? || step.FlushM? || step.FlushG? || step.HandleG? {
      ReplyHops(cfg, s, step);
    } else {
      OtherHops(cfg, s, step);
    }
  }

  /** The reply hops are one fewer after a hop of the cleaner's, and three more after an answer to it. */
  predicate HopsFollow(cfg: Config, s: Sys, step: Step)
    requires Enabled(s, step)
  {
    var mine := CleanerReply(cfg.cleanerId);
    Hops(mine, Apply(cfg, s, step)) == Hops(mine, s)
      - (if (step.HandleM? || step.FlushM? || step.FlushG?) && IsOwn(cfg, s, step) then 1 else 0)
      + (if step.HandleG? && IsOwn(cfg, s, step) then 3 else 0)
  }

  lemma ReplyHops(cfg: Config, s: Sys, step: Step)
    requires Enabled(s, step) && (step.HandleM? || step.FlushM? || step.FlushG? || step.HandleG?)
    ensures HopsFollow(cfg, s, step)
  {
    var id := cfg.cleanerId;
    match step
    case HandleM => MasterHops(s, id);
    case HandleG(outside) => AnswersBelong(s.boxG[0], s.now, outside, CleanerReply(id), CleanerRequest(id));
    case FlushM => MasterSendHops(s, id);
    case FlushG => Go2RTCSendHops(s, id);
  }

  lemma OtherHops(cfg: Config, s: Sys, step: Step)
    requires Addressed(cfg, s) && Enabled(s, step)
    requires !step.HandleM? && !step.FlushM? && !step.FlushG? && !step.HandleG?
    ensures HopsFollow(cfg, s, step)
  {
    var id := cfg.cleanerId;
    match step
    case Trigger(reason) => JoinHops(s, id, TriggerCleanup(reason));
    case CountTrigger(at, first) => JoinHops(s, id, CountAliveStreamsStarted(at, CountReason(first)));
    case FlushC =>
      assert s.outC[0] in s.outC;
      if s.outC[0].ToParent? { JoinHops(s, id, s.outC[0].msg); }
    case FlushK =>
      assert s.outK[0] in s.outK;
      if s.outK[0].ToParent? { JoinHops(s, id, s.outK[0].msg); }
    case _ =>
  }

  lemma StepWork(cfg: Config, s: Sys, step: Step)
    requires cfg.cleanerId != cfg.counterId && Addressed(cfg, s) && Enabled(s, step)
    requires CleanerLane.Shape(CleanerCfg(cfg), CleanerWorld(cfg, s)) && Auditing(cfg, s)
    ensures var w, w' := CleanerWorld(cfg, s), CleanerWorld(cfg, Apply(cfg, s, step));
            var own := CleanerStep(cfg, s, step);
            if own.Some? && CleanerProgress.IsWork(own.value)
            then CleanerProgress.Work(w') < CleanerProgress.Work(w)
            else CleanerProgress.Work(w') == CleanerProgress.Work(w)
  {
    StepIsCleanerStep(cfg, s, step);
    match CleanerStep(cfg, s, step)
    case None =>
    case Some(own) => CleanerProgress.WorkFalls(CleanerCfg(cfg), CleanerWorld(cfg, s), own);
  }

  /** While a cycle audits its list, each of its own steps uses up work and no other step makes any. */
  lemma SystemWorkFalls(cfg: Config, s: Sys, step: Step)
    requires cfg.cleanerId != cfg.counterId && Addressed(cfg, s) && Enabled(s, step)
    requires CleanerLane.Shape(CleanerCfg(cfg), CleanerWorld(cfg, s)) && Auditing(cfg, s)
    ensures if IsOwn(cfg, s, step) then SystemWork(cfg, Apply(cfg, s, step)) < SystemWork(cfg, s)
            else SystemWork(cfg, Apply(cfg, s, step)) == SystemWork(cfg, s)
  {
    StepHops(cfg, s, step);
    StepWork(cfg, s, step);
  }

  /** The cycle's own steps since its list arrived. */
  function OwnSteps(cfg: Config, steps: seq<Step>): nat
    requires Runs(cfg, steps)
    decreases |steps|
  {
    if steps == [] then 0 else
    var before, last := steps[..|steps| - 1], steps[|steps| - 1];
    var s := After(cfg, before);
    if !Auditing(cfg, s) then 0 else OwnSteps(cfg, before) + (if IsOwn(cfg, s, last) then 1 else 0)
  }

  lemma ListStays(cfg: Config, s: Sys, step: Step)
    requires cfg.cleanerId != cfg.counterId && Addressed(cfg, s) && Enabled(s, step)
    requires CleanerLane.Shape(CleanerCfg(cfg), CleanerWorld(cfg, s)) && Auditing(cfg, s)
    ensures Apply(cfg, s, step).cleanerLog.list == s.cleanerLog.list
  {
    StepIsCleanerStep(cfg, s, step);
    var own := CleanerStep(cfg, s, step);
    if own.Some? {
      LaneListStays(CleanerCfg(cfg), CleanerWorld(cfg, s), own.value);
    }
  }

  lemma LaneListStays(cfg: CleanerLane.Config, w: CleanerLane.World, own: CleanerLane.Step)
    requires CleanerLane.Shape(cfg, w) && CleanerLane.Auditing(w) && CleanerLane.Enabled(w, own)
    ensures CleanerLane.Apply(cfg, w, own).log.list == w.log.list
  {
    if own.Start? {
      CleanerSafety.StartIsIgnored(cfg, w, own.at, own.reason);
    } else if own.Deliver? {
      CleanerSafety.DeliveryIs(cfg, w);
    }
  }

  lemma AuditBegins(cfg: Config, s: Sys, step: Step)
    requires cfg.cleanerId != cfg.counterId && Addressed(cfg, s) && Enabled(s, step)
    requires CleanerLane.Shape(CleanerCfg(cfg), CleanerWorld(cfg, s)) && !Auditing(cfg, s)
    requires Auditing(cfg, Apply(cfg, s, step))
    ensures SystemWork(cfg, Apply(cfg, s, step)) <= 36 * |Apply(cfg, s, step).cleanerLog.list|
  {
    StepIsCleanerStep(cfg, s, step);
    var own := CleanerStep(cfg, s, step);
    if own.Some? {
      CleanerProgress.AuditBegins(CleanerCfg(cfg), CleanerWorld(cfg, s), own.value);
    }
  }

  /** Within one cycle the whole system makes at most 36 of the cycle's own steps per list entry. */
  lemma {:induction false} CycleIsBounded(cfg: Config, steps: seq<Step>)
    requires cfg.cleanerId != cfg.counterId && Runs(cfg, steps)
    ensures Auditing(cfg, After(cfg, steps)) ==>
              OwnSteps(cfg, steps) + SystemWork(cfg, After(cfg, steps)) <= 36 * |After(cfg, steps).cleanerLog.list|
    ensures OwnSteps(cfg, steps) <= 36 * |After(cfg, steps).cleanerLog.list|
    decreases |steps|
  {
    if steps != [] {
      var before, last := steps[..|steps| - 1], steps[|steps| - 1];
      Reachable(cfg, before);
      CycleIsBounded(cfg, before);
      StepStaysBounded(cfg, After(cfg, before), last, OwnSteps(cfg, before));
    }
  }

  /** `made` own steps and the work still left are within the bound before a step, and so after it. */
  lemma StepStaysBounded(cfg: Config, s: Sys, step: Step, made: nat)
    requires cfg.cleanerId != cfg.counterId && Addressed(cfg, s) && Enabled(s, step)
    requires CleanerLane.Shape(CleanerCfg(cfg), CleanerWorld(cfg, s))
    requires Auditing(cfg, s) ==> made + SystemWork(cfg, s) <= 36 * |s.cleanerLog.list|
    ensures var s' := Apply(cfg, s, step);
            var now := if !Auditing(cfg, s) then 0 else made + (if IsOwn(cfg, s, step) then 1 else 0);
            && (Auditing(cfg, s') ==> now + SystemWork(cfg, s') <= 36 * |s'.cleanerLog.list|)
            && now <= 36 * |s'.cleanerLog.list|
  {
    if Auditing(cfg, s) {
      SystemWorkFalls(cfg, s, step);
      ListStays(cfg, s, step);
      CleanerProgress.WorkBounds(CleanerWorld(cfg, Apply(cfg, s, step)));
    } else if Auditing(cfg, Apply(cfg, s, step)) {
      AuditBegins(cfg, s, step);
    }
  }
}
