/**
 * The system comes to rest. Every message is given a weight by where it is; two such weights, compared
 * lexicographically, fall with every step that is not a new trigger or a tick of the clock.
 */
module SystemSettling {
  import opened Messages
  import opened Sums
  import opened Pipes
  import opened System
  import StreamCleaner
  import StreamCount
  import Go2RTC
  import Master

  /** What a message weighs in each place: an actor's mailbox, the master's sends, its mailbox, and so on. */
  datatype Load = Load(
    actor: Msg -> int,
    routed: Master.Destination -> int,
    master: Msg -> int,
    answered: Msg -> int,
    go2rtc: Msg -> int,
    sent: Send -> int,
    asleep: Sleeper -> int)

  function Weight(l: Load, s: Sys): int
  {
    Sum(l.actor, s.boxC) + Sum(l.actor, s.boxK) + Sum(l.routed, s.outM) + Sum(l.master, s.boxM)
    + Sum(l.answered, s.outG) + Sum(l.go2rtc, s.boxG) + Sum(l.sent, s.outC) + Sum(l.sent, s.outK)
    + Sum(l.asleep, s.sleepC) + Sum(l.asleep, s.sleepK)
  }

  /** Steps of the system itself, rather than of those who trigger it or of the clock. */
  predicate IsWork(step: Step) { !step.Trigger? && !step.CountTrigger? && !step.Tick? }

  // ---------- how one step moves weight ----------

  /** The weight a step takes away: that of the message it handles or moves. */
  function Taken(l: Load, s: Sys, step: Step): int
    requires Enabled(s, step)
  {
    match step
    case HandleC => l.actor(s.boxC[0])
    case HandleK => l.actor(s.boxK[0])
    case HandleM => l.master(s.boxM[0])
    case HandleG(_) => l.go2rtc(s.boxG[0])
    case FlushC => l.sent(s.outC[0])
    case FlushK => l.sent(s.outK[0])
    case FlushM => l.routed(s.outM[0])
    case FlushG => l.answered(s.outG[0])
    case WakeC(i) => l.asleep(s.sleepC[i])
    case WakeK(i) => l.asleep(s.sleepK[i])
    case _ => 0
  }

  function SendArrives(l: Load, send: Send): int
  {
    match send
    case ToGo2RTC(m) => l.go2rtc(m)
    case ToParent(m) => l.master(m)
  }

  function RouteArrives(l: Load, d: Master.Destination): int
  {
    match d
    case ToCleaner(m) => l.actor(m)
    case ToCounter(m) => l.actor(m)
    case ToAction(_) => 0
    case ToRedis(_) => 0
  }

  function Emitted(l: Load, now: Time, sends: seq<Send>, sleeps: seq<Msg>): int
    requires forall m :: m in sleeps ==> m.CheckStreamHealth?
  {
    Sum(l.sent, sends) + Sum(l.asleep, Sleepers(now, sleeps))
  }

  /** The weight it brings. */
  function Brought(cfg: Config, l: Load, s: Sys, step: Step): int
    requires Enabled(s, step)
  {
    match step
    case HandleC =>
      var o := StreamCleaner.Handle(cfg.cleanerId, cfg.delay, s.cleaner, s.boxC[0]);
      Emitted(l, s.now, o.sends, o.sleeps)
    case HandleK =>
      var o := StreamCount.Handle(cfg.counterId, cfg.delay, s.counter, s.boxK[0]);
      Emitted(l, s.now, o.sends, o.sleeps)
    case HandleM => Sum(l.routed, Master.Handle(s.boxM[0], s.now))
    case HandleG(outside) => Sum(l.answered, Go2RTC.Handle(s.boxG[0], s.now, outside))
    case FlushC => SendArrives(l, s.outC[0])
    case FlushK => SendArrives(l, s.outK[0])
    case FlushM => RouteArrives(l, s.outM[0])
    case FlushG => l.master(s.outG[0])
    case WakeC(i) => l.go2rtc(s.sleepC[i].check)
    case WakeK(i) => l.go2rtc(s.sleepK[i].check)
    case _ => 0
  }

  lemma HandlersMove(cfg: Config, l: Load, s: Sys, step: Step)
    requires Enabled(s, step) && (step.HandleC? || step.HandleK? || step.HandleM? || step.HandleG?)
    ensures Weight(l, Apply(cfg, s, step)) == Weight(l, s) - Taken(l, s, step) + Brought(cfg, l, s, step)
  {
    if step.HandleC? {
      var o := StreamCleaner.Handle(cfg.cleanerId, cfg.delay, s.cleaner, s.boxC[0]);
      SumAppend(l.asleep, s.sleepC, Sleepers(s.now, o.sleeps));
    } else if step.HandleK? {
      var o := StreamCount.Handle(cfg.counterId, cfg.delay, s.counter, s.boxK[0]);
      SumAppend(l.asleep, s.sleepK, Sleepers(s.now, o.sleeps));
    }
  }

  lemma SendsMove(cfg: Config, l: Load, s: Sys, step: Step)
    requires Enabled(s, step) && (step.FlushC? || step.FlushK?)
    ensures Weight(l, Apply(cfg, s, step)) == Weight(l, s) - Taken(l, s, step) + Brought(cfg, l, s, step)
  {
    var send := if step.FlushC? then s.outC[0] else s.outK[0];
    SumSnoc(l.go2rtc, s.boxG, send.msg);
    SumSnoc(l.master, s.boxM, send.msg);
  }

  lemma RoutesMove(cfg: Config, l: Load, s: Sys)
    requires Enabled(s, FlushM)
    ensures Weight(l, Apply(cfg, s, FlushM)) == Weight(l, s) - l.routed(s.outM[0]) + RouteArrives(l, s.outM[0])
  {
    SumSnoc(l.actor, s.boxC, s.outM[0].msg);
    SumSnoc(l.actor, s.boxK, s.outM[0].msg);
  }

  lemma OthersMove(cfg: Config, l: Load, s: Sys, step: Step)
    requires Enabled(s, step) && (step.FlushG? || step.WakeC? || step.WakeK? || step.Tick?)
    ensures Weight(l, Apply(cfg, s, step)) == Weight(l, s) - Taken(l, s, step) + Brought(cfg, l, s, step)
  {
    match step
    case FlushG => SumSnoc(l.master, s.boxM, s.outG[0]);
    case WakeC(i) =>
      SumSnoc(l.go2rtc, s.boxG, s.sleepC[i].check);
      SumWithout(l.asleep, s.sleepC, i);
    case WakeK(i) =>
      SumSnoc(l.go2rtc, s.boxG, s.sleepK[i].check);
      SumWithout(l.asleep, s.sleepK, i);
    case Tick(_) =>
  }

  lemma WeightMoves(cfg: Config, l: Load, s: Sys, step: Step)
    requires Enabled(s, step) && (IsWork(step) || step.Tick?)
    ensures Weight(l, Apply(cfg, s, step)) == Weight(l, s) - Taken(l, s, step) + Brought(cfg, l, s, step)
  {
    if step.HandleC? || step.HandleK? || step.HandleM? || step.HandleG? {
      HandlersMove(cfg, l, s, step);
    } else if step.FlushC? || step.FlushK? {
      SendsMove(cfg, l, s, step);
    } else if step.FlushM? {
      RoutesMove(cfg, l, s);
    } else {
      OthersMove(cfg, l, s, step);
    }
  }

  // ---------- the two weights ----------

  /** One more than a positive weight: a place one send earlier. */
  function Before(n: int): int { if n > 0 then n + 1 else n }

  // Early: triggers, starts, fetches and lists, until the list is delivered; what it sets off is as long as it is.
  function EarlyAtActor(m: Msg): int
  {
    if m.StreamListFetched? then 1
    else if m.CleanupCycleStarted? || m.CountAliveStreamsStarted? then 9 else 0
  }
  function EarlyRouted(d: Master.Destination): int
  {
    if d.ToCleaner? || d.ToCounter? then Before(EarlyAtActor(d.msg)) else 0
  }
  function EarlyAtMaster(m: Msg): int
  {
    if m.StreamListFetched? then 5 else if m.TriggerCleanup? || m.CountAliveStreamsStarted? then 11 else 0
  }
  function EarlyAnswered(m: Msg): int { Before(EarlyAtMaster(m)) }
  function EarlyAtGo2RTC(m: Msg): int { if m.FetchStreamList? then 7 else 0 }
  function EarlySent(send: Send): int
  {
    match send
    case ToGo2RTC(m) => Before(EarlyAtGo2RTC(m))
    case ToParent(m) => Before(EarlyAtMaster(m))
  }
  function EarlyAsleep(z: Sleeper): int { Before(EarlyAtGo2RTC(z.check)) }

  const EARLY := Load(EarlyAtActor, EarlyRouted, EarlyAtMaster, EarlyAnswered, EarlyAtGo2RTC, EarlySent, EarlyAsleep)

  // Late: everything else. A first check may sleep, be checked again, and be removed; the master doubles each
  // check reply.
  function LateAtActor(m: Msg): int
  {
    if m.StreamHealthChecked? then (if m.attempt == 1 then 33 else 13)
    else if m.StreamRemovalCompleted? then 4 else 1
  }
  function LateRouted(d: Master.Destination): int
  {
    if d.ToCleaner? || d.ToCounter? then LateAtActor(d.msg) + 1 else 1
  }
  function LateAtMaster(m: Msg): int
  {
    if m.StreamHealthChecked? then (if m.attempt == 1 then 69 else 29)
    else if m.StreamRemovalCompleted? then 6 else 2
  }
  function LateAnswered(m: Msg): int { LateAtMaster(m) + 1 }
  function LateAtGo2RTC(m: Msg): int
  {
    if m.CheckStreamHealth? then (if m.attempt == 1 then 71 else 31) else if m.RemoveStream? then 11 else 1
  }
  function LateSent(send: Send): int
  {
    match send
    case ToGo2RTC(m) => LateAtGo2RTC(m) + 1
    case ToParent(m) => LateAtMaster(m) + 1
  }
  function LateAsleep(z: Sleeper): int { LateAtGo2RTC(z.check) + 1 }

  const LATE := Load(LateAtActor, LateRouted, LateAtMaster, LateAnswered, LateAtGo2RTC, LateSent, LateAsleep)

  lemma WeightsAreNat(s: Sys)
    ensures Weight(EARLY, s) >= 0 && Weight(LATE, s) >= 0
  {
    LoadIsNat(EARLY, s);
    LoadIsNat(LATE, s);
  }

  ghost predicate NatLoad(l: Load)
  {
    && (forall m :: l.actor(m) >= 0 && l.master(m) >= 0 && l.answered(m) >= 0 && l.go2rtc(m) >= 0)
    && (forall d :: l.routed(d) >= 0)
    && (forall send :: l.sent(send) >= 0)
    && (forall z :: l.asleep(z) >= 0)
  }

  lemma LoadIsNat(l: Load, s: Sys)
    requires NatLoad(l)
    ensures Weight(l, s) >= 0
  {
    SumIsNat(l.actor, s.boxC);
    SumIsNat(l.actor, s.boxK);
    SumIsNat(l.routed, s.outM);
    SumIsNat(l.master, s.boxM);
    SumIsNat(l.answered, s.outG);
    SumIsNat(l.go2rtc, s.boxG);
    SumIsNat(l.sent, s.outC);
    SumIsNat(l.sent, s.outK);
    SumIsNat(l.asleep, s.sleepC);
    SumIsNat(l.asleep, s.sleepK);
  }

  // ---------- each handler uses up weight ----------

  /** `taken` is more than `brought`, early weight first. */
  predicate UsesUp(earlyTaken: int, earlyBrought: int, lateTaken: int, lateBrought: int)
  {
    earlyBrought < earlyTaken || (earlyBrought == earlyTaken && lateBrought < lateTaken)
  }

  lemma One<T>(f: T -> int, x: T)
    ensures Sum(f, [x]) == f(x) && Sum(f, []) == 0
  {
    assert [x][1..] == [];
  }

  lemma ChecksAreLate(self: string, delay: Duration, at: Time, streams: seq<string>)
    ensures Sum(EarlySent, AllToGo2RTC(FirstChecks(self, delay, at, streams))) == 0
  {
    SumBounds(EarlySent, AllToGo2RTC(FirstChecks(self, delay, at, streams)), 0, 0);
  }

  /** Everything one handler can emit but the first checks of a list: one send at most, or one sleeper. */
  ghost predicate Small(now: Time, sends: seq<Send>, sleeps: seq<Msg>, early: int, late: int)
    requires forall m :: m in sleeps ==> m.CheckStreamHealth?
  {
    Emitted(EARLY, now, sends, sleeps) == early && Emitted(LATE, now, sends, sleeps) == late
  }

  lemma NothingEmitted(now: Time)
    ensures Small(now, [], [], 0, 0)
  {}

  lemma OneSend(now: Time, send: Send)
    ensures Small(now, [send], [], EarlySent(send), LateSent(send))
  {
    One(EarlySent, send);
    One(LateSent, send);
  }

  lemma OneSleep(now: Time, check: Msg)
    requires check.CheckStreamHealth?
    ensures Small(now, [], [check], 0, LateAtGo2RTC(check) + 1)
  {
    var z := Sleeper(check, now + check.confirmAfter);
    assert Sleepers(now, [check]) == [z];
    One(EarlyAsleep, z);
    One(LateAsleep, z);
  }

  /** A handler that emits one send or one sleeper at most, lighter than the message handled. */
  lemma EmitsUsesUp(m: Msg, now: Time, sends: seq<Send>, sleeps: seq<Msg>)
    requires forall c :: c in sleeps ==> c.CheckStreamHealth? && c.attempt == 2
    requires |sends| + |sleeps| <= 1
    requires sends != [] ==> UsesUp(EarlyAtActor(m), EarlySent(sends[0]), LateAtActor(m), LateSent(sends[0]))
    requires sleeps != [] ==> LateAtActor(m) == 33 && EarlyAtActor(m) == 0
    ensures UsesUp(EarlyAtActor(m), Emitted(EARLY, now, sends, sleeps),
                   LateAtActor(m), Emitted(LATE, now, sends, sleeps))
  {
    NothingEmitted(now);
    if |sends| == 1 {
      OneSend(now, sends[0]);
      assert sends == [sends[0]];
    } else if |sleeps| == 1 {
      OneSleep(now, sleeps[0]);
      assert sleeps == [sleeps[0]];
    }
  }

  /** What a delivered list sets off is late. */
  lemma ListUsesUp(self: string, delay: Duration, m: Msg, now: Time)
    requires m.StreamListFetched?
    ensures var sends := AllToGo2RTC(FirstChecks(self, delay, m.at, m.streams));
            UsesUp(EarlyAtActor(m), Emitted(EARLY, now, sends, []), LateAtActor(m), Emitted(LATE, now, sends, []))
  {
    ChecksAreLate(self, delay, m.at, m.streams);
  }

  lemma CleanerUsesUp(self: string, delay: Duration, st: StreamCleaner.State, m: Msg, now: Time)
    ensures var o := StreamCleaner.Handle(self, delay, st, m);
            UsesUp(EarlyAtActor(m), Emitted(EARLY, now, o.sends, o.sleeps),
                   LateAtActor(m), Emitted(LATE, now, o.sends, o.sleeps))
  {
    var o := StreamCleaner.Handle(self, delay, st, m);
    if m.StreamListFetched? && o.sends != [] && o.sends[0].ToGo2RTC? {
      ListUsesUp(self, delay, m, now);
    } else {
      EmitsUsesUp(m, now, o.sends, o.sleeps);
    }
  }

  lemma CounterUsesUp(self: string, delay: Duration, st: StreamCount.State, m: Msg, now: Time)
    ensures var o := StreamCount.Handle(self, delay, st, m);
            UsesUp(EarlyAtActor(m), Emitted(EARLY, now, o.sends, o.sleeps),
                   LateAtActor(m), Emitted(LATE, now, o.sends, o.sleeps))
  {
    var o := StreamCount.Handle(self, delay, st, m);
    if m.StreamListFetched? && o.sends != [] && o.sends[0].ToGo2RTC? {
      ListUsesUp(self, delay, m, now);
    } else {
      EmitsUsesUp(m, now, o.sends, o.sleeps);
    }
  }

  lemma MasterUsesUp(m: Msg, now: Time)
    ensures UsesUp(EarlyAtMaster(m), Sum(EarlyRouted, Master.Handle(m, now)),
                   LateAtMaster(m), Sum(LateRouted, Master.Handle(m, now)))
  {
    var sends := Master.Handle(m, now);
    if |sends| == 2 {
      One(EarlyRouted, sends[1]);
      One(LateRouted, sends[1]);
      assert sends[1..] == [sends[1]];
    } else if |sends| == 1 {
      One(EarlyRouted, sends[0]);
      One(LateRouted, sends[0]);
      assert sends == [sends[0]];
    }
  }

  lemma Go2RTCUsesUp(m: Msg, now: Time, outside: Go2RTC.Outside)
    ensures UsesUp(EarlyAtGo2RTC(m), Sum(EarlyAnswered, Go2RTC.Handle(m, now, outside)),
                   LateAtGo2RTC(m), Sum(LateAnswered, Go2RTC.Handle(m, now, outside)))
  {
    var sends := Go2RTC.Handle(m, now, outside);
    if |sends| == 2 {
      One(EarlyAnswered, sends[1]);
      One(LateAnswered, sends[1]);
      assert sends[1..] == [sends[1]];
    } else if |sends| == 1 {
      One(EarlyAnswered, sends[0]);
      One(LateAnswered, sends[0]);
      assert sends == [sends[0]];
    }
  }

  lemma StepUsesUp(cfg: Config, s: Sys, step: Step)
    requires Enabled(s, step) && IsWork(step)
    ensures UsesUp(Taken(EARLY, s, step), Brought(cfg, EARLY, s, step),
                   Taken(LATE, s, step), Brought(cfg, LATE, s, step))
  {
    match step
    case HandleC => CleanerUsesUp(cfg.cleanerId, cfg.delay, s.cleaner, s.boxC[0], s.now);
    case HandleK => CounterUsesUp(cfg.counterId, cfg.delay, s.counter, s.boxK[0], s.now);
    case HandleM => MasterUsesUp(s.boxM[0], s.now);
    case HandleG(outside) => Go2RTCUsesUp(s.boxG[0], s.now, outside);
    case _ =>
  }

  /** Without new triggers every step but a tick uses up weight, whatever go2rtc answers and whoever the work is for. */
  lemma WorkFalls(cfg: Config, s: Sys, step: Step)
    requires Enabled(s, step) && IsWork(step)
    ensures var s' := Apply(cfg, s, step);
            || 0 <= Weight(EARLY, s') < Weight(EARLY, s)
            || (Weight(EARLY, s') == Weight(EARLY, s) && 0 <= Weight(LATE, s') < Weight(LATE, s))
  {
    WeightMoves(cfg, EARLY, s, step);
    WeightMoves(cfg, LATE, s, step);
    StepUsesUp(cfg, s, step);
    WeightsAreNat(Apply(cfg, s, step));
  }

  lemma TicksWeighNothing(cfg: Config, s: Sys, now: Time)
    requires s.now <= now
    ensures var s' := Apply(cfg, s, Tick(now));
            Weight(EARLY, s') == Weight(EARLY, s) && Weight(LATE, s') == Weight(LATE, s)
  {}
}
