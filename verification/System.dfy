/**
 * The whole cleanup and counting system: four actors, each with one FIFO mailbox, and two pools of
 * sleeping goroutines. A handler's sends are made one at a time, so other actors can act in between,
 * and an actor takes its next message only when all sends of the last one are made.
 */
module System {
  import opened Messages
  import opened Pipes
  import StreamCleaner
  import StreamCount
  import Go2RTC
  import Master
  import CleanerLane
  import CounterLane

  /** Addresses of the two requesters, and `schedule.confirmation_delay`. */
  datatype Config = Config(cleanerId: string, counterId: string, delay: Duration)

  function CleanerCfg(cfg: Config): CleanerLane.Config { CleanerLane.Config(cfg.cleanerId, cfg.delay) }

  function CounterCfg(cfg: Config): CounterLane.Config { CounterLane.Config(cfg.counterId, cfg.delay) }

  datatype Sys = Sys(
    now: Time,
    cleaner: StreamCleaner.State, boxC: seq<Msg>, outC: seq<Send>, sleepC: seq<Sleeper>,
    counter: StreamCount.State, boxK: seq<Msg>, outK: seq<Send>, sleepK: seq<Sleeper>,
    boxM: seq<Msg>, outM: seq<Master.Destination>,
    boxG: seq<Msg>, outG: seq<Msg>,
    // History; no actor reads it.
    actions: seq<Msg>,       // sent by the master to ActionActor
    redis: seq<Msg>,         // sent by the master to RedisActor
    summaries: seq<Msg>,     // CleanupCycleFinished messages the master has handled
    countStamps: set<Time>,  // stamps of all count requests of the ticker goroutine
    cleanerLog: CleanerLane.Log,
    counterLog: CounterLane.Log)

  const INITIAL := Sys(
    0,
    StreamCleaner.INITIAL, [], [], [],
    StreamCount.INITIAL, [], [], [],
    [], [],
    [], [],
    [], [], [], {}, CleanerLane.INITIAL_LOG, CounterLane.INITIAL_LOG)

  datatype Step =
    | Trigger(reason: string)                 // cron or start-up asks the master for a cleanup
    | CountTrigger(at: Time, first: bool)     // the ticker goroutine asks the master for a count
    | HandleC | HandleK | HandleM | HandleG(outside: Go2RTC.Outside)
    | FlushC | FlushK | FlushM | FlushG
    | WakeC(i: nat) | WakeK(i: nat)
    | Tick(now: Time)

  predicate Enabled(s: Sys, step: Step)
  {
    match step
    case Trigger(_) => true
    case CountTrigger(at, _) => at !in s.countStamps
    case HandleC => s.outC == [] && s.boxC != []
    case HandleK => s.outK == [] && s.boxK != []
    case HandleM => s.outM == [] && s.boxM != []
    case HandleG(_) => s.outG == [] && s.boxG != []
    case FlushC => s.outC != []
    case FlushK => s.outK != []
    case FlushM => s.outM != []
    case FlushG => s.outG != []
    case WakeC(i) => i < |s.sleepC| && s.sleepC[i].wakeAt <= s.now
    case WakeK(i) => i < |s.sleepK| && s.sleepK[i].wakeAt <= s.now
    case Tick(now) => s.now <= now
  }

  function Apply(cfg: Config, s: Sys, step: Step): Sys
    requires Enabled(s, step)
  {
    match step
    case Trigger(reason) => s.(boxM := s.boxM + [TriggerCleanup(reason)])
    case CountTrigger(at, first) =>
      s.(boxM := s.boxM + [CountAliveStreamsStarted(at, CountReason(first))], countStamps := s.countStamps + {at})
    case HandleC =>
      var o := StreamCleaner.Handle(cfg.cleanerId, cfg.delay, s.cleaner, s.boxC[0]);
      s.(cleaner := o.state, boxC := s.boxC[1..], outC := o.sends, sleepC := s.sleepC + Sleepers(s.now, o.sleeps),
         cleanerLog := CleanerLane.Record(cfg.cleanerId, s.cleanerLog, s.cleaner, s.boxC[0], o.sends))
    case HandleK =>
      var o := StreamCount.Handle(cfg.counterId, cfg.delay, s.counter, s.boxK[0]);
      s.(counter := o.state, boxK := s.boxK[1..], outK := o.sends, sleepK := s.sleepK + Sleepers(s.now, o.sleeps),
         counterLog := CounterLane.Record(cfg.counterId, s.counterLog, s.counter, s.boxK[0], o.sends))
    case HandleM =>
      var sends := Master.Handle(s.boxM[0], s.now);
      s.(boxM := s.boxM[1..], outM := sends,
         actions := s.actions + ActionMsgs(sends), redis := s.redis + RedisMsgs(sends),
         summaries := s.summaries + (if s.boxM[0].CleanupCycleFinished? then [s.boxM[0]] else []))
    case HandleG(outside) => s.(boxG := s.boxG[1..], outG := Go2RTC.Handle(s.boxG[0], s.now, outside))
    case FlushC =>
      (match s.outC[0]
       case ToGo2RTC(m) => s.(outC := s.outC[1..], boxG := s.boxG + [m])
       case ToParent(m) => s.(outC := s.outC[1..], boxM := s.boxM + [m]))
    case FlushK =>
      (match s.outK[0]
       case ToGo2RTC(m) => s.(outK := s.outK[1..], boxG := s.boxG + [m])
       case ToParent(m) => s.(outK := s.outK[1..], boxM := s.boxM + [m]))
    case FlushM =>
      (match s.outM[0]
       case ToCleaner(m) => s.(outM := s.outM[1..], boxC := s.boxC + [m])
       case ToCounter(m) => s.(outM := s.outM[1..], boxK := s.boxK + [m])
       case ToAction(_) => s.(outM := s.outM[1..])
       case ToRedis(_) => s.(outM := s.outM[1..]))
    case FlushG => s.(outG := s.outG[1..], boxM := s.boxM + [s.outG[0]])
    case WakeC(i) =>
      s.(boxG := s.boxG + [s.sleepC[i].check], sleepC := s.sleepC[..i] + s.sleepC[i + 1..])
    case WakeK(i) =>
      s.(boxG := s.boxG + [s.sleepK[i].check], sleepK := s.sleepK[..i] + s.sleepK[i + 1..])
    case Tick(now) => s.(now := now)
  }

  /** The two reasons the ticker goroutine gives. */
  function CountReason(first: bool): string
  {
    if first then "redis_publish_run_on_start" else "redis_publish_scheduled"
  }

  function ActionMsgs(sends: seq<Master.Destination>): seq<Msg>
  {
    if sends == [] then []
    else (if sends[0].ToAction? then [sends[0].msg] else []) + ActionMsgs(sends[1..])
  }

  function RedisMsgs(sends: seq<Master.Destination>): seq<Msg>
  {
    if sends == [] then []
    else (if sends[0].ToRedis? then [sends[0].msg] else []) + RedisMsgs(sends[1..])
  }

  predicate Runs(cfg: Config, steps: seq<Step>)
    decreases |steps|, 0
  {
    steps == [] ||
    (Runs(cfg, steps[..|steps| - 1]) && Enabled(After(cfg, steps[..|steps| - 1]), steps[|steps| - 1]))
  }

  /** The state that a run of the system, from its start, leads to. */
  function After(cfg: Config, steps: seq<Step>): Sys
    requires Runs(cfg, steps)
    decreases |steps|, 1
  {
    if steps == [] then INITIAL
    else Apply(cfg, After(cfg, steps[..|steps| - 1]), steps[|steps| - 1])
  }

  // ---------- the two lanes of a state ----------

  function Filter(p: Msg -> bool, q: seq<Msg>): seq<Msg>
  {
    if q == [] then [] else (if p(q[0]) then [q[0]] else []) + Filter(p, q[1..])
  }

  /** Replies that belong to the cleaner; only it requests removals. */
  function CleanerReply(id: string): Msg -> bool
  {
    (m: Msg) => m.StreamRemovalCompleted? || ((m.StreamListFetched? || m.StreamHealthChecked?) && m.requestedBy == id)
  }

  function CleanerRequest(id: string): Msg -> bool
  {
    (m: Msg) => m.RemoveStream? || ((m.FetchStreamList? || m.CheckStreamHealth?) && m.requestedBy == id)
  }

  function CounterReply(id: string): Msg -> bool
  {
    (m: Msg) => (m.StreamListFetched? || m.StreamHealthChecked?) && m.requestedBy == id
  }

  function CounterRequest(id: string): Msg -> bool
  {
    (m: Msg) => (m.FetchStreamList? || m.CheckStreamHealth?) && m.requestedBy == id
  }

  function CleanerMsgs(sends: seq<Master.Destination>): seq<Msg>
  {
    if sends == [] then []
    else (if sends[0].ToCleaner? then [sends[0].msg] else []) + CleanerMsgs(sends[1..])
  }

  function CounterMsgs(sends: seq<Master.Destination>): seq<Msg>
  {
    if sends == [] then []
    else (if sends[0].ToCounter? then [sends[0].msg] else []) + CounterMsgs(sends[1..])
  }

  /** What of the system concerns the cleaner: its fields, and its messages wherever they are. */
  function CleanerWorld(cfg: Config, s: Sys): CleanerLane.World
  {
    var mine := CleanerReply(cfg.cleanerId);
    var asked := CleanerRequest(cfg.cleanerId);
    CleanerLane.World(
      s.now, s.cleaner,
      Pipe(Filter(mine, s.boxC) + Filter(mine, CleanerMsgs(s.outM)) + Filter(mine, s.boxM) + Filter(mine, s.outG),
           Filter(asked, s.boxG), Go2RTCMsgs(s.outC), s.sleepC),
      s.cleanerLog)
  }

  function CounterWorld(cfg: Config, s: Sys): CounterLane.World
  {
    var mine := CounterReply(cfg.counterId);
    var asked := CounterRequest(cfg.counterId);
    CounterLane.World(
      s.now, s.counter,
      Pipe(Filter(mine, s.boxK) + Filter(mine, CounterMsgs(s.outM)) + Filter(mine, s.boxM) + Filter(mine, s.outG),
           Filter(asked, s.boxG), Go2RTCMsgs(s.outK), s.sleepK),
      s.counterLog)
  }

  // ---------- the lane steps of a step ----------

  function CleanerStep(cfg: Config, s: Sys, step: Step): Option<CleanerLane.Step>
    requires Enabled(s, step)
  {
    match step
    case HandleC =>
      var m := s.boxC[0];
      if m.CleanupCycleStarted? then Some(CleanerLane.Start(m.at, m.reason))
      else if CleanerReply(cfg.cleanerId)(m) then Some(CleanerLane.Deliver)
      else None
    case HandleG(outside) =>
      if CleanerRequest(cfg.cleanerId)(s.boxG[0]) then Some(CleanerLane.Serve(outside)) else None
    case FlushC => if s.outC[0].ToGo2RTC? then Some(CleanerLane.Flush) else None
    case WakeC(i) => Some(CleanerLane.Wake(i))
    case Tick(now) => Some(CleanerLane.Tick(now))
    case _ => None
  }

  function CounterStep(cfg: Config, s: Sys, step: Step): Option<CounterLane.Step>
    requires Enabled(s, step)
  {
    match step
    case HandleK =>
      var m := s.boxK[0];
      if m.CountAliveStreamsStarted? then Some(CounterLane.Start(m.at, m.reason))
      else if CounterReply(cfg.counterId)(m) then Some(CounterLane.Deliver)
      else None
    case HandleG(outside) =>
      if CounterRequest(cfg.counterId)(s.boxG[0]) then Some(CounterLane.Serve(outside)) else None
    case FlushK => if s.outK[0].ToGo2RTC? then Some(CounterLane.Flush) else None
    case WakeK(i) => Some(CounterLane.Wake(i))
    case Tick(now) => Some(CounterLane.Tick(now))
    case _ => None
  }

  // ---------- facts about every reachable state ----------

  /** Sends and sleeping checks carry their actor's own address; the counter never asks for a removal. */
  ghost predicate Addressed(cfg: Config, s: Sys)
  {
    && (forall send :: send in s.outC && send.ToGo2RTC? ==> CleanerRequest(cfg.cleanerId)(send.msg))
    && (forall send :: send in s.outC && send.ToParent? ==> send.msg.CleanupCycleFinished?)
    && (forall z :: z in s.sleepC ==> CleanerRequest(cfg.cleanerId)(z.check))
    && (forall send :: send in s.outK && send.ToGo2RTC? ==> CounterRequest(cfg.counterId)(send.msg))
    && (forall send :: send in s.outK && send.ToParent? ==> send.msg.AliveStreamCountCalculated?)
    && (forall z :: z in s.sleepK ==> CounterRequest(cfg.counterId)(z.check))
    && (forall m :: m in s.outG ==>
          m.StreamListFetched? || m.StreamHealthChecked? || m.StreamRemovalCompleted? || m.StreamRemoved?)
  }

  function Stamps(q: seq<Msg>): seq<Time>
  {
    if q == [] then []
    else (if q[0].CountAliveStreamsStarted? then [q[0].at] else []) + Stamps(q[1..])
  }

  /** Stamps of count requests on their way, those nearest to the counter first. */
  function QueuedStamps(s: Sys): seq<Time>
  {
    Stamps(s.boxK) + Stamps(CounterMsgs(s.outM)) + Stamps(s.boxM)
  }

  /** No request in `queue` repeats another, or one of those handled before. */
  ghost predicate Fresh(queue: seq<Time>, handled: set<Time>, all: set<Time>)
  {
    && (forall i, j :: 0 <= i < j < |queue| ==> queue[i] != queue[j])
    && (forall t :: t in queue ==> t in all && t !in handled)
    && handled <= all
  }

  ghost predicate FreshStamps(s: Sys)
  {
    Fresh(QueuedStamps(s), s.counterLog.requested, s.countStamps)
  }
}
