/**
 * The cleaner's share of the system as one queue: whatever the mailboxes hold for the cleaner forms a
 * single FIFO lane from the cleaner through go2rtc and the master back to it (module System proves that
 * the full system moves along these steps). Here are the steps and what every one of them keeps.
 */
module CleanerLane {
  import opened Messages
  import opened Sums
  import opened Pipes
  import opened StreamCleaner
  import Go2RTC

  datatype Config = Config(self: string, delay: Duration)

  /** History of the current cycle (`list` .. `summary`) and of all cycles; no actor reads it. */
  datatype Log = Log(
    list: seq<string>,         // the fetched list
    delivered: seq<Msg>,       // check and removal replies the cleaner acted on, oldest first
    removes: seq<string>,      // names for which RemoveStream was sent, oldest first
    summary: Option<Msg>,      // the cycle's CleanupCycleFinished, once sent
    accepted: nat,
    finished: seq<Msg>,
    aborted: nat)

  datatype World = World(now: Time, actor: State, pipe: Pipe, log: Log)

  const INITIAL_LOG := Log([], [], [], None, 0, [], 0)

  predicate Initial(w: World)
  {
    w.actor == INITIAL && w.pipe == EMPTY && w.log == INITIAL_LOG
  }

  datatype Step =
    | Start(at: Time, reason: string)  // the actor handles a CleanupCycleStarted
    | Deliver                          // the actor handles the oldest reply
    | Flush                            // the actor makes its next send
    | Serve(outside: Go2RTC.Outside)   // go2rtc answers the oldest request
    | Wake(i: nat)                     // a sleeping goroutine sends its second check
    | Tick(now: Time)

  predicate Enabled(w: World, step: Step)
  {
    match step
    case Start(_, _) => w.pipe.out == []
    case Deliver => w.pipe.out == [] && w.pipe.replies != []
    case Flush => w.pipe.out != []
    case Serve(_) => w.pipe.requests != [] && Go2RTC.IsRequest(w.pipe.requests[0])
    case Wake(i) => i < |w.pipe.sleepers| && w.pipe.sleepers[i].wakeAt <= w.now
    case Tick(now) => w.now <= now
  }

  function Apply(cfg: Config, w: World, step: Step): World
    requires Enabled(w, step)
  {
    match step
    case Start(at, reason) => Act(cfg, w, CleanupCycleStarted(at, reason), w.pipe)
    case Deliver => Act(cfg, w, w.pipe.replies[0], Take(w.pipe))
    case Flush => w.(pipe := Pipes.Flush(w.pipe))
    case Serve(outside) => w.(pipe := Pipes.Serve(w.pipe, Go2RTC.Answer(w.pipe.requests[0], w.now, outside)))
    case Wake(i) => w.(pipe := Pipes.Wake(w.pipe, i))
    case Tick(now) => w.(now := now)
  }

  /** The actor handles `m`, with `pipe` the lane without `m`. */
  function Act(cfg: Config, w: World, m: Msg, pipe: Pipe): World
  {
    var o := Handle(cfg.self, cfg.delay, w.actor, m);
    World(w.now, o.state, Emit(pipe, Go2RTCMsgs(o.sends), Sleepers(w.now, o.sleeps)),
          Record(cfg.self, w.log, w.actor, m, o.sends))
  }

  predicate IsReply(m: Msg) { m.StreamListFetched? || m.StreamHealthChecked? || m.StreamRemovalCompleted? }

  /** The guard of the reply branches. */
  predicate Accepts(self: string, s: State, m: Msg)
  {
    IsReply(m) && s.running && m.at == s.triggeredAt && (m.StreamRemovalCompleted? || m.requestedBy == self)
  }

  function Record(self: string, log: Log, s: State, m: Msg, sends: seq<Send>): Log
  {
    if m.CleanupCycleStarted? && !s.running then
      Log([], [], [], None, log.accepted + 1, log.finished, log.aborted)
    else if !Accepts(self, s, m) then log
    else if m.StreamListFetched? then
      if m.error != "" then log.(aborted := log.aborted + 1) else Noted(log.(list := m.streams), sends)
    else Noted(log.(delivered := log.delivered + [m]), sends)
  }

  /** A handler makes at most one send that is not a check: a removal or the summary. */
  function Noted(log: Log, sends: seq<Send>): Log
  {
    if sends == [] then log
    else if sends[0].ToParent? then
      log.(finished := log.finished + [sends[0].msg], summary := Some(sends[0].msg))
    else if sends[0].msg.RemoveStream? then log.(removes := log.removes + [sends[0].msg.name])
    else log
  }

  // ---------- runs ----------

  /** The world after a sequence of steps, provided each was enabled in its turn. */
  predicate Runs(cfg: Config, w: World, steps: seq<Step>)
    decreases |steps|, 0
  {
    steps == [] ||
    (Runs(cfg, w, steps[..|steps| - 1]) && Enabled(After(cfg, w, steps[..|steps| - 1]), steps[|steps| - 1]))
  }

  function After(cfg: Config, w: World, steps: seq<Step>): World
    requires Runs(cfg, w, steps)
    decreases |steps|, 1
  {
    if steps == [] then w
    else Apply(cfg, After(cfg, w, steps[..|steps| - 1]), steps[|steps| - 1])
  }

  // ---------- the invariant ----------

  predicate RequestOK(cfg: Config, at: Time, m: Msg)
  {
    || (m.RemoveStream? && m.at == at)
    || (m.CheckStreamHealth? && m.at == at && m.requestedBy == cfg.self && m.confirmAfter == cfg.delay
        && (m.attempt == 1 || m.attempt == 2))
  }

  predicate ReplyOK(cfg: Config, at: Time, now: Time, m: Msg)
  {
    || (m.StreamRemovalCompleted? && m.at == at)
    || (m.StreamHealthChecked? && m.at == at && m.requestedBy == cfg.self && m.confirmAfter == cfg.delay
        && (m.attempt == 1 || m.attempt == 2) && m.checkedAt <= now)
  }

  predicate SleeperOK(cfg: Config, at: Time, s: Sleeper)
  {
    RequestOK(cfg, at, s.check) && IsSecond(s.check)
  }

  function InFlight(p: Pipe): nat
  {
    |p.replies| + |p.requests| + |p.out| + |p.sleepers|
  }

  predicate Auditing(w: World) { w.actor.running && w.actor.outstanding != 0 }

  predicate Fetching(w: World) { w.actor.running && w.actor.outstanding == 0 }

  predicate FetchInFlight(cfg: Config, at: Time, p: Pipe)
  {
    var fetch := FetchStreamList(at, cfg.self);
    || p == EMPTY.(out := [fetch])
    || p == EMPTY.(requests := [fetch])
    || (p == EMPTY.(replies := p.replies) && |p.replies| == 1 && p.replies[0].StreamListFetched?
        && p.replies[0].at == at && p.replies[0].requestedBy == cfg.self)
  }

  /** `outstanding` is exactly the in-flight work, and what is in flight belongs to the running cycle. */
  ghost predicate Shape(cfg: Config, w: World)
  {
    && (!w.actor.running ==> w.pipe == EMPTY && w.actor.outstanding == 0 && w.actor.pending == map[])
    && (Fetching(w) ==>
          && FetchInFlight(cfg, w.actor.triggeredAt, w.pipe)
          && w.actor.pending == map[] && w.actor.aliveCount == 0 && w.actor.removedCount == 0
          && w.log.list == [] && w.log.delivered == [] && w.log.removes == [])
    && (Auditing(w) ==>
          && w.actor.outstanding == InFlight(w.pipe)
          && (forall m :: m in w.pipe.replies ==> ReplyOK(cfg, w.actor.triggeredAt, w.now, m))
          && (forall m :: m in w.pipe.requests ==> RequestOK(cfg, w.actor.triggeredAt, m))
          && (forall m :: m in w.pipe.out ==> RequestOK(cfg, w.actor.triggeredAt, m) && !IsSecond(m))
          && (forall s :: s in w.pipe.sleepers ==> SleeperOK(cfg, w.actor.triggeredAt, s)))
  }

  function SecondOf(name: string): Msg -> int
  {
    (m: Msg) => if IsSecond(m) && m.name == name then 1 else 0
  }

  /** Every suspect has a second check on its way. */
  ghost predicate PendingBacked(w: World)
  {
    forall x :: x in w.actor.pending ==> Total(Everywhere(SecondOf(x)), w.pipe) > 0
  }

  function Path(p: Pipe): seq<Msg> { p.replies + p.requests + p.out }

  ghost predicate NoFirst(q: seq<Msg>) { forall i :: 0 <= i < |q| ==> !IsFirst(q[i]) }

  ghost predicate FirstsLead(q: seq<Msg>)
  {
    forall i, j :: 0 <= i < j < |q| && IsSecond(q[i]) ==> !IsFirst(q[j])
  }

  /** First checks travel ahead of all second checks, and no first check is left once a removal was sent. */
  ghost predicate Ordered(w: World)
  {
    && FirstsLead(Path(w.pipe))
    && (w.pipe.sleepers != [] ==> NoFirst(w.pipe.out))
    && (w.log.removes != [] ==> NoFirst(Path(w.pipe)))
  }

  ghost predicate RemovedOnce(w: World)
  {
    && Distinct(w.log.removes)
    && forall x :: x in w.log.removes ==> x !in w.actor.pending
  }

  /** The first dead reply that a second check for `name`, made at `due` or later, goes back to. */
  ghost predicate Suspected(cfg: Config, delivered: seq<Msg>, name: string, due: Time)
  {
    exists i :: 0 <= i < |delivered| && DeadReply(delivered[i], 1) && delivered[i].name == name
                && delivered[i].checkedAt + cfg.delay <= due
  }

  /** Two dead replies for `name`, first attempt before second, at least the confirmation delay apart. */
  ghost predicate DoubleChecked(cfg: Config, delivered: seq<Msg>, name: string)
  {
    exists i, j :: 0 <= i < j < |delivered| && DeadReply(delivered[i], 1) && DeadReply(delivered[j], 2)
                   && delivered[i].name == delivered[j].name == name
                   && delivered[i].checkedAt + cfg.delay <= delivered[j].checkedAt
  }

  ghost predicate Evidence(cfg: Config, w: World)
  {
    && (forall m :: m in w.pipe.replies && IsSecond(m) && m.StreamHealthChecked? ==>
          Suspected(cfg, w.log.delivered, m.name, m.checkedAt))
    && (forall m :: m in w.pipe.requests && IsSecond(m) ==> Suspected(cfg, w.log.delivered, m.name, w.now))
    && (forall s :: s in w.pipe.sleepers && IsSecond(s.check) ==>
          Suspected(cfg, w.log.delivered, s.check.name, s.wakeAt))
    && (forall x :: x in w.log.removes ==> DoubleChecked(cfg, w.log.delivered, x))
  }

  // What one handled reply counts as.
  function AsAlive(): Msg -> int
  {
    (m: Msg) => if m.StreamHealthChecked? && m.error == "" && m.hasProducer then 1 else 0
  }
  function AsCheckError(): Msg -> int { (m: Msg) => if m.StreamHealthChecked? && m.error != "" then 1 else 0 }
  function AsDeadAgain(): Msg -> int { (m: Msg) => if DeadReply(m, 2) then 1 else 0 }
  function AsRemoved(): Msg -> int
  {
    (m: Msg) => if m.StreamRemovalCompleted? && m.error == "" && m.removed then 1 else 0
  }
  function AsNotRemoved(): Msg -> int
  {
    (m: Msg) => if m.StreamRemovalCompleted? && !(m.error == "" && m.removed) then 1 else 0
  }

  /** Entries of the list that are settled: alive, failed, removed, not removed, or a skipped repeat. */
  function Settled(log: Log): int
  {
    Sum(AsAlive(), log.delivered) + Sum(AsCheckError(), log.delivered) + Sum(AsRemoved(), log.delivered)
    + Sum(AsNotRemoved(), log.delivered) + (Sum(AsDeadAgain(), log.delivered) - |log.removes|)
  }

  function AsRemovalWork(): Msg -> int
  {
    (m: Msg) => if m.RemoveStream? || m.StreamRemovalCompleted? then 1 else 0
  }

  ghost predicate Tallied(w: World)
  {
    && (w.actor.running ==>
          && w.actor.aliveCount == Sum(AsAlive(), w.log.delivered)
          && w.actor.removedCount == Sum(AsRemoved(), w.log.delivered)
          && |w.log.list| == w.actor.outstanding + Settled(w.log)
          && |w.log.removes| == Total(Everywhere(AsRemovalWork()), w.pipe)
                                + Sum(AsRemoved(), w.log.delivered) + Sum(AsNotRemoved(), w.log.delivered)
          && |w.log.removes| <= Sum(AsDeadAgain(), w.log.delivered))
    && (w.actor.running ==> w.log.summary.None?)
    && (w.log.summary.Some? ==> SummaryOK(w.log, w.log.summary.value))
  }

  predicate SummaryOK(log: Log, summary: Msg)
  {
    && summary.CleanupCycleFinished?
    && summary.alive == Sum(AsAlive(), log.delivered)
    && summary.removedStreams == Sum(AsRemoved(), log.delivered)
    && |log.list| == Settled(log)
    && |log.removes| == Sum(AsRemoved(), log.delivered) + Sum(AsNotRemoved(), log.delivered)
    && |log.removes| <= Sum(AsDeadAgain(), log.delivered)
  }

  /** Every accepted cycle but the running one ended once: in a summary or in an abort. */
  predicate CyclesEnd(w: World)
  {
    w.log.accepted == |w.log.finished| + w.log.aborted + (if w.actor.running then 1 else 0)
  }

  ghost predicate Inv(cfg: Config, w: World)
  {
    && Shape(cfg, w)
    && PendingBacked(w)
    && Ordered(w)
    && RemovedOnce(w)
    && Evidence(cfg, w)
    && Tallied(w)
    && CyclesEnd(w)
  }
}
