/**
 * The counter's share of the system as one lane. Unlike the cleaner it abandons a run at the first
 * error, so messages of earlier runs stay in flight; they carry the earlier run's time stamp.
 */
module CounterLane {
  import opened Messages
  import opened Sums
  import opened Pipes
  import opened StreamCount
  import Go2RTC

  datatype Config = Config(self: string, delay: Duration)

  /** History of the current run (`list` .. `summary`) and of all runs; no actor reads it. */
  datatype Log = Log(
    list: seq<string>,
    listFailed: bool,
    summary: Option<Msg>,      // the run's AliveStreamCountCalculated, once sent
    requested: set<Time>,      // stamps of all requests handled, accepted or ignored
    accepted: seq<Time>,       // stamps of the accepted ones, oldest first
    results: seq<Msg>)         // all AliveStreamCountCalculated messages sent, oldest first

  datatype World = World(now: Time, actor: State, pipe: Pipe, log: Log)

  const INITIAL_LOG := Log([], false, None, {}, [], [])

  predicate Initial(w: World)
  {
    w.actor == INITIAL && w.pipe == EMPTY && w.log == INITIAL_LOG
  }

  datatype Step =
    | Start(at: Time, reason: string)  // the actor handles a CountAliveStreamsStarted
    | Deliver                          // the actor handles the oldest reply
    | Flush                            // the actor makes its next send
    | Serve(outside: Go2RTC.Outside)   // go2rtc answers the oldest request
    | Wake(i: nat)                     // a sleeping goroutine sends its second check
    | Tick(now: Time)

  /** Requests come from one ticker goroutine, so no two carry the same stamp. */
  predicate Enabled(w: World, step: Step)
  {
    match step
    case Start(at, _) => w.pipe.out == [] && at !in w.log.requested
    case Deliver => w.pipe.out == [] && w.pipe.replies != []
    case Flush => w.pipe.out != []
    case Serve(_) => w.pipe.requests != [] && Go2RTC.IsRequest(w.pipe.requests[0])
    case Wake(i) => i < |w.pipe.sleepers| && w.pipe.sleepers[i].wakeAt <= w.now
    case Tick(now) => w.now <= now
  }

  function Apply(cfg: Config, w: World, step: Step): World
    requires Enabled(w, step)
  {
    match step
    case Start(at, reason) => Act(cfg, w, CountAliveStreamsStarted(at, reason), w.pipe)
    case Deliver => Act(cfg, w, w.pipe.replies[0], Take(w.pipe))
    case Flush => w.(pipe := Pipes.Flush(w.pipe))
    case Serve(outside) => w.(pipe := Pipes.Serve(w.pipe, Go2RTC.Answer(w.pipe.requests[0], w.now, outside)))
    case Wake(i) => w.(pipe := Pipes.Wake(w.pipe, i))
    case Tick(now) => w.(now := now)
  }

  /** The actor handles `m`, with `pipe` the lane without `m`. */
  function Act(cfg: Config, w: World, m: Msg, pipe: Pipe): World
  {
    var o := Handle(cfg.self, cfg.delay, w.actor, m);
    World(w.now, o.state, Emit(pipe, Go2RTCMsgs(o.sends), Sleepers(w.now, o.sleeps)),
          Record(cfg.self, w.log, w.actor, m, o.sends))
  }

  /** The guard of the reply branches. */
  predicate Accepts(self: string, s: State, m: Msg)
  {
    (m.StreamListFetched? || m.StreamHealthChecked?) && s.running && m.at == s.triggeredAt && m.requestedBy == self
  }

  function Record(self: string, log: Log, s: State, m: Msg, sends: seq<Send>): Log
  {
    if m.CountAliveStreamsStarted? then
      var log := log.(requested := log.requested + {m.at});
      if s.running then log
      else Log([], false, None, log.requested, log.accepted + [m.at], log.results)
    else if !Accepts(self, s, m) then log
    else
      var log := if m.StreamListFetched? then log.(list := m.streams, listFailed := m.error != "") else log;
      if sends != [] && sends[0].ToParent? then
        log.(results := log.results + [sends[0].msg], summary := Some(sends[0].msg))
      else log
  }

  // ---------- runs ----------

  predicate Runs(cfg: Config, w: World, steps: seq<Step>)
    decreases |steps|, 0
  {
    steps == [] ||
    (Runs(cfg, w, steps[..|steps| - 1]) && Enabled(After(cfg, w, steps[..|steps| - 1]), steps[|steps| - 1]))
  }

  function After(cfg: Config, w: World, steps: seq<Step>): World
    requires Runs(cfg, w, steps)
    decreases |steps|, 1
  {
    if steps == [] then w
    else Apply(cfg, After(cfg, w, steps[..|steps| - 1]), steps[|steps| - 1])
  }

  // ---------- the invariant ----------

  predicate IsCheck(m: Msg) { IsFirst(m) || IsSecond(m) }

  predicate RequestOK(cfg: Config, log: Log, m: Msg)
  {
    && (m.FetchStreamList? || (m.CheckStreamHealth? && IsCheck(m) && m.confirmAfter == cfg.delay))
    && m.requestedBy == cfg.self && m.at in log.requested
  }

  predicate ReplyOK(cfg: Config, log: Log, m: Msg)
  {
    && (m.StreamListFetched? || (m.StreamHealthChecked? && IsCheck(m) && m.confirmAfter == cfg.delay))
    && m.requestedBy == cfg.self && m.at in log.requested
  }

  /** Whatever is in flight, for this run or an abandoned one, is stamped by some handled request. */
  ghost predicate Stamped(cfg: Config, w: World)
  {
    && (forall m :: m in w.pipe.replies ==> ReplyOK(cfg, w.log, m))
    && (forall m :: m in w.pipe.requests ==> RequestOK(cfg, w.log, m))
    && (forall m :: m in w.pipe.out ==> RequestOK(cfg, w.log, m))
    && (forall s :: s in w.pipe.sleepers ==> RequestOK(cfg, w.log, s.check) && IsSecond(s.check))
    && (w.actor.running ==> w.actor.triggeredAt in w.log.requested)
  }

  predicate Auditing(w: World) { w.actor.running && w.actor.outstanding != 0 }

  predicate Fetching(w: World) { w.actor.running && w.actor.outstanding == 0 }

  function ChecksOf(at: Time): Msg -> int { (m: Msg) => if IsCheck(m) && m.at == at then 1 else 0 }

  function FetchesOf(at: Time): Msg -> int
  {
    (m: Msg) => if (m.FetchStreamList? || m.StreamListFetched?) && m.at == at then 1 else 0
  }

  function SecondOf(at: Time, name: string): Msg -> int
  {
    (m: Msg) => if IsSecond(m) && m.at == at && m.name == name then 1 else 0
  }

  /** `outstanding` is exactly the running run's own in-flight work, stale messages left aside. */
  ghost predicate OwnWork(w: World)
  {
    && (!w.actor.running ==> w.actor.outstanding == 0 && w.actor.pending == map[])
    && (w.actor.running ==>
          var at := w.actor.triggeredAt;
          && w.actor.outstanding == Total(Everywhere(ChecksOf(at)), w.pipe)
          && Total(Everywhere(FetchesOf(at)), w.pipe) == (if Fetching(w) then 1 else 0)
          && (Fetching(w) ==> w.actor.aliveCount == 0 && w.actor.pending == map[])
          && w.log.summary.None?)
  }

  ghost predicate PendingBacked(w: World)
  {
    w.actor.running ==>
      forall x :: x in w.actor.pending ==> Total(Everywhere(SecondOf(w.actor.triggeredAt, x)), w.pipe) > 0
  }

  /** Every accepted request but a running one got exactly one result, stamped with the request's time. */
  predicate OneResultEach(w: World)
  {
    && |w.log.accepted| == |w.log.results| + (if w.actor.running then 1 else 0)
    && (w.actor.running ==> w.log.accepted[|w.log.results|] == w.actor.triggeredAt)
    && (forall i :: 0 <= i < |w.log.results| ==>
          w.log.results[i].AliveStreamCountCalculated? && w.log.results[i].at == w.log.accepted[i])
  }

  ghost predicate Inv(cfg: Config, w: World)
  {
    Stamped(cfg, w) && OwnWork(w) && PendingBacked(w) && OneResultEach(w)
  }
}
