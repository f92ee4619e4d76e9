/** The full system moves along the steps of both lanes: each actor sees only its own requester's traffic. */
module SystemLanes {
  import opened Messages
  import opened Pipes
  import opened System
  import StreamCleaner
  import StreamCount
  import Go2RTC
  import Master
  import CleanerLane
  import CounterLane

  lemma {:induction false} FilterAppend(p: Msg -> bool, a: seq<Msg>, b: seq<Msg>)
    ensures Filter(p, a + b) == Filter(p, a) + Filter(p, b)
  {
    if a == [] {
      assert a + b == b;
    } else {
      var c := a + b;
      assert c[0] == a[0] && c[1..] == a[1..] + b;
      FilterAppend(p, a[1..], b);
      assert Filter(p, c) == (if p(a[0]) then [a[0]] else []) + Filter(p, a[1..] + b);
    }
  }

  lemma FilterSnoc(p: Msg -> bool, a: seq<Msg>, m: Msg)
    ensures Filter(p, a + [m]) == if p(m) then Filter(p, a) + [m] else Filter(p, a)
  {
    FilterAppend(p, a, [m]);
  }

  // ---------- addresses ----------

  lemma ChecksAreRequests(id: string, delay: Duration, at: Time, streams: seq<string>)
    ensures forall send :: send in AllToGo2RTC(FirstChecks(id, delay, at, streams)) ==>
              send.ToGo2RTC? && send.msg.CheckStreamHealth? && send.msg.requestedBy == id
  {}

  lemma CleanerSends(id: string, delay: Duration, s: StreamCleaner.State, m: Msg)
    ensures var o := StreamCleaner.Handle(id, delay, s, m);
            && (forall send :: send in o.sends && send.ToGo2RTC? ==> CleanerRequest(id)(send.msg))
            && (forall send :: send in o.sends && send.ToParent? ==> send.msg.CleanupCycleFinished?)
            && (forall c :: c in o.sleeps ==> CleanerRequest(id)(c))
  {
    if m.StreamListFetched? { ChecksAreRequests(id, delay, m.at, m.streams); }
  }

  lemma CounterSends(id: string, delay: Duration, s: StreamCount.State, m: Msg)
    ensures var o := StreamCount.Handle(id, delay, s, m);
            && (forall send :: send in o.sends && send.ToGo2RTC? ==> CounterRequest(id)(send.msg))
            && (forall send :: send in o.sends && send.ToParent? ==> send.msg.AliveStreamCountCalculated?)
            && (forall c :: c in o.sleeps ==> CounterRequest(id)(c))
  {
    if m.StreamListFetched? { ChecksAreRequests(id, delay, m.at, m.streams); }
  }

  lemma StepKeepsAddresses(cfg: Config, s: Sys, step: Step)
    requires Addressed(cfg, s) && Enabled(s, step)
    ensures Addressed(cfg, Apply(cfg, s, step))
  {
    if step.HandleC? {
      CleanerSends(cfg.cleanerId, cfg.delay, s.cleaner, s.boxC[0]);
    } else if step.HandleK? {
      CounterSends(cfg.counterId, cfg.delay, s.counter, s.boxK[0]);
    } else if !step.HandleG? {
      MovesKeepAddresses(cfg, s, step);
    }
  }

  lemma MovesKeepAddresses(cfg: Config, s: Sys, step: Step)
    requires Addressed(cfg, s) && Enabled(s, step) && !step.HandleC? && !step.HandleK? && !step.HandleG?
    ensures Addressed(cfg, Apply(cfg, s, step))
  {}

  // ---------- the cleaner's lane ----------

  lemma IgnoredByCleaner(cfg: Config, s: StreamCleaner.State, m: Msg)
    requires !m.CleanupCycleStarted? && !CleanerReply(cfg.cleanerId)(m)
    ensures StreamCleaner.Handle(cfg.cleanerId, cfg.delay, s, m) == StreamCleaner.Quiet(s)
    ensures forall log :: CleanerLane.Record(cfg.cleanerId, log, s, m, []) == log
  {}

  lemma HeadFirst(m: Msg, a: seq<Msg>, b: seq<Msg>, c: seq<Msg>, d: seq<Msg>)
    ensures ([m] + a) + b + c + d == [m] + (a + b + c + d)
    ensures ([m] + (a + b + c + d))[1..] == a + b + c + d && [] + a == a
  {}

  /** The cleaner's lane without the message at the head of its mailbox. */
  lemma CleanerHead(cfg: Config, s: Sys)
    requires Enabled(s, HandleC)
    ensures var w, rest := CleanerWorld(cfg, s), CleanerWorld(cfg, s.(boxC := s.boxC[1..]));
            && w.pipe.out == []
            && if CleanerReply(cfg.cleanerId)(s.boxC[0])
               then w.pipe.replies == [s.boxC[0]] + rest.pipe.replies && rest.pipe == Take(w.pipe)
               else rest.pipe == w.pipe
  {
    var mine := CleanerReply(cfg.cleanerId);
    HeadFirst(s.boxC[0], Filter(mine, s.boxC[1..]), Filter(mine, CleanerMsgs(s.outM)), Filter(mine, s.boxM),
              Filter(mine, s.outG));
  }

  lemma CleanerActs(cfg: Config, s: Sys, o: Outcome<StreamCleaner.State>, log: CleanerLane.Log)
    requires s.outC == [] && forall c :: c in o.sleeps ==> c.CheckStreamHealth?
    ensures var rest := CleanerWorld(cfg, s);
            CleanerWorld(cfg, s.(cleaner := o.state, outC := o.sends, sleepC := s.sleepC + Sleepers(s.now, o.sleeps),
                                 cleanerLog := log))
            == CleanerLane.World(s.now, o.state, Emit(rest.pipe, Go2RTCMsgs(o.sends), Sleepers(s.now, o.sleeps)), log)
  {}

  lemma CleanerHandles(cfg: Config, s: Sys)
    requires Enabled(s, HandleC)
    ensures CleanerFollows(cfg, s, HandleC)
  {
    var m := s.boxC[0];
    var rest := s.(boxC := s.boxC[1..]);
    var o := StreamCleaner.Handle(cfg.cleanerId, cfg.delay, s.cleaner, m);
    var log := CleanerLane.Record(cfg.cleanerId, s.cleanerLog, s.cleaner, m, o.sends);
    CleanerHead(cfg, s);
    CleanerActs(cfg, rest, o, log);
    if !m.CleanupCycleStarted? && !CleanerReply(cfg.cleanerId)(m) {
      IgnoredByCleaner(cfg, s.cleaner, m);
      assert Emit(CleanerWorld(cfg, s).pipe, Go2RTCMsgs([]), Sleepers(s.now, [])) == CleanerWorld(cfg, s).pipe;
    }
  }

  /** The step is a step of the cleaner's lane, or leaves the lane as it is. */
  ghost predicate CleanerFollows(cfg: Config, s: Sys, step: Step)
    requires Enabled(s, step)
  {
    var w, w' := CleanerWorld(cfg, s), CleanerWorld(cfg, Apply(cfg, s, step));
    match CleanerStep(cfg, s, step)
    case None => w' == w
    case Some(own) => CleanerLane.Enabled(w, own) && CleanerLane.Apply(CleanerCfg(cfg), w, own) == w'
  }

  // ---------- the master in between ----------

  lemma MsgsOfTwo(d: Master.Destination, e: Master.Destination)
    ensures CleanerMsgs([d]) == if d.ToCleaner? then [d.msg] else []
    ensures CounterMsgs([d]) == if d.ToCounter? then [d.msg] else []
    ensures CleanerMsgs([d, e]) == CleanerMsgs([d]) + CleanerMsgs([e])
    ensures CounterMsgs([d, e]) == CounterMsgs([d]) + CounterMsgs([e])
  {
    assert [d, e][1..] == [e];
  }

  lemma MasterForwards(m: Msg, now: Time)
    ensures CleanerMsgs(Master.Handle(m, now)) ==
            if m.StreamListFetched? || m.StreamHealthChecked? || m.StreamRemovalCompleted? then [m]
            else if m.TriggerCleanup? then [CleanupCycleStarted(now, m.reason)] else []
    ensures CounterMsgs(Master.Handle(m, now)) ==
            if m.StreamListFetched? || m.StreamHealthChecked? || m.CountAliveStreamsStarted? then [m] else []
  {
    var sends := Master.Handle(m, now);
    if |sends| == 2 {
      MsgsOfTwo(sends[0], sends[1]);
      MsgsOfTwo(sends[1], sends[0]);
      assert sends == [sends[0], sends[1]];
    } else if |sends| == 1 {
      MsgsOfTwo(sends[0], sends[0]);
      assert sends == [sends[0]];
    }
  }

  lemma ForwardsAllReplies(m: Msg, now: Time, cleanerId: string, counterId: string)
    ensures Filter(CleanerReply(cleanerId), CleanerMsgs(Master.Handle(m, now))) == Filter(CleanerReply(cleanerId), [m])
    ensures Filter(CounterReply(counterId), CounterMsgs(Master.Handle(m, now))) == Filter(CounterReply(counterId), [m])
  {
    MasterForwards(m, now);
    FilterTwo(CleanerReply(cleanerId), m, m);
    FilterTwo(CounterReply(counterId), m, m);
    if m.TriggerCleanup? {
      FilterTwo(CleanerReply(cleanerId), CleanupCycleStarted(now, m.reason), m);
    }
  }

  lemma MasterTakes(p: Msg -> bool, a: seq<Msg>, sent: seq<Msg>, box: seq<Msg>, far: seq<Msg>)
    requires box != [] && Filter(p, sent) == Filter(p, box[..1])
    ensures Filter(p, a) + Filter(p, sent) + Filter(p, box[1..]) + Filter(p, far)
            == Filter(p, a) + Filter(p, []) + Filter(p, box) + Filter(p, far)
  {
    assert box == box[..1] + box[1..];
    FilterAppend(p, box[..1], box[1..]);
  }

  lemma MasterKeepsCleaner(cfg: Config, s: Sys)
    requires Enabled(s, HandleM)
    ensures CleanerWorld(cfg, s.(boxM := s.boxM[1..], outM := Master.Handle(s.boxM[0], s.now))) == CleanerWorld(cfg, s)
  {
    assert s.boxM[..1] == [s.boxM[0]];
    ForwardsAllReplies(s.boxM[0], s.now, cfg.cleanerId, cfg.counterId);
    MasterTakes(CleanerReply(cfg.cleanerId), s.boxC, CleanerMsgs(Master.Handle(s.boxM[0], s.now)), s.boxM, s.outG);
  }

  lemma MasterKeepsCounter(cfg: Config, s: Sys)
    requires Enabled(s, HandleM)
    ensures CounterWorld(cfg, s.(boxM := s.boxM[1..], outM := Master.Handle(s.boxM[0], s.now))) == CounterWorld(cfg, s)
  {
    assert s.boxM[..1] == [s.boxM[0]];
    ForwardsAllReplies(s.boxM[0], s.now, cfg.cleanerId, cfg.counterId);
    MasterTakes(CounterReply(cfg.counterId), s.boxK, CounterMsgs(Master.Handle(s.boxM[0], s.now)), s.boxM, s.outG);
  }

  lemma MsgsSplit(sends: seq<Master.Destination>)
    requires sends != []
    ensures CleanerMsgs(sends) == CleanerMsgs(sends[..1]) + CleanerMsgs(sends[1..])
    ensures CounterMsgs(sends) == CounterMsgs(sends[..1]) + CounterMsgs(sends[1..])
  {
    MsgsOfTwo(sends[0], sends[0]);
    assert sends[..1] == [sends[0]];
  }

  lemma Passes(p: Msg -> bool, box: seq<Msg>, sent: seq<Msg>, left: seq<Msg>)
    ensures Filter(p, box + sent) + Filter(p, left) == Filter(p, box) + Filter(p, sent + left)
  {
    FilterAppend(p, box, sent);
    FilterAppend(p, sent, left);
  }

  lemma MasterSendKeepsCleaner(cfg: Config, s: Sys)
    requires Enabled(s, FlushM)
    ensures CleanerWorld(cfg, s.(outM := s.outM[1..], boxC := s.boxC + CleanerMsgs(s.outM[..1])))
            == CleanerWorld(cfg, s)
  {
    MsgsSplit(s.outM);
    Passes(CleanerReply(cfg.cleanerId), s.boxC, CleanerMsgs(s.outM[..1]), CleanerMsgs(s.outM[1..]));
  }

  lemma MasterSendKeepsCounter(cfg: Config, s: Sys)
    requires Enabled(s, FlushM)
    ensures CounterWorld(cfg, s.(outM := s.outM[1..], boxK := s.boxK + CounterMsgs(s.outM[..1])))
            == CounterWorld(cfg, s)
  {
    MsgsSplit(s.outM);
    Passes(CounterReply(cfg.counterId), s.boxK, CounterMsgs(s.outM[..1]), CounterMsgs(s.outM[1..]));
  }

  /** What the master's next send delivers. */
  lemma MasterSendIs(cfg: Config, s: Sys)
    requires Enabled(s, FlushM)
    ensures Apply(cfg, s, FlushM) ==
            s.(outM := s.outM[1..], boxC := s.boxC + CleanerMsgs(s.outM[..1]),
               boxK := s.boxK + CounterMsgs(s.outM[..1]))
  {
    MsgsOfTwo(s.outM[0], s.outM[0]);
    assert s.outM[..1] == [s.outM[0]];
    assert s.boxC + [] == s.boxC && s.boxK + [] == s.boxK;
  }

  // ---------- a message joins the master's or go2rtc's mailbox ----------

  lemma JoinsMaster(cfg: Config, s: Sys, m: Msg)
    requires !CleanerReply(cfg.cleanerId)(m)
    ensures CleanerWorld(cfg, s.(boxM := s.boxM + [m])) == CleanerWorld(cfg, s)
  {
    FilterSnoc(CleanerReply(cfg.cleanerId), s.boxM, m);
  }

  lemma JoinsMasterK(cfg: Config, s: Sys, m: Msg)
    requires !CounterReply(cfg.counterId)(m)
    ensures CounterWorld(cfg, s.(boxM := s.boxM + [m])) == CounterWorld(cfg, s)
  {
    FilterSnoc(CounterReply(cfg.counterId), s.boxM, m);
  }

  lemma JoinsGo2RTC(cfg: Config, s: Sys, m: Msg)
    ensures var w, w' := CleanerWorld(cfg, s), CleanerWorld(cfg, s.(boxG := s.boxG + [m]));
            w' == if CleanerRequest(cfg.cleanerId)(m) then w.(pipe := w.pipe.(requests := w.pipe.requests + [m])) else w
  {
    FilterSnoc(CleanerRequest(cfg.cleanerId), s.boxG, m);
  }

  lemma JoinsGo2RTCK(cfg: Config, s: Sys, m: Msg)
    ensures var w, w' := CounterWorld(cfg, s), CounterWorld(cfg, s.(boxG := s.boxG + [m]));
            w' == if CounterRequest(cfg.counterId)(m) then w.(pipe := w.pipe.(requests := w.pipe.requests + [m])) else w
  {
    FilterSnoc(CounterRequest(cfg.counterId), s.boxG, m);
  }

  // ---------- go2rtc at the far end ----------

  lemma FilterTwo(p: Msg -> bool, a: Msg, b: Msg)
    ensures Filter(p, [a]) == if p(a) then [a] else []
    ensures Filter(p, [a, b]) == Filter(p, [a]) + Filter(p, [b])
  {
    FilterAppend(p, [a], [b]);
    assert [a] + [b] == [a, b];
  }

  lemma AnswersBelong(m: Msg, now: Time, outside: Go2RTC.Outside, mine: Msg -> bool, asked: Msg -> bool)
    requires forall x :: asked(x) ==> Go2RTC.IsRequest(x)
    requires Go2RTC.IsRequest(m) ==> mine(Go2RTC.Answer(m, now, outside)) == asked(m)
    requires forall x :: mine(x) ==> !x.StreamRemoved?
    ensures Filter(mine, Go2RTC.Handle(m, now, outside)) == if asked(m) then [Go2RTC.Answer(m, now, outside)] else []
  {
    var sends := Go2RTC.Handle(m, now, outside);
    if |sends| == 2 {
      FilterTwo(mine, sends[0], sends[1]);
      FilterTwo(mine, sends[1], sends[0]);
      assert sends == [sends[0], sends[1]];
    } else if |sends| == 1 {
      FilterTwo(mine, sends[0], sends[0]);
      assert sends == [sends[0]];
    }
  }

  lemma HeadOf(m: Msg, rest: seq<Msg>)
    ensures [] + rest == rest && ([m] + rest)[1..] == rest
  {}

  lemma EmptyEnd(q: seq<Msg>)
    ensures q + [] == q
  {}

  lemma Go2RTCServesCleaner(cfg: Config, s: Sys, outside: Go2RTC.Outside)
    requires Enabled(s, HandleG(outside))
    ensures var w := CleanerWorld(cfg, s);
            var w' := CleanerWorld(cfg, s.(boxG := s.boxG[1..], outG := Go2RTC.Handle(s.boxG[0], s.now, outside)));
            if CleanerRequest(cfg.cleanerId)(s.boxG[0])
            then w.pipe.requests != [] && w.pipe.requests[0] == s.boxG[0]
                 && w' == w.(pipe := Pipes.Serve(w.pipe, Go2RTC.Answer(s.boxG[0], s.now, outside)))
            else w' == w
  {
    var m := s.boxG[0];
    var mine, asked := CleanerReply(cfg.cleanerId), CleanerRequest(cfg.cleanerId);
    AnswersBelong(m, s.now, outside, mine, asked);
    HeadOf(m, Filter(asked, s.boxG[1..]));
    EmptyEnd(Filter(mine, s.boxC) + Filter(mine, CleanerMsgs(s.outM)) + Filter(mine, s.boxM));
  }

  lemma Go2RTCServesCounter(cfg: Config, s: Sys, outside: Go2RTC.Outside)
    requires Enabled(s, HandleG(outside))
    ensures var w := CounterWorld(cfg, s);
            var w' := CounterWorld(cfg, s.(boxG := s.boxG[1..], outG := Go2RTC.Handle(s.boxG[0], s.now, outside)));
            if CounterRequest(cfg.counterId)(s.boxG[0])
            then w.pipe.requests != [] && w.pipe.requests[0] == s.boxG[0]
                 && w' == w.(pipe := Pipes.Serve(w.pipe, Go2RTC.Answer(s.boxG[0], s.now, outside)))
            else w' == w
  {
    var m := s.boxG[0];
    var mine, asked := CounterReply(cfg.counterId), CounterRequest(cfg.counterId);
    AnswersBelong(m, s.now, outside, mine, asked);
    HeadOf(m, Filter(asked, s.boxG[1..]));
    EmptyEnd(Filter(mine, s.boxK) + Filter(mine, CounterMsgs(s.outM)) + Filter(mine, s.boxM));
  }

  /** Moving `c` from the front of one queue to the end of the next keeps the whole lane. */
  lemma Regroup<T>(a: seq<T>, b: seq<T>, c: seq<T>, d: seq<T>)
    ensures a + (b + c) + d == a + b + (c + d)
  {}

  lemma Go2RTCSendKeepsCleaner(cfg: Config, s: Sys)
    requires Enabled(s, FlushG)
    ensures CleanerWorld(cfg, s.(outG := s.outG[1..], boxM := s.boxM + [s.outG[0]])) == CleanerWorld(cfg, s)
  {
    var mine := CleanerReply(cfg.cleanerId);
    var m := s.outG[0];
    FilterAppend(mine, s.boxM, [m]);
    FilterTwo(mine, m, m);
    Regroup(Filter(mine, s.boxC) + Filter(mine, CleanerMsgs(s.outM)), Filter(mine, s.boxM), Filter(mine, [m]),
            Filter(mine, s.outG[1..]));
  }

  lemma Go2RTCSendKeepsCounter(cfg: Config, s: Sys)
    requires Enabled(s, FlushG)
    ensures CounterWorld(cfg, s.(outG := s.outG[1..], boxM := s.boxM + [s.outG[0]])) == CounterWorld(cfg, s)
  {
    var mine := CounterReply(cfg.counterId);
    var m := s.outG[0];
    FilterAppend(mine, s.boxM, [m]);
    FilterTwo(mine, m, m);
    Regroup(Filter(mine, s.boxK) + Filter(mine, CounterMsgs(s.outM)), Filter(mine, s.boxM), Filter(mine, [m]),
            Filter(mine, s.outG[1..]));
  }

  // ---------- every step, seen from the cleaner ----------

  lemma StepIsCleanerStep(cfg: Config, s: Sys, step: Step)
    requires cfg.cleanerId != cfg.counterId && Addressed(cfg, s) && Enabled(s, step)
    ensures CleanerFollows(cfg, s, step)
  {
    if step.HandleC? || step.HandleK? || step.HandleM? || step.HandleG? {
      HandlerIsCleanerStep(cfg, s, step);
    } else {
      MoveIsCleanerStep(cfg, s, step);
    }
  }

  lemma HandlerIsCleanerStep(cfg: Config, s: Sys, step: Step)
    requires Enabled(s, step) && (step.HandleC? || step.HandleK? || step.HandleM? || step.HandleG?)
    ensures CleanerFollows(cfg, s, step)
  {
    match step
    case HandleC => CleanerHandles(cfg, s);
    case HandleK =>
    case HandleM => MasterKeepsCleaner(cfg, s);
    case HandleG(outside) => Go2RTCServesCleaner(cfg, s, outside);
  }

  lemma MoveIsCleanerStep(cfg: Config, s: Sys, step: Step)
    requires cfg.cleanerId != cfg.counterId && Addressed(cfg, s) && Enabled(s, step)
    requires !step.HandleC? && !step.HandleK? && !step.HandleM? && !step.HandleG?
    ensures CleanerFollows(cfg, s, step)
  {
    match step
    case Trigger(reason) => JoinsMaster(cfg, s, TriggerCleanup(reason));
    case CountTrigger(at, first) => JoinsMaster(cfg, s, CountAliveStreamsStarted(at, CountReason(first)));
    case FlushC => CleanerSendIsCleanerStep(cfg, s);
    case FlushK => CounterSendIsCleanerStep(cfg, s);
    case FlushM =>
      MasterSendIs(cfg, s);
      MasterSendKeepsCleaner(cfg, s);
    case FlushG => Go2RTCSendKeepsCleaner(cfg, s);
    case WakeC(i) => WakeIsCleanerStep(cfg, s, i);
    case WakeK(i) => OtherWakeIsNoCleanerStep(cfg, s, i);
    case Tick(_) =>
  }

  lemma WakeIsCleanerStep(cfg: Config, s: Sys, i: nat)
    requires Addressed(cfg, s) && Enabled(s, WakeC(i))
    ensures CleanerFollows(cfg, s, WakeC(i))
  {
    assert s.sleepC[i] in s.sleepC;
    JoinsGo2RTC(cfg, s, s.sleepC[i].check);
  }

  lemma OtherWakeIsNoCleanerStep(cfg: Config, s: Sys, i: nat)
    requires cfg.cleanerId != cfg.counterId && Addressed(cfg, s) && Enabled(s, WakeK(i))
    ensures CleanerFollows(cfg, s, WakeK(i))
  {
    assert s.sleepK[i] in s.sleepK;
    JoinsGo2RTC(cfg, s, s.sleepK[i].check);
  }

  lemma CleanerSendIsCleanerStep(cfg: Config, s: Sys)
    requires Addressed(cfg, s) && Enabled(s, FlushC)
    ensures CleanerFollows(cfg, s, FlushC)
  {
    assert s.outC[0] in s.outC;
    var rest := s.(outC := s.outC[1..]);
    if s.outC[0].ToGo2RTC? {
      JoinsGo2RTC(cfg, rest, s.outC[0].msg);
    } else {
      JoinsMaster(cfg, rest, s.outC[0].msg);
    }
  }

  lemma CounterSendIsCleanerStep(cfg: Config, s: Sys)
    requires cfg.cleanerId != cfg.counterId && Addressed(cfg, s) && Enabled(s, FlushK)
    ensures CleanerFollows(cfg, s, FlushK)
  {
    assert s.outK[0] in s.outK;
    var rest := s.(outK := s.outK[1..]);
    if s.outK[0].ToGo2RTC? {
      JoinsGo2RTC(cfg, rest, s.outK[0].msg);
    } else {
      JoinsMaster(cfg, rest, s.outK[0].msg);
    }
  }

  // ---------- the counter's lane ----------

  lemma IgnoredByCounter(cfg: Config, s: StreamCount.State, m: Msg)
    requires !m.CountAliveStreamsStarted? && !CounterReply(cfg.counterId)(m)
    ensures StreamCount.Handle(cfg.counterId, cfg.delay, s, m) == StreamCount.Quiet(s)
    ensures forall log :: CounterLane.Record(cfg.counterId, log, s, m, []) == log
  {}

  /** The counter's lane without the message at the head of its mailbox. */
  lemma CounterHead(cfg: Config, s: Sys)
    requires Enabled(s, HandleK)
    ensures var w, rest := CounterWorld(cfg, s), CounterWorld(cfg, s.(boxK := s.boxK[1..]));
            && w.pipe.out == []
            && if CounterReply(cfg.counterId)(s.boxK[0])
               then w.pipe.replies == [s.boxK[0]] + rest.pipe.replies && rest.pipe == Take(w.pipe)
               else rest.pipe == w.pipe
  {
    var mine := CounterReply(cfg.counterId);
    HeadFirst(s.boxK[0], Filter(mine, s.boxK[1..]), Filter(mine, CounterMsgs(s.outM)), Filter(mine, s.boxM),
              Filter(mine, s.outG));
  }

  lemma CounterActs(cfg: Config, s: Sys, o: Outcome<StreamCount.State>, log: CounterLane.Log)
    requires s.outK == [] && forall c :: c in o.sleeps ==> c.CheckStreamHealth?
    ensures var rest := CounterWorld(cfg, s);
            CounterWorld(cfg, s.(counter := o.state, outK := o.sends, sleepK := s.sleepK + Sleepers(s.now, o.sleeps),
                                 counterLog := log))
            == CounterLane.World(s.now, o.state, Emit(rest.pipe, Go2RTCMsgs(o.sends), Sleepers(s.now, o.sleeps)), log)
  {}

  /** The stamp of a request the counter is about to handle is new to it. */
  lemma NextStampIsFresh(s: Sys)
    requires FreshStamps(s) && s.boxK != [] && s.boxK[0].CountAliveStreamsStarted?
    ensures s.boxK[0].at !in s.counterLog.requested
  {
    assert QueuedStamps(s)[0] == s.boxK[0].at;
  }

  lemma CounterHandles(cfg: Config, s: Sys)
    requires Enabled(s, HandleK) && FreshStamps(s)
    ensures CounterFollows(cfg, s, HandleK)
  {
    var m := s.boxK[0];
    var rest := s.(boxK := s.boxK[1..]);
    var o := StreamCount.Handle(cfg.counterId, cfg.delay, s.counter, m);
    var log := CounterLane.Record(cfg.counterId, s.counterLog, s.counter, m, o.sends);
    CounterHead(cfg, s);
    CounterActs(cfg, rest, o, log);
    if m.CountAliveStreamsStarted? {
      NextStampIsFresh(s);
    } else if !CounterReply(cfg.counterId)(m) {
      IgnoredByCounter(cfg, s.counter, m);
      assert Emit(CounterWorld(cfg, s).pipe, Go2RTCMsgs([]), Sleepers(s.now, [])) == CounterWorld(cfg, s).pipe;
    }
  }

  /** The step is a step of the counter's lane, or leaves the lane as it is. */
  ghost predicate CounterFollows(cfg: Config, s: Sys, step: Step)
    requires Enabled(s, step)
  {
    var w, w' := CounterWorld(cfg, s), CounterWorld(cfg, Apply(cfg, s, step));
    match CounterStep(cfg, s, step)
    case None => w' == w
    case Some(own) => CounterLane.Enabled(w, own) && CounterLane.Apply(CounterCfg(cfg), w, own) == w'
  }

  lemma CounterSendIsCounterStep(cfg: Config, s: Sys)
    requires Addressed(cfg, s) && Enabled(s, FlushK)
    ensures CounterFollows(cfg, s, FlushK)
  {
    assert s.outK[0] in s.outK;
    var rest := s.(outK := s.outK[1..]);
    if s.outK[0].ToGo2RTC? {
      JoinsGo2RTCK(cfg, rest, s.outK[0].msg);
    } else {
      JoinsMasterK(cfg, rest, s.outK[0].msg);
    }
  }

  lemma CleanerSendIsCounterStep(cfg: Config, s: Sys)
    requires cfg.cleanerId != cfg.counterId && Addressed(cfg, s) && Enabled(s, FlushC)
    ensures CounterFollows(cfg, s, FlushC)
  {
    assert s.outC[0] in s.outC;
    var rest := s.(outC := s.outC[1..]);
    if s.outC[0].ToGo2RTC? {
      JoinsGo2RTCK(cfg, rest, s.outC[0].msg);
    } else {
      JoinsMasterK(cfg, rest, s.outC[0].msg);
    }
  }

  // ---------- every step, seen from the counter ----------

  lemma StepIsCounterStep(cfg: Config, s: Sys, step: Step)
    requires cfg.cleanerId != cfg.counterId && Addressed(cfg, s) && FreshStamps(s) && Enabled(s, step)
    ensures CounterFollows(cfg, s, step)
  {
    if step.HandleC? || step.HandleK? || step.HandleM? || step.HandleG? {
      HandlerIsCounterStep(cfg, s, step);
    } else {
      MoveIsCounterStep(cfg, s, step);
    }
  }

  lemma HandlerIsCounterStep(cfg: Config, s: Sys, step: Step)
    requires FreshStamps(s) && Enabled(s, step) && (step.HandleC? || step.HandleK? || step.HandleM? || step.HandleG?)
    ensures CounterFollows(cfg, s, step)
  {
    match step
    case HandleC =>
    case HandleK => CounterHandles(cfg, s);
    case HandleM => MasterKeepsCounter(cfg, s);
    case HandleG(outside) => Go2RTCServesCounter(cfg, s, outside);
  }

  lemma MoveIsCounterStep(cfg: Config, s: Sys, step: Step)
    requires cfg.cleanerId != cfg.counterId && Addressed(cfg, s) && Enabled(s, step)
    requires !step.HandleC? && !step.HandleK? && !step.HandleM? && !step.HandleG?
    ensures CounterFollows(cfg, s, step)
  {
    match step
    case Trigger(reason) => JoinsMasterK(cfg, s, TriggerCleanup(reason));
    case CountTrigger(at, first) => JoinsMasterK(cfg, s, CountAliveStreamsStarted(at, CountReason(first)));
    case FlushC => CleanerSendIsCounterStep(cfg, s);
    case FlushK => CounterSendIsCounterStep(cfg, s);
    case FlushM =>
      MasterSendIs(cfg, s);
      MasterSendKeepsCounter(cfg, s);
    case FlushG => Go2RTCSendKeepsCounter(cfg, s);
    case WakeC(i) => OtherWakeIsNoCounterStep(cfg, s, i);
    case WakeK(i) => WakeIsCounterStep(cfg, s, i);
    case Tick(_) =>
  }

  lemma WakeIsCounterStep(cfg: Config, s: Sys, i: nat)
    requires Addressed(cfg, s) && Enabled(s, WakeK(i))
    ensures CounterFollows(cfg, s, WakeK(i))
  {
    assert s.sleepK[i] in s.sleepK;
    JoinsGo2RTCK(cfg, s, s.sleepK[i].check);
  }

  lemma OtherWakeIsNoCounterStep(cfg: Config, s: Sys, i: nat)
    requires cfg.cleanerId != cfg.counterId && Addressed(cfg, s) && Enabled(s, WakeC(i))
    ensures CounterFollows(cfg, s, WakeC(i))
  {
    assert s.sleepC[i] in s.sleepC;
    JoinsGo2RTCK(cfg, s, s.sleepC[i].check);
  }

  // ---------- stamps of count requests ----------

  lemma {:induction false} StampsAppend(a: seq<Msg>, b: seq<Msg>)
    ensures Stamps(a + b) == Stamps(a) + Stamps(b)
  {
    if a == [] {
      assert a + b == b;
    } else {
      var c := a + b;
      assert c[0] == a[0] && c[1..] == a[1..] + b;
      StampsAppend(a[1..], b);
      assert Stamps(c) == (if a[0].CountAliveStreamsStarted? then [a[0].at] else []) + Stamps(a[1..] + b);
    }
  }

  lemma Unstamped(s: Sys, m: Msg)
    requires !m.CountAliveStreamsStarted?
    ensures QueuedStamps(s.(boxM := s.boxM + [m])) == QueuedStamps(s)
  {
    StampsAppend(s.boxM, [m]);
  }

  lemma ForwardsStamps(m: Msg, now: Time)
    ensures Stamps(CounterMsgs(Master.Handle(m, now))) == Stamps([m])
    ensures Stamps([m]) == if m.CountAliveStreamsStarted? then [m.at] else []
  {
    MasterForwards(m, now);
    assert [m][1..] == [];
  }

  lemma MasterKeepsQueue(s: Sys)
    requires Enabled(s, HandleM)
    ensures QueuedStamps(s.(boxM := s.boxM[1..], outM := Master.Handle(s.boxM[0], s.now))) == QueuedStamps(s)
  {
    var m := s.boxM[0];
    ForwardsStamps(m, s.now);
    Regroup(Stamps(s.boxK), [], Stamps([m]), Stamps(s.boxM[1..]));
    assert [] + Stamps([m]) == Stamps([m]) && Stamps(CounterMsgs(s.outM)) == [];
    assert Stamps(s.boxM) == Stamps([m]) + Stamps(s.boxM[1..]);
  }

  lemma MasterSendKeepsQueue(s: Sys)
    requires Enabled(s, FlushM)
    ensures QueuedStamps(s.(outM := s.outM[1..], boxC := s.boxC + CleanerMsgs(s.outM[..1]),
                            boxK := s.boxK + CounterMsgs(s.outM[..1]))) == QueuedStamps(s)
  {
    var sent, left := CounterMsgs(s.outM[..1]), CounterMsgs(s.outM[1..]);
    MsgsSplit(s.outM);
    StampsAppend(s.boxK, sent);
    StampsAppend(sent, left);
    Regroup([], Stamps(s.boxK), Stamps(sent), Stamps(left));
    assert [] + Stamps(s.boxK) == Stamps(s.boxK);
    assert [] + (Stamps(s.boxK) + Stamps(sent)) == Stamps(s.boxK) + Stamps(sent);
  }

  /** No other step touches the count requests on their way. */
  lemma QueueMoves(cfg: Config, s: Sys, step: Step)
    requires Addressed(cfg, s) && Enabled(s, step) && !step.CountTrigger? && !step.HandleK?
    ensures QueuedStamps(Apply(cfg, s, step)) == QueuedStamps(s)
  {
    match step
    case Trigger(reason) => Unstamped(s, TriggerCleanup(reason));
    case HandleM => MasterKeepsQueue(s);
    case FlushC =>
      assert s.outC[0] in s.outC;
      if s.outC[0].ToParent? { Unstamped(s, s.outC[0].msg); }
    case FlushK =>
      assert s.outK[0] in s.outK;
      if s.outK[0].ToParent? { Unstamped(s, s.outK[0].msg); }
    case FlushM =>
      MasterSendIs(cfg, s);
      MasterSendKeepsQueue(s);
    case FlushG =>
      assert s.outG[0] in s.outG;
      Unstamped(s, s.outG[0]);
    case _ =>
  }

  lemma StepKeepsStamps(cfg: Config, s: Sys, step: Step)
    requires Addressed(cfg, s) && FreshStamps(s) && Enabled(s, step)
    ensures FreshStamps(Apply(cfg, s, step))
  {
    match step
    case CountTrigger(at, first) => RequestJoins(cfg, s, at, first);
    case HandleK => RequestHandled(cfg, s);
    case _ =>
      QueueMoves(cfg, s, step);
      StampsUnused(cfg, s, step);
  }

  lemma StampsUnused(cfg: Config, s: Sys, step: Step)
    requires Enabled(s, step) && !step.CountTrigger? && !step.HandleK?
    ensures var s' := Apply(cfg, s, step); s'.countStamps == s.countStamps && s'.counterLog == s.counterLog
  {}

  lemma FreshSnoc(queue: seq<Time>, at: Time, handled: set<Time>, all: set<Time>)
    requires Fresh(queue, handled, all) && at !in all
    ensures Fresh(queue + [at], handled, all + {at})
  {}

  lemma RequestJoins(cfg: Config, s: Sys, at: Time, first: bool)
    requires FreshStamps(s) && at !in s.countStamps
    ensures FreshStamps(Apply(cfg, s, CountTrigger(at, first)))
  {
    var m := CountAliveStreamsStarted(at, CountReason(first));
    StampsAppend(s.boxM, [m]);
    FreshSnoc(QueuedStamps(s), at, s.counterLog.requested, s.countStamps);
    assert Stamps([m]) == [at];
    assert QueuedStamps(Apply(cfg, s, CountTrigger(at, first))) == QueuedStamps(s) + [at];
  }

  lemma QueueAfterRequest(cfg: Config, s: Sys)
    requires Enabled(s, HandleK)
    ensures QueuedStamps(s) ==
            (if s.boxK[0].CountAliveStreamsStarted? then [s.boxK[0].at] else []) + QueuedStamps(Apply(cfg, s, HandleK))
  {}

  lemma FreshTail(at: Time, queue: seq<Time>, handled: set<Time>, all: set<Time>)
    requires Fresh([at] + queue, handled, all)
    ensures Fresh(queue, handled + {at}, all)
  {
    var whole := [at] + queue;
    forall i | 0 <= i < |queue| ensures queue[i] != at && queue[i] in all && queue[i] !in handled {
      assert whole[i + 1] == queue[i] && whole[0] == at && queue[i] in whole;
    }
    forall i, j | 0 <= i < j < |queue| ensures queue[i] != queue[j] {
      assert whole[i + 1] == queue[i] && whole[j + 1] == queue[j];
    }
    assert at in whole;
  }

  lemma RequestHandled(cfg: Config, s: Sys)
    requires FreshStamps(s) && Enabled(s, HandleK)
    ensures FreshStamps(Apply(cfg, s, HandleK))
  {
    var m := s.boxK[0];
    var queue := QueuedStamps(Apply(cfg, s, HandleK));
    RecordedStamps(cfg, s);
    QueueAfterRequest(cfg, s);
    if m.CountAliveStreamsStarted? {
      FreshTail(m.at, queue, s.counterLog.requested, s.countStamps);
    } else {
      assert [] + queue == queue && s.counterLog.requested + {} == s.counterLog.requested;
    }
  }

  lemma RecordedStamps(cfg: Config, s: Sys)
    requires Enabled(s, HandleK)
    ensures Apply(cfg, s, HandleK).counterLog.requested ==
            s.counterLog.requested + (if s.boxK[0].CountAliveStreamsStarted? then {s.boxK[0].at} else {})
  {}
}
