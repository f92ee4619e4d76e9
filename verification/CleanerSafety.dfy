/** Every step of the cleaner's lane keeps the invariant. */
module CleanerSafety {
  import opened Messages
  import opened Sums
  import opened Pipes
  import opened StreamCleaner
  import opened CleanerLane
  import Go2RTC

  lemma InitialInv(cfg: Config, w: World)
    requires Initial(w)
    ensures Inv(cfg, w)
  {}

  // ---------- what a delivery does while checks are in flight ----------

  /** The actor's fields once the entry of reply `m` is settled, before the cycle's end is considered. */
  function Settling(s: State, m: Msg): State
    requires m.StreamHealthChecked? || m.StreamRemovalCompleted?
  {
    if m.StreamRemovalCompleted? then
      if m.error == "" && m.removed then s.(removedCount := s.removedCount + 1) else s
    else if m.error != "" then s.(pending := s.pending - {m.name})
    else if m.hasProducer then s.(pending := s.pending - {m.name}, aliveCount := s.aliveCount + 1)
    else s
  }

  datatype Turn = Settle | Suspect | Remove

  function TurnOf(s: State, m: Msg): Turn
  {
    if !DeadReply(m, 1) && !DeadReply(m, 2) then Settle
    else if DeadReply(m, 1) then Suspect
    else if m.name in s.pending then Remove else Settle
  }

  lemma HandleIs(cfg: Config, s: State, m: Msg, now: Time)
    requires s.running && s.outstanding > 0 && ReplyOK(cfg, s.triggeredAt, now, m)
    ensures Accepts(cfg.self, s, m)
    ensures Handle(cfg.self, cfg.delay, s, m) ==
            match TurnOf(s, m)
            case Suspect => Outcome(s.(pending := s.pending[m.name := m]), [], [SecondCheck(cfg.self, m)])
            case Remove =>
              Outcome(s.(pending := s.pending - {m.name}), [ToGo2RTC(RemoveStream(m.name, m.at))], [])
            case Settle =>
              var t := Settling(s, m).(outstanding := s.outstanding - 1);
              if t.outstanding != 0 then Quiet(t) else Outcome(t.(running := false), [ToParent(Summary(t))], [])
  {}

  function Note(log: Log, m: Msg): Log { log.(delivered := log.delivered + [m]) }

  /** The world after the head `m` of the lane was handled: one of three things happens. */
  function Delivered(cfg: Config, w: World): World
    requires w.pipe.replies != []
    requires w.pipe.replies[0].StreamHealthChecked? || w.pipe.replies[0].StreamRemovalCompleted?
  {
    var m := w.pipe.replies[0];
    var rest := Take(w.pipe);
    var log := Note(w.log, m);
    match TurnOf(w.actor, m)
    case Suspect =>
      World(w.now, w.actor.(pending := w.actor.pending[m.name := m]),
            Emit(rest, [], [Sleeper(SecondCheck(cfg.self, m), w.now + m.confirmAfter)]), log)
    case Remove =>
      World(w.now, w.actor.(pending := w.actor.pending - {m.name}),
            Emit(rest, [RemoveStream(m.name, m.at)], []), log.(removes := log.removes + [m.name]))
    case Settle =>
      var s := Settling(w.actor, m).(outstanding := w.actor.outstanding - 1);
      if s.outstanding != 0 then World(w.now, s, rest, log)
      else World(w.now, s.(running := false), rest,
                 log.(finished := log.finished + [Summary(s)], summary := Some(Summary(s))))
  }

  ghost predicate HeadOK(cfg: Config, w: World)
  {
    && Auditing(w) && w.pipe.out == [] && w.pipe.replies != []
    && ReplyOK(cfg, w.actor.triggeredAt, w.now, w.pipe.replies[0])
  }

  lemma DeliveryIs(cfg: Config, w: World)
    requires Shape(cfg, w) && Auditing(w) && Enabled(w, Deliver)
    ensures HeadOK(cfg, w)
    ensures Apply(cfg, w, Deliver) == Delivered(cfg, w)
  {
    assert w.pipe.replies[0] in w.pipe.replies;
    TurnIs(cfg, w);
  }

  lemma TurnIs(cfg: Config, w: World)
    requires HeadOK(cfg, w) && w.actor.outstanding > 0
    ensures Act(cfg, w, w.pipe.replies[0], Take(w.pipe)) == Delivered(cfg, w)
  {
    var m := w.pipe.replies[0];
    HandleIs(cfg, w.actor, m, w.now);
    EmitNothing(Take(w.pipe));
    match TurnOf(w.actor, m)
    case Suspect => SleepersOfOne(w.now, SecondCheck(cfg.self, m));
    case Remove => Go2RTCMsgsOfOne(ToGo2RTC(RemoveStream(m.name, m.at)));
    case Settle =>
      Go2RTCMsgsOfOne(ToParent(Summary(Settling(w.actor, m).(outstanding := w.actor.outstanding - 1))));
  }

  // ---------- steps that only move or answer messages ----------

  lemma FlushKeepsShape(cfg: Config, w: World)
    requires Shape(cfg, w) && Enabled(w, Flush)
    ensures Shape(cfg, Apply(cfg, w, Flush))
  {
    var p, p' := w.pipe, Apply(cfg, w, Flush).pipe;
    assert p.out[0] in p.out;
    assert forall m :: m in p'.requests ==> m in p.requests || m == p.out[0];
    if Fetching(w) {
      assert p' == EMPTY.(requests := [FetchStreamList(w.actor.triggeredAt, cfg.self)]);
    }
  }

  lemma FlushKeepsOrder(p: Pipe)
    requires p.out != []
    ensures Path(Pipes.Flush(p)) == Path(p)
    ensures NoFirst(p.out) ==> NoFirst(p.out[1..])
  {}

  lemma FlushKeepsEvidence(cfg: Config, w: World)
    requires Evidence(cfg, w) && w.pipe.out != [] && !IsSecond(w.pipe.out[0])
    ensures Evidence(cfg, w.(pipe := Pipes.Flush(w.pipe)))
  {
    var p, p' := w.pipe, Pipes.Flush(w.pipe);
    assert forall m :: m in p'.requests ==> m in p.requests || m == p.out[0];
  }

  lemma FlushKeepsPending(w: World)
    requires PendingBacked(w) && w.pipe.out != []
    ensures PendingBacked(w.(pipe := Pipes.Flush(w.pipe)))
  {
    forall x | x in w.actor.pending ensures Total(Everywhere(SecondOf(x)), Pipes.Flush(w.pipe)) > 0 {
      TotalFlush(Everywhere(SecondOf(x)), w.pipe);
    }
  }

  /** Only fetches, first checks and removals are sent. */
  lemma SendsNoSecond(cfg: Config, w: World)
    requires Shape(cfg, w) && w.pipe.out != []
    ensures !IsSecond(w.pipe.out[0])
  {
    assert w.pipe.out[0] in w.pipe.out;
  }

  lemma FlushKeeps(cfg: Config, w: World)
    requires Inv(cfg, w) && Enabled(w, Flush)
    ensures Inv(cfg, Apply(cfg, w, Flush))
  {
    FlushKeepsShape(cfg, w);
    FlushKeepsPending(w);
    FlushKeepsOrder(w.pipe);
    SendsNoSecond(cfg, w);
    FlushKeepsEvidence(cfg, w);
    TotalFlush(Everywhere(AsRemovalWork()), w.pipe);
  }

  lemma TickKeeps(cfg: Config, w: World, now: Time)
    requires Inv(cfg, w) && Enabled(w, Tick(now))
    ensures Inv(cfg, Apply(cfg, w, Tick(now)))
  {
    var w' := Apply(cfg, w, Tick(now));
    assert Shape(cfg, w');
    forall m | m in w'.pipe.requests && IsSecond(m) ensures Suspected(cfg, w'.log.delivered, m.name, now) {
      assert Suspected(cfg, w.log.delivered, m.name, w.now);
    }
  }

  lemma WakeKeepsShape(cfg: Config, w: World, i: nat)
    requires Shape(cfg, w) && Enabled(w, Wake(i))
    ensures Shape(cfg, w.(pipe := Pipes.Wake(w.pipe, i)))
    ensures Auditing(w) && IsSecond(w.pipe.sleepers[i].check)
  {
    var p, p' := w.pipe, Pipes.Wake(w.pipe, i);
    var s := p.sleepers[i];
    assert s in p.sleepers;
    assert Auditing(w);
    assert SleeperOK(cfg, w.actor.triggeredAt, s);
    assert forall m :: m in p'.requests ==> m in p.requests || m == s.check;
    assert forall t :: t in p'.sleepers ==> t in p.sleepers;
  }

  lemma WakeKeepsPending(w: World, i: nat)
    requires PendingBacked(w) && i < |w.pipe.sleepers|
    ensures PendingBacked(w.(pipe := Pipes.Wake(w.pipe, i)))
  {
    forall x | x in w.actor.pending ensures Total(Everywhere(SecondOf(x)), Pipes.Wake(w.pipe, i)) > 0 {
      TotalWake(Everywhere(SecondOf(x)), w.pipe, i);
    }
  }

  lemma WakeKeepsEvidence(cfg: Config, w: World, i: nat)
    requires Evidence(cfg, w) && Enabled(w, Wake(i))
    ensures Evidence(cfg, w.(pipe := Pipes.Wake(w.pipe, i)))
  {
    var p, p' := w.pipe, Pipes.Wake(w.pipe, i);
    var s := p.sleepers[i];
    assert s in p.sleepers;
    assert forall m :: m in p'.requests ==> m in p.requests || m == s.check;
    assert forall t :: t in p'.sleepers ==> t in p.sleepers;
    if IsSecond(s.check) {
      assert Suspected(cfg, w.log.delivered, s.check.name, s.wakeAt);
      assert Suspected(cfg, w.log.delivered, s.check.name, w.now);
    }
  }

  lemma WakeKeeps(cfg: Config, w: World, i: nat)
    requires Inv(cfg, w) && Enabled(w, Wake(i))
    ensures Inv(cfg, Apply(cfg, w, Wake(i)))
  {
    WakeKeepsShape(cfg, w, i);
    WakeKeepsPending(w, i);
    WakeKeepsOrder(w.pipe, i);
    WakeKeepsEvidence(cfg, w, i);
    TotalWake(Everywhere(AsRemovalWork()), w.pipe, i);
  }

  lemma WakeKeepsOrder(p: Pipe, i: nat)
    requires FirstsLead(Path(p)) && i < |p.sleepers| && NoFirst(p.out) && IsSecond(p.sleepers[i].check)
    ensures FirstsLead(Path(Pipes.Wake(p, i)))
    ensures NoFirst(Path(p)) ==> NoFirst(Path(Pipes.Wake(p, i)))
  {
    var n := |p.replies + p.requests|;
    var q, q' := Path(p), Path(Pipes.Wake(p, i));
    assert forall k :: 0 <= k < n ==> q'[k] == q[k];
    assert q'[n] == p.sleepers[i].check;
    assert forall k :: n < k < |q'| ==> q'[k] == p.out[k - n - 1] == q[k - 1];
  }

  lemma ServeKeepsShape(cfg: Config, w: World, outside: Go2RTC.Outside)
    requires Shape(cfg, w) && Enabled(w, Serve(outside))
    ensures Shape(cfg, Apply(cfg, w, Serve(outside)))
  {
    var r := w.pipe.requests[0];
    var a := Go2RTC.Answer(r, w.now, outside);
    if Fetching(w) {
      assert Apply(cfg, w, Serve(outside)).pipe == EMPTY.(replies := [a]);
    } else {
      assert r in w.pipe.requests;
      ServedShape(cfg, w, a);
    }
  }

  lemma ServedShape(cfg: Config, w: World, a: Msg)
    requires Shape(cfg, w) && Auditing(w) && w.pipe.requests != []
    requires ReplyOK(cfg, w.actor.triggeredAt, w.now, a)
    ensures Shape(cfg, w.(pipe := Pipes.Serve(w.pipe, a)))
  {
    var p, p' := w.pipe, Pipes.Serve(w.pipe, a);
    assert forall m :: m in p'.replies ==> m in p.replies || m == a;
    assert forall m :: m in p'.requests ==> m in p.requests;
  }

  /** An answer speaks of the same stream and attempt as its request and is stamped with the present time. */
  lemma AnswerMatches(r: Msg, now: Time, outside: Go2RTC.Outside)
    requires Go2RTC.IsRequest(r)
    ensures var a := Go2RTC.Answer(r, now, outside);
            && IsFirst(a) == IsFirst(r) && IsSecond(a) == IsSecond(r)
            && (IsFirst(r) || IsSecond(r) ==> a.name == r.name)
            && (a.StreamHealthChecked? ==> a.checkedAt == now)
            && AsRemovalWork()(a) == AsRemovalWork()(r)
            && forall x :: SecondOf(x)(a) == SecondOf(x)(r)
  {}

  lemma ServeKeepsEvidence(cfg: Config, w: World, outside: Go2RTC.Outside)
    requires Evidence(cfg, w) && Enabled(w, Serve(outside))
    ensures Evidence(cfg, Apply(cfg, w, Serve(outside)))
  {
    var p, p' := w.pipe, Apply(cfg, w, Serve(outside)).pipe;
    var r := p.requests[0];
    AnswerMatches(r, w.now, outside);
    assert r in p.requests;
    assert forall m :: m in p'.requests ==> m in p.requests;
    assert forall m :: m in p'.replies ==> m in p.replies || m == Go2RTC.Answer(r, w.now, outside);
  }

  lemma ServeKeeps(cfg: Config, w: World, outside: Go2RTC.Outside)
    requires Inv(cfg, w) && Enabled(w, Serve(outside))
    ensures Inv(cfg, Apply(cfg, w, Serve(outside)))
  {
    var w' := Apply(cfg, w, Serve(outside));
    var p, p' := w.pipe, w'.pipe;
    var a := Go2RTC.Answer(p.requests[0], w.now, outside);
    AnswerMatches(p.requests[0], w.now, outside);
    ServeKeepsShape(cfg, w, outside);
    assert PendingBacked(w') by {
      forall x | x in w'.actor.pending ensures Total(Everywhere(SecondOf(x)), p') > 0 {
        TotalServe(Everywhere(SecondOf(x)), p, a);
      }
    }
    ServeKeepsOrder(p, a);
    ServeKeepsEvidence(cfg, w, outside);
    TotalServe(Everywhere(AsRemovalWork()), p, a);
  }

  lemma ServeKeepsOrder(p: Pipe, a: Msg)
    requires FirstsLead(Path(p)) && p.requests != []
    requires IsFirst(a) == IsFirst(p.requests[0]) && IsSecond(a) == IsSecond(p.requests[0])
    ensures FirstsLead(Path(Pipes.Serve(p, a)))
    ensures NoFirst(Path(p)) ==> NoFirst(Path(Pipes.Serve(p, a)))
  {
    var n := |p.replies|;
    var q, q' := Path(p), Path(Pipes.Serve(p, a));
    assert forall k :: 0 <= k < n ==> q'[k] == q[k];
    assert q'[n] == a && q[n] == p.requests[0];
    assert forall k :: n < k < n + |p.requests| ==> q'[k] == p.requests[k - n] == q[k];
    assert forall k :: n + |p.requests| <= k < |q| ==> q'[k] == q[k];
  }

  // ---------- the cycle's start and the fetched list ----------

  lemma StartKeeps(cfg: Config, w: World, at: Time, reason: string)
    requires Inv(cfg, w) && Enabled(w, Start(at, reason))
    ensures Inv(cfg, Apply(cfg, w, Start(at, reason)))
    ensures w.actor.running ==> Apply(cfg, w, Start(at, reason)) == w
  {
    if w.actor.running {
      StartIsIgnored(cfg, w, at, reason);
    } else {
      assert Shape(cfg, w) && CyclesEnd(w);
      StartedKeeps(cfg, w, at, reason);
    }
  }

  lemma StartIsIgnored(cfg: Config, w: World, at: Time, reason: string)
    requires w.actor.running
    ensures Act(cfg, w, CleanupCycleStarted(at, reason), w.pipe) == w
  {
    assert Emit(w.pipe, [], Sleepers(w.now, [])) == w.pipe;
  }

  lemma StartedKeeps(cfg: Config, w: World, at: Time, reason: string)
    requires !w.actor.running && w.pipe == EMPTY && CyclesEnd(w)
    ensures Inv(cfg, Act(cfg, w, CleanupCycleStarted(at, reason), w.pipe))
  {
    var w' := Act(cfg, w, CleanupCycleStarted(at, reason), w.pipe);
    var fetch := FetchStreamList(at, cfg.self);
    assert Go2RTCMsgs([ToGo2RTC(fetch)]) == [fetch];
    assert w'.pipe == EMPTY.(out := [fetch]);
    assert Path(w'.pipe) == [fetch];
  }

  predicate ListHead(w: World)
  {
    w.pipe.replies != [] && w.pipe.replies[0].StreamListFetched? && w.pipe.replies[0].at == w.actor.triggeredAt
  }

  /** The world after the list arrived. */
  function Listed(cfg: Config, w: World): World
    requires w.pipe.replies != [] && w.pipe.replies[0].StreamListFetched?
  {
    var m := w.pipe.replies[0];
    if m.error != "" then
      World(w.now, w.actor.(running := false, outstanding := 0), EMPTY, w.log.(aborted := w.log.aborted + 1))
    else
      var log := w.log.(list := m.streams);
      if m.streams == [] then
        var summary := CleanupCycleFinished(w.actor.triggeredAt, w.actor.reason, 0, 0);
        World(w.now, w.actor.(running := false, outstanding := 0), EMPTY,
              log.(finished := log.finished + [summary], summary := Some(summary)))
      else
        World(w.now, w.actor.(outstanding := |m.streams|),
              EMPTY.(out := FirstChecks(cfg.self, cfg.delay, m.at, m.streams)), log)
  }

  lemma ListHandleIs(cfg: Config, s: State, m: Msg)
    requires m.StreamListFetched? && s.running && m.requestedBy == cfg.self && m.at == s.triggeredAt
    ensures Handle(cfg.self, cfg.delay, s, m) ==
            if m.error != "" then Quiet(s.(running := false, outstanding := 0))
            else if m.streams == [] then
              Outcome(s.(running := false, outstanding := 0),
                      [ToParent(CleanupCycleFinished(s.triggeredAt, s.reason, 0, 0))], [])
            else Outcome(s.(outstanding := |m.streams|),
                         AllToGo2RTC(FirstChecks(cfg.self, cfg.delay, m.at, m.streams)), [])
  {}

  lemma ListDeliveryIs(cfg: Config, w: World)
    requires Shape(cfg, w) && Fetching(w) && Enabled(w, Deliver)
    ensures ListHead(w)
    ensures Apply(cfg, w, Deliver) == Listed(cfg, w)
  {
    var m := w.pipe.replies[0];
    assert Take(w.pipe) == EMPTY;
    var o := Handle(cfg.self, cfg.delay, w.actor, m);
    ListHandleIs(cfg, w.actor, m);
    assert Sleepers(w.now, []) == [];
    if m.error != "" || m.streams == [] {
      assert Go2RTCMsgs(o.sends) == [] by { if o.sends != [] { assert o.sends[1..] == []; } }
      assert Emit(EMPTY, [], []) == EMPTY;
    } else {
      Go2RTCMsgsOfAll(FirstChecks(cfg.self, cfg.delay, m.at, m.streams));
      assert o.sends[0].ToGo2RTC?;
      assert Emit(EMPTY, FirstChecks(cfg.self, cfg.delay, m.at, m.streams), []) == Listed(cfg, w).pipe;
    }
  }

  lemma ListedShape(cfg: Config, w: World)
    requires Shape(cfg, w) && Fetching(w) && ListHead(w)
    ensures Shape(cfg, Listed(cfg, w)) && PendingBacked(Listed(cfg, w))
  {
    var w' := Listed(cfg, w);
    assert forall m :: m in w'.pipe.out ==> RequestOK(cfg, w'.actor.triggeredAt, m) && !IsSecond(m);
  }

  lemma FirstsAreOrdered(q: seq<Msg>)
    requires forall i :: 0 <= i < |q| ==> IsFirst(q[i])
    ensures FirstsLead(q)
  {}

  lemma ListedOrder(cfg: Config, w: World)
    requires ListHead(w) && w.log.delivered == [] && w.log.removes == [] && w.actor.pending == map[]
    ensures var w' := Listed(cfg, w); Ordered(w') && RemovedOnce(w') && Evidence(cfg, w')
  {
    var w' := Listed(cfg, w);
    assert Path(w'.pipe) == w'.pipe.out;
    FirstsAreOrdered(w'.pipe.out);
  }

  lemma ListedTally(cfg: Config, w: World)
    requires ListHead(w) && w.actor.running && Tallied(w) && w.actor.outstanding == 0
    requires w.log.list == [] && w.log.delivered == [] && w.log.removes == []
    requires w.actor.aliveCount == 0 && w.actor.removedCount == 0
    ensures Tallied(Listed(cfg, w))
  {
    var w' := Listed(cfg, w);
    var checks := w'.pipe.out;
    SumBounds(AsRemovalWork(), checks, 0, 0);
    assert Total(Everywhere(AsRemovalWork()), w'.pipe) == 0;
    assert Settled(w.log) == 0;
  }

  lemma ListedCycles(cfg: Config, w: World)
    requires CyclesEnd(w) && w.actor.running && ListHead(w)
    ensures CyclesEnd(Listed(cfg, w))
  {}

  lemma ListDeliveryKeeps(cfg: Config, w: World)
    requires Shape(cfg, w) && Tallied(w) && CyclesEnd(w) && Fetching(w) && ListHead(w)
    ensures Inv(cfg, Listed(cfg, w))
  {
    ListedShape(cfg, w);
    ListedOrder(cfg, w);
    ListedTally(cfg, w);
    ListedCycles(cfg, w);
  }

  // ---------- delivery of check and removal replies ----------

  lemma DeliveryKeepsPending(cfg: Config, w: World)
    requires HeadOK(cfg, w) && PendingBacked(w)
    ensures PendingBacked(Delivered(cfg, w))
  {
    var w' := Delivered(cfg, w);
    forall x | x in w'.actor.pending ensures Total(Everywhere(SecondOf(x)), w'.pipe) > 0 {
      SuspectStaysBacked(cfg, w, x);
    }
  }

  lemma NewSuspectIsBacked(cfg: Config, w: World, x: string)
    requires HeadOK(cfg, w) && TurnOf(w.actor, w.pipe.replies[0]) == Suspect
    requires x == w.pipe.replies[0].name || Total(Everywhere(SecondOf(x)), w.pipe) > 0
    ensures Total(Everywhere(SecondOf(x)), Delivered(cfg, w).pipe) > 0
  {
    var m := w.pipe.replies[0];
    SleeperBacks(w.pipe, Sleeper(SecondCheck(cfg.self, m), w.now + m.confirmAfter), x);
  }

  lemma SleeperBacks(p: Pipe, s: Sleeper, x: string)
    requires p.replies != [] && IsFirst(p.replies[0]) && IsSecond(s.check)
    requires x == s.check.name || Total(Everywhere(SecondOf(x)), p) > 0
    ensures Total(Everywhere(SecondOf(x)), Emit(Take(p), [], [s])) > 0
  {
    TotalTake(Everywhere(SecondOf(x)), p);
    TotalWithSleeper(SecondOf(x), Take(p), s);
    TotalIsNat(SecondOf(x), Take(p));
  }

  /** A suspect that was backed before the delivery, or is new, has its second check on the way after it. */
  lemma SuspectStaysBacked(cfg: Config, w: World, x: string)
    requires HeadOK(cfg, w) && x in Delivered(cfg, w).actor.pending
    requires x in w.actor.pending ==> Total(Everywhere(SecondOf(x)), w.pipe) > 0
    ensures Total(Everywhere(SecondOf(x)), Delivered(cfg, w).pipe) > 0
  {
    var m := w.pipe.replies[0];
    var f := Everywhere(SecondOf(x));
    TotalTake(f, w.pipe);
    match TurnOf(w.actor, m)
    case Suspect =>
      NewSuspectIsBacked(cfg, w, x);
    case Remove =>
      TotalWithSend(SecondOf(x), Take(w.pipe), RemoveStream(m.name, m.at));
    case Settle =>
  }

  lemma NothingPending(w: World)
    requires PendingBacked(w) && w.pipe == EMPTY
    ensures w.actor.pending == map[]
  {
    assert forall x: string :: Total(Everywhere(SecondOf(x)), EMPTY) == 0;
    assert forall x :: x !in w.actor.pending;
  }

  lemma DeliveryKeepsShape(cfg: Config, w: World)
    requires HeadOK(cfg, w) && Shape(cfg, w) && PendingBacked(Delivered(cfg, w))
    ensures Shape(cfg, Delivered(cfg, w))
  {
    var w' := Delivered(cfg, w);
    assert forall m :: m in w'.pipe.replies ==> m in w.pipe.replies;
    if !w'.actor.running {
      assert w'.pipe == EMPTY;
      NothingPending(w');
    }
  }

  lemma DeliveryKeepsOrder(cfg: Config, w: World)
    requires HeadOK(cfg, w) && Ordered(w)
    ensures Ordered(Delivered(cfg, w))
    ensures IsSecond(w.pipe.replies[0]) ==> NoFirst(Path(Delivered(cfg, w).pipe))
  {
    var w' := Delivered(cfg, w);
    var q, q' := Path(w.pipe), Path(w'.pipe);
    assert q[0] == w.pipe.replies[0];
    assert forall i :: 0 <= i < |q| - 1 ==> q'[i] == q[i + 1];
    assert forall i :: |q| - 1 <= i < |q'| ==> q'[i].RemoveStream?;
  }

  lemma DeliveryKeepsOnce(cfg: Config, w: World)
    requires HeadOK(cfg, w) && Ordered(w) && RemovedOnce(w)
    ensures RemovedOnce(Delivered(cfg, w))
  {
    if w.log.removes != [] {
      assert Path(w.pipe)[0] == w.pipe.replies[0];
    }
  }

  lemma SuspectedStays(cfg: Config, delivered: seq<Msg>, m: Msg)
    ensures forall x, due :: Suspected(cfg, delivered, x, due) ==> Suspected(cfg, delivered + [m], x, due)
    ensures forall x :: DoubleChecked(cfg, delivered, x) ==> DoubleChecked(cfg, delivered + [m], x)
  {
    var after := delivered + [m];
    forall x, due | Suspected(cfg, delivered, x, due) ensures Suspected(cfg, after, x, due) {
      var i :| 0 <= i < |delivered| && DeadReply(delivered[i], 1) && delivered[i].name == x
               && delivered[i].checkedAt + cfg.delay <= due;
      assert after[i] == delivered[i];
    }
    forall x | DoubleChecked(cfg, delivered, x) ensures DoubleChecked(cfg, after, x) {
      var i, j :| 0 <= i < j < |delivered| && DeadReply(delivered[i], 1) && DeadReply(delivered[j], 2)
                  && delivered[i].name == delivered[j].name == x
                  && delivered[i].checkedAt + cfg.delay <= delivered[j].checkedAt;
      assert after[i] == delivered[i] && after[j] == delivered[j];
    }
  }

  lemma SecondDeathDoubleChecks(cfg: Config, delivered: seq<Msg>, m: Msg)
    requires DeadReply(m, 2) && Suspected(cfg, delivered, m.name, m.checkedAt)
    ensures DoubleChecked(cfg, delivered + [m], m.name)
  {
    var i :| 0 <= i < |delivered| && DeadReply(delivered[i], 1) && delivered[i].name == m.name
             && delivered[i].checkedAt + cfg.delay <= m.checkedAt;
    var after := delivered + [m];
    assert after[i] == delivered[i] && after[|delivered|] == m;
  }

  lemma FirstDeathSuspects(cfg: Config, delivered: seq<Msg>, m: Msg, now: Time)
    requires DeadReply(m, 1) && m.checkedAt <= now
    ensures Suspected(cfg, delivered + [m], m.name, now + cfg.delay)
  {
    assert (delivered + [m])[|delivered|] == m;
  }

  lemma DeliveryKeepsEvidence(cfg: Config, w: World)
    requires HeadOK(cfg, w) && Evidence(cfg, w)
    ensures Evidence(cfg, Delivered(cfg, w))
  {
    var m := w.pipe.replies[0];
    SuspectedStays(cfg, w.log.delivered, m);
    assert m in w.pipe.replies;
    LaterEvidence(cfg, w, m);
    match TurnOf(w.actor, m)
    case Suspect => FirstDeathSuspects(cfg, w.log.delivered, m, w.now);
    case Remove => SecondDeathDoubleChecks(cfg, w.log.delivered, m);
    case Settle =>
  }

  /** What is noted besides keeps all evidence; so does a lane that has lost its head. */
  lemma LaterEvidence(cfg: Config, w: World, m: Msg)
    requires Evidence(cfg, w) && w.pipe.replies != []
    ensures Evidence(cfg, w.(pipe := Take(w.pipe), log := Note(w.log, m)))
  {
    SuspectedStays(cfg, w.log.delivered, m);
    assert forall n :: n in Take(w.pipe).replies ==> n in w.pipe.replies;
  }

  lemma NotedSums(log: Log, m: Msg)
    ensures var d := log.delivered + [m];
            && Sum(AsAlive(), d) == Sum(AsAlive(), log.delivered) + AsAlive()(m)
            && Sum(AsCheckError(), d) == Sum(AsCheckError(), log.delivered) + AsCheckError()(m)
            && Sum(AsDeadAgain(), d) == Sum(AsDeadAgain(), log.delivered) + AsDeadAgain()(m)
            && Sum(AsRemoved(), d) == Sum(AsRemoved(), log.delivered) + AsRemoved()(m)
            && Sum(AsNotRemoved(), d) == Sum(AsNotRemoved(), log.delivered) + AsNotRemoved()(m)
  {
    SumSnoc(AsAlive(), log.delivered, m);
    SumSnoc(AsCheckError(), log.delivered, m);
    SumSnoc(AsDeadAgain(), log.delivered, m);
    SumSnoc(AsRemoved(), log.delivered, m);
    SumSnoc(AsNotRemoved(), log.delivered, m);
  }

  lemma DeliveryRemovalWork(cfg: Config, w: World)
    requires HeadOK(cfg, w)
    ensures var f := Everywhere(AsRemovalWork());
            var turn := TurnOf(w.actor, w.pipe.replies[0]);
            Total(f, Delivered(cfg, w).pipe)
            == Total(f, w.pipe) - AsRemovalWork()(w.pipe.replies[0]) + (if turn == Remove then 1 else 0)
  {
    var m := w.pipe.replies[0];
    var f := AsRemovalWork();
    TotalTake(Everywhere(f), w.pipe);
    match TurnOf(w.actor, m)
    case Suspect => TotalWithSleeper(f, Take(w.pipe), Sleeper(SecondCheck(cfg.self, m), w.now + m.confirmAfter));
    case Remove => TotalWithSend(f, Take(w.pipe), RemoveStream(m.name, m.at));
    case Settle =>
  }

  lemma DeliveryKeepsTally(cfg: Config, w: World)
    requires HeadOK(cfg, w) && w.actor.outstanding == InFlight(w.pipe) && Tallied(w)
    ensures Tallied(Delivered(cfg, w))
  {
    if TurnOf(w.actor, w.pipe.replies[0]) == Settle {
      SettlingKeepsTally(cfg, w);
    } else {
      TurningKeepsTally(cfg, w);
    }
  }

  /** A dead first reply settles nothing, a dead second reply of a suspect asks for a removal. */
  lemma TurningKeepsTally(cfg: Config, w: World)
    requires HeadOK(cfg, w) && Tallied(w) && TurnOf(w.actor, w.pipe.replies[0]) != Settle
    ensures Tallied(Delivered(cfg, w))
  {
    NotedSums(w.log, w.pipe.replies[0]);
    DeliveryRemovalWork(cfg, w);
  }

  lemma SettlingKeepsTally(cfg: Config, w: World)
    requires HeadOK(cfg, w) && w.actor.outstanding == InFlight(w.pipe) && Tallied(w)
    requires TurnOf(w.actor, w.pipe.replies[0]) == Settle
    ensures Tallied(Delivered(cfg, w))
  {
    if Delivered(cfg, w).actor.running {
      NotedSums(w.log, w.pipe.replies[0]);
      DeliveryRemovalWork(cfg, w);
    } else {
      EndKeepsTally(cfg, w);
    }
  }

  lemma EndKeepsTally(cfg: Config, w: World)
    requires HeadOK(cfg, w) && w.actor.outstanding == InFlight(w.pipe) && Tallied(w)
    requires TurnOf(w.actor, w.pipe.replies[0]) == Settle && !Delivered(cfg, w).actor.running
    ensures Tallied(Delivered(cfg, w))
  {
    NotedSums(w.log, w.pipe.replies[0]);
    DeliveryRemovalWork(cfg, w);
    EndedPipe(cfg, w);
  }

  /** A cycle that ends with this delivery has nothing left in flight. */
  lemma EndedPipe(cfg: Config, w: World)
    requires HeadOK(cfg, w) && w.actor.outstanding == InFlight(w.pipe) && !Delivered(cfg, w).actor.running
    ensures Delivered(cfg, w).pipe == EMPTY && Total(Everywhere(AsRemovalWork()), Delivered(cfg, w).pipe) == 0
  {
    assert Delivered(cfg, w).pipe == EMPTY;
  }

  lemma DeliveryKeepsCycles(cfg: Config, w: World)
    requires HeadOK(cfg, w) && CyclesEnd(w)
    ensures CyclesEnd(Delivered(cfg, w))
  {}

  lemma DeliveredKeeps(cfg: Config, w: World)
    requires Inv(cfg, w) && HeadOK(cfg, w)
    ensures Inv(cfg, Delivered(cfg, w))
  {
    assert Shape(cfg, w) && Tallied(w);
    DeliveryKeepsPending(cfg, w);
    DeliveryKeepsShape(cfg, w);
    DeliveryKeepsOrder(cfg, w);
    DeliveryKeepsOnce(cfg, w);
    DeliveryKeepsEvidence(cfg, w);
    DeliveryKeepsTally(cfg, w);
    DeliveryKeepsCycles(cfg, w);
  }

  lemma DeliveryKeeps(cfg: Config, w: World)
    requires Inv(cfg, w) && Enabled(w, Deliver)
    ensures Inv(cfg, Apply(cfg, w, Deliver))
  {
    if Fetching(w) {
      ListDeliveryIs(cfg, w);
      ListDeliveryKeeps(cfg, w);
    } else {
      DeliveryIs(cfg, w);
      DeliveredKeeps(cfg, w);
    }
  }

  // ---------- all steps ----------

  lemma StepKeeps(cfg: Config, w: World, step: Step)
    requires Inv(cfg, w) && Enabled(w, step)
    ensures Inv(cfg, Apply(cfg, w, step))
  {
    match step
    case Start(at, reason) => StartKeeps(cfg, w, at, reason);
    case Deliver => DeliveryKeeps(cfg, w);
    case Flush => FlushKeeps(cfg, w);
    case Serve(outside) => ServeKeeps(cfg, w, outside);
    case Wake(i) => WakeKeeps(cfg, w, i);
    case Tick(now) => TickKeeps(cfg, w, now);
  }
}
