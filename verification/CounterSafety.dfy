/** Every step of the counter's lane keeps the invariant. */
module CounterSafety {
  import opened Messages
  import opened Sums
  import opened Pipes
  import opened StreamCount
  import opened CounterLane
  import Go2RTC

  lemma InitialInv(cfg: Config, w: World)
    requires Initial(w)
    ensures Inv(cfg, w)
  {}

  // ---------- moves and answers ----------

  lemma AnswerMatches(r: Msg, now: Time, outside: Go2RTC.Outside)
    requires Go2RTC.IsRequest(r)
    ensures var a := Go2RTC.Answer(r, now, outside);
            && (r.FetchStreamList? ==> a.StreamListFetched? && a.at == r.at && a.requestedBy == r.requestedBy)
            && (r.CheckStreamHealth? ==>
                  a.StreamHealthChecked? && a.at == r.at && a.requestedBy == r.requestedBy && a.name == r.name
                  && a.attempt == r.attempt && a.confirmAfter == r.confirmAfter)
            && (r.RemoveStream? ==> a.StreamRemovalCompleted?)
            && (forall at :: ChecksOf(at)(a) == ChecksOf(at)(r))
            && (forall at :: FetchesOf(at)(a) == FetchesOf(at)(r))
            && (forall at, x :: SecondOf(at, x)(a) == SecondOf(at, x)(r))
  {}

  predicate IsMove(step: Step) { step.Flush? || step.Serve? || step.Wake? || step.Tick? }

  lemma MovesKeepTotal(cfg: Config, w: World, step: Step, f: Msg -> int)
    requires Enabled(w, step) && IsMove(step)
    requires step.Serve? ==> f(Go2RTC.Answer(w.pipe.requests[0], w.now, step.outside)) == f(w.pipe.requests[0])
    ensures Total(Everywhere(f), Apply(cfg, w, step).pipe) == Total(Everywhere(f), w.pipe)
  {
    match step
    case Flush => TotalFlush(Everywhere(f), w.pipe);
    case Serve(outside) =>
      TotalServe(Everywhere(f), w.pipe, Go2RTC.Answer(w.pipe.requests[0], w.now, outside));
    case Wake(i) => TotalWake(Everywhere(f), w.pipe, i);
    case Tick(_) =>
  }

  lemma MovesKeepStamps(cfg: Config, w: World, step: Step)
    requires Stamped(cfg, w) && Enabled(w, step) && IsMove(step)
    ensures Stamped(cfg, Apply(cfg, w, step))
  {
    var p, p' := w.pipe, Apply(cfg, w, step).pipe;
    match step
    case Flush =>
      assert p.out[0] in p.out;
      assert forall m :: m in p'.requests ==> m in p.requests || m == p.out[0];
    case Serve(outside) =>
      var r := p.requests[0];
      assert r in p.requests;
      AnswerMatches(r, w.now, outside);
      assert forall m :: m in p'.replies ==> m in p.replies || m == Go2RTC.Answer(r, w.now, outside);
    case Wake(i) =>
      assert p.sleepers[i] in p.sleepers;
      assert forall m :: m in p'.requests ==> m in p.requests || m == p.sleepers[i].check;
      assert forall s :: s in p'.sleepers ==> s in p.sleepers;
    case Tick(_) =>
  }

  lemma MovesKeep(cfg: Config, w: World, step: Step)
    requires Inv(cfg, w) && Enabled(w, step) && IsMove(step)
    ensures Inv(cfg, Apply(cfg, w, step))
  {
    var w' := Apply(cfg, w, step);
    if step.Serve? {
      AnswerMatches(w.pipe.requests[0], w.now, step.outside);
    }
    MovesKeepStamps(cfg, w, step);
    MovesKeepTotal(cfg, w, step, ChecksOf(w.actor.triggeredAt));
    MovesKeepTotal(cfg, w, step, FetchesOf(w.actor.triggeredAt));
    forall x ensures Total(Everywhere(SecondOf(w.actor.triggeredAt, x)), w'.pipe)
                     == Total(Everywhere(SecondOf(w.actor.triggeredAt, x)), w.pipe) {
      MovesKeepTotal(cfg, w, step, SecondOf(w.actor.triggeredAt, x));
    }
  }

  // ---------- a request ----------

  /** A message that weighs nothing anywhere in the lane adds nothing to the total. */
  lemma TotalZero(f: Msg -> int, p: Pipe)
    requires forall m :: m in p.replies || m in p.requests || m in p.out ==> f(m) == 0
    requires forall s :: s in p.sleepers ==> f(s.check) == 0
    ensures Total(Everywhere(f), p) == 0
  {
    SumBounds(f, p.replies, 0, 0);
    SumBounds(f, p.requests, 0, 0);
    SumBounds(f, p.out, 0, 0);
    SumBounds(Everywhere(f).sleep, p.sleepers, 0, 0);
  }

  function Started(cfg: Config, w: World, at: Time, reason: string): World
  {
    var log := w.log.(requested := w.log.requested + {at});
    if w.actor.running then w.(log := log) else
    World(w.now, State(map[], true, 0, at, reason, 0), Emit(w.pipe, [FetchStreamList(at, cfg.self)], []),
          Log([], false, None, log.requested, log.accepted + [at], log.results))
  }

  lemma StartIs(cfg: Config, w: World, at: Time, reason: string)
    requires Enabled(w, Start(at, reason))
    ensures Apply(cfg, w, Start(at, reason)) == Started(cfg, w, at, reason)
  {
    var fetch := FetchStreamList(at, cfg.self);
    assert Go2RTCMsgs([ToGo2RTC(fetch)]) == [fetch];
    assert Emit(w.pipe, [], []) == w.pipe;
  }

  lemma StartKeepsStamps(cfg: Config, w: World, at: Time, reason: string)
    requires Stamped(cfg, w)
    ensures Stamped(cfg, Started(cfg, w, at, reason))
  {
    var w' := Started(cfg, w, at, reason);
    assert forall m :: m in w'.pipe.out ==> m in w.pipe.out || m == FetchStreamList(at, cfg.self);
  }

  lemma StartKeepsWork(cfg: Config, w: World, at: Time, reason: string)
    requires Stamped(cfg, w) && OwnWork(w) && at !in w.log.requested
    ensures OwnWork(Started(cfg, w, at, reason))
  {
    if !w.actor.running {
      var fetch := FetchStreamList(at, cfg.self);
      TotalZero(ChecksOf(at), w.pipe);
      TotalZero(FetchesOf(at), w.pipe);
      TotalEmit(Everywhere(ChecksOf(at)), w.pipe, [fetch], []);
      TotalEmit(Everywhere(FetchesOf(at)), w.pipe, [fetch], []);
      assert Sum(ChecksOf(at), [fetch]) == 0 && Sum(FetchesOf(at), [fetch]) == 1;
    }
  }

  lemma StartKeeps(cfg: Config, w: World, at: Time, reason: string)
    requires Inv(cfg, w) && Enabled(w, Start(at, reason))
    ensures Inv(cfg, Apply(cfg, w, Start(at, reason)))
  {
    StartIs(cfg, w, at, reason);
    StartKeepsStamps(cfg, w, at, reason);
    StartKeepsWork(cfg, w, at, reason);
  }

  // ---------- deliveries ----------

  /** A reply of an abandoned run, or one that finds no run, changes nothing. */
  lemma StaleDeliveryIs(cfg: Config, w: World)
    requires Enabled(w, Deliver) && !Accepts(cfg.self, w.actor, w.pipe.replies[0])
    requires ReplyOK(cfg, w.log, w.pipe.replies[0])
    ensures Apply(cfg, w, Deliver) == w.(pipe := Take(w.pipe))
  {
    assert Emit(Take(w.pipe), [], []) == Take(w.pipe);
  }

  function Reported(w: World, s: State, alive: int, error: string): World
    requires w.pipe.replies != []
  {
    var result := AliveStreamCountCalculated(s.triggeredAt, s.reason, alive, error);
    World(w.now, s.(running := false), Take(w.pipe),
          w.log.(results := w.log.results + [result], summary := Some(result)))
  }

  /** The world after an accepted reply was handled. */
  function Delivered(cfg: Config, w: World): World
    requires w.pipe.replies != [] && Accepts(cfg.self, w.actor, w.pipe.replies[0])
  {
    var m := w.pipe.replies[0];
    var rest := Take(w.pipe);
    var s := w.actor;
    if m.StreamListFetched? then
      var w := w.(log := w.log.(list := m.streams, listFailed := m.error != ""));
      if m.error != "" then Reported(w, s.(pending := map[], outstanding := 0), 0, m.error)
      else if m.streams == [] then Reported(w, s, s.aliveCount, "")
      else w.(actor := s.(outstanding := |m.streams|),
              pipe := Emit(rest, FirstChecks(cfg.self, cfg.delay, m.at, m.streams), []))
    else if m.error != "" then Reported(w, s.(pending := map[], outstanding := 0), 0, m.error)
    else if DeadReply(m, 1) then
      w.(actor := s.(pending := s.pending[m.name := m]),
         pipe := Emit(rest, [], [Sleeper(SecondCheck(cfg.self, m), w.now + m.confirmAfter)]))
    else
      var s := s.(pending := s.pending - {m.name}, outstanding := s.outstanding - 1,
                  aliveCount := s.aliveCount + (if m.hasProducer then 1 else 0));
      if s.outstanding == 0 then Reported(w, s, s.aliveCount, "") else w.(actor := s, pipe := rest)
  }

  lemma HandleIs(cfg: Config, s: State, m: Msg)
    requires m.StreamHealthChecked? && Accepts(cfg.self, s, m) && s.outstanding > 0
    ensures Handle(cfg.self, cfg.delay, s, m) ==
            if m.error != "" then FinishedWithError(s, m.error)
            else if DeadReply(m, 1) then
              Outcome(s.(pending := s.pending[m.name := m]), [], [SecondCheck(cfg.self, m)])
            else
              var s := s.(pending := s.pending - {m.name}, outstanding := s.outstanding - 1,
                          aliveCount := s.aliveCount + (if m.hasProducer then 1 else 0));
              if s.outstanding == 0 then Finished(s) else Quiet(s)
  {}

  lemma CheckDeliveryIs(cfg: Config, w: World)
    requires Enabled(w, Deliver) && Accepts(cfg.self, w.actor, w.pipe.replies[0])
    requires w.pipe.replies[0].StreamHealthChecked? && w.actor.outstanding > 0
    ensures Apply(cfg, w, Deliver) == Delivered(cfg, w)
  {
    var m := w.pipe.replies[0];
    HandleIs(cfg, w.actor, m);
    assert Emit(Take(w.pipe), [], []) == Take(w.pipe);
    assert forall send: Send :: Go2RTCMsgs([send]) == if send.ToGo2RTC? then [send.msg] else [];
  }

  lemma ListHandleIs(cfg: Config, s: State, m: Msg)
    requires m.StreamListFetched? && Accepts(cfg.self, s, m)
    ensures Handle(cfg.self, cfg.delay, s, m) ==
            if m.error != "" then FinishedWithError(s, m.error)
            else if m.streams == [] then Finished(s)
            else Outcome(s.(outstanding := |m.streams|),
                         AllToGo2RTC(FirstChecks(cfg.self, cfg.delay, m.at, m.streams)), [])
  {}

  lemma LoneReport(report: Send)
    requires report.ToParent?
    ensures Go2RTCMsgs([report]) == []
  {
    assert [report][1..] == [];
  }

  /** A failed or an empty list: the lane is left without it, and the result is recorded. */
  lemma ListEndIs(cfg: Config, w: World)
    requires Enabled(w, Deliver) && Accepts(cfg.self, w.actor, w.pipe.replies[0])
    requires w.pipe.replies[0].StreamListFetched?
    requires w.pipe.replies[0].error != "" || w.pipe.replies[0].streams == []
    ensures Apply(cfg, w, Deliver) == Delivered(cfg, w)
  {
    var m := w.pipe.replies[0];
    ListHandleIs(cfg, w.actor, m);
    LoneReport(ToParent(AliveStreamCountCalculated(w.actor.triggeredAt, w.actor.reason, 0, m.error)));
    LoneReport(ToParent(AliveStreamCountCalculated(w.actor.triggeredAt, w.actor.reason, w.actor.aliveCount, "")));
    assert Emit(Take(w.pipe), [], Sleepers(w.now, [])) == Take(w.pipe);
  }

  /** A list with entries: `sends` are its first checks. */
  lemma ListAskIs(cfg: Config, w: World, sends: seq<Send>)
    requires Enabled(w, Deliver) && Accepts(cfg.self, w.actor, w.pipe.replies[0])
    requires w.pipe.replies[0].StreamListFetched?
    requires w.pipe.replies[0].error == "" && w.pipe.replies[0].streams != []
    requires var m := w.pipe.replies[0];
             && Handle(cfg.self, cfg.delay, w.actor, m) == Outcome(w.actor.(outstanding := |m.streams|), sends, [])
             && sends != [] && sends[0].ToGo2RTC?
             && Go2RTCMsgs(sends) == FirstChecks(cfg.self, cfg.delay, m.at, m.streams)
    ensures Apply(cfg, w, Deliver) == Delivered(cfg, w)
  {
    assert Sleepers(w.now, []) == [];
  }

  lemma ListDeliveryIs(cfg: Config, w: World)
    requires Enabled(w, Deliver) && Accepts(cfg.self, w.actor, w.pipe.replies[0])
    requires w.pipe.replies[0].StreamListFetched?
    ensures Apply(cfg, w, Deliver) == Delivered(cfg, w)
  {
    if w.pipe.replies[0].error != "" || w.pipe.replies[0].streams == [] {
      ListEndIs(cfg, w);
    } else {
      var m := w.pipe.replies[0];
      var checks := FirstChecks(cfg.self, cfg.delay, m.at, m.streams);
      ListHandleIs(cfg, w.actor, m);
      Go2RTCMsgsOfAll(checks);
      ListAskIs(cfg, w, AllToGo2RTC(checks));
    }
  }

  lemma DeliveryTotal(cfg: Config, w: World, f: Msg -> int)
    requires w.pipe.replies != [] && w.pipe.out == [] && Accepts(cfg.self, w.actor, w.pipe.replies[0])
    ensures var m := w.pipe.replies[0];
            Total(Everywhere(f), Delivered(cfg, w).pipe)
            == Total(Everywhere(f), w.pipe) - f(m)
               + (if m.StreamListFetched? then Sum(f, Delivered(cfg, w).pipe.out)
                  else if DeadReply(m, 1) then f(SecondCheck(cfg.self, m)) else 0)
  {
    var m := w.pipe.replies[0];
    var rest := Take(w.pipe);
    TotalTake(Everywhere(f), w.pipe);
    if m.StreamListFetched? {
      if m.error == "" && m.streams != [] {
        var checks := FirstChecks(cfg.self, cfg.delay, m.at, m.streams);
        TotalEmit(Everywhere(f), rest, checks, []);
        assert rest.out + checks == checks;
      }
    } else if DeadReply(m, 1) {
      var s := Sleeper(SecondCheck(cfg.self, m), w.now + m.confirmAfter);
      TotalEmit(Everywhere(f), rest, [], [s]);
      assert Sum(Everywhere(f).sleep, [s]) == f(s.check);
    }
  }

  lemma DeliveryKeepsStamps(cfg: Config, w: World)
    requires w.pipe.replies != [] && w.pipe.out == [] && Accepts(cfg.self, w.actor, w.pipe.replies[0])
    requires Stamped(cfg, w)
    ensures Stamped(cfg, Delivered(cfg, w))
  {
    var m := w.pipe.replies[0];
    assert m in w.pipe.replies;
    assert forall n :: n in Take(w.pipe).replies ==> n in w.pipe.replies;
    if m.StreamListFetched? {
      StampedChecks(cfg, w, m);
    } else if DeadReply(m, 1) {
      assert forall s :: s in Delivered(cfg, w).pipe.sleepers ==>
        (s in w.pipe.sleepers || s.check == SecondCheck(cfg.self, m));
    }
  }

  lemma StampedChecks(cfg: Config, w: World, m: Msg)
    requires m.StreamListFetched? && m.at in w.log.requested
    ensures forall c :: c in FirstChecks(cfg.self, cfg.delay, m.at, m.streams) ==> RequestOK(cfg, w.log, c)
  {}

  /** An accepted list finds a fetching run, an accepted check reply an auditing one. */
  lemma AcceptedFits(cfg: Config, w: World)
    requires OwnWork(w) && w.pipe.replies != [] && Accepts(cfg.self, w.actor, w.pipe.replies[0])
    requires ReplyOK(cfg, w.log, w.pipe.replies[0])
    ensures if w.pipe.replies[0].StreamListFetched? then Fetching(w) else w.actor.outstanding > 0
  {
    var at := w.actor.triggeredAt;
    TotalTake(Everywhere(FetchesOf(at)), w.pipe);
    TotalIsNat(FetchesOf(at), Take(w.pipe));
    TotalTake(Everywhere(ChecksOf(at)), w.pipe);
    TotalIsNat(ChecksOf(at), Take(w.pipe));
  }

  lemma {:induction false} FirstChecksCount(self: string, delay: Duration, at: Time, streams: seq<string>)
    ensures Sum(ChecksOf(at), FirstChecks(self, delay, at, streams)) == |streams|
    ensures Sum(FetchesOf(at), FirstChecks(self, delay, at, streams)) == 0
  {
    var checks := FirstChecks(self, delay, at, streams);
    SumBounds(ChecksOf(at), checks, 1, 1);
    SumBounds(FetchesOf(at), checks, 0, 0);
  }

  lemma DeliveryKeepsWork(cfg: Config, w: World)
    requires w.pipe.replies != [] && w.pipe.out == [] && Accepts(cfg.self, w.actor, w.pipe.replies[0])
    requires ReplyOK(cfg, w.log, w.pipe.replies[0]) && OwnWork(w) && PendingBacked(w)
    requires if w.pipe.replies[0].StreamListFetched? then Fetching(w) else w.actor.outstanding > 0
    ensures OwnWork(Delivered(cfg, w)) && PendingBacked(Delivered(cfg, w))
  {
    DeliveryKeepsPending(cfg, w);
    if w.pipe.replies[0].StreamListFetched? {
      ListKeepsWork(cfg, w);
    } else {
      CheckKeepsWork(cfg, w);
    }
  }

  lemma ListKeepsWork(cfg: Config, w: World)
    requires w.pipe.replies != [] && w.pipe.out == [] && Accepts(cfg.self, w.actor, w.pipe.replies[0])
    requires w.pipe.replies[0].StreamListFetched? && OwnWork(w) && Fetching(w)
    ensures OwnWork(Delivered(cfg, w))
  {
    var m := w.pipe.replies[0];
    if m.error == "" && m.streams != [] {
      ChecksAreOwnWork(cfg, w);
    } else {
      assert !Delivered(cfg, w).actor.running;
    }
  }

  lemma ChecksAreOwnWork(cfg: Config, w: World)
    requires w.pipe.replies != [] && w.pipe.out == [] && Accepts(cfg.self, w.actor, w.pipe.replies[0])
    requires w.pipe.replies[0].StreamListFetched? && OwnWork(w) && Fetching(w)
    requires w.pipe.replies[0].error == "" && w.pipe.replies[0].streams != []
    ensures OwnWork(Delivered(cfg, w))
  {
    ListTotals(cfg, w, w.actor.triggeredAt);
  }

  /** The fetch is traded for one check per entry. */
  lemma ListTotals(cfg: Config, w: World, at: Time)
    requires w.pipe.replies != [] && w.pipe.out == [] && Accepts(cfg.self, w.actor, w.pipe.replies[0])
    requires w.pipe.replies[0].StreamListFetched? && w.pipe.replies[0].at == at
    requires w.pipe.replies[0].error == "" && w.pipe.replies[0].streams != []
    ensures var p, p' := w.pipe, Delivered(cfg, w).pipe;
            && Total(Everywhere(ChecksOf(at)), p') == Total(Everywhere(ChecksOf(at)), p) + |p.replies[0].streams|
            && Total(Everywhere(FetchesOf(at)), p') == Total(Everywhere(FetchesOf(at)), p) - 1
  {
    var m := w.pipe.replies[0];
    assert ChecksOf(at)(m) == 0 && FetchesOf(at)(m) == 1;
    FirstChecksCount(cfg.self, cfg.delay, at, m.streams);
    ListTotal(cfg, w, ChecksOf(at));
    ListTotal(cfg, w, FetchesOf(at));
  }

  lemma ListTotal(cfg: Config, w: World, f: Msg -> int)
    requires w.pipe.replies != [] && w.pipe.out == [] && Accepts(cfg.self, w.actor, w.pipe.replies[0])
    requires w.pipe.replies[0].StreamListFetched?
    requires w.pipe.replies[0].error == "" && w.pipe.replies[0].streams != []
    ensures var m := w.pipe.replies[0];
            Total(Everywhere(f), Delivered(cfg, w).pipe) ==
            Total(Everywhere(f), w.pipe) - f(m) + Sum(f, FirstChecks(cfg.self, cfg.delay, m.at, m.streams))
  {
    var m := w.pipe.replies[0];
    DeliveryTotal(cfg, w, f);
    assert Delivered(cfg, w).pipe.out == FirstChecks(cfg.self, cfg.delay, m.at, m.streams);
  }

  lemma CheckKeepsWork(cfg: Config, w: World)
    requires w.pipe.replies != [] && w.pipe.out == [] && Accepts(cfg.self, w.actor, w.pipe.replies[0])
    requires w.pipe.replies[0].StreamHealthChecked? && IsCheck(w.pipe.replies[0])
    requires OwnWork(w) && w.actor.outstanding > 0
    requires var w' := Delivered(cfg, w); var at := w.actor.triggeredAt;
             forall x :: x in w'.actor.pending ==> Total(Everywhere(SecondOf(at, x)), w'.pipe) > 0
    ensures OwnWork(Delivered(cfg, w))
  {
    var w' := Delivered(cfg, w);
    var at := w.actor.triggeredAt;
    DeliveryTotal(cfg, w, ChecksOf(at));
    DeliveryTotal(cfg, w, FetchesOf(at));
    if !w'.actor.running {
      SettledLeavesNothing(w', at);
    }
  }

  /** Every suspect of a run still has its second check on the way, so a settled run has no suspects. */
  lemma SettledLeavesNothing(w: World, at: Time)
    requires forall x :: x in w.actor.pending ==> Total(Everywhere(SecondOf(at, x)), w.pipe) > 0
    requires w.actor.pending == map[] || Total(Everywhere(ChecksOf(at)), w.pipe) == 0
    ensures w.actor.pending == map[]
  {
    forall x ensures Total(Everywhere(SecondOf(at, x)), w.pipe) <= Total(Everywhere(ChecksOf(at)), w.pipe) {
      TotalAtMost(SecondOf(at, x), ChecksOf(at), w.pipe);
    }
    assert forall x :: x !in w.actor.pending;
  }

  lemma {:induction false} SumAtMost<T(!new)>(f: T -> int, g: T -> int, q: seq<T>)
    requires forall m :: f(m) <= g(m)
    ensures Sum(f, q) <= Sum(g, q)
  {
    if q != [] {
      SumAtMost(f, g, q[1..]);
    }
  }

  lemma TotalAtMost(f: Msg -> int, g: Msg -> int, p: Pipe)
    requires forall m :: f(m) <= g(m)
    ensures Total(Everywhere(f), p) <= Total(Everywhere(g), p)
  {
    SumAtMost(f, g, p.replies);
    SumAtMost(f, g, p.requests);
    SumAtMost(f, g, p.out);
    assert forall s: Sleeper :: Everywhere(f).sleep(s) == f(s.check) && Everywhere(g).sleep(s) == g(s.check);
    SumAtMost(Everywhere(f).sleep, Everywhere(g).sleep, p.sleepers);
  }

  lemma DeliveryKeepsPending(cfg: Config, w: World)
    requires w.pipe.replies != [] && w.pipe.out == [] && Accepts(cfg.self, w.actor, w.pipe.replies[0])
    requires ReplyOK(cfg, w.log, w.pipe.replies[0]) && PendingBacked(w)
    requires w.pipe.replies[0].StreamListFetched? ==> w.actor.pending == map[]
    ensures var w' := Delivered(cfg, w); var at := w.actor.triggeredAt;
            forall x :: x in w'.actor.pending ==> Total(Everywhere(SecondOf(at, x)), w'.pipe) > 0
  {
    var w' := Delivered(cfg, w);
    var m := w.pipe.replies[0];
    var at := w.actor.triggeredAt;
    forall x | x in w'.actor.pending ensures Total(Everywhere(SecondOf(at, x)), w'.pipe) > 0 {
      DeliveryTotal(cfg, w, SecondOf(at, x));
      TotalIsNat(SecondOf(at, x), w.pipe);
    }
  }

  lemma DeliveryKeepsResults(cfg: Config, w: World)
    requires w.pipe.replies != [] && Accepts(cfg.self, w.actor, w.pipe.replies[0])
    requires OneResultEach(w)
    ensures OneResultEach(Delivered(cfg, w))
  {}

  lemma DeliveryKeeps(cfg: Config, w: World)
    requires Inv(cfg, w) && Enabled(w, Deliver)
    ensures Inv(cfg, Apply(cfg, w, Deliver))
  {
    var m := w.pipe.replies[0];
    assert ReplyOK(cfg, w.log, m) by { assert m in w.pipe.replies; }
    if Accepts(cfg.self, w.actor, m) {
      AcceptedFits(cfg, w);
      if m.StreamListFetched? { ListDeliveryIs(cfg, w); } else { CheckDeliveryIs(cfg, w); }
      DeliveryKeepsStamps(cfg, w);
      DeliveryKeepsWork(cfg, w);
      DeliveryKeepsResults(cfg, w);
    } else {
      StaleDeliveryKeeps(cfg, w);
    }
  }

  /** Stale replies belong to other runs: they leave the run's own work, and everything else, as it was. */
  lemma StaleDeliveryKeeps(cfg: Config, w: World)
    requires Inv(cfg, w) && Enabled(w, Deliver)
    requires ReplyOK(cfg, w.log, w.pipe.replies[0]) && !Accepts(cfg.self, w.actor, w.pipe.replies[0])
    ensures Apply(cfg, w, Deliver) == w.(pipe := Take(w.pipe))
    ensures Inv(cfg, Apply(cfg, w, Deliver))
  {
    StaleDeliveryIs(cfg, w);
    var at := w.actor.triggeredAt;
    assert forall m :: m in Take(w.pipe).replies ==> m in w.pipe.replies;
    TotalTake(Everywhere(ChecksOf(at)), w.pipe);
    TotalTake(Everywhere(FetchesOf(at)), w.pipe);
    forall x ensures w.actor.running ==> Total(Everywhere(SecondOf(at, x)), Take(w.pipe))
                                         == Total(Everywhere(SecondOf(at, x)), w.pipe) {
      TotalTake(Everywhere(SecondOf(at, x)), w.pipe);
    }
  }

  // ---------- all steps ----------

  lemma StepKeeps(cfg: Config, w: World, step: Step)
    requires Inv(cfg, w) && Enabled(w, step)
    ensures Inv(cfg, Apply(cfg, w, step))
  {
    match step
    case Start(at, reason) => StartKeeps(cfg, w, at, reason);
    case Deliver => DeliveryKeeps(cfg, w);
    case _ => MovesKeep(cfg, w, step);
  }
}
