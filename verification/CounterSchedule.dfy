/**
 * Accounting under scripted answers for the counter, with failing checks allowed: counted and promised
 * entries, and promised failures, add up to the audit of the list at every step of the lane.
 */
module CounterSchedule {
  import opened Messages
  import opened Sums
  import opened Pipes
  import opened Audit
  import opened Promises
  import opened CounterLane
  import opened CounterSafety
  import Go2RTC

  /** go2rtc answers the running run's own requests by the script; stale ones may get any answer. */
  predicate FollowsNow(script: Script, w: World, step: Step)
    requires Enabled(w, step)
  {
    step.Serve? && w.actor.running && w.pipe.requests[0].at == w.actor.triggeredAt ==>
      Follows(script, w.pipe.requests[0], step.outside)
  }

  function Own(at: Time, f: Msg -> int): Msg -> int
  {
    (m: Msg) => if IsCheck(m) && m.at == at then f(m) else 0
  }

  ghost predicate AnswersFollow(script: Script, w: World)
  {
    forall m :: m in w.pipe.replies && IsCheck(m) && m.at == w.actor.triggeredAt ==> ReplyFollows(script, m)
  }

  ghost predicate CountsAddUp(script: Script, w: World)
  {
    var at := w.actor.triggeredAt;
    && !w.log.listFailed
    && w.actor.aliveCount + Total(Everywhere(Own(at, AliveDue(script))), w.pipe) == AliveEntries(script, w.log.list)
    && Total(Everywhere(Own(at, FailureDue(script))), w.pipe) == FailedEntries(script, w.log.list)
  }

  /** The finished run reported what the audit reports. */
  predicate Audited(script: Script, log: Log)
  {
    && log.summary.Some? && log.summary.value.AliveStreamCountCalculated?
    && (log.summary.value.error == "" <==> !log.listFailed && FailedEntries(script, log.list) == 0)
    && (log.summary.value.error == "" ==> log.summary.value.alive == AliveEntries(script, log.list))
  }

  ghost predicate Accounted(script: Script, w: World)
  {
    && (Auditing(w) ==> AnswersFollow(script, w) && CountsAddUp(script, w))
    && (w.log.summary.Some? ==> Audited(script, w.log))
  }

  // ---------- moves ----------

  lemma AnswerFollows(script: Script, r: Msg, now: Time, outside: Go2RTC.Outside)
    requires r.CheckStreamHealth? && IsCheck(r) && Follows(script, r, outside)
    ensures var a := Go2RTC.Answer(r, now, outside);
            ReplyFollows(script, a) && AliveDue(script)(a) == AliveDue(script)(r)
            && FailureDue(script)(a) == FailureDue(script)(r)
  {
    AnswerMatches(r, now, outside);
    var a := Go2RTC.Answer(r, now, outside);
    assert IsFirst(a) == IsFirst(r) && IsSecond(a) == IsSecond(r) && a.name == r.name;
  }

  /** An entry is worth at most one. */
  lemma DueIsSmall(script: Script, at: Time)
    ensures forall m :: 0 <= Own(at, AliveDue(script))(m) <= ChecksOf(at)(m)
    ensures forall m :: 0 <= Own(at, FailureDue(script))(m) <= ChecksOf(at)(m)
  {
    forall x ensures 0 <= AliveAtAll(script)(x) <= 1 && 0 <= AliveAgain(script)(x) <= 1
                  && 0 <= FailsAtAll(script)(x) <= 1 && 0 <= FailsAgain(script)(x) <= 1 {
      var v := script.check(x, 1);
      assert v == Alive || v == Dead || v.Failed?;
    }
    forall m ensures 0 <= Own(at, AliveDue(script))(m) <= ChecksOf(at)(m)
                  && 0 <= Own(at, FailureDue(script))(m) <= ChecksOf(at)(m) {
      if IsCheck(m) && m.at == at {
        assert Own(at, AliveDue(script))(m) == AliveDue(script)(m);
        assert Own(at, FailureDue(script))(m) == FailureDue(script)(m);
      }
    }
  }

  lemma OwnAnswer(script: Script, r: Msg, now: Time, outside: Go2RTC.Outside, at: Time)
    requires r.FetchStreamList? || (r.CheckStreamHealth? && IsCheck(r))
    requires r.at == at ==> Follows(script, r, outside)
    ensures var a := Go2RTC.Answer(r, now, outside);
            && (IsCheck(a) && a.at == at ==> ReplyFollows(script, a))
            && Own(at, AliveDue(script))(a) == Own(at, AliveDue(script))(r)
            && Own(at, FailureDue(script))(a) == Own(at, FailureDue(script))(r)
  {
    AnswerMatches(r, now, outside);
    if r.CheckStreamHealth? && r.at == at {
      AnswerFollows(script, r, now, outside);
    }
  }

  lemma MovesKeepAccount(cfg: Config, script: Script, w: World, step: Step)
    requires Stamped(cfg, w) && Enabled(w, step) && IsMove(step) && FollowsNow(script, w, step)
    requires Accounted(script, w)
    ensures Accounted(script, Apply(cfg, w, step))
  {
    if Auditing(w) {
      var w' := Apply(cfg, w, step);
      var at := w.actor.triggeredAt;
      if step.Serve? {
        var r := w.pipe.requests[0];
        assert r in w.pipe.requests;
        OwnAnswer(script, r, w.now, step.outside, at);
        assert forall m :: m in w'.pipe.replies ==> m in w.pipe.replies || m == Go2RTC.Answer(r, w.now, step.outside);
      }
      MovesKeepTotal(cfg, w, step, Own(at, AliveDue(script)));
      MovesKeepTotal(cfg, w, step, Own(at, FailureDue(script)));
    }
  }

  // ---------- deliveries ----------

  /** When the list arrives no check of the run is in flight yet; then each entry owes its first check. */
  lemma ListOwes(cfg: Config, w: World, f: Msg -> int, g: string -> int)
    requires w.pipe.replies != [] && w.pipe.out == [] && Accepts(cfg.self, w.actor, w.pipe.replies[0])
    requires w.pipe.replies[0].StreamListFetched?
    requires w.pipe.replies[0].error == "" && w.pipe.replies[0].streams != []
    requires Total(Everywhere(f), w.pipe) == 0 && f(w.pipe.replies[0]) == 0
    requires forall x :: f(CheckStreamHealth(x, w.actor.triggeredAt, 1, cfg.self, cfg.delay)) == g(x)
    ensures Total(Everywhere(f), Delivered(cfg, w).pipe) == Sum(g, w.pipe.replies[0].streams)
  {
    var m := w.pipe.replies[0];
    var checks := FirstChecks(cfg.self, cfg.delay, m.at, m.streams);
    FirstChecksSum(cfg.self, cfg.delay, m.at, m.streams, f, g);
    TotalTake(Everywhere(f), w.pipe);
    TotalEmit(Everywhere(f), Take(w.pipe), checks, []);
  }

  lemma ListCounts(cfg: Config, script: Script, w: World)
    requires w.pipe.replies != [] && w.pipe.out == [] && Accepts(cfg.self, w.actor, w.pipe.replies[0])
    requires w.pipe.replies[0].StreamListFetched? && OwnWork(w) && Fetching(w)
    requires w.pipe.replies[0].error == "" && w.pipe.replies[0].streams != []
    ensures CountsAddUp(script, Delivered(cfg, w))
  {
    var m := w.pipe.replies[0];
    DueIsSmall(script, m.at);
    forall x ensures var c := CheckStreamHealth(x, m.at, 1, cfg.self, cfg.delay);
                     Own(m.at, AliveDue(script))(c) == AliveAtAll(script)(x)
                     && Own(m.at, FailureDue(script))(c) == FailsAtAll(script)(x) {
      var c := CheckStreamHealth(x, m.at, 1, cfg.self, cfg.delay);
      assert IsFirst(c) && Own(m.at, AliveDue(script))(c) == AliveDue(script)(c);
      assert Own(m.at, FailureDue(script))(c) == FailureDue(script)(c);
    }
    NoChecksYet(w, m.at, Own(m.at, AliveDue(script)));
    NoChecksYet(w, m.at, Own(m.at, FailureDue(script)));
    ListOwes(cfg, w, Own(m.at, AliveDue(script)), AliveAtAll(script));
    ListOwes(cfg, w, Own(m.at, FailureDue(script)), FailsAtAll(script));
    AliveEntriesIsSum(script, m.streams);
    FailedEntriesIsSum(script, m.streams);
  }

  lemma ListKeepsAccount(cfg: Config, script: Script, w: World)
    requires w.pipe.replies != [] && w.pipe.out == [] && Accepts(cfg.self, w.actor, w.pipe.replies[0])
    requires w.pipe.replies[0].StreamListFetched? && OwnWork(w) && Fetching(w)
    ensures Accounted(script, Delivered(cfg, w))
  {
    var m := w.pipe.replies[0];
    if m.error == "" && m.streams != [] {
      ListCounts(cfg, script, w);
      NoOwnReplies(w, m.at);
      assert forall n :: n in Delivered(cfg, w).pipe.replies ==> n in w.pipe.replies;
    }
  }

  /** Weights of the run's own checks add up to nothing while there are none. */
  lemma NoChecksYet(w: World, at: Time, f: Msg -> int)
    requires Total(Everywhere(ChecksOf(at)), w.pipe) == 0
    requires forall m :: 0 <= f(m) <= ChecksOf(at)(m)
    ensures Total(Everywhere(f), w.pipe) == 0
  {
    TotalAtMost(f, ChecksOf(at), w.pipe);
    TotalIsNat(f, w.pipe);
  }

  lemma NoOwnReplies(w: World, at: Time)
    requires Total(Everywhere(ChecksOf(at)), w.pipe) == 0
    ensures forall m :: m in w.pipe.replies ==> !(IsCheck(m) && m.at == at)
  {
    var f := ChecksOf(at);
    SumIsNat(f, w.pipe.replies);
    SumIsNat(f, w.pipe.requests);
    SumIsNat(f, w.pipe.out);
    assert forall s: Sleeper :: Everywhere(f).sleep(s) == f(s.check);
    SumIsNat(Everywhere(f).sleep, w.pipe.sleepers);
    forall m | m in w.pipe.replies ensures f(m) == 0 {
      var i :| 0 <= i < |w.pipe.replies| && w.pipe.replies[i] == m;
      SumWithout(f, w.pipe.replies, i);
      SumIsNat(f, w.pipe.replies[..i] + w.pipe.replies[i + 1..]);
    }
  }

  lemma CheckKeepsAccount(cfg: Config, script: Script, w: World)
    requires w.pipe.replies != [] && w.pipe.out == [] && w.log.summary.None?
    requires Accepts(cfg.self, w.actor, w.pipe.replies[0]) && w.pipe.replies[0].StreamHealthChecked?
    requires IsCheck(w.pipe.replies[0]) && w.actor.outstanding > 0
    requires w.actor.outstanding == Total(Everywhere(ChecksOf(w.actor.triggeredAt)), w.pipe)
    requires AnswersFollow(script, w) && CountsAddUp(script, w)
    ensures Accounted(script, Delivered(cfg, w))
  {
    var w' := Delivered(cfg, w);
    var m := w.pipe.replies[0];
    var at := w.actor.triggeredAt;
    var fails := Own(at, FailureDue(script));
    assert ReplyFollows(script, m) by { assert m in w.pipe.replies; }
    assert forall n :: n in w'.pipe.replies ==> n in w.pipe.replies;
    CheckPays(cfg, script, w);
    DueIsSmall(script, at);
    TotalIsNat(fails, w'.pipe);
    if !w'.actor.running && m.error == "" {
      LastCheckLeavesNothing(cfg, script, w);
    }
  }

  /** A scripted reply moves from what is due to what is counted, and leaves due what its second check will bring. */
  lemma CheckPays(cfg: Config, script: Script, w: World)
    requires w.pipe.replies != [] && w.pipe.out == []
    requires Accepts(cfg.self, w.actor, w.pipe.replies[0]) && w.pipe.replies[0].StreamHealthChecked?
    requires IsCheck(w.pipe.replies[0]) && ReplyFollows(script, w.pipe.replies[0])
    ensures var m := w.pipe.replies[0]; var at := w.actor.triggeredAt; var p' := Delivered(cfg, w).pipe;
            && Total(Everywhere(Own(at, AliveDue(script))), p') ==
               Total(Everywhere(Own(at, AliveDue(script))), w.pipe) - (if m.error == "" && m.hasProducer then 1 else 0)
            && Total(Everywhere(Own(at, FailureDue(script))), p') ==
               Total(Everywhere(Own(at, FailureDue(script))), w.pipe) - (if m.error != "" then 1 else 0)
  {
    var m := w.pipe.replies[0];
    var at := w.actor.triggeredAt;
    var alive, fails := Own(at, AliveDue(script)), Own(at, FailureDue(script));
    CheckReplyPays(cfg.self, script, m);
    assert alive(m) == AliveDue(script)(m) && fails(m) == FailureDue(script)(m);
    if DeadReply(m, 1) {
      var again := SecondCheck(cfg.self, m);
      assert IsSecond(again) && alive(again) == AliveDue(script)(again) && fails(again) == FailureDue(script)(again);
    }
    DeliveryTotal(cfg, w, alive);
    DeliveryTotal(cfg, w, fails);
  }

  /** A run that ends with its last check has nothing due any more. */
  lemma LastCheckLeavesNothing(cfg: Config, script: Script, w: World)
    requires w.pipe.replies != [] && w.pipe.out == []
    requires Accepts(cfg.self, w.actor, w.pipe.replies[0]) && w.pipe.replies[0].StreamHealthChecked?
    requires IsCheck(w.pipe.replies[0]) && w.pipe.replies[0].error == "" && !Delivered(cfg, w).actor.running
    requires w.actor.outstanding == Total(Everywhere(ChecksOf(w.actor.triggeredAt)), w.pipe)
    ensures var at := w.actor.triggeredAt; var p' := Delivered(cfg, w).pipe;
            && Total(Everywhere(Own(at, AliveDue(script))), p') == 0
            && Total(Everywhere(Own(at, FailureDue(script))), p') == 0
  {
    var at := w.actor.triggeredAt;
    var w' := Delivered(cfg, w);
    DueIsSmall(script, at);
    DeliveryTotal(cfg, w, ChecksOf(at));
    NoChecksYet(w', at, Own(at, AliveDue(script)));
    NoChecksYet(w', at, Own(at, FailureDue(script)));
  }

  lemma DeliverKeepsAccount(cfg: Config, script: Script, w: World)
    requires Inv(cfg, w) && Enabled(w, Deliver) && Accounted(script, w)
    ensures Accounted(script, Apply(cfg, w, Deliver))
  {
    var m := w.pipe.replies[0];
    assert ReplyOK(cfg, w.log, m) by { assert m in w.pipe.replies; }
    if Accepts(cfg.self, w.actor, m) {
      AcceptedFits(cfg, w);
      if m.StreamListFetched? {
        ListDeliveryIs(cfg, w);
        ListKeepsAccount(cfg, script, w);
      } else {
        CheckDeliveryIs(cfg, w);
        CheckKeepsAccount(cfg, script, w);
      }
    } else {
      StaleKeepsAccount(cfg, script, w);
    }
  }

  lemma StaleKeepsAccount(cfg: Config, script: Script, w: World)
    requires Enabled(w, Deliver) && ReplyOK(cfg, w.log, w.pipe.replies[0]) && Accounted(script, w)
    requires !Accepts(cfg.self, w.actor, w.pipe.replies[0])
    ensures Accounted(script, Apply(cfg, w, Deliver))
  {
    StaleDeliveryIs(cfg, w);
    var at := w.actor.triggeredAt;
    assert forall m :: m in Take(w.pipe).replies ==> m in w.pipe.replies;
    TotalTake(Everywhere(Own(at, AliveDue(script))), w.pipe);
    TotalTake(Everywhere(Own(at, FailureDue(script))), w.pipe);
  }

  // ---------- all steps ----------

  lemma StepKeepsAccount(cfg: Config, script: Script, w: World, step: Step)
    requires Inv(cfg, w) && Enabled(w, step) && Accounted(script, w) && FollowsNow(script, w, step)
    ensures Accounted(script, Apply(cfg, w, step))
  {
    match step
    case Start(at, reason) => StartIs(cfg, w, at, reason);
    case Deliver => DeliverKeepsAccount(cfg, script, w);
    case _ => MovesKeepAccount(cfg, script, w, step);
  }

  lemma {:induction false} SelectNone(list: seq<string>, p: string -> bool)
    requires forall x :: !p(x)
    ensures Select(list, p) == []
  {
    if list != [] {
      SelectNone(list[1..], p);
    }
  }
}
