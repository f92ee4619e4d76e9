/**
 * Accounting under scripted answers: what the cleaner has counted and what its messages in flight still
 * promise add up, at every step of its lane, to what the sequential audit of the fetched list finds.
 */
module CleanerSchedule {
  import opened Messages
  import opened Sums
  import opened Pipes
  import opened Audit
  import opened Promises
  import opened CleanerLane
  import opened CleanerSafety
  import Go2RTC

  function FirstOf(name: string): Msg -> int
  {
    (m: Msg) => if IsFirst(m) && m.name == name then 1 else 0
  }

  /** Weight of messages about streams that are not in the list. */
  function StrayFrom(list: seq<string>): Msg -> int
  {
    (m: Msg) => if (IsFirst(m) || IsSecond(m)) && m.name !in list then 1 else 0
  }

  ghost predicate AnswersFollow(script: Script, w: World)
  {
    && (forall m :: m in w.pipe.replies ==> ReplyFollows(script, m))
    && (forall x :: x in w.actor.pending ==> script.check(x, 1) == Dead)
  }

  ghost predicate CountsAddUp(script: Script, w: World)
  {
    && w.actor.aliveCount + Total(Everywhere(AliveDue(script)), w.pipe) == AliveEntries(script, w.log.list)
    && w.actor.removedCount + Total(Everywhere(RemovalDue(script)), w.pipe)
       == Sum(Counts(Removes(script)), w.log.removes)
  }

  /** Every doomed stream of the list is removed, suspected, or still waits for its first check. */
  ghost predicate DoomedCovered(script: Script, w: World)
  {
    forall x :: x in w.log.list && DeadTwice(script, x) ==>
      x in w.log.removes || x in w.actor.pending || Total(Everywhere(FirstOf(x)), w.pipe) > 0
  }

  ghost predicate RemovesDoomed(script: Script, w: World)
  {
    && Total(Everywhere(StrayFrom(w.log.list)), w.pipe) == 0
    && forall x :: x in w.log.removes ==> DeadTwice(script, x) && x in w.log.list
  }

  /** The finished cycle reported what the audit reports. */
  ghost predicate Audited(script: Script, log: Log)
  {
    && log.summary.Some? && log.summary.value.CleanupCycleFinished?
    && log.summary.value.alive == AliveEntries(script, log.list)
    && log.summary.value.removedStreams == RemovedStreams(script, log.list)
    && Distinct(log.removes)
    && (forall x :: x in log.removes <==> x in Doomed(script, log.list))
  }

  ghost predicate Accounted(script: Script, w: World)
  {
    && (Auditing(w) ==>
          AnswersFollow(script, w) && CountsAddUp(script, w) && DoomedCovered(script, w) && RemovesDoomed(script, w))
    && (w.log.summary.Some? ==> Audited(script, w.log))
  }

  // ---------- steps that only move or answer messages ----------

  lemma MovesKeepAccount(cfg: Config, script: Script, w: World, step: Step)
    requires Shape(cfg, w) && Auditing(w) && Enabled(w, step) && (step.Flush? || step.Wake? || step.Tick?)
    requires Accounted(script, w)
    ensures Accounted(script, Apply(cfg, w, step))
  {
    var w' := Apply(cfg, w, step);
    forall f: Msg -> int ensures Total(Everywhere(f), w'.pipe) == Total(Everywhere(f), w.pipe) {
      match step
      case Flush => TotalFlush(Everywhere(f), w.pipe);
      case Wake(i) => TotalWake(Everywhere(f), w.pipe, i);
      case Tick(_) =>
    }
  }

  lemma AnswerFollows(script: Script, r: Msg, now: Time, outside: Go2RTC.Outside)
    requires Go2RTC.IsRequest(r) && !r.FetchStreamList? && Follows(script, r, outside)
    ensures var a := Go2RTC.Answer(r, now, outside);
            && ReplyFollows(script, a)
            && AliveDue(script)(a) == AliveDue(script)(r)
            && RemovalDue(script)(a) == RemovalDue(script)(r)
            && (forall x :: FirstOf(x)(a) == FirstOf(x)(r))
            && (forall list :: StrayFrom(list)(a) == StrayFrom(list)(r))
  {
    AnswerMatches(r, now, outside);
    var a := Go2RTC.Answer(r, now, outside);
    if r.CheckStreamHealth? {
      assert a.StreamHealthChecked? && a.name == r.name && a.attempt == r.attempt;
    } else {
      assert a.StreamRemovalCompleted? && a.name == r.name;
    }
  }

  lemma ServeKeepsAccount(cfg: Config, script: Script, w: World, outside: Go2RTC.Outside)
    requires Shape(cfg, w) && Auditing(w) && Enabled(w, Serve(outside))
    requires Follows(script, w.pipe.requests[0], outside)
    requires Accounted(script, w)
    ensures Accounted(script, Apply(cfg, w, Serve(outside)))
  {
    var w' := Apply(cfg, w, Serve(outside));
    var r := w.pipe.requests[0];
    var a := Go2RTC.Answer(r, w.now, outside);
    assert r in w.pipe.requests;
    AnswerFollows(script, r, w.now, outside);
    TotalServe(Everywhere(AliveDue(script)), w.pipe, a);
    TotalServe(Everywhere(RemovalDue(script)), w.pipe, a);
    TotalServe(Everywhere(StrayFrom(w.log.list)), w.pipe, a);
    forall x ensures Total(Everywhere(FirstOf(x)), w'.pipe) == Total(Everywhere(FirstOf(x)), w.pipe) {
      TotalServe(Everywhere(FirstOf(x)), w.pipe, a);
    }
    assert forall m :: m in w'.pipe.replies ==> m in w.pipe.replies || m == a;
  }

  // ---------- the fetched list ----------

  function IsName(name: string): string -> int { x => if x == name then 1 else 0 }

  lemma {:induction false} NameCounted(name: string, list: seq<string>)
    requires name in list
    ensures Sum(IsName(name), list) > 0
  {
    if list[0] != name {
      NameCounted(name, list[1..]);
    } else {
      SumIsNat(IsName(name), list[1..]);
    }
  }

  lemma ListCoversDoomed(cfg: Config, script: Script, w: World)
    requires ListHead(w) && w.pipe.replies[0].error == ""
    ensures DoomedCovered(script, Listed(cfg, w))
  {
    var w' := Listed(cfg, w);
    var m := w.pipe.replies[0];
    forall x | x in m.streams ensures Total(Everywhere(FirstOf(x)), w'.pipe) > 0 {
      FirstChecksSum(cfg.self, cfg.delay, m.at, m.streams, FirstOf(x), IsName(x));
      NameCounted(x, m.streams);
    }
  }

  lemma ListCounts(cfg: Config, script: Script, w: World)
    requires ListHead(w) && w.pipe.replies[0].error == "" && w.pipe.replies[0].streams != []
    requires w.actor.aliveCount == 0 && w.actor.removedCount == 0 && w.log.removes == []
    ensures CountsAddUp(script, Listed(cfg, w)) && RemovesDoomed(script, Listed(cfg, w))
  {
    var m := w.pipe.replies[0];
    var checks := Listed(cfg, w).pipe.out;
    FirstChecksSum(cfg.self, cfg.delay, m.at, m.streams, AliveDue(script), AliveAtAll(script));
    AliveEntriesIsSum(script, m.streams);
    SumBounds(RemovalDue(script), checks, 0, 0);
    SumBounds(StrayFrom(m.streams), checks, 0, 0);
  }

  lemma ListKeepsAccount(cfg: Config, script: Script, w: World)
    requires Shape(cfg, w) && Fetching(w) && ListHead(w) && w.log.summary.None?
    ensures Accounted(script, Listed(cfg, w))
  {
    var m := w.pipe.replies[0];
    if m.error == "" && m.streams != [] {
      ListCoversDoomed(cfg, script, w);
      ListCounts(cfg, script, w);
    }
  }

  // ---------- deliveries ----------

  lemma DeliveryTotal(cfg: Config, w: World, f: Msg -> int)
    requires HeadOK(cfg, w)
    ensures var m := w.pipe.replies[0];
            Total(Everywhere(f), Delivered(cfg, w).pipe)
            == Total(Everywhere(f), w.pipe) - f(m)
               + (match TurnOf(w.actor, m)
                  case Suspect => f(SecondCheck(cfg.self, m))
                  case Remove => f(RemoveStream(m.name, m.at))
                  case Settle => 0)
  {
    var m := w.pipe.replies[0];
    TotalTake(Everywhere(f), w.pipe);
    match TurnOf(w.actor, m)
    case Suspect =>
      var s := Sleeper(SecondCheck(cfg.self, m), w.now + m.confirmAfter);
      TotalEmit(Everywhere(f), Take(w.pipe), [], [s]);
      assert Sum(Everywhere(f).sleep, [s]) == f(s.check);
    case Remove =>
      TotalEmit(Everywhere(f), Take(w.pipe), [RemoveStream(m.name, m.at)], []);
      assert Sum(f, [RemoveStream(m.name, m.at)]) == f(RemoveStream(m.name, m.at));
    case Settle =>
  }

  lemma DeliveryKeepsAnswers(cfg: Config, script: Script, w: World)
    requires HeadOK(cfg, w) && AnswersFollow(script, w)
    ensures AnswersFollow(script, Delivered(cfg, w))
  {
    assert w.pipe.replies[0] in w.pipe.replies;
    assert forall m :: m in Delivered(cfg, w).pipe.replies ==> m in w.pipe.replies;
  }

  lemma ReplyPays(cfg: Config, script: Script, s: StreamCleaner.State, m: Msg)
    requires ReplyFollows(script, m) && (m.StreamHealthChecked? || m.StreamRemovalCompleted?)
    requires m.StreamHealthChecked? ==> m.attempt == 1 || m.attempt == 2
    ensures AliveDue(script)(m)
            == AsAlive()(m) + (if DeadReply(m, 1) then AliveDue(script)(SecondCheck(cfg.self, m)) else 0)
    ensures RemovalDue(script)(m) == AsRemoved()(m)
    ensures Settling(s, m).aliveCount == s.aliveCount + AsAlive()(m)
    ensures Settling(s, m).removedCount == s.removedCount + AsRemoved()(m)
  {
    if m.StreamRemovalCompleted? {
      assert !IsFirst(m) && !IsSecond(m) && AliveDue(script)(m) == 0 && AsAlive()(m) == 0;
      assert Counts(Removes(script))(m.name) == if Removes(script)(m.name) then 1 else 0;
      assert Removes(script)(m.name) == (script.removal(m.name) == Removed);
    } else {
      CheckReplyPays(cfg.self, script, m);
    }
  }

  lemma DeliveryKeepsAlive(cfg: Config, script: Script, w: World)
    requires HeadOK(cfg, w) && ReplyFollows(script, w.pipe.replies[0])
    ensures var w' := Delivered(cfg, w); var due := Everywhere(AliveDue(script));
            w'.actor.aliveCount + Total(due, w'.pipe) == w.actor.aliveCount + Total(due, w.pipe)
  {
    var m := w.pipe.replies[0];
    ReplyPays(cfg, script, w.actor, m);
    DeliveryTotal(cfg, w, AliveDue(script));
    var r := RemoveStream(m.name, m.at);
    assert !IsFirst(r) && !IsSecond(r) && AliveDue(script)(r) == 0;
    assert Delivered(cfg, w).actor.aliveCount == w.actor.aliveCount + AsAlive()(m);
  }

  lemma DeliveryKeepsRemoved(cfg: Config, script: Script, w: World)
    requires HeadOK(cfg, w) && ReplyFollows(script, w.pipe.replies[0])
    ensures var w' := Delivered(cfg, w); var due := Everywhere(RemovalDue(script)); var f := Counts(Removes(script));
            w'.actor.removedCount + Total(due, w'.pipe) - Sum(f, w'.log.removes)
            == w.actor.removedCount + Total(due, w.pipe) - Sum(f, w.log.removes)
  {
    var m := w.pipe.replies[0];
    ReplyPays(cfg, script, w.actor, m);
    DeliveryTotal(cfg, w, RemovalDue(script));
    SumSnoc(Counts(Removes(script)), w.log.removes, m.name);
  }

  lemma DeliveryKeepsCounts(cfg: Config, script: Script, w: World)
    requires HeadOK(cfg, w) && ReplyFollows(script, w.pipe.replies[0]) && CountsAddUp(script, w)
    ensures CountsAddUp(script, Delivered(cfg, w))
  {
    DeliveryKeepsAlive(cfg, script, w);
    DeliveryKeepsRemoved(cfg, script, w);
    assert Delivered(cfg, w).log.list == w.log.list;
  }

  lemma DeliveryKeepsDoomed(cfg: Config, script: Script, w: World)
    requires HeadOK(cfg, w) && AnswersFollow(script, w) && DoomedCovered(script, w)
    ensures DoomedCovered(script, Delivered(cfg, w))
  {
    var w' := Delivered(cfg, w);
    var m := w.pipe.replies[0];
    assert ReplyFollows(script, m) by { assert m in w.pipe.replies; }
    forall x | x in w'.log.list && DeadTwice(script, x)
      ensures x in w'.log.removes || x in w'.actor.pending || Total(Everywhere(FirstOf(x)), w'.pipe) > 0
    {
      DeliveryTotal(cfg, w, FirstOf(x));
      if x in w.log.removes { assert x in w'.log.removes; }
      if TurnOf(w.actor, m) == Remove { assert m.name in w'.log.removes; }
    }
  }

  lemma DeliveryKeepsRemoves(cfg: Config, script: Script, w: World)
    requires HeadOK(cfg, w) && AnswersFollow(script, w) && RemovesDoomed(script, w)
    ensures RemovesDoomed(script, Delivered(cfg, w))
  {
    var m := w.pipe.replies[0];
    var f := StrayFrom(w.log.list);
    assert ReplyFollows(script, m) by { assert m in w.pipe.replies; }
    DeliveryTotal(cfg, w, f);
    TotalIsNat(f, Delivered(cfg, w).pipe);
    TotalIsNat(f, Take(w.pipe));
    TotalTake(Everywhere(f), w.pipe);
  }

  lemma SettledAudit(script: Script, w: World)
    requires w.pipe == EMPTY && w.actor.pending == map[]
    requires CountsAddUp(script, w) && DoomedCovered(script, w) && RemovesDoomed(script, w)
    requires Distinct(w.log.removes)
    requires w.log.summary == Some(StreamCleaner.Summary(w.actor))
    ensures Audited(script, w.log)
  {
    forall x | x in w.log.list && DeadTwice(script, x) ensures x in w.log.removes {
      assert Total(Everywhere(FirstOf(x)), EMPTY) == 0;
    }
    RemovedStreamsIsSum(script, w.log.list, w.log.removes);
    DoomedMembers(script, w.log.list);
    assert Total(Everywhere(AliveDue(script)), EMPTY) == 0;
    assert Total(Everywhere(RemovalDue(script)), EMPTY) == 0;
  }

  lemma DeliveryKeepsAccount(cfg: Config, script: Script, w: World)
    requires HeadOK(cfg, w) && w.log.summary.None?
    requires AnswersFollow(script, w) && CountsAddUp(script, w) && DoomedCovered(script, w) && RemovesDoomed(script, w)
    requires Shape(cfg, Delivered(cfg, w)) && RemovedOnce(Delivered(cfg, w))
    ensures Accounted(script, Delivered(cfg, w))
  {
    var w' := Delivered(cfg, w);
    DeliveryKeepsAnswers(cfg, script, w);
    assert w.pipe.replies[0] in w.pipe.replies;
    DeliveryKeepsCounts(cfg, script, w);
    DeliveryKeepsDoomed(cfg, script, w);
    DeliveryKeepsRemoves(cfg, script, w);
    if w'.log.summary.Some? {
      SettledAudit(script, w');
    }
  }

  // ---------- all steps ----------

  lemma DeliverKeepsAccount(cfg: Config, script: Script, w: World)
    requires Inv(cfg, w) && Enabled(w, Deliver) && Accounted(script, w)
    ensures Accounted(script, Apply(cfg, w, Deliver))
  {
    assert Shape(cfg, w) && Tallied(w);
    if Fetching(w) {
      ListDeliveryIs(cfg, w);
      ListKeepsAccount(cfg, script, w);
    } else {
      DeliveryIs(cfg, w);
      DeliveredKeeps(cfg, w);
      DeliveryKeepsAccount(cfg, script, w);
    }
  }

  /** While no checks are in flight only the log matters, and only a delivery can add to it. */
  lemma IdleKeepsAccount(cfg: Config, script: Script, w: World, step: Step)
    requires Shape(cfg, w) && !Auditing(w) && Enabled(w, step) && Accounted(script, w)
    requires !step.Deliver? && !step.Start?
    ensures Accounted(script, Apply(cfg, w, step))
  {}

  lemma StartKeepsAccount(cfg: Config, script: Script, w: World, at: Time, reason: string)
    requires Enabled(w, Start(at, reason)) && Accounted(script, w)
    ensures Accounted(script, Apply(cfg, w, Start(at, reason)))
  {
    if w.actor.running { StartIsIgnored(cfg, w, at, reason); }
  }

  lemma StepKeepsAccount(cfg: Config, script: Script, w: World, step: Step)
    requires Inv(cfg, w) && Enabled(w, step) && Accounted(script, w)
    requires step.Serve? ==> Follows(script, w.pipe.requests[0], step.outside)
    ensures Accounted(script, Apply(cfg, w, step))
  {
    assert Shape(cfg, w);
    if step.Start? {
      StartKeepsAccount(cfg, script, w, step.at, step.reason);
    } else if step.Deliver? {
      DeliverKeepsAccount(cfg, script, w);
    } else if !Auditing(w) {
      IdleKeepsAccount(cfg, script, w, step);
    } else if step.Serve? {
      ServeKeepsAccount(cfg, script, w, step.outside);
    } else {
      MovesKeepAccount(cfg, script, w, step);
    }
  }

  lemma {:induction false} SameMultiset<T>(a: seq<T>, b: seq<T>)
    requires Distinct(a) && Distinct(b) && forall x :: x in a <==> x in b
    ensures multiset(a) == multiset(b)
  {
    DistinctCounts(a);
    DistinctCounts(b);
  }

  lemma {:induction false} DistinctCounts<T>(a: seq<T>)
    requires Distinct(a)
    ensures forall x :: multiset(a)[x] == if x in a then 1 else 0
  {
    if a != [] {
      DistinctCounts(a[1..]);
      assert a == [a[0]] + a[1..];
      assert forall i :: 0 < i < |a| ==> a[i] != a[0];
    }
  }
}
