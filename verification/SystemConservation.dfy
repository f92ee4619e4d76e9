/** Removals, follow-up actions, cycle summaries and Redis updates agree across all four actors. */
module SystemConservation {
  import opened Messages
  import opened Sums
  import opened Pipes
  import opened System
  import opened SystemLanes
  import opened SystemSafety
  import Go2RTC
  import Master
  import StreamCleaner
  import CleanerLane
  import CleanerSafety
  import CleanerSchedule

  // ---------- the cleaner's own account ----------

  function AsRemoved(): Msg -> int { CleanerLane.AsRemoved() }

  /** Removals the running cycle has counted, or will count for answers on their way. */
  function Credit(w: CleanerLane.World): int
  {
    (if w.actor.running then w.actor.removedCount else 0) + Total(Everywhere(AsRemoved()), w.pipe)
  }

  lemma NoCreditInEmpty()
    ensures Total(Everywhere(AsRemoved()), EMPTY) == 0
  {}

  /** A handled check or removal reply keeps the account, which a summary then closes. */
  lemma DeliveryCredit(cfg: CleanerLane.Config, w: CleanerLane.World)
    requires CleanerSafety.HeadOK(cfg, w) && w.actor.outstanding == CleanerLane.InFlight(w.pipe)
    ensures var w' := CleanerSafety.Delivered(cfg, w);
            && (w'.actor.running ==> Credit(w') == Credit(w))
            && (!w'.actor.running ==> w'.pipe == EMPTY && Credit(w) == w'.actor.removedCount)
  {
    var m := w.pipe.replies[0];
    var w' := CleanerSafety.Delivered(cfg, w);
    CleanerSchedule.DeliveryTotal(cfg, w, AsRemoved());
    NoCreditInEmpty();
    assert w'.actor.removedCount == w.actor.removedCount + AsRemoved()(m);
    if !w'.actor.running { assert w'.pipe == EMPTY; }
  }

  /** What the cleaner's handler does to the account: `sends` is a lone summary, or has no summary at all. */
  ghost predicate Settles(w: CleanerLane.World, w': CleanerLane.World, sends: seq<Send>)
  {
    if exists i :: 0 <= i < |sends| && sends[i].ToParent? then
      && |sends| == 1 && sends[0].msg.CleanupCycleFinished?
      && !w'.actor.running && w'.pipe == EMPTY && Credit(w) == sends[0].msg.removedStreams
    else Credit(w') == Credit(w)
  }

  lemma AuditSettles(cfg: CleanerLane.Config, w: CleanerLane.World)
    requires CleanerLane.Shape(cfg, w) && CleanerLane.Auditing(w) && CleanerLane.Enabled(w, CleanerLane.Deliver)
    ensures Settles(w, CleanerLane.Apply(cfg, w, CleanerLane.Deliver),
                    StreamCleaner.Handle(cfg.self, cfg.delay, w.actor, w.pipe.replies[0]).sends)
  {
    CleanerSafety.DeliveryIs(cfg, w);
    CleanerSafety.HandleIs(cfg, w.actor, w.pipe.replies[0], w.now);
    DeliveryCredit(cfg, w);
    var sends := StreamCleaner.Handle(cfg.self, cfg.delay, w.actor, w.pipe.replies[0]).sends;
    assert CleanerSafety.Delivered(cfg, w).actor.running <==> !(exists i :: 0 <= i < |sends| && sends[i].ToParent?) by {
      if sends != [] && sends[0].ToParent? { assert exists i :: 0 <= i < |sends| && sends[i].ToParent?; }
    }
  }

  lemma ListSends(cfg: CleanerLane.Config, w: CleanerLane.World)
    requires CleanerSafety.ListHead(w) && w.actor.running && w.pipe.replies[0].requestedBy == cfg.self
    ensures var m := w.pipe.replies[0];
            var sends := StreamCleaner.Handle(cfg.self, cfg.delay, w.actor, m).sends;
            if m.error == "" && m.streams == []
            then sends == [ToParent(CleanupCycleFinished(w.actor.triggeredAt, w.actor.reason, 0, 0))]
            else forall i :: 0 <= i < |sends| ==> sends[i].ToGo2RTC?
  {}

  lemma ListCredit(cfg: CleanerLane.Config, w: CleanerLane.World)
    requires CleanerSafety.ListHead(w) && w.actor.removedCount == 0
    requires w.pipe == EMPTY.(replies := [w.pipe.replies[0]])
    ensures Credit(w) == 0 && Credit(CleanerSafety.Listed(cfg, w)) == 0
  {
    var f := AsRemoved();
    var w' := CleanerSafety.Listed(cfg, w);
    SumBounds(f, w.pipe.replies, 0, 0);
    SumBounds(f, w'.pipe.out, 0, 0);
    NoCreditInEmpty();
  }

  lemma ListSettles(cfg: CleanerLane.Config, w: CleanerLane.World)
    requires CleanerSafety.ListHead(w) && w.actor.running && w.pipe.replies[0].requestedBy == cfg.self
    requires w.pipe == EMPTY.(replies := [w.pipe.replies[0]]) && w.actor.removedCount == 0
    ensures Settles(w, CleanerSafety.Listed(cfg, w),
                    StreamCleaner.Handle(cfg.self, cfg.delay, w.actor, w.pipe.replies[0]).sends)
  {
    ListCredit(cfg, w);
    ListSends(cfg, w);
    var sends := StreamCleaner.Handle(cfg.self, cfg.delay, w.actor, w.pipe.replies[0]).sends;
    if w.pipe.replies[0].error == "" && w.pipe.replies[0].streams == [] {
      assert sends[0].ToParent?;
    }
  }

  lemma StartSettles(cfg: CleanerLane.Config, w: CleanerLane.World, at: Time, reason: string)
    requires CleanerLane.Shape(cfg, w) && w.pipe.out == []
    ensures Settles(w, CleanerLane.Act(cfg, w, CleanupCycleStarted(at, reason), w.pipe),
                    StreamCleaner.Handle(cfg.self, cfg.delay, w.actor, CleanupCycleStarted(at, reason)).sends)
  {
    var w' := CleanerLane.Act(cfg, w, CleanupCycleStarted(at, reason), w.pipe);
    if w.actor.running {
      assert w'.pipe == w.pipe;
    } else {
      StartCredit(cfg, w, at, reason);
    }
  }

  lemma StartCredit(cfg: CleanerLane.Config, w: CleanerLane.World, at: Time, reason: string)
    requires !w.actor.running && w.pipe == EMPTY
    ensures Credit(w) == 0 && Credit(CleanerLane.Act(cfg, w, CleanupCycleStarted(at, reason), w.pipe)) == 0
  {
    var fetch := FetchStreamList(at, cfg.self);
    NoCreditInEmpty();
    assert Go2RTCMsgs([ToGo2RTC(fetch)]) == [fetch];
    TotalEmit(Everywhere(AsRemoved()), EMPTY, [fetch], []);
    assert Sum(AsRemoved(), [fetch]) == 0;
  }

  // ---------- the master's queue ----------

  /**
   * `due` removals are not yet in a summary; `q` is what the master will handle next. Whenever it
   * comes to a summary, exactly the removals it has been told of are in it.
   */
  predicate Balanced(due: int, q: seq<Msg>)
    decreases q
  {
    if q == [] then true
    else if q[0].StreamRemoved? then Balanced(due + 1, q[1..])
    else if q[0].CleanupCycleFinished? then due == q[0].removedStreams && Balanced(0, q[1..])
    else Balanced(due, q[1..])
  }

  function DueAfter(due: int, q: seq<Msg>): int
    decreases q
  {
    if q == [] then due
    else if q[0].StreamRemoved? then DueAfter(due + 1, q[1..])
    else if q[0].CleanupCycleFinished? then DueAfter(0, q[1..])
    else DueAfter(due, q[1..])
  }

  lemma {:induction false} BalancedSnoc(due: int, q: seq<Msg>, m: Msg)
    ensures Balanced(due, q + [m]) ==
            (Balanced(due, q) && (m.CleanupCycleFinished? ==> DueAfter(due, q) == m.removedStreams))
    ensures DueAfter(due, q + [m]) ==
            if m.StreamRemoved? then DueAfter(due, q) + 1
            else if m.CleanupCycleFinished? then 0 else DueAfter(due, q)
    decreases q
  {
    if q == [] {
      assert (q + [m])[1..] == [];
    } else {
      assert (q + [m])[1..] == q[1..] + [m];
      BalancedSnoc(if q[0].StreamRemoved? then due + 1 else if q[0].CleanupCycleFinished? then 0 else due, q[1..], m);
    }
  }

  function InSummary(): Msg -> int { (m: Msg) => if m.CleanupCycleFinished? then m.removedStreams else 0 }

  function Told(): Msg -> int { (m: Msg) => if m.StreamRemoved? then 1 else 0 }

  /** Actions the master has sent for removals, less what the summaries it has handled report. */
  function Due(s: Sys): int { |s.actions| - Sum(InSummary(), s.summaries) }

  ghost predicate HasSummary(sends: seq<Send>) { exists i :: 0 <= i < |sends| && sends[i].ToParent? }

  /**
   * The books: `due` removals await a summary, `box` and `outG` are on their way to the master, `outC` holds
   * the cleaner's unsent messages, and `credit` is the cleaner's own account.
   */
  ghost predicate Books(due: int, box: seq<Msg>, outG: seq<Msg>, outC: seq<Send>, credit: int, closed: bool)
  {
    && Balanced(due, box)
    && (if HasSummary(outC) then
          && |outC| == 1 && outC[0].msg.CleanupCycleFinished? && closed
          && DueAfter(due, box) == outC[0].msg.removedStreams && Sum(Told(), outG) == 0
        else DueAfter(due, box) + Sum(Told(), outG) == credit)
    && (outG != [] && !outG[|outG| - 1].StreamRemovalCompleted? ==> Sum(Told(), outG) == 0)
    && (forall m :: m in box ==> !m.ExecuteAction?)
  }

  predicate Closed(w: CleanerLane.World) { !w.actor.running && w.pipe == EMPTY }

  ghost predicate Conserved(cfg: Config, s: Sys)
  {
    Books(Due(s), s.boxM, s.outG, s.outC, Credit(CleanerWorld(cfg, s)), Closed(CleanerWorld(cfg, s)))
  }

  /** A message that is neither a summary nor a removal notice may join the master's queue at any time. */
  lemma NeutralBooks(due: int, box: seq<Msg>, outG: seq<Msg>, outC: seq<Send>, credit: int, closed: bool, m: Msg)
    requires Books(due, box, outG, outC, credit, closed)
    requires !m.CleanupCycleFinished? && !m.StreamRemoved? && !m.ExecuteAction?
    ensures Books(due, box + [m], outG, outC, credit, closed)
  {
    BalancedSnoc(due, box, m);
  }

  lemma SummaryBooks(due: int, box: seq<Msg>, outG: seq<Msg>, outC: seq<Send>, credit: int)
    requires Books(due, box, outG, outC, credit, true) && outC != [] && outC[0].ToParent?
    ensures Books(due, box + [outC[0].msg], outG, outC[1..], 0, true)
  {
    assert HasSummary(outC);
    BalancedSnoc(due, box, outC[0].msg);
    assert outC[1..] == [];
  }

  lemma NoticeBooks(due: int, box: seq<Msg>, outG: seq<Msg>, outC: seq<Send>, credit: int, closed: bool)
    requires Books(due, box, outG, outC, credit, closed) && outG != []
    requires !outG[0].CleanupCycleFinished? && !outG[0].ExecuteAction?
    ensures Books(due, box + [outG[0]], outG[1..], outC, credit, closed)
  {
    BalancedSnoc(due, box, outG[0]);
    assert Sum(Told(), outG) == Told()(outG[0]) + Sum(Told(), outG[1..]);
    SumIsNat(Told(), outG[1..]);
    if |outG| > 1 {
      assert outG[1..][|outG| - 2] == outG[|outG| - 1];
    }
  }

  /** Go2rtc's unsent replies tell of a removal only if one of them is the cleaner's. */
  lemma ToldIsFollowed(outG: seq<Msg>, id: string)
    requires outG != [] && !outG[|outG| - 1].StreamRemovalCompleted? ==> Sum(Told(), outG) == 0
    requires Filter(CleanerReply(id), outG) == []
    ensures Sum(Told(), outG) == 0
  {
    if outG != [] {
      var last := outG[|outG| - 1];
      assert outG == outG[..|outG| - 1] + [last];
      FilterSnoc(CleanerReply(id), outG[..|outG| - 1], last);
    }
  }

  lemma CleanerBooks(due: int, box: seq<Msg>, outG: seq<Msg>, sends: seq<Send>,
                     w: CleanerLane.World, w': CleanerLane.World)
    requires Books(due, box, outG, [], Credit(w), Closed(w)) && Settles(w, w', sends)
    requires HasSummary(sends) ==> Sum(Told(), outG) == 0
    ensures Books(due, box, outG, sends, Credit(w'), Closed(w'))
  {}

  lemma MasterBooks(due: int, box: seq<Msg>, outG: seq<Msg>, outC: seq<Send>, credit: int, closed: bool)
    requires Books(due, box, outG, outC, credit, closed) && box != []
    ensures !box[0].ExecuteAction? && (box[0].CleanupCycleFinished? ==> due == box[0].removedStreams)
    ensures Books(if box[0].StreamRemoved? then due + 1 else if box[0].CleanupCycleFinished? then 0 else due,
                  box[1..], outG, outC, credit, closed)
  {
    assert box[0] in box && forall n :: n in box[1..] ==> n in box;
  }

  lemma Go2RTCBooks(due: int, box: seq<Msg>, sends: seq<Msg>, outC: seq<Send>, credit: int,
                    closed: bool, closed': bool)
    requires Books(due, box, [], outC, credit, closed)
    requires sends != [] && !sends[|sends| - 1].StreamRemovalCompleted? ==> Sum(Told(), sends) == 0
    requires HasSummary(outC) ==> closed' && Sum(Told(), sends) == 0
    ensures Books(due, box, sends, outC, credit + Sum(Told(), sends), closed')
  {}

  lemma EmptyBooks(closed: bool)
    ensures Books(0, [], [], [], 0, closed)
  {
    assert !HasSummary([]);
  }

  // ---------- steps ----------

  /** Books kept for the state that `s` is are its own. */
  lemma OwnBooks(cfg: Config, s: Sys, due: int, credit: int, closed: bool)
    requires Books(due, s.boxM, s.outG, s.outC, credit, closed)
    requires due == Due(s) && credit == Credit(CleanerWorld(cfg, s)) && closed == Closed(CleanerWorld(cfg, s))
    ensures Conserved(cfg, s)
  {}

  lemma CleanerSettles(cfg: Config, s: Sys)
    requires CleanerLane.Shape(CleanerCfg(cfg), CleanerWorld(cfg, s)) && Enabled(s, HandleC)
    ensures Settles(CleanerWorld(cfg, s), CleanerWorld(cfg, Apply(cfg, s, HandleC)), Apply(cfg, s, HandleC).outC)
  {
    var m := s.boxC[0];
    CleanerHandles(cfg, s);
    if m.CleanupCycleStarted? {
      StartSettles(CleanerCfg(cfg), CleanerWorld(cfg, s), m.at, m.reason);
    } else if CleanerReply(cfg.cleanerId)(m) {
      CleanerHead(cfg, s);
      ReplySettles(CleanerCfg(cfg), CleanerWorld(cfg, s));
    } else {
      IgnoredByCleaner(cfg, s.cleaner, m);
    }
  }

  lemma ReplySettles(cfg: CleanerLane.Config, w: CleanerLane.World)
    requires CleanerLane.Shape(cfg, w) && CleanerLane.Enabled(w, CleanerLane.Deliver)
    ensures Settles(w, CleanerLane.Apply(cfg, w, CleanerLane.Deliver),
                    StreamCleaner.Handle(cfg.self, cfg.delay, w.actor, w.pipe.replies[0]).sends)
  {
    if CleanerLane.Auditing(w) {
      AuditSettles(cfg, w);
    } else {
      CleanerSafety.ListDeliveryIs(cfg, w);
      ListSettles(cfg, w);
    }
  }

  lemma CleanerKeepsConserved(cfg: Config, s: Sys, s': Sys)
    requires Conserved(cfg, s) && s.outC == [] && Settles(CleanerWorld(cfg, s), CleanerWorld(cfg, s'), s'.outC)
    requires s'.boxM == s.boxM && s'.outG == s.outG && s'.actions == s.actions && s'.summaries == s.summaries
    ensures Conserved(cfg, s')
  {
    var w, w' := CleanerWorld(cfg, s), CleanerWorld(cfg, s');
    SummaryFindsNothing(cfg, s, s');
    CleanerBooks(Due(s), s.boxM, s.outG, s'.outC, w, w');
    OwnBooks(cfg, s', Due(s), Credit(w'), Closed(w'));
  }

  lemma SummaryFindsNothing(cfg: Config, s: Sys, s': Sys)
    requires s.outG != [] && !s.outG[|s.outG| - 1].StreamRemovalCompleted? ==> Sum(Told(), s.outG) == 0
    requires Settles(CleanerWorld(cfg, s), CleanerWorld(cfg, s'), s'.outC) && s'.outG == s.outG
    ensures HasSummary(s'.outC) ==> Sum(Told(), s.outG) == 0
  {
    if HasSummary(s'.outC) {
      EmptyPipe(cfg, s');
      ToldIsFollowed(s.outG, cfg.cleanerId);
    }
  }

  lemma EmptyPipe(cfg: Config, s: Sys)
    requires CleanerWorld(cfg, s).pipe == EMPTY
    ensures Filter(CleanerReply(cfg.cleanerId), s.outG) == [] && Filter(CleanerRequest(cfg.cleanerId), s.boxG) == []
  {
    var p := CleanerWorld(cfg, s).pipe;
    assert |p.replies| == 0;
  }

  lemma DueAfterMaster(cfg: Config, s: Sys)
    requires Enabled(s, HandleM) && !s.boxM[0].ExecuteAction?
    requires s.boxM[0].CleanupCycleFinished? ==> Due(s) == s.boxM[0].removedStreams
    ensures var m := s.boxM[0];
            Due(Apply(cfg, s, HandleM)) ==
            if m.StreamRemoved? then Due(s) + 1 else if m.CleanupCycleFinished? then 0 else Due(s)
  {
    var m := s.boxM[0];
    SumAppend(InSummary(), s.summaries, if m.CleanupCycleFinished? then [m] else []);
    ActionsSent(m, s.now);
  }

  lemma MasterKeepsConserved(cfg: Config, s: Sys)
    requires Enabled(s, HandleM) && Conserved(cfg, s)
    ensures Conserved(cfg, Apply(cfg, s, HandleM))
  {
    var s' := Apply(cfg, s, HandleM);
    var w := CleanerWorld(cfg, s);
    MasterBooks(Due(s), s.boxM, s.outG, s.outC, Credit(w), Closed(w));
    DueAfterMaster(cfg, s);
    MasterKeepsCleaner(cfg, s);
    OwnBooks(cfg, s', Due(s'), Credit(w), Closed(w));
  }

  lemma ActionsSent(m: Msg, now: Time)
    requires !m.ExecuteAction?
    ensures ActionMsgs(Master.Handle(m, now)) ==
            if m.StreamRemoved? then [ExecuteAction(m.name, Master.REMOVAL_ACTION)] else []
  {
    var sends := Master.Handle(m, now);
    if |sends| == 2 {
      var rest := sends[1..];
      assert rest[1..] == [];
      assert ActionMsgs(rest) == ActionMsgs(rest[1..]) && ActionMsgs(sends) == ActionMsgs(rest);
    } else if |sends| == 1 {
      assert sends[1..] == [];
    }
  }

  /** An answered removal moves from the cleaner's credit to come into its replies, told by a notice. */
  lemma ServedCredit(cfg: Config, s: Sys, outside: Go2RTC.Outside)
    requires Enabled(s, HandleG(outside))
    ensures Credit(CleanerWorld(cfg, Apply(cfg, s, HandleG(outside))))
            == Credit(CleanerWorld(cfg, s)) + Sum(Told(), Go2RTC.Handle(s.boxG[0], s.now, outside))
  {
    var m := s.boxG[0];
    var w := CleanerWorld(cfg, s);
    Go2RTCServesCleaner(cfg, s, outside);
    ToldByAnswer(m, s.now, outside);
    if CleanerRequest(cfg.cleanerId)(m) {
      TotalServe(Everywhere(AsRemoved()), w.pipe, Go2RTC.Answer(m, s.now, outside));
    }
  }

  /** When the cleaner's summary waits to be sent no request of its is left to answer. */
  lemma NothingToServe(cfg: Config, s: Sys, outside: Go2RTC.Outside)
    requires Enabled(s, HandleG(outside))
    requires HasSummary(s.outC) ==> Closed(CleanerWorld(cfg, s))
    ensures HasSummary(s.outC) ==>
              && Closed(CleanerWorld(cfg, Apply(cfg, s, HandleG(outside))))
              && Sum(Told(), Go2RTC.Handle(s.boxG[0], s.now, outside)) == 0
  {
    if HasSummary(s.outC) {
      EmptyPipe(cfg, s);
      Go2RTCServesCleaner(cfg, s, outside);
      ToldByAnswer(s.boxG[0], s.now, outside);
    }
  }

  lemma SummaryIsClosed(due: int, box: seq<Msg>, outG: seq<Msg>, outC: seq<Send>, credit: int, closed: bool)
    requires Books(due, box, outG, outC, credit, closed)
    ensures HasSummary(outC) ==> closed
  {}

  lemma Go2RTCKeepsConserved(cfg: Config, s: Sys, outside: Go2RTC.Outside)
    requires Enabled(s, HandleG(outside)) && Conserved(cfg, s)
    ensures Conserved(cfg, Apply(cfg, s, HandleG(outside)))
  {
    var s' := Apply(cfg, s, HandleG(outside));
    var w, w' := CleanerWorld(cfg, s), CleanerWorld(cfg, s');
    SummaryIsClosed(Due(s), s.boxM, s.outG, s.outC, Credit(w), Closed(w));
    NothingToServe(cfg, s, outside);
    ServedCredit(cfg, s, outside);
    LastIsCompletion(s.boxG[0], s.now, outside);
    Go2RTCBooks(Due(s), s.boxM, s'.outG, s.outC, Credit(w), Closed(w), Closed(w'));
    OwnBooks(cfg, s', Due(s), Credit(w'), Closed(w'));
  }

  lemma LastIsCompletion(m: Msg, now: Time, outside: Go2RTC.Outside)
    ensures var sends := Go2RTC.Handle(m, now, outside);
            sends != [] && !sends[|sends| - 1].StreamRemovalCompleted? ==> Sum(Told(), sends) == 0
  {
    ToldByAnswer(m, now, outside);
  }

  lemma ToldByAnswer(m: Msg, now: Time, outside: Go2RTC.Outside)
    ensures var sends := Go2RTC.Handle(m, now, outside);
            && (m.RemoveStream? ==> sends != [] && sends[|sends| - 1].StreamRemovalCompleted?
                                    && Sum(Told(), sends) == AsRemoved()(Go2RTC.Answer(m, now, outside)))
            && (!m.RemoveStream? ==> Sum(Told(), sends) == 0
                                     && (sends != [] ==> AsRemoved()(Go2RTC.Answer(m, now, outside)) == 0))
            && AsRemoved()(m) == (if m.StreamRemovalCompleted? then AsRemoved()(m) else 0)
  {
    var sends := Go2RTC.Handle(m, now, outside);
    if |sends| == 2 {
      assert sends == [sends[0]] + [sends[1]];
      SumAppend(Told(), [sends[0]], [sends[1]]);
    } else if |sends| == 1 {
      assert sends[1..] == [];
    }
  }

  lemma NeutralJoins(cfg: Config, s: Sys, s': Sys, m: Msg)
    requires Conserved(cfg, s) && !m.CleanupCycleFinished? && !m.StreamRemoved? && !m.ExecuteAction?
    requires CleanerWorld(cfg, s') == CleanerWorld(cfg, s) && s'.outC == s.outC
    requires s'.boxM == s.boxM + [m] && s'.outG == s.outG && s'.actions == s.actions && s'.summaries == s.summaries
    ensures Conserved(cfg, s')
  {
    var w := CleanerWorld(cfg, s);
    NeutralBooks(Due(s), s.boxM, s.outG, s.outC, Credit(w), Closed(w), m);
    OwnBooks(cfg, s', Due(s), Credit(w), Closed(w));
  }

  lemma SummaryJoins(cfg: Config, s: Sys, s': Sys)
    requires Conserved(cfg, s) && s.outC != [] && s.outC[0].ToParent?
    requires CleanerWorld(cfg, s') ==
             CleanerWorld(cfg, s).(pipe := CleanerWorld(cfg, s).pipe.(out := Go2RTCMsgs(s'.outC)))
    requires s'.outC == s.outC[1..] && s'.boxM == s.boxM + [s.outC[0].msg] && s'.outG == s.outG
    requires s'.actions == s.actions && s'.summaries == s.summaries
    ensures Conserved(cfg, s')
  {
    var w := CleanerWorld(cfg, s);
    assert HasSummary(s.outC);
    SummaryBooks(Due(s), s.boxM, s.outG, s.outC, Credit(w));
    NoCreditInEmpty();
    assert s'.outC == [];
  }

  lemma NoticeJoins(cfg: Config, s: Sys, s': Sys)
    requires Conserved(cfg, s) && s.outG != [] && !s.outG[0].CleanupCycleFinished? && !s.outG[0].ExecuteAction?
    requires CleanerWorld(cfg, s') == CleanerWorld(cfg, s) && s'.outC == s.outC
    requires s'.boxM == s.boxM + [s.outG[0]] && s'.outG == s.outG[1..]
    requires s'.actions == s.actions && s'.summaries == s.summaries
    ensures Conserved(cfg, s')
  {
    var w := CleanerWorld(cfg, s);
    NoticeBooks(Due(s), s.boxM, s.outG, s.outC, Credit(w), Closed(w));
    OwnBooks(cfg, s', Due(s), Credit(w), Closed(w));
  }

  /** Sends to go2rtc, wake-ups and the clock leave the account and the master's queue as they are. */
  lemma LaneMoves(cfg: Config, s: Sys, s': Sys, own: CleanerLane.Step)
    requires Conserved(cfg, s) && (own.Flush? || own.Wake? || own.Tick?)
    requires CleanerLane.Enabled(CleanerWorld(cfg, s), own)
    requires CleanerWorld(cfg, s') == CleanerLane.Apply(CleanerCfg(cfg), CleanerWorld(cfg, s), own)
    requires s'.boxM == s.boxM && s'.outG == s.outG && s'.actions == s.actions && s'.summaries == s.summaries
    requires HasSummary(s'.outC) == HasSummary(s.outC) && (HasSummary(s.outC) ==> s'.outC == s.outC)
    ensures Conserved(cfg, s')
  {
    var w, w' := CleanerWorld(cfg, s), CleanerWorld(cfg, s');
    MoveCredit(CleanerCfg(cfg), w, own);
    MovedBooks(Due(s), s.boxM, s.outG, s.outC, s'.outC, Credit(w), Closed(w), Closed(w'));
    OwnBooks(cfg, s', Due(s), Credit(w), Closed(w'));
  }

  lemma MoveCredit(cfg: CleanerLane.Config, w: CleanerLane.World, own: CleanerLane.Step)
    requires (own.Flush? || own.Wake? || own.Tick?) && CleanerLane.Enabled(w, own)
    ensures Credit(CleanerLane.Apply(cfg, w, own)) == Credit(w)
    ensures Closed(w) ==> Closed(CleanerLane.Apply(cfg, w, own))
  {
    match own
    case Flush => TotalFlush(Everywhere(AsRemoved()), w.pipe);
    case Wake(i) => TotalWake(Everywhere(AsRemoved()), w.pipe, i);
    case Tick(_) =>
  }

  lemma MovedBooks(due: int, box: seq<Msg>, outG: seq<Msg>, outC: seq<Send>, outC': seq<Send>, credit: int,
                   closed: bool, closed': bool)
    requires Books(due, box, outG, outC, credit, closed) && (closed ==> closed')
    requires HasSummary(outC') == HasSummary(outC) && (HasSummary(outC) ==> outC' == outC)
    ensures Books(due, box, outG, outC', credit, closed')
  {}

  /** Steps that leave the cleaner's lane and the master's queue alone. */
  lemma Untouched(cfg: Config, s: Sys, s': Sys)
    requires Conserved(cfg, s) && CleanerWorld(cfg, s') == CleanerWorld(cfg, s) && s'.outC == s.outC
    requires s'.boxM == s.boxM && s'.outG == s.outG && s'.actions == s.actions && s'.summaries == s.summaries
    ensures Conserved(cfg, s')
  {
    OwnBooks(cfg, s', Due(s), Credit(CleanerWorld(cfg, s)), Closed(CleanerWorld(cfg, s)));
  }

  lemma SummaryLeaves(cfg: Config, s: Sys)
    requires Addressed(cfg, s) && Enabled(s, FlushC) && s.outC[0].ToParent?
    ensures var s' := Apply(cfg, s, FlushC);
            CleanerWorld(cfg, s') ==
             CleanerWorld(cfg, s).(pipe := CleanerWorld(cfg, s).pipe.(out := Go2RTCMsgs(s'.outC)))
  {
    assert s.outC[0] in s.outC;
    JoinsMaster(cfg, s.(outC := s.outC[1..]), s.outC[0].msg);
  }

  lemma RequestLeaves(cfg: Config, s: Sys)
    requires Addressed(cfg, s) && Enabled(s, FlushC) && s.outC[0].ToGo2RTC? && Conserved(cfg, s)
    ensures Conserved(cfg, Apply(cfg, s, FlushC))
  {
    var w := CleanerWorld(cfg, s);
    CleanerSendIsCleanerStep(cfg, s);
    RequestIsNoSummary(Due(s), s.boxM, s.outG, s.outC, Credit(w), Closed(w));
    LaneMoves(cfg, s, Apply(cfg, s, FlushC), CleanerLane.Flush);
  }

  lemma RequestIsNoSummary(due: int, box: seq<Msg>, outG: seq<Msg>, outC: seq<Send>, credit: int, closed: bool)
    requires Books(due, box, outG, outC, credit, closed) && outC != [] && outC[0].ToGo2RTC?
    ensures !HasSummary(outC) && !HasSummary(outC[1..])
  {
    assert forall i :: 0 <= i < |outC| - 1 ==> outC[1..][i] == outC[i + 1];
  }

  lemma FlushCKeepsConserved(cfg: Config, s: Sys)
    requires Addressed(cfg, s) && Enabled(s, FlushC) && Conserved(cfg, s)
    ensures Conserved(cfg, Apply(cfg, s, FlushC))
  {
    if s.outC[0].ToParent? {
      SummaryLeaves(cfg, s);
      SummaryJoins(cfg, s, Apply(cfg, s, FlushC));
    } else {
      RequestLeaves(cfg, s);
    }
  }

  lemma CounterReports(cfg: Config, s: Sys)
    requires Addressed(cfg, s) && s.outK != []
    ensures s.outK[0].ToParent? ==> s.outK[0].msg.AliveStreamCountCalculated?
  {
    assert s.outK[0] in s.outK;
  }

  lemma FlushKKeepsConserved(cfg: Config, s: Sys)
    requires Addressed(cfg, s) && cfg.cleanerId != cfg.counterId && Enabled(s, FlushK) && Conserved(cfg, s)
    ensures Conserved(cfg, Apply(cfg, s, FlushK))
  {
    CounterSendIsCleanerStep(cfg, s);
    CounterReports(cfg, s);
    if s.outK[0].ToParent? {
      NeutralJoins(cfg, s, Apply(cfg, s, FlushK), s.outK[0].msg);
    } else {
      Untouched(cfg, s, Apply(cfg, s, FlushK));
    }
  }

  lemma JoinIsQuiet(cfg: Config, s: Sys, step: Step)
    requires Addressed(cfg, s) && cfg.cleanerId != cfg.counterId && Enabled(s, step)
    requires step.Trigger? || step.CountTrigger? || step.FlushG?
    ensures CleanerWorld(cfg, Apply(cfg, s, step)) == CleanerWorld(cfg, s)
  {
    StepIsCleanerStep(cfg, s, step);
  }

  lemma TriggersKeepConserved(cfg: Config, s: Sys, step: Step)
    requires Addressed(cfg, s) && cfg.cleanerId != cfg.counterId && Enabled(s, step) && Conserved(cfg, s)
    requires step.Trigger? || step.CountTrigger?
    ensures Conserved(cfg, Apply(cfg, s, step))
  {
    JoinIsQuiet(cfg, s, step);
    var m := if step.Trigger? then TriggerCleanup(step.reason)
             else CountAliveStreamsStarted(step.at, CountReason(step.first));
    NeutralJoins(cfg, s, Apply(cfg, s, step), m);
  }

  lemma RepliesAreReplies(cfg: Config, s: Sys)
    requires Addressed(cfg, s) && s.outG != []
    ensures !s.outG[0].CleanupCycleFinished? && !s.outG[0].ExecuteAction?
  {
    assert s.outG[0] in s.outG;
  }

  lemma NoticeKeepsConserved(cfg: Config, s: Sys)
    requires Addressed(cfg, s) && cfg.cleanerId != cfg.counterId && Enabled(s, FlushG) && Conserved(cfg, s)
    ensures Conserved(cfg, Apply(cfg, s, FlushG))
  {
    JoinIsQuiet(cfg, s, FlushG);
    RepliesAreReplies(cfg, s);
    NoticeJoins(cfg, s, Apply(cfg, s, FlushG));
  }

  lemma QuietKeepsConserved(cfg: Config, s: Sys, step: Step)
    requires Addressed(cfg, s) && cfg.cleanerId != cfg.counterId && Enabled(s, step) && Conserved(cfg, s)
    requires step.HandleK? || step.FlushM? || step.WakeC? || step.WakeK? || step.Tick?
    ensures Conserved(cfg, Apply(cfg, s, step))
  {
    QuietLane(cfg, s, step);
    if step.WakeC? || step.Tick? {
      TimeKeepsConserved(cfg, s, step);
    } else {
      Untouched(cfg, s, Apply(cfg, s, step));
    }
  }

  lemma TimeKeepsConserved(cfg: Config, s: Sys, step: Step)
    requires Enabled(s, step) && Conserved(cfg, s) && (step.WakeC? || step.Tick?) && CleanerFollows(cfg, s, step)
    ensures Conserved(cfg, Apply(cfg, s, step))
  {
    var own := if step.WakeC? then CleanerLane.Wake(step.i) else CleanerLane.Tick(step.now);
    LaneMoves(cfg, s, Apply(cfg, s, step), own);
  }

  lemma QuietLane(cfg: Config, s: Sys, step: Step)
    requires Addressed(cfg, s) && cfg.cleanerId != cfg.counterId && Enabled(s, step)
    requires step.HandleK? || step.FlushM? || step.WakeC? || step.WakeK? || step.Tick?
    ensures var s' := Apply(cfg, s, step);
            && s'.boxM == s.boxM && s'.outG == s.outG && s'.outC == s.outC
            && s'.actions == s.actions && s'.summaries == s.summaries
    ensures CleanerFollows(cfg, s, step)
  {
    StepIsCleanerStep(cfg, s, step);
    if step.FlushM? { MasterSendIs(cfg, s); }
  }

  lemma HandlersKeepConserved(cfg: Config, s: Sys, step: Step)
    requires Addressed(cfg, s) && CleanerLane.Shape(CleanerCfg(cfg), CleanerWorld(cfg, s))
    requires cfg.cleanerId != cfg.counterId && Enabled(s, step) && Conserved(cfg, s)
    requires step.HandleC? || step.HandleM? || step.HandleG?
    ensures Conserved(cfg, Apply(cfg, s, step))
  {
    if step.HandleC? {
      CleanerTurnKeepsConserved(cfg, s);
    } else if step.HandleM? {
      MasterKeepsConserved(cfg, s);
    } else {
      Go2RTCKeepsConserved(cfg, s, step.outside);
    }
  }

  lemma StepKeepsConserved(cfg: Config, s: Sys, step: Step)
    requires Addressed(cfg, s) && CleanerLane.Shape(CleanerCfg(cfg), CleanerWorld(cfg, s))
    requires cfg.cleanerId != cfg.counterId && Enabled(s, step) && Conserved(cfg, s)
    ensures Conserved(cfg, Apply(cfg, s, step))
  {
    if step.HandleC? || step.HandleM? || step.HandleG? {
      HandlersKeepConserved(cfg, s, step);
    } else if step.FlushC? {
      FlushCKeepsConserved(cfg, s);
    } else if step.FlushK? {
      FlushKKeepsConserved(cfg, s);
    } else if step.Trigger? || step.CountTrigger? {
      TriggersKeepConserved(cfg, s, step);
    } else if step.FlushG? {
      NoticeKeepsConserved(cfg, s);
    } else {
      QuietKeepsConserved(cfg, s, step);
    }
  }

  lemma CleanerTurnKeepsConserved(cfg: Config, s: Sys)
    requires CleanerLane.Shape(CleanerCfg(cfg), CleanerWorld(cfg, s)) && Enabled(s, HandleC) && Conserved(cfg, s)
    ensures Conserved(cfg, Apply(cfg, s, HandleC))
  {
    CleanerSettles(cfg, s);
    CleanerKeepsConserved(cfg, s, Apply(cfg, s, HandleC));
  }

  lemma EmptyConserved(cfg: Config, s: Sys)
    requires s.boxM == [] && s.outG == [] && s.outC == [] && s.actions == [] && s.summaries == []
    requires !s.cleaner.running && CleanerWorld(cfg, s).pipe == EMPTY
    ensures Conserved(cfg, s)
  {
    NoCreditInEmpty();
    EmptyBooks(true);
    OwnBooks(cfg, s, 0, 0, true);
  }

  lemma {:induction false} ReachableConserved(cfg: Config, steps: seq<Step>)
    requires cfg.cleanerId != cfg.counterId && Runs(cfg, steps)
    ensures Conserved(cfg, After(cfg, steps))
    decreases |steps|
  {
    if steps == [] {
      SystemSafety.InitialInv(cfg);
      EmptyConserved(cfg, INITIAL);
    } else {
      var before, last := steps[..|steps| - 1], steps[|steps| - 1];
      Reachable(cfg, before);
      ReachableConserved(cfg, before);
      StepKeepsConserved(cfg, After(cfg, before), last);
    }
  }

  /**
   * Whenever the master handles a cycle's summary, the removal actions it has sent so far are exactly
   * as many as all summaries, this one included, report.
   */
  lemma {:induction false} ActionsMatchSummaries(cfg: Config, steps: seq<Step>)
    requires cfg.cleanerId != cfg.counterId && Runs(cfg, steps) && Enabled(After(cfg, steps), HandleM)
    requires After(cfg, steps).boxM[0].CleanupCycleFinished?
    ensures var s := Apply(cfg, After(cfg, steps), HandleM);
            |s.actions| == Sum(InSummary(), s.summaries)
  {
    ReachableConserved(cfg, steps);
    var s := After(cfg, steps);
    SumSnoc(InSummary(), s.summaries, s.boxM[0]);
    ActionsSent(s.boxM[0], s.now);
  }
}
