/** A running cycle's lane cannot stall, and every step it makes uses up bounded work. */
module CleanerProgress {
  import opened Messages
  import opened Sums
  import opened Pipes
  import opened CleanerLane
  import opened CleanerSafety
  import Go2RTC

  const ANY := Go2RTC.Outside(Err("error"), Err("error"), Err("error"))

  /** Steps that belong to the running cycle, rather than to the outside world or the clock. */
  predicate IsWork(step: Step) { step.Deliver? || step.Flush? || step.Serve? || step.Wake? }

  /**
   * How many more steps a message can cause, by where it is: a first check makes two round trips of
   * send, answer, delivery with a sleep between them, then perhaps a third for the removal.
   */
  function Remaining(): Weights
  {
    Weights((m: Msg) => if m.StreamRemovalCompleted? then 1 else if IsSecond(m) then 4 else 7,
            (m: Msg) => if m.RemoveStream? then 2 else if IsSecond(m) then 5 else 8,
            (m: Msg) => if m.RemoveStream? then 3 else 9,
            (s: Sleeper) => 6)
  }

  function Work(w: World): int { Total(Remaining(), w.pipe) }

  lemma WorkBounds(w: World)
    ensures InFlight(w.pipe) <= Work(w) <= 9 * InFlight(w.pipe)
  {
    SumBounds(Remaining().reply, w.pipe.replies, 1, 9);
    SumBounds(Remaining().request, w.pipe.requests, 1, 9);
    SumBounds(Remaining().out, w.pipe.out, 1, 9);
    SumBounds(Remaining().sleep, w.pipe.sleepers, 1, 9);
  }

  lemma DeliveryWorks(cfg: Config, w: World)
    requires HeadOK(cfg, w)
    ensures Work(Delivered(cfg, w)) < Work(w)
  {
    var m := w.pipe.replies[0];
    TotalTake(Remaining(), w.pipe);
    match TurnOf(w.actor, m)
    case Suspect => SleepWeighs(Take(w.pipe), Sleeper(SecondCheck(cfg.self, m), w.now + m.confirmAfter));
    case Remove => RemovalWeighs(Take(w.pipe), RemoveStream(m.name, m.at));
    case Settle =>
  }

  lemma SleepWeighs(p: Pipe, s: Sleeper)
    ensures Total(Remaining(), Emit(p, [], [s])) == Total(Remaining(), p) + 6
  {
    TotalEmit(Remaining(), p, [], [s]);
    assert Sum(Remaining().sleep, [s]) == 6;
  }

  lemma RemovalWeighs(p: Pipe, m: Msg)
    requires m.RemoveStream?
    ensures Total(Remaining(), Emit(p, [m], [])) == Total(Remaining(), p) + 3
  {
    TotalEmit(Remaining(), p, [m], []);
    assert Sum(Remaining().out, [m]) == 3;
  }

  /** Every step of a running audit uses up work. */
  lemma WorkFalls(cfg: Config, w: World, step: Step)
    requires Shape(cfg, w) && Auditing(w) && Enabled(w, step)
    ensures IsWork(step) ==> Work(Apply(cfg, w, step)) < Work(w)
    ensures !IsWork(step) ==> Work(Apply(cfg, w, step)) == Work(w)
  {
    match step
    case Start(at, reason) => StartIsIgnored(cfg, w, at, reason);
    case Deliver =>
      DeliveryIs(cfg, w);
      DeliveryWorks(cfg, w);
    case Tick(_) =>
    case _ => MovesWork(cfg, w, step);
  }

  lemma MovesWork(cfg: Config, w: World, step: Step)
    requires Shape(cfg, w) && Auditing(w) && Enabled(w, step) && (step.Flush? || step.Serve? || step.Wake?)
    ensures Work(Apply(cfg, w, step)) < Work(w)
  {
    match step
    case Flush =>
      assert w.pipe.out[0] in w.pipe.out;
      TotalFlush(Remaining(), w.pipe);
    case Serve(outside) =>
      assert w.pipe.requests[0] in w.pipe.requests;
      TotalServe(Remaining(), w.pipe, Go2RTC.Answer(w.pipe.requests[0], w.now, outside));
    case Wake(i) =>
      assert w.pipe.sleepers[i] in w.pipe.sleepers;
      TotalWake(Remaining(), w.pipe, i);
  }

  /** A running audit can go on at once, or as soon as the clock reaches a sleeper's wake-up time. */
  lemma NeverStuck(cfg: Config, w: World) returns (ticks: seq<Step>, step: Step)
    requires Shape(cfg, w) && w.actor.running
    ensures |ticks| <= 1 && (forall t :: t in ticks ==> t.Tick?)
    ensures Runs(cfg, w, ticks) && Enabled(After(cfg, w, ticks), step) && IsWork(step)
  {
    ticks := [];
    if w.pipe.out != [] {
      step := Flush;
    } else if w.pipe.replies != [] {
      step := Deliver;
    } else if w.pipe.requests != [] {
      assert w.pipe.requests[0] in w.pipe.requests;
      step := Serve(ANY);
    } else {
      var due := w.pipe.sleepers[0].wakeAt;
      if due > w.now {
        ticks := [Tick(due)];
        assert ticks[..|ticks| - 1] == [] && Runs(cfg, w, []) && After(cfg, w, []) == w;
      }
      step := Wake(0);
    }
  }

  /** An audit begins when the list arrives, with one unsent first check per entry. */
  lemma AuditBegins(cfg: Config, w: World, step: Step)
    requires Shape(cfg, w) && !Auditing(w) && Enabled(w, step) && Auditing(Apply(cfg, w, step))
    ensures var w' := Apply(cfg, w, step);
            step.Deliver? && w'.pipe.replies == [] && Work(w') <= 9 * |w'.log.list|
  {
    if step.Start? {
      if w.actor.running { StartIsIgnored(cfg, w, step.at, step.reason); }
    } else if step.Deliver? {
      ListDeliveryIs(cfg, w);
      WorkBounds(Listed(cfg, w));
    }
  }
}
