/** Cycles and counts end: some run always ends them, and every run does that does not idle forever. */
module SystemEnding {
  import opened Messages
  import opened Sums
  import opened Pipes
  import opened Audit
  import opened System
  import opened SystemLanes
  import opened SystemSafety
  import opened SystemSettling
  import opened SystemSchedule
  import Go2RTC
  import CleanerLane
  import CounterLane

  /** Nothing is on its way anywhere. */
  predicate Settled(s: Sys)
  {
    && s.boxC == [] && s.boxK == [] && s.boxM == [] && s.boxG == []
    && s.outC == [] && s.outK == [] && s.outM == [] && s.outG == []
    && s.sleepC == [] && s.sleepK == []
  }

  lemma SettledIsIdle(cfg: Config, s: Sys)
    requires Inv(cfg, s) && Settled(s)
    ensures !s.cleaner.running && !s.counter.running
  {
    SettledLanes(cfg, s);
    IdleLanes(cfg, CleanerWorld(cfg, s), CounterWorld(cfg, s));
  }

  lemma SettledLanes(cfg: Config, s: Sys)
    requires Settled(s)
    ensures CleanerWorld(cfg, s).pipe == EMPTY && CounterWorld(cfg, s).pipe == EMPTY
  {}

  lemma IdleLanes(cfg: Config, w: CleanerLane.World, v: CounterLane.World)
    requires CleanerLane.Shape(CleanerCfg(cfg), w) && w.pipe == EMPTY
    requires CounterLane.OwnWork(v) && v.pipe == EMPTY
    ensures !w.actor.running && !v.actor.running
  {}

  // ---------- some run ends everything ----------

  /** What go2rtc answers `m` by a script, and to a fetch with `list`. */
  function Scripted(script: Script, list: Result<seq<string>>, m: Msg): (outside: Go2RTC.Outside)
    ensures Follows(script, m, outside)
  {
    Go2RTC.Outside(
      list,
      if !m.CheckStreamHealth? then Ok(false) else
        match script.check(m.name, m.attempt)
        case Alive => Ok(true)
        case Dead => Ok(false)
        case Failed(text) => Err(text),
      if !m.RemoveStream? then Ok(false) else
        match script.removal(m.name)
        case Removed => Ok(true)
        case Absent => Ok(false)
        case NotRemoved(text) => Err(text))
  }

  /** From step `k` on there is no new trigger, and go2rtc answers by the script and with `list`. */
  predicate PlaysOut(cfg: Config, script: Script, list: Result<seq<string>>, steps: seq<Step>, k: nat)
    requires Runs(cfg, steps)
    decreases |steps|
  {
    |steps| <= k ||
    (var before, last := steps[..|steps| - 1], steps[|steps| - 1];
     && PlaysOut(cfg, script, list, before, k)
     && !last.Trigger? && !last.CountTrigger?
     && (last.HandleG? ==> last.outside == Scripted(script, list, After(cfg, before).boxG[0])))
  }

  lemma Extended(cfg: Config, steps: seq<Step>, step: Step)
    requires Runs(cfg, steps) && Enabled(After(cfg, steps), step)
    ensures Runs(cfg, steps + [step]) && After(cfg, steps + [step]) == Apply(cfg, After(cfg, steps), step)
  {
    var longer := steps + [step];
    assert longer[..|longer| - 1] == steps && longer[|longer| - 1] == step;
  }

  /** A state that is not settled has a step to do, or only waits for a sleeper. */
  function NextStep(script: Script, list: Result<seq<string>>, s: Sys): (step: Step)
    requires !Settled(s)
    ensures Enabled(s, step) && (IsWork(step) || step.Tick?)
    ensures step.HandleG? ==> step.outside == Scripted(script, list, s.boxG[0])
    ensures step.Tick? ==> || (s.sleepC != [] && step.now == s.sleepC[0].wakeAt)
                           || (s.sleepK != [] && step.now == s.sleepK[0].wakeAt)
  {
    if s.outC != [] then FlushC
    else if s.boxC != [] then HandleC
    else if s.outK != [] then FlushK
    else if s.boxK != [] then HandleK
    else if s.outM != [] then FlushM
    else if s.boxM != [] then HandleM
    else if s.outG != [] then FlushG
    else if s.boxG != [] then HandleG(Scripted(script, list, s.boxG[0]))
    else if s.sleepC != [] then (if s.sleepC[0].wakeAt <= s.now then WakeC(0) else Tick(s.sleepC[0].wakeAt))
    else if s.sleepK[0].wakeAt <= s.now then WakeK(0) else Tick(s.sleepK[0].wakeAt)
  }

  /** 1 if the next step only lets time pass. */
  function Waits(script: Script, list: Result<seq<string>>, s: Sys): nat
  {
    if !Settled(s) && NextStep(script, list, s).Tick? then 1 else 0
  }

  /** The next step uses up weight, or else the wait. */
  lemma NextFalls(cfg: Config, script: Script, list: Result<seq<string>>, s: Sys)
    requires !Settled(s)
    ensures var s' := Apply(cfg, s, NextStep(script, list, s));
            || 0 <= Weight(EARLY, s') < Weight(EARLY, s)
            || (Weight(EARLY, s') == Weight(EARLY, s) && 0 <= Weight(LATE, s') < Weight(LATE, s))
            || (Weight(EARLY, s') == Weight(EARLY, s) && Weight(LATE, s') == Weight(LATE, s)
                && Waits(script, list, s') < Waits(script, list, s))
  {
    var step := NextStep(script, list, s);
    if step.Tick? {
      TicksWeighNothing(cfg, s, step.now);
    } else {
      WorkFalls(cfg, s, step);
    }
  }

  /** A step without a trigger, answered by the script, keeps playing out. */
  lemma OneMore(cfg: Config, script: Script, list: Result<seq<string>>, steps: seq<Step>, k: nat, step: Step)
    requires Runs(cfg, steps) && k <= |steps| && PlaysOut(cfg, script, list, steps, k)
    requires Enabled(After(cfg, steps), step) && !step.Trigger? && !step.CountTrigger?
    requires step.HandleG? ==> step.outside == Scripted(script, list, After(cfg, steps).boxG[0])
    ensures var next := steps + [step];
            && Runs(cfg, next) && After(cfg, next) == Apply(cfg, After(cfg, steps), step)
            && PlaysOut(cfg, script, list, next, k) && next[..k] == steps[..k]
  {
    Extended(cfg, steps, step);
    var next := steps + [step];
    assert next[..|next| - 1] == steps;
  }

  /** Every run can be continued, without new triggers and with any scripted answers, until nothing is on its way. */
  lemma {:induction false} CanSettle(cfg: Config, script: Script, list: Result<seq<string>>, steps: seq<Step>, k: nat)
    returns (ended: seq<Step>)
    requires Runs(cfg, steps) && k <= |steps| && PlaysOut(cfg, script, list, steps, k)
    ensures Runs(cfg, ended) && k <= |ended| && ended[..k] == steps[..k]
    ensures PlaysOut(cfg, script, list, ended, k) && Settled(After(cfg, ended))
    decreases Weight(EARLY, After(cfg, steps)), Weight(LATE, After(cfg, steps)), Waits(script, list, After(cfg, steps))
  {
    var s := After(cfg, steps);
    if Settled(s) {
      ended := steps;
    } else {
      var step := NextStep(script, list, s);
      NextFalls(cfg, script, list, s);
      OneMore(cfg, script, list, steps, k, step);
      ended := CanSettle(cfg, script, list, steps + [step], k);
    }
  }

  lemma {:induction false} StillFollows(cfg: Config, script: Script, list: Result<seq<string>>,
                                        steps: seq<Step>, k: nat)
    requires Runs(cfg, steps) && k <= |steps| && PlaysOut(cfg, script, list, steps, k)
    ensures Runs(cfg, steps[..k])
    ensures CleanupFollows(cfg, script, steps[..k]) ==> CleanupFollows(cfg, script, steps)
    ensures CountFollows(cfg, script, steps[..k]) ==> CountFollows(cfg, script, steps)
    decreases |steps|
  {
    if |steps| == k {
      assert steps[..k] == steps;
    } else {
      var before := steps[..|steps| - 1];
      StillFollows(cfg, script, list, before, k);
      assert before[..k] == steps[..k];
    }
  }

  /**
   * From every reachable state, whatever is on its way for either protocol: without new triggers and with
   * any scripted answers the run can go on to where every accepted cycle and every accepted count has ended.
   */
  lemma {:induction false} CycleCanEnd(cfg: Config, script: Script, list: Result<seq<string>>, steps: seq<Step>)
    returns (more: seq<Step>)
    requires cfg.cleanerId != cfg.counterId && Runs(cfg, steps)
    ensures Runs(cfg, steps + more) && PlaysOut(cfg, script, list, steps + more, |steps|)
    ensures CleanupFollows(cfg, script, steps) ==> CleanupFollows(cfg, script, steps + more)
    ensures CountFollows(cfg, script, steps) ==> CountFollows(cfg, script, steps + more)
    ensures var s := After(cfg, steps + more);
            && Settled(s) && !s.cleaner.running && !s.counter.running
            && s.cleanerLog.accepted == |s.cleanerLog.finished| + s.cleanerLog.aborted
            && |s.counterLog.accepted| == |s.counterLog.results|
  {
    var ended := CanSettle(cfg, script, list, steps, |steps|);
    more := ended[|steps|..];
    Continued(steps, ended, more);
    StillFollows(cfg, script, list, ended, |steps|);
    NothingUnfinished(cfg, ended);
  }

  lemma Continued(steps: seq<Step>, ended: seq<Step>, more: seq<Step>)
    requires |steps| <= |ended| && ended[..|steps|] == steps[..|steps|] && more == ended[|steps|..]
    ensures ended == steps + more && ended[..|steps|] == steps
  {
    assert steps[..|steps|] == steps;
  }

  lemma {:induction false} NothingUnfinished(cfg: Config, steps: seq<Step>)
    requires cfg.cleanerId != cfg.counterId && Runs(cfg, steps) && Settled(After(cfg, steps))
    ensures var s := After(cfg, steps);
            && !s.cleaner.running && !s.counter.running
            && s.cleanerLog.accepted == |s.cleanerLog.finished| + s.cleanerLog.aborted
            && |s.counterLog.accepted| == |s.counterLog.results|
  {
    Reachable(cfg, steps);
    SettledIsIdle(cfg, After(cfg, steps));
    QuietBetweenCycles(cfg, steps);
    OneResultPerCount(cfg, steps);
  }

  // ---------- every run that does not idle forever ends everything ----------

  /** An endless execution: `states(n)` is the state before `steps(n)`. */
  ghost predicate Execution(cfg: Config, states: nat -> Sys, steps: nat -> Step)
  {
    forall n: nat :: Enabled(states(n), steps(n)) && states(n + 1) == Apply(cfg, states(n), steps(n))
  }

  ghost predicate Untriggered(steps: nat -> Step)
  {
    forall n: nat :: !steps(n).Trigger? && !steps(n).CountTrigger?
  }

  /** Some actor can act, or some sleeper is due. */
  predicate CanWork(s: Sys)
  {
    || s.boxC != [] || s.boxK != [] || s.boxM != [] || s.boxG != []
    || s.outC != [] || s.outK != [] || s.outM != [] || s.outG != []
    || (exists i :: 0 <= i < |s.sleepC| && s.sleepC[i].wakeAt <= s.now)
    || (exists i :: 0 <= i < |s.sleepK| && s.sleepK[i].wakeAt <= s.now)
  }

  /** The clock goes past every time. */
  ghost predicate ClockAdvances(states: nat -> Sys)
  {
    forall t: Time, n: nat :: ShowsFrom(states, n, t)
  }

  ghost predicate ShowsFrom(states: nat -> Sys, n: nat, t: Time)
  {
    exists m: nat :: m >= n && states(m).now >= t
  }

  predicate Works(step: Step) { !step.Tick? }

  /** While something can be done, something is done in the end; nothing is said of what, or of whom. */
  ghost predicate NeverIdles(states: nat -> Sys, steps: nat -> Step)
  {
    forall n: nat :: CanWork(states(n)) ==> exists m: nat :: m >= n && Works(steps(m))
  }

  /** Ticks up to `m`, then work: there is less of it left. */
  lemma {:induction false} UntilWork(cfg: Config, states: nat -> Sys, steps: nat -> Step, k: nat, m: nat)
    requires Execution(cfg, states, steps) && Untriggered(steps) && k <= m && Works(steps(m))
    ensures var s, s' := states(k), states(m + 1);
            || 0 <= Weight(EARLY, s') < Weight(EARLY, s)
            || (Weight(EARLY, s') == Weight(EARLY, s) && 0 <= Weight(LATE, s') < Weight(LATE, s))
    decreases m - k
  {
    var s := states(k);
    assert Enabled(s, steps(k)) && states(k + 1) == Apply(cfg, s, steps(k));
    if Works(steps(k)) {
      WorkFalls(cfg, s, steps(k));
      if k < m { UntilWork(cfg, states, steps, k + 1, m); }
    } else {
      TicksWeighNothing(cfg, s, steps(k).now);
      UntilWork(cfg, states, steps, k + 1, m);
    }
  }

  /** Without new triggers there are only ticks from some point on. */
  lemma {:induction false} OnlyTicksInTheEnd(cfg: Config, states: nat -> Sys, steps: nat -> Step, k: nat)
    returns (n: nat)
    requires Execution(cfg, states, steps) && Untriggered(steps)
    ensures k <= n && forall m: nat :: n <= m ==> !Works(steps(m))
    decreases Weight(EARLY, states(k)), Weight(LATE, states(k))
  {
    if m: nat :| k <= m && Works(steps(m)) {
      UntilWork(cfg, states, steps, k, m);
      n := OnlyTicksInTheEnd(cfg, states, steps, m + 1);
    } else {
      n := k;
    }
  }

  lemma {:induction false} StaysReachable(cfg: Config, states: nat -> Sys, steps: nat -> Step, n: nat)
    requires cfg.cleanerId != cfg.counterId && Execution(cfg, states, steps) && Inv(cfg, states(0))
    ensures Inv(cfg, states(n))
  {
    if n > 0 {
      StaysReachable(cfg, states, steps, n - 1);
      assert Enabled(states(n - 1), steps(n - 1)) && states(n - 1 + 1) == Apply(cfg, states(n - 1), steps(n - 1));
      StepKeeps(cfg, states(n - 1), steps(n - 1));
    }
  }

  lemma {:induction false} TicksMoveNothing(cfg: Config, states: nat -> Sys, steps: nat -> Step, n: nat, m: nat)
    requires Execution(cfg, states, steps) && n <= m && forall i: nat :: n <= i ==> !Works(steps(i))
    ensures states(m) == states(n).(now := states(m).now)
    decreases m
  {
    if n < m {
      TicksMoveNothing(cfg, states, steps, n, m - 1);
      assert !Works(steps(m - 1));
      assert states(m - 1 + 1) == Apply(cfg, states(m - 1), steps(m - 1));
    }
  }

  /**
   * In every execution that starts in a reachable state, gets no new triggers, does not idle forever while
   * something can be done, and whose clock advances, cleaner and counter stop and nothing stays on its way.
   */
  lemma EveryCycleEnds(cfg: Config, states: nat -> Sys, steps: nat -> Step) returns (n: nat)
    requires cfg.cleanerId != cfg.counterId && Inv(cfg, states(0))
    requires Execution(cfg, states, steps) && Untriggered(steps) && NeverIdles(states, steps) && ClockAdvances(states)
    ensures forall m: nat :: n <= m ==> Settled(states(m)) && !states(m).cleaner.running && !states(m).counter.running
  {
    n := OnlyTicksInTheEnd(cfg, states, steps, 0);
    var s := states(n);
    var due := FirstDue(s);
    assert ShowsFrom(states, n, due);
    var late: nat :| late >= n && states(late).now >= due;
    TicksMoveNothing(cfg, states, steps, n, late);
    NothingLeftToDo(states, steps, n, late);
    NothingDue(s, states(late));
    forall m: nat | n <= m
      ensures Settled(states(m)) && !states(m).cleaner.running && !states(m).counter.running
    {
      TicksMoveNothing(cfg, states, steps, n, m);
      StaysReachable(cfg, states, steps, m);
      SettledIsIdle(cfg, states(m));
    }
  }

  /** When a sleeper of a state is due whose other places are empty. */
  function FirstDue(s: Sys): Time
  {
    if s.sleepC != [] then s.sleepC[0].wakeAt else if s.sleepK != [] then s.sleepK[0].wakeAt else s.now
  }

  lemma NothingLeftToDo(states: nat -> Sys, steps: nat -> Step, n: nat, m: nat)
    requires NeverIdles(states, steps) && n <= m && forall i: nat :: n <= i ==> !Works(steps(i))
    ensures !CanWork(states(m))
  {}

  lemma NothingDue(s: Sys, later: Sys)
    requires later == s.(now := later.now) && later.now >= FirstDue(s) && !CanWork(later)
    ensures Settled(s)
  {}
}
