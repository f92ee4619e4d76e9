/** StreamCleanerActor: its fields, what one message does to them, and the class that does it in place. */
module StreamCleaner {
  import opened Messages

  datatype State = State(
    pending: map<string, Msg>,
    running: bool,
    outstanding: int,
    triggeredAt: Time,
    reason: string,
    aliveCount: int,
    removedCount: int)

  const INITIAL := State(map[], false, 0, 0, "", 0, 0)

  function Quiet(s: State): Outcome<State> { Outcome(s, [], []) }

  function Summary(s: State): Msg
  {
    CleanupCycleFinished(s.triggeredAt, s.reason, s.aliveCount, s.removedCount)
  }

  /** `markStreamCompleted` followed by `finishCycleIfDone`. */
  function Completed(s: State): Outcome<State>
  {
    var s := if s.outstanding > 0 then s.(outstanding := s.outstanding - 1) else s;
    if s.outstanding != 0 || !s.running then Quiet(s)
    else Outcome(s.(running := false), [ToParent(Summary(s))], [])
  }

  function HandleHealth(self: string, s: State, m: Msg): Outcome<State>
    requires m.StreamHealthChecked?
  {
    if m.error != "" then Completed(s.(pending := s.pending - {m.name}))
    else if m.hasProducer then
      Completed(s.(pending := s.pending - {m.name}, aliveCount := s.aliveCount + 1))
    else if m.attempt == 1 then
      Outcome(s.(pending := s.pending[m.name := m]), [], [SecondCheck(self, m)])
    else if m.name in s.pending then
      Outcome(s.(pending := s.pending - {m.name}), [ToGo2RTC(RemoveStream(m.name, m.at))], [])
    else Completed(s)
  }

  function HandleRemovalCompleted(s: State, m: Msg): Outcome<State>
    requires m.StreamRemovalCompleted?
  {
    Completed(if m.error == "" && m.removed then s.(removedCount := s.removedCount + 1) else s)
  }

  function HandleList(self: string, delay: Duration, s: State, m: Msg): Outcome<State>
    requires m.StreamListFetched?
  {
    if m.error != "" then Quiet(s.(running := false, outstanding := 0))
    else if m.streams == [] then
      Outcome(s.(running := false, outstanding := 0),
              [ToParent(CleanupCycleFinished(s.triggeredAt, s.reason, 0, 0))], [])
    else Outcome(s.(outstanding := |m.streams|), AllToGo2RTC(FirstChecks(self, delay, m.at, m.streams)), [])
  }

  /** What one message does; `self` is the actor's own address, `delay` the configured confirmation delay. */
  function Handle(self: string, delay: Duration, s: State, m: Msg): Outcome<State>
  {
    match m
    case CleanupCycleStarted(at, reason) =>
      if s.running then Quiet(s) else
      Outcome(State(map[], true, 0, at, reason, 0, 0), [ToGo2RTC(FetchStreamList(at, self))], [])
    case StreamListFetched(at, _, requestedBy, _) =>
      if !s.running || requestedBy != self || at != s.triggeredAt then Quiet(s) else HandleList(self, delay, s, m)
    case StreamHealthChecked(_, at, _, _, _, requestedBy, _, _) =>
      if !s.running || requestedBy != self || at != s.triggeredAt then Quiet(s) else HandleHealth(self, s, m)
    case StreamRemovalCompleted(_, at, _, _, _) =>
      if !s.running || at != s.triggeredAt then Quiet(s) else HandleRemovalCompleted(s, m)
    case _ => Quiet(s)
  }

  /** The actor itself. Its methods update the fields in place, branch by branch as the source does. */
  class StreamCleanerActor {
    const self: string
    const confirmationDelay: Duration
    var pending: map<string, Msg>
    var running: bool
    var outstanding: int
    var triggeredAt: Time
    var reason: string
    var aliveCount: int
    var removedCount: int

    constructor (self: string, confirmationDelay: Duration)
      ensures this.self == self && this.confirmationDelay == confirmationDelay
      ensures Fields() == INITIAL
    {
      this.self, this.confirmationDelay := self, confirmationDelay;
      pending, running, outstanding := map[], false, 0;
      triggeredAt, reason, aliveCount, removedCount := 0, "", 0, 0;
    }

    ghost function Fields(): State
      reads this
    {
      State(pending, running, outstanding, triggeredAt, reason, aliveCount, removedCount)
    }

    method Receive(msg: Msg) returns (sends: seq<Send>, sleeps: seq<Msg>)
      modifies this
      ensures Outcome(Fields(), sends, sleeps) == Handle(self, confirmationDelay, old(Fields()), msg)
      ensures msg.CleanupCycleStarted? && !old(running) ==>
                && Fields() == State(map[], true, 0, msg.at, msg.reason, 0, 0)
                && sends == [ToGo2RTC(FetchStreamList(msg.at, self))] && sleeps == []
      ensures msg.CleanupCycleStarted? && old(running) ==> unchanged(this) && sends == [] && sleeps == []
      ensures msg.StreamListFetched? || msg.StreamHealthChecked? ==>
                !old(running) || msg.requestedBy != self || msg.at != old(triggeredAt) ==>
                  unchanged(this) && sends == [] && sleeps == []
      ensures msg.StreamRemovalCompleted? ==>
                !old(running) || msg.at != old(triggeredAt) ==> unchanged(this) && sends == [] && sleeps == []
    {
      sends, sleeps := [], [];
      match msg
      case CleanupCycleStarted(at, why) =>
        if running { return; }
        running, outstanding, pending := true, 0, map[];
        triggeredAt, reason := at, why;
        aliveCount, removedCount := 0, 0;
        sends := [ToGo2RTC(FetchStreamList(at, self))];
      case StreamListFetched(at, _, requestedBy, _) =>
        if !running || requestedBy != self || at != triggeredAt { return; }
        sends := HandleStreamList(msg);
      case StreamHealthChecked(_, at, _, _, _, requestedBy, _, _) =>
        if !running || requestedBy != self || at != triggeredAt { return; }
        sends, sleeps := HandleStreamHealth(msg);
      case StreamRemovalCompleted(_, at, _, _, _) =>
        if !running || at != triggeredAt { return; }
        sends := HandleStreamRemovalCompleted(msg);
      case _ =>
    }

    method HandleStreamList(msg: Msg) returns (sends: seq<Send>)
      requires msg.StreamListFetched?
      modifies this
      ensures Outcome(Fields(), sends, []) == HandleList(self, confirmationDelay, old(Fields()), msg)
    {
      sends := [];
      if msg.error != "" {
        running, outstanding := false, 0;
        return;
      }
      if |msg.streams| == 0 {
        running, outstanding := false, 0;
        sends := [ToParent(CleanupCycleFinished(triggeredAt, reason, 0, 0))];
        return;
      }
      outstanding := |msg.streams|;
      sends := SendFirstChecks(self, confirmationDelay, msg.at, msg.streams);
    }

    method HandleStreamHealth(msg: Msg) returns (sends: seq<Send>, sleeps: seq<Msg>)
      requires msg.StreamHealthChecked?
      modifies this
      ensures Outcome(Fields(), sends, sleeps) == HandleHealth(self, old(Fields()), msg)
      ensures pending == if DeadReply(msg, 1) then old(pending)[msg.name := msg] else old(pending) - {msg.name}
      ensures aliveCount == old(aliveCount) + (if msg.error == "" && msg.hasProducer then 1 else 0)
      ensures removedCount == old(removedCount)
      ensures sleeps ==
              if DeadReply(msg, 1) then [CheckStreamHealth(msg.name, msg.at, 2, self, msg.confirmAfter)] else []
      ensures ToGo2RTC(RemoveStream(msg.name, msg.at)) in sends <==>
                msg.error == "" && !msg.hasProducer && msg.attempt != 1 && msg.name in old(pending)
    {
      sends, sleeps := [], [];
      if msg.error != "" {
        pending := pending - {msg.name};
        sends := MarkStreamCompleted();
        return;
      }
      if msg.hasProducer {
        pending := pending - {msg.name};
        aliveCount := aliveCount + 1;
        sends := MarkStreamCompleted();
        return;
      }
      if msg.attempt == 1 {
        pending := pending[msg.name := msg];
        sleeps := [SecondCheck(self, msg)];
        return;
      }
      if msg.name in pending {
        pending := pending - {msg.name};
        sends := [ToGo2RTC(RemoveStream(msg.name, msg.at))];
        return;
      }
      sends := MarkStreamCompleted();
    }

    method HandleStreamRemovalCompleted(msg: Msg) returns (sends: seq<Send>)
      requires msg.StreamRemovalCompleted?
      modifies this
      ensures Outcome(Fields(), sends, []) == HandleRemovalCompleted(old(Fields()), msg)
      ensures removedCount == old(removedCount) + (if msg.error == "" && msg.removed then 1 else 0)
      ensures pending == old(pending) && aliveCount == old(aliveCount)
    {
      if msg.error != "" {
      } else if msg.removed {
        removedCount := removedCount + 1;
      }
      sends := MarkStreamCompleted();
    }

    method MarkStreamCompleted() returns (sends: seq<Send>)
      modifies this
      ensures Outcome(Fields(), sends, []) == Completed(old(Fields()))
    {
      if outstanding > 0 {
        outstanding := outstanding - 1;
      }
      sends := FinishCycleIfDone();
    }

    method FinishCycleIfDone() returns (sends: seq<Send>)
      modifies this
      ensures if old(outstanding != 0 || !running) then unchanged(this) && sends == []
              else Fields() == old(Fields()).(running := false) && sends == [ToParent(Summary(Fields()))]
    {
      sends := [];
      if outstanding != 0 { return; }
      if !running { return; }
      running := false;
      sends := [ToParent(CleanupCycleFinished(triggeredAt, reason, aliveCount, removedCount))];
    }
  }
}
