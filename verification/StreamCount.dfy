/** StreamCountActor: the same two checks without removal; the first error ends the run. */
module StreamCount {
  import opened Messages

  datatype State = State(
    pending: map<string, Msg>,
    running: bool,
    outstanding: int,
    triggeredAt: Time,
    reason: string,
    aliveCount: int)

  const INITIAL := State(map[], false, 0, 0, "", 0)

  function Quiet(s: State): Outcome<State> { Outcome(s, [], []) }

  function Finished(s: State): Outcome<State>
  {
    Outcome(s.(running := false),
            [ToParent(AliveStreamCountCalculated(s.triggeredAt, s.reason, s.aliveCount, ""))], [])
  }

  function FinishedWithError(s: State, error: string): Outcome<State>
  {
    Outcome(s.(running := false, pending := map[], outstanding := 0),
            [ToParent(AliveStreamCountCalculated(s.triggeredAt, s.reason, 0, error))], [])
  }

  function Completed(s: State): Outcome<State>
  {
    var s := if s.outstanding > 0 then s.(outstanding := s.outstanding - 1) else s;
    if s.outstanding == 0 && s.running then Finished(s) else Quiet(s)
  }

  function HandleHealth(self: string, s: State, m: Msg): Outcome<State>
    requires m.StreamHealthChecked?
  {
    if m.error != "" then FinishedWithError(s.(pending := s.pending - {m.name}), m.error)
    else if m.hasProducer then
      Completed(s.(pending := s.pending - {m.name}, aliveCount := s.aliveCount + 1))
    else if m.attempt == 1 then
      Outcome(s.(pending := s.pending[m.name := m]), [], [SecondCheck(self, m)])
    else Completed(s.(pending := s.pending - {m.name}))
  }

  function HandleList(self: string, delay: Duration, s: State, m: Msg): Outcome<State>
    requires m.StreamListFetched?
  {
    if m.error != "" then FinishedWithError(s, m.error)
    else if m.streams == [] then Finished(s)
    else Outcome(s.(outstanding := |m.streams|), AllToGo2RTC(FirstChecks(self, delay, m.at, m.streams)), [])
  }

  /** What one message does; `self` is the actor's own address, `delay` the configured confirmation delay. */
  function Handle(self: string, delay: Duration, s: State, m: Msg): Outcome<State>
  {
    match m
    case CountAliveStreamsStarted(at, reason) =>
      if s.running then Quiet(s) else
      Outcome(State(map[], true, 0, at, reason, 0), [ToGo2RTC(FetchStreamList(at, self))], [])
    case StreamListFetched(at, _, requestedBy, _) =>
      if !s.running || requestedBy != self || at != s.triggeredAt then Quiet(s) else HandleList(self, delay, s, m)
    case StreamHealthChecked(_, at, _, _, _, requestedBy, _, _) =>
      if !s.running || requestedBy != self || at != s.triggeredAt then Quiet(s) else HandleHealth(self, s, m)
    case _ => Quiet(s)
  }

  /** The actor itself, updating its fields in place. */
  class StreamCountActor {
    const self: string
    const confirmationDelay: Duration
    var pending: map<string, Msg>
    var running: bool
    var outstanding: int
    var triggeredAt: Time
    var reason: string
    var aliveCount: int

    constructor (self: string, confirmationDelay: Duration)
      ensures this.self == self && this.confirmationDelay == confirmationDelay
      ensures Fields() == INITIAL
    {
      this.self, this.confirmationDelay := self, confirmationDelay;
      pending, running, outstanding := map[], false, 0;
      triggeredAt, reason, aliveCount := 0, "", 0;
    }

    ghost function Fields(): State
      reads this
    {
      State(pending, running, outstanding, triggeredAt, reason, aliveCount)
    }

    method Receive(msg: Msg) returns (sends: seq<Send>, sleeps: seq<Msg>)
      modifies this
      ensures Outcome(Fields(), sends, sleeps) == Handle(self, confirmationDelay, old(Fields()), msg)
      ensures msg.CountAliveStreamsStarted? && !old(running) ==>
                && Fields() == State(map[], true, 0, msg.at, msg.reason, 0)
                && sends == [ToGo2RTC(FetchStreamList(msg.at, self))] && sleeps == []
      ensures msg.CountAliveStreamsStarted? && old(running) ==> unchanged(this) && sends == [] && sleeps == []
      ensures msg.StreamListFetched? || msg.StreamHealthChecked? ==>
                !old(running) || msg.requestedBy != self || msg.at != old(triggeredAt) ==>
                  unchanged(this) && sends == [] && sleeps == []
    {
      sends, sleeps := [], [];
      match msg
      case CountAliveStreamsStarted(at, why) =>
        if running { return; }
        running, outstanding, pending := true, 0, map[];
        triggeredAt, reason, aliveCount := at, why, 0;
        sends := [ToGo2RTC(FetchStreamList(at, self))];
      case StreamListFetched(at, _, requestedBy, _) =>
        if !running || requestedBy != self || at != triggeredAt { return; }
        sends := HandleStreamList(msg);
      case StreamHealthChecked(_, at, _, _, _, requestedBy, _, _) =>
        if !running || requestedBy != self || at != triggeredAt { return; }
        sends, sleeps := HandleStreamHealth(msg);
      case _ =>
    }

    method HandleStreamList(msg: Msg) returns (sends: seq<Send>)
      requires msg.StreamListFetched?
      modifies this
      ensures Outcome(Fields(), sends, []) == HandleList(self, confirmationDelay, old(Fields()), msg)
    {
      if msg.error != "" {
        sends := FinishWithError(msg.error);
        return;
      }
      if |msg.streams| == 0 {
        sends := Finish();
        return;
      }
      outstanding := |msg.streams|;
      sends := SendFirstChecks(self, confirmationDelay, msg.at, msg.streams);
    }

    method HandleStreamHealth(msg: Msg) returns (sends: seq<Send>, sleeps: seq<Msg>)
      requires msg.StreamHealthChecked?
      modifies this
      ensures Outcome(Fields(), sends, sleeps) == HandleHealth(self, old(Fields()), msg)
      ensures pending == if msg.error != "" then map[]
                         else if DeadReply(msg, 1) then old(pending)[msg.name := msg] else old(pending) - {msg.name}
      ensures aliveCount == old(aliveCount) + (if msg.error == "" && msg.hasProducer then 1 else 0)
      ensures sleeps ==
              if DeadReply(msg, 1) then [CheckStreamHealth(msg.name, msg.at, 2, self, msg.confirmAfter)] else []
      ensures msg.error != "" ==>
                !running && sends == [ToParent(AliveStreamCountCalculated(triggeredAt, reason, 0, msg.error))]
    {
      sends, sleeps := [], [];
      if msg.error != "" {
        pending := pending - {msg.name};
        sends := FinishWithError(msg.error);
        return;
      }
      if msg.hasProducer {
        pending := pending - {msg.name};
        aliveCount := aliveCount + 1;
        sends := MarkStreamCompleted();
        return;
      }
      if msg.attempt == 1 {
        pending := pending[msg.name := msg];
        sleeps := [SecondCheck(self, msg)];
        return;
      }
      pending := pending - {msg.name};
      sends := MarkStreamCompleted();
    }

    method MarkStreamCompleted() returns (sends: seq<Send>)
      modifies this
      ensures Outcome(Fields(), sends, []) == Completed(old(Fields()))
    {
      sends := [];
      if outstanding > 0 {
        outstanding := outstanding - 1;
      }
      if outstanding == 0 && running {
        sends := Finish();
      }
    }

    method Finish() returns (sends: seq<Send>)
      modifies this
      ensures Outcome(Fields(), sends, []) == Finished(old(Fields()))
    {
      running := false;
      sends := [ToParent(AliveStreamCountCalculated(triggeredAt, reason, aliveCount, ""))];
    }

    method FinishWithError(error: string) returns (sends: seq<Send>)
      modifies this
      ensures Outcome(Fields(), sends, []) == FinishedWithError(old(Fields()), error)
    {
      running := false;
      pending := map[];
      outstanding := 0;
      sends := [ToParent(AliveStreamCountCalculated(triggeredAt, reason, 0, error))];
    }
  }
}
