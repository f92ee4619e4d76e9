/** The messages the actors exchange (common/message.go). */
module Messages {

  /** An instant; `time.Time.Equal` compares instants, so equality on `Time` is its meaning. */
  type Time = int

  type Duration = int

  /** The text of a Go error. Every error these actors report is built with a non-empty text. */
  type ErrorText = s: string | s != "" witness "error"

  datatype Result<+T> = Ok(value: T) | Err(text: ErrorText)

  datatype Option<+T> = None | Some(value: T)

  /** An empty `error` field means that there was no error, as in the source. */
  datatype Msg =
    | TriggerCleanup(reason: string)
    | CleanupCycleStarted(at: Time, reason: string)
    | CountAliveStreamsStarted(at: Time, reason: string)
    | FetchStreamList(at: Time, requestedBy: string)
    | StreamListFetched(at: Time, streams: seq<string>, requestedBy: string, error: string)
    | CheckStreamHealth(name: string, at: Time, attempt: int, requestedBy: string, confirmAfter: Duration)
    | StreamHealthChecked(name: string, at: Time, attempt: int, hasProducer: bool, checkedAt: Time,
                          requestedBy: string, confirmAfter: Duration, error: string)
    | RemoveStream(name: string, at: Time)
    | StreamRemoved(name: string, removedAt: Time)
    | StreamRemovalCompleted(name: string, at: Time, removed: bool, removedAt: Time, error: string)
    | ExecuteAction(name: string, action: string)
    | CleanupCycleFinished(at: Time, reason: string, alive: int, removedStreams: int)
    | AliveStreamCountCalculated(at: Time, reason: string, alive: int, error: string)
    | UpdateStreamCount(at: Time, reason: string, alive: int)

  /** A send made by one of the two protocol actors: to go2rtc, or to its parent, the master. */
  datatype Send = ToGo2RTC(msg: Msg) | ToParent(msg: Msg)

  /**
   * What one `Receive` does: the new fields, the sends in program order, and the second checks
   * handed to sleeping goroutines (each is sent to go2rtc after its own `confirmAfter`).
   */
  datatype Outcome<+S> = Outcome(state: S, sends: seq<Send>, sleeps: seq<Msg>)

  /** The first checks of a freshly fetched list, one per entry and in its order. */
  function FirstChecks(self: string, delay: Duration, at: Time, streams: seq<string>): (checks: seq<Msg>)
    ensures |checks| == |streams|
    ensures forall i :: 0 <= i < |checks| ==> checks[i] == CheckStreamHealth(streams[i], at, 1, self, delay)
  {
    if streams == [] then [] else
    FirstChecks(self, delay, at, streams[..|streams| - 1])
    + [CheckStreamHealth(streams[|streams| - 1], at, 1, self, delay)]
  }

  predicate IsFirst(m: Msg) { (m.CheckStreamHealth? || m.StreamHealthChecked?) && m.attempt == 1 }

  predicate IsSecond(m: Msg) { (m.CheckStreamHealth? || m.StreamHealthChecked?) && m.attempt == 2 }

  predicate DeadReply(m: Msg, attempt: int)
  {
    m.StreamHealthChecked? && m.error == "" && !m.hasProducer && m.attempt == attempt
  }

  function AllToGo2RTC(msgs: seq<Msg>): (sends: seq<Send>)
    ensures |sends| == |msgs|
    ensures forall i :: 0 <= i < |sends| ==> sends[i] == ToGo2RTC(msgs[i])
  {
    if msgs == [] then [] else AllToGo2RTC(msgs[..|msgs| - 1]) + [ToGo2RTC(msgs[|msgs| - 1])]
  }

  /** The second check that a sleeping goroutine sends for a dead first reply. */
  function SecondCheck(self: string, m: Msg): Msg
    requires m.StreamHealthChecked?
  {
    CheckStreamHealth(m.name, m.at, 2, self, m.confirmAfter)
  }

  lemma AllToGo2RTCOfNext(msgs: seq<Msg>, m: Msg)
    ensures AllToGo2RTC(msgs + [m]) == AllToGo2RTC(msgs) + [ToGo2RTC(m)]
  {
    assert (msgs + [m])[..|msgs|] == msgs;
  }

  lemma FirstChecksOfNext(self: string, delay: Duration, at: Time, streams: seq<string>, i: nat)
    requires i < |streams|
    ensures FirstChecks(self, delay, at, streams[..i + 1]) ==
            FirstChecks(self, delay, at, streams[..i]) + [CheckStreamHealth(streams[i], at, 1, self, delay)]
  {
    assert streams[..i + 1][..i] == streams[..i];
  }

  /** The loop both protocol actors run over a fetched list: one send per entry. */
  method SendFirstChecks(self: string, delay: Duration, at: Time, streams: seq<string>) returns (sends: seq<Send>)
    ensures sends == AllToGo2RTC(FirstChecks(self, delay, at, streams))
  {
    sends := [];
    for i := 0 to |streams|
      invariant sends == AllToGo2RTC(FirstChecks(self, delay, at, streams[..i]))
    {
      var check := CheckStreamHealth(streams[i], at, 1, self, delay);
      FirstChecksOfNext(self, delay, at, streams, i);
      AllToGo2RTCOfNext(FirstChecks(self, delay, at, streams[..i]), check);
      sends := sends + [ToGo2RTC(check)];
    }
    assert streams[..|streams|] == streams;
  }
}
